/**
 * Payment-gateway configuration (Backend/config/payment.js): the
 * configuration record read from the environment, its validation, and
 * the list of payment methods offered to buyers.
 */
module PaymentConfig {

  /** An environment variable; unset reads as "" (both are falsy). */
  function Env(env: map<string, string>, key: string): string
  {
    if key in env then env[key] else ""
  }

  /** `process.env.KEY || fallback` */
  function EnvOr(env: map<string, string>, key: string, fallback: string): (v: string)
    ensures fallback != "" ==> v != ""
  {
    if Env(env, key) != "" then Env(env, key) else fallback
  }

  datatype PromptPayConfig = PromptPayConfig(
    enabled: bool, phoneNumber: string, merchantName: string, qrCodeApi: string)

  datatype TrueMoneyConfig = TrueMoneyConfig(
    enabled: bool, apiUrl: string, apiKey: string, secretKey: string, merchantId: string,
    redirectUrl: string)

  datatype BankAccount = BankAccount(bank: string, accountNumber: string, accountName: string)

  datatype BankTransferConfig = BankTransferConfig(
    enabled: bool, accounts: seq<BankAccount>, verificationApi: string, verificationKey: string)

  datatype CreditCardConfig = CreditCardConfig(
    enabled: bool, gateway: string, apiKey: string, secretKey: string, publicKey: string)

  datatype GeneralConfig = GeneralConfig(
    currency: string, timeout: nat, retryLimit: nat, webhookSecret: string, callbackUrl: string)

  datatype Config = Config(
    promptpay: PromptPayConfig, truemoney: TrueMoneyConfig, bankTransfer: BankTransferConfig,
    creditCard: CreditCardConfig, general: GeneralConfig)

  /** A gateway is enabled exactly when its flag is the string "true". */
  function Flag(env: map<string, string>, key: string): (b: bool)
    ensures b <==> key in env && env[key] == "true"
  {
    Env(env, key) == "true"
  }

  const DefaultPhone := "0123456789"

  /** The configuration object built from the environment at load time. */
  function LoadConfig(env: map<string, string>): (c: Config)
    ensures c.promptpay.enabled == Flag(env, "PROMPTPAY_ENABLED")
    ensures c.truemoney.enabled == Flag(env, "TRUEMONEY_ENABLED")
    ensures c.bankTransfer.enabled == Flag(env, "BANK_TRANSFER_ENABLED")
    ensures c.creditCard.enabled == Flag(env, "CREDIT_CARD_ENABLED")
    ensures c.promptpay.phoneNumber != ""
    ensures |c.bankTransfer.accounts| == 2
    ensures forall i :: 0 <= i < |c.bankTransfer.accounts| ==> UsableAccount(c.bankTransfer.accounts[i])
    ensures c.truemoney.apiKey == Env(env, "TRUEMONEY_API_KEY") && c.creditCard.apiKey == Env(env, "CREDIT_CARD_API_KEY")
    ensures c.truemoney.secretKey == Env(env, "TRUEMONEY_SECRET_KEY")
    ensures c.truemoney.merchantId == Env(env, "TRUEMONEY_MERCHANT_ID")
    ensures c.creditCard.secretKey == Env(env, "CREDIT_CARD_SECRET_KEY")
    ensures c.general.currency == "THB" && c.general.timeout == 1800000 && c.general.retryLimit == 3
  {
    Config(
      PromptPayConfig(Flag(env, "PROMPTPAY_ENABLED"), EnvOr(env, "PROMPTPAY_PHONE", DefaultPhone),
                      EnvOr(env, "PROMPTPAY_MERCHANT_NAME", "GameTopup"),
                      EnvOr(env, "PROMPTPAY_QR_API", "https://api.qrserver.com/v1/create-qr-code/")),
      TrueMoneyConfig(Flag(env, "TRUEMONEY_ENABLED"),
                      EnvOr(env, "TRUEMONEY_API_URL", "https://api.truemoney.com"),
                      Env(env, "TRUEMONEY_API_KEY"), Env(env, "TRUEMONEY_SECRET_KEY"),
                      Env(env, "TRUEMONEY_MERCHANT_ID"),
                      EnvOr(env, "TRUEMONEY_REDIRECT_URL",
                            "http://localhost:3000/api/payments/truemoney/callback")),
      BankTransferConfig(Flag(env, "BANK_TRANSFER_ENABLED"),
                         [BankAccount("SCB", EnvOr(env, "SCB_ACCOUNT_NUMBER", "1234567890"),
                                      EnvOr(env, "SCB_ACCOUNT_NAME", "GameTopup Co., Ltd.")),
                          BankAccount("KBANK", EnvOr(env, "KBANK_ACCOUNT_NUMBER", "0987654321"),
                                      EnvOr(env, "KBANK_ACCOUNT_NAME", "GameTopup Co., Ltd."))],
                         Env(env, "BANK_VERIFICATION_API"), Env(env, "BANK_VERIFICATION_KEY")),
      CreditCardConfig(Flag(env, "CREDIT_CARD_ENABLED"), EnvOr(env, "CREDIT_CARD_GATEWAY", "omise"),
                       Env(env, "CREDIT_CARD_API_KEY"), Env(env, "CREDIT_CARD_SECRET_KEY"),
                       Env(env, "CREDIT_CARD_PUBLIC_KEY")),
      GeneralConfig("THB", 30 * 60 * 1000, 3, Env(env, "PAYMENT_WEBHOOK_SECRET"),
                    EnvOr(env, "PAYMENT_CALLBACK_URL", "http://localhost:3000/api/payments/callback")))
  }

  // ---------------------------------------------------------------------
  // validatePaymentConfig
  // ---------------------------------------------------------------------

  const PromptPayPhoneMissing := "PromptPay phone number is required"
  const TrueMoneyApiKeyMissing := "TrueMoney API key is required"
  const TrueMoneySecretMissing := "TrueMoney secret key is required"
  const TrueMoneyMerchantMissing := "TrueMoney merchant ID is required"
  const NoValidBankAccount := "At least one valid bank account is required"
  const CardApiKeyMissing := "Credit card API key is required"
  const CardSecretMissing := "Credit card secret key is required"

  const Messages := {PromptPayPhoneMissing, TrueMoneyApiKeyMissing, TrueMoneySecretMissing,
                     TrueMoneyMerchantMissing, NoValidBankAccount, CardApiKeyMissing, CardSecretMissing}

  predicate UsableAccount(a: BankAccount)
  {
    a.accountNumber != "" && a.accountName != ""
  }

  /** `accounts.some(acc => acc.accountNumber && acc.accountName)` */
  predicate HasUsableAccount(accounts: seq<BankAccount>)
  {
    exists i :: 0 <= i < |accounts| && UsableAccount(accounts[i])
  }

  /** Each gateway's errors, one for every missing setting, only when it is enabled. */
  function PromptPayErrors(c: PromptPayConfig): seq<string>
  {
    if c.enabled && c.phoneNumber == "" then [PromptPayPhoneMissing] else []
  }

  function TrueMoneyErrors(c: TrueMoneyConfig): seq<string>
  {
    if !c.enabled then [] else
      (if c.apiKey == "" then [TrueMoneyApiKeyMissing] else [])
      + (if c.secretKey == "" then [TrueMoneySecretMissing] else [])
      + (if c.merchantId == "" then [TrueMoneyMerchantMissing] else [])
  }

  function BankErrors(c: BankTransferConfig): seq<string>
  {
    if c.enabled && !HasUsableAccount(c.accounts) then [NoValidBankAccount] else []
  }

  function CardErrors(c: CreditCardConfig): seq<string>
  {
    if !c.enabled then [] else
      (if c.apiKey == "" then [CardApiKeyMissing] else [])
      + (if c.secretKey == "" then [CardSecretMissing] else [])
  }

  /** All warnings, in the order the validator checks the gateways. */
  function ConfigErrors(c: Config): (e: seq<string>)
    ensures |e| <= 7
    ensures forall i :: 0 <= i < |e| ==> e[i] in Messages
  {
    PromptPayErrors(c.promptpay) + TrueMoneyErrors(c.truemoney)
    + BankErrors(c.bankTransfer) + CardErrors(c.creditCard)
  }

  /** The scan behind `accounts.some(...)`: stops at the first usable account. */
  method FindUsableAccount(accounts: seq<BankAccount>) returns (found: bool)
    ensures found <==> HasUsableAccount(accounts)
  {
    found := false;
    var i := 0;
    while i < |accounts| && !found
      invariant 0 <= i <= |accounts|
      invariant found <==> exists k :: 0 <= k < i && UsableAccount(accounts[k])
    {
      found := UsableAccount(accounts[i]);
      i := i + 1;
    }
  }

  /** The TrueMoney block of the validator: one push per missing key. */
  method CheckTrueMoney(c: TrueMoneyConfig, errors: seq<string>) returns (out: seq<string>)
    ensures out == errors + TrueMoneyErrors(c)
  {
    out := errors;
    if c.enabled {
      if c.apiKey == "" { out := out + [TrueMoneyApiKeyMissing]; }
      if c.secretKey == "" { out := out + [TrueMoneySecretMissing]; }
      if c.merchantId == "" { out := out + [TrueMoneyMerchantMissing]; }
    }
  }

  /** The credit-card block of the validator: one push per missing key. */
  method CheckCard(c: CreditCardConfig, errors: seq<string>) returns (out: seq<string>)
    ensures out == errors + CardErrors(c)
  {
    out := errors;
    if c.enabled {
      if c.apiKey == "" { out := out + [CardApiKeyMissing]; }
      if c.secretKey == "" { out := out + [CardSecretMissing]; }
    }
  }

  /**
   * `validatePaymentConfig`: pushes one message per problem (the list is
   * what it logs) and answers whether the list stayed empty.
   */
  method ValidatePaymentConfig(c: Config) returns (ok: bool, errors: seq<string>)
    ensures errors == ConfigErrors(c)
    ensures ok <==> |errors| == 0
  {
    errors := [];
    if c.promptpay.enabled && c.promptpay.phoneNumber == "" {
      errors := errors + [PromptPayPhoneMissing];
    }
    assert errors == PromptPayErrors(c.promptpay);
    errors := CheckTrueMoney(c.truemoney, errors);
    if c.bankTransfer.enabled {
      var found := FindUsableAccount(c.bankTransfer.accounts);
      if !found { errors := errors + [NoValidBankAccount]; }
    }
    assert errors == PromptPayErrors(c.promptpay) + TrueMoneyErrors(c.truemoney) + BankErrors(c.bankTransfer);
    errors := CheckCard(c.creditCard, errors);
    ok := |errors| == 0;
  }

  /** The configuration is valid exactly when no enabled gateway lacks a setting. */
  lemma ConfigErrorsEmpty(c: Config)
    ensures ConfigErrors(c) == [] <==>
      && (c.promptpay.enabled ==> c.promptpay.phoneNumber != "")
      && (c.truemoney.enabled ==> c.truemoney.apiKey != "" && c.truemoney.secretKey != ""
                                  && c.truemoney.merchantId != "")
      && (c.bankTransfer.enabled ==> HasUsableAccount(c.bankTransfer.accounts))
      && (c.creditCard.enabled ==> c.creditCard.apiKey != "" && c.creditCard.secretKey != "")
  {
  }

  /** A disabled gateway contributes no message; an enabled one one per missing setting. */
  lemma GatewayErrorCounts(c: Config)
    ensures !c.truemoney.enabled ==> TrueMoneyErrors(c.truemoney) == []
    ensures !c.bankTransfer.enabled ==> BankErrors(c.bankTransfer) == []
    ensures !c.creditCard.enabled ==> CardErrors(c.creditCard) == []
    ensures !c.promptpay.enabled ==> PromptPayErrors(c.promptpay) == []
    ensures c.truemoney.enabled ==>
              |TrueMoneyErrors(c.truemoney)| ==
              (if c.truemoney.apiKey == "" then 1 else 0) + (if c.truemoney.secretKey == "" then 1 else 0)
              + (if c.truemoney.merchantId == "" then 1 else 0)
    ensures c.creditCard.enabled ==>
              |CardErrors(c.creditCard)| ==
              (if c.creditCard.apiKey == "" then 1 else 0) + (if c.creditCard.secretKey == "" then 1 else 0)
    ensures c.bankTransfer.enabled ==>
      (BankErrors(c.bankTransfer) == [NoValidBankAccount] <==> !HasUsableAccount(c.bankTransfer.accounts))
  {
  }

  /**
   * From any environment: PromptPay never warns (its phone number falls
   * back to a non-empty default), and the bank transfer never warns
   * either (both account rows fall back to non-empty defaults).
   */
  lemma LoadedDefaultsNeverWarn(env: map<string, string>)
    ensures PromptPayErrors(LoadConfig(env).promptpay) == []
    ensures BankErrors(LoadConfig(env).bankTransfer) == []
  {
    var accounts := LoadConfig(env).bankTransfer.accounts;
    assert UsableAccount(accounts[0]);
  }

  // ---------------------------------------------------------------------
  // getAvailablePaymentMethods
  // ---------------------------------------------------------------------

  datatype MethodKind = QrCode | EWallet | BankTransferKind | CreditCardKind

  /** A method offered to buyers (the Thai description text is left out). */
  datatype MethodInfo = MethodInfo(id: string, name: string, icon: string, kind: MethodKind)

  const PromptPayInfo := MethodInfo("promptpay", "PromptPay", "/images/promptpay.png", QrCode)
  const TrueMoneyInfo := MethodInfo("truemoney", "TrueMoney Wallet", "/images/truemoney.png", EWallet)
  const BankInfo := MethodInfo("bank_transfer", "Bank Transfer", "/images/bank.png", BankTransferKind)
  const CardInfo := MethodInfo("credit_card", "Credit Card", "/images/credit-card.png", CreditCardKind)

  /** The fixed order in which methods are listed. */
  const Catalog: seq<MethodInfo> := [PromptPayInfo, TrueMoneyInfo, BankInfo, CardInfo]

  predicate Enabled(c: Config, m: MethodInfo)
  {
    || (m == PromptPayInfo && c.promptpay.enabled)
    || (m == TrueMoneyInfo && c.truemoney.enabled)
    || (m == BankInfo && c.bankTransfer.enabled)
    || (m == CardInfo && c.creditCard.enabled)
  }

  /** The position of a method in the fixed order. */
  function Rank(m: MethodInfo): nat
  {
    if m == PromptPayInfo then 0 else if m == TrueMoneyInfo then 1 else if m == BankInfo then 2 else 3
  }

  /**
   * `getAvailablePaymentMethods`: exactly the enabled methods, each once,
   * in the order promptpay, truemoney, bank_transfer, credit_card.
   */
  method GetAvailablePaymentMethods(c: Config) returns (methods: seq<MethodInfo>)
    ensures forall m :: m in methods <==> m in Catalog && Enabled(c, m)
    ensures forall i, j :: 0 <= i < j < |methods| ==> Rank(methods[i]) < Rank(methods[j])
  {
    methods := [];
    if c.promptpay.enabled { methods := methods + [PromptPayInfo]; }
    if c.truemoney.enabled { methods := methods + [TrueMoneyInfo]; }
    if c.bankTransfer.enabled { methods := methods + [BankInfo]; }
    if c.creditCard.enabled { methods := methods + [CardInfo]; }
  }
}
