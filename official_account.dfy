/** The SDK account manager (OfficialAccountManager in official/account.py):
    paper detection from the base URL, the constructor's initialization
    rule, configure_account and the guard of get_account_info. Building the
    SDK trading client and asking it for the account are oracles. */
module OfficialAccount {
  import opened Base
  import Config
  import OfficialOrders

  /** The account dictionary get_account_info builds from the SDK account. */
  type AccountInfo = map<string, string>

  /** `'paper' in base_url if base_url else True`. */
  predicate PaperFromUrl(baseUrl: Option<string>) {
    !Truthy(baseUrl) || Contains(baseUrl.value, "paper")
  }

  /** The live URL holds no "paper": its 'p's start "ps:", "pi." and "pac". */
  lemma LiveUrlIsNotPaper()
    ensures !Contains(Config.LIVE_URL, "paper")
  {
    var s := Config.LIVE_URL;
    forall i | 0 <= i <= |s|
      ensures !OccursAt(s, "paper", i)
    {
      if i + 5 <= |s| {
        assert s[i] != 'p' || s[i + 1] != 'a' || s[i + 2] != 'p';
        assert s[i..i + 5][0] == s[i] && s[i..i + 5][1] == s[i + 1] && s[i..i + 5][2] == s[i + 2];
      }
    }
  }

  /** The URL configure_account stores gives back the chosen environment. */
  lemma PaperFromStoredUrl(paper: bool)
    ensures PaperFromUrl(Some(if paper then Config.PAPER_URL else Config.LIVE_URL)) == paper
  {
    if paper {
      var u := Config.PAPER_URL;
      assert u[8] == 'p' && u[9] == 'a' && u[10] == 'p' && u[11] == 'e' && u[12] == 'r';
      assert u[8..13] == "paper";
      assert OccursAt(Config.PAPER_URL, "paper", 8);
    } else {
      LiveUrlIsNotPaper();
    }
  }

  /** A missing or empty base URL means paper trading. */
  lemma NoUrlMeansPaper(baseUrl: Option<string>)
    requires baseUrl.None? || baseUrl == Some("")
    ensures PaperFromUrl(baseUrl)
  {
  }

  class OfficialAccountManager {
    /** The configuration store the credentials are saved to. */
    const config: Config.ConfigManager
    var apiKey: Option<string>
    var apiSecret: Option<string>
    var baseUrl: Option<string>
    var tradingClient: Option<OfficialOrders.TradingClient>

    /** is_configured: the trading client is present. */
    predicate IsConfigured()
      reads this
    {
      tradingClient.Some?
    }

    /** __init__: the stored credentials; the client is built only when the
        key and the secret are both non-empty. `connect` stands for the
        TradingClient constructor, None when it raises. */
    constructor(config: Config.ConfigManager,
                connect: (Option<string>, Option<string>, bool) -> Option<OfficialOrders.TradingClient>)
      ensures this.config == config
      ensures (apiKey, apiSecret, baseUrl) == Config.CredentialsIn(config.Contents())
      ensures Truthy(apiKey) && Truthy(apiSecret) ==> tradingClient == connect(apiKey, apiSecret, PaperFromUrl(baseUrl))
      ensures !(Truthy(apiKey) && Truthy(apiSecret)) ==> tradingClient.None?
    {
      this.config := config;
      tradingClient := None;
      new;
      apiKey, apiSecret, baseUrl := config.GetAlpacaCredentials();
      if Truthy(apiKey) && Truthy(apiSecret) {
        var _ := InitializeClient(connect);
      }
    }

    /** _initialize_client: the client for the environment the base URL
        names; a failure leaves no client. */
    method InitializeClient(connect: (Option<string>, Option<string>, bool) -> Option<OfficialOrders.TradingClient>)
      returns (ok: bool)
      modifies this
      ensures tradingClient == connect(apiKey, apiSecret, PaperFromUrl(baseUrl))
      ensures ok <==> IsConfigured()
      ensures apiKey == old(apiKey) && apiSecret == old(apiSecret) && baseUrl == old(baseUrl)
    {
      var paper := PaperFromUrl(baseUrl);
      var client := connect(apiKey, apiSecret, paper);
      if client.Some? {
        tradingClient := client;
        return true;
      }
      tradingClient := None;
      return false;
    }

    /** configure_account: persists the credentials first, whatever happens
        next; then sets the fields and the URL of the chosen environment and
        answers whether the client could be built for that environment. */
    method ConfigureAccount(key: string, secret: string, paper: bool,
                            connect: (Option<string>, Option<string>, bool) -> Option<OfficialOrders.TradingClient>,
                            ivKey: seq<Config.Byte>, ivSecret: seq<Config.Byte>)
      returns (ok: bool)
      modifies this, config, config.Section()
      ensures apiKey == Some(key) && apiSecret == Some(secret)
      ensures baseUrl == Some(if paper then Config.PAPER_URL else Config.LIVE_URL)
      ensures tradingClient == connect(Some(key), Some(secret), paper)
      ensures ok <==> IsConfigured()
      ensures Config.CredentialsIn(config.Contents()) == (apiKey, apiSecret, baseUrl)
      ensures config.file == Config.Written(Config.Sealed(config.codec, config.key, config.Contents(), ivKey, ivSecret))
      ensures config.Contents().others == old(config.Contents().others)
    {
      config.SetAlpacaCredentialsCopying(key, secret, paper, ivKey, ivSecret);
      apiKey := Some(key);
      apiSecret := Some(secret);
      if paper {
        baseUrl := Some(Config.PAPER_URL);
      } else {
        baseUrl := Some(Config.LIVE_URL);
      }
      PaperFromStoredUrl(paper);
      ok := InitializeClient(connect);
    }

    /** get_account_info: None without asking anything when there is no
        client; otherwise what the client answers, None on an error. */
    method GetAccountInfo(getAccount: OfficialOrders.TradingClient -> Option<AccountInfo>)
      returns (info: Option<AccountInfo>)
      ensures !IsConfigured() ==> info.None?
      ensures IsConfigured() ==> info == getAccount(tradingClient.value)
    {
      if !IsConfigured() {
        return None;
      }
      info := getAccount(tradingClient.value);
    }
  }
}
