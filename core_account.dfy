/** The REST account manager (AccountManager in core/account.py): the
    credential format checks, the configured state, configure_account and
    the guard of get_account_info. The key test and the account request are
    oracles; credentials are persisted through the configuration store. */
module CoreAccount {
  import opened Base
  import Config

  // ---------------------------------------------------------------------
  // Credential formats

  /** The class [A-Z0-9] of API keys. */
  predicate IsKeyChar(c: char) {
    IsUpperLetter(c) || IsDigit(c)
  }

  /** The class [a-zA-Z0-9] of API secrets. */
  predicate IsSecretChar(c: char) {
    IsUpperLetter(c) || IsLowerLetter(c) || IsDigit(c)
  }

  /** s is at least `least` characters, all in the class. */
  predicate RunOf(s: string, isIn: char -> bool, least: nat) {
    |s| >= least && forall i :: 0 <= i < |s| ==> isIn(s[i])
  }

  /** What re.match(r'^C{least,}$', s) accepts: Python's `$` matches at the
      very end and also just before a final newline. */
  predicate MatchesToDollar(s: string, isIn: char -> bool, least: nat) {
    RunOf(s, isIn, least) || (|s| > 0 && s[|s| - 1] == '\n' && RunOf(s[..|s| - 1], isIn, least))
  }

  /** The key check of configure_account as written: non-empty and matching
      ^[A-Z0-9]{12,}$. */
  predicate KeyAcceptedAsWritten(key: string) {
    key != [] && MatchesToDollar(key, IsKeyChar, 12)
  }

  /** The secret check as written: non-empty and matching ^[a-zA-Z0-9]{32,}$. */
  predicate SecretAcceptedAsWritten(secret: string) {
    secret != [] && MatchesToDollar(secret, IsSecretChar, 32)
  }

  /** The checks as intended: the whole string is the run (re.fullmatch). */
  predicate KeyAccepted(key: string) {
    RunOf(key, IsKeyChar, 12)
  }

  predicate SecretAccepted(secret: string) {
    RunOf(secret, IsSecretChar, 32)
  }

  /** The checks as written accept exactly the intended strings and those
      strings followed by one newline. */
  lemma AsWrittenAcceptsTrailingNewline(key: string, secret: string)
    ensures KeyAcceptedAsWritten(key)
        <==> KeyAccepted(key) || (|key| > 0 && key[|key| - 1] == '\n' && KeyAccepted(key[..|key| - 1]))
    ensures SecretAcceptedAsWritten(secret)
        <==> SecretAccepted(secret) || (|secret| > 0 && secret[|secret| - 1] == '\n' && SecretAccepted(secret[..|secret| - 1]))
  {
  }

  /** Twelve A's and a newline pass the key check as written, though the
      newline is outside [A-Z0-9]; the intended check refuses them. */
  lemma NewlineKeyPasses()
    ensures KeyAcceptedAsWritten("AAAAAAAAAAAA\n")
    ensures !KeyAccepted("AAAAAAAAAAAA\n")
  {
    var s := "AAAAAAAAAAAA\n";
    assert s[..|s| - 1] == "AAAAAAAAAAAA";
    assert !IsKeyChar(s[12]);
  }

  /** An accepted key or secret holds no character outside its class, and
      in particular no line break. */
  lemma AcceptedHasNoNewline(key: string, secret: string)
    requires KeyAccepted(key) && SecretAccepted(secret)
    ensures forall i :: 0 <= i < |key| ==> key[i] != '\n'
    ensures forall i :: 0 <= i < |secret| ==> secret[i] != '\n'
    ensures key != [] && secret != []
  {
    assert IsKeyChar(key[0]);
  }

  // ---------------------------------------------------------------------
  // The manager

  /** The account data the REST endpoint returns. */
  type AccountInfo = map<string, string>

  class AccountManager {
    /** The configuration store the credentials are saved to. */
    const config: Config.ConfigManager
    var apiKey: Option<string>
    var apiSecret: Option<string>
    var baseUrl: Option<string>

    /** is_configured: key, secret and URL are all truthy. */
    predicate IsConfigured()
      reads this
    {
      Truthy(apiKey) && Truthy(apiSecret) && Truthy(baseUrl)
    }

    /** __init__: the credentials the configuration store holds. */
    constructor(config: Config.ConfigManager)
      ensures this.config == config
      ensures (apiKey, apiSecret, baseUrl) == Config.CredentialsIn(config.Contents())
    {
      this.config := config;
      new;
      apiKey, apiSecret, baseUrl := config.GetAlpacaCredentials();
    }

    /** configure_account: the key, then the secret, must have the intended
        format, then `keyTest` (the request to the account endpoint of the
        chosen environment) must succeed; only then are the credentials
        saved and the manager updated. Any failure changes nothing. */
    method ConfigureAccount(key: string, secret: string, paper: bool,
                            keyTest: (string, string, bool) -> bool,
                            ivKey: seq<Config.Byte>, ivSecret: seq<Config.Byte>)
      returns (ok: bool)
      modifies this, config, config.Section()
      ensures ok <==> KeyAccepted(key) && SecretAccepted(secret) && keyTest(key, secret, paper)
      ensures !ok ==> apiKey == old(apiKey) && apiSecret == old(apiSecret) && baseUrl == old(baseUrl)
      ensures !ok ==> config.Contents() == old(config.Contents()) && config.file == old(config.file)
      ensures ok ==> apiKey == Some(key) && apiSecret == Some(secret)
                     && baseUrl == Some(if paper then Config.PAPER_URL else Config.LIVE_URL)
      ensures ok ==> IsConfigured()
      ensures ok ==> Config.CredentialsIn(config.Contents()) == (apiKey, apiSecret, baseUrl)
      ensures ok ==> config.file == Config.Written(Config.Sealed(config.codec, config.key, config.Contents(), ivKey, ivSecret))
      ensures config.Contents().others == old(config.Contents().others)
    {
      if !KeyAccepted(key) {
        return false;
      }
      if !SecretAccepted(secret) {
        return false;
      }
      if !keyTest(key, secret, paper) {
        return false;
      }
      config.SetAlpacaCredentialsCopying(key, secret, paper, ivKey, ivSecret);
      apiKey := Some(key);
      apiSecret := Some(secret);
      if paper {
        baseUrl := Some(Config.PAPER_URL);
      } else {
        baseUrl := Some(Config.LIVE_URL);
      }
      return true;
    }

    /** get_account_info: None without asking anything when the account is
        not configured; otherwise what the account endpoint answers. */
    method GetAccountInfo(fetch: (string, string, string) -> Option<AccountInfo>) returns (info: Option<AccountInfo>)
      ensures !IsConfigured() ==> info.None?
      ensures IsConfigured() ==> info == fetch(baseUrl.value, apiKey.value, apiSecret.value)
    {
      if !IsConfigured() {
        return None;
      }
      info := fetch(baseUrl.value, apiKey.value, apiSecret.value);
    }
  }
}
