/** The configuration store (ConfigManager in utils/config.py): the
    in-memory configuration map, its nested `alpaca` section holding the API
    key, secret and base URL, the encryption of the key and secret on save
    and their decryption on load, and the credential accessors.

    The configuration is split the way the code uses it: the `alpaca`
    section is a mutable object (a Python dict reached through the outer
    map, so a shallow copy of the outer map shares it), and every other
    top-level entry is an opaque JSON value that is carried along untouched.
    AES-256-CBC with PKCS#7 padding, Base64 and UTF-8 are abstract functions
    bundled in a Codec, with the laws the standards give them. The key file
    and the random IVs are parameters; the config file is a field. */
module Config {
  import opened Base

  type Byte = x: int | 0 <= x < 256

  /** An opaque JSON value of a top-level entry other than `alpaca`. */
  type Opaque = int

  /** The values a field of the `alpaca` section holds: a string or null. */
  type Fields = map<string, Option<string>>

  const PAPER_URL: string := "https://paper-api.alpaca.markets"
  const LIVE_URL: string := "https://api.alpaca.markets"

  // ---------------------------------------------------------------------
  // Encryption of one value

  /** UTF-8, AES-256-CBC with PKCS#7 padding (encrypt pads, decrypt unpads
      and fails on a bad length or padding) and Base64. */
  datatype Codec = Codec(
    utf8: string -> seq<Byte>,
    utf8Decode: seq<Byte> -> Option<string>,
    encrypt: (seq<Byte>, seq<Byte>, seq<Byte>) -> seq<Byte>,
    decrypt: (seq<Byte>, seq<Byte>, seq<Byte>) -> Option<seq<Byte>>,
    b64: seq<Byte> -> string,
    b64Decode: string -> Option<seq<Byte>>)

  /** The laws of the three encodings: each decodes what it encoded; UTF-8
      spends at least one byte per character; CBC over PKCS#7 padding with a
      16-byte block yields the next whole number of blocks; Base64 turns
      every 3 bytes, rounded up, into 4 characters (section 4 of RFC 4648). */
  ghost predicate Lawful(c: Codec) {
    && (forall s :: c.utf8Decode(c.utf8(s)) == Some(s))
    && (forall s :: |c.utf8(s)| >= |s|)
    && (forall key, iv, p | |iv| == 16 :: c.decrypt(key, iv, c.encrypt(key, iv, p)) == Some(p))
    && (forall key, iv, p :: |c.encrypt(key, iv, p)| == (|p| / 16 + 1) * 16)
    && (forall b :: c.b64Decode(c.b64(b)) == Some(b))
    && (forall b :: |c.b64(b)| == (|b| + 2) / 3 * 4)
  }

  /** _encrypt_value: Base64 of the IV followed by the ciphertext. */
  function EncryptValue(c: Codec, key: seq<Byte>, iv: seq<Byte>, value: string): string {
    c.b64(iv + c.encrypt(key, iv, c.utf8(value)))
  }

  /** _decrypt_value: splits the decoded bytes at 16; None when any step
      fails (AES refuses an IV shorter than 16 bytes). */
  function DecryptValue(c: Codec, key: seq<Byte>, stored: string): Option<string> {
    var raw := c.b64Decode(stored);
    if raw.None? || |raw.value| < 16 then None
    else
      var plain := c.decrypt(key, raw.value[..16], raw.value[16..]);
      if plain.None? then None else c.utf8Decode(plain.value)
  }

  /** Decrypting what was encrypted gives the value back. */
  lemma DecryptEncrypt(c: Codec, key: seq<Byte>, iv: seq<Byte>, value: string)
    requires Lawful(c)
    requires |iv| == 16
    ensures DecryptValue(c, key, EncryptValue(c, key, iv, value)) == Some(value)
  {
    var ct := c.encrypt(key, iv, c.utf8(value));
    var raw := iv + ct;
    assert c.b64Decode(c.b64(raw)) == Some(raw);
    assert raw[..16] == iv && raw[16..] == ct;
  }

  /** The stored form is longer than the value, so never equal to it and never empty. */
  lemma EncryptValueLonger(c: Codec, key: seq<Byte>, iv: seq<Byte>, value: string)
    requires Lawful(c)
    ensures |EncryptValue(c, key, iv, value)| > |value|
    ensures EncryptValue(c, key, iv, value) != value
    ensures EncryptValue(c, key, iv, value) != []
  {
    var p := c.utf8(value);
    var ct := c.encrypt(key, iv, p);
    assert |p| >= |value|;
    assert |ct| == (|p| / 16 + 1) * 16;
    assert |ct| > |p|;
    var n := |iv + ct|;
    assert |c.b64(iv + ct)| == (n + 2) / 3 * 4;
  }

  // ---------------------------------------------------------------------
  // The `alpaca` section, sealed and opened

  /** Replaces the field with f(value) when it is present and truthy. */
  function MapTruthy(fields: Fields, name: string, f: string -> Option<string>): (r: Fields)
    ensures r.Keys == fields.Keys
    ensures forall k :: k in fields && k != name ==> r[k] == fields[k]
    ensures name in fields && Truthy(fields[name]) ==> r[name] == f(fields[name].value)
    ensures name in fields && !Truthy(fields[name]) ==> r[name] == fields[name]
  {
    if name in fields && Truthy(fields[name]) then fields[name := f(fields[name].value)] else fields
  }

  /** save_config's treatment of the section: the key and the secret are
      encrypted when truthy, each with its own IV. */
  function SealFields(c: Codec, key: seq<Byte>, fields: Fields, ivKey: seq<Byte>, ivSecret: seq<Byte>): Fields {
    var f := MapTruthy(fields, "api_key", v => Some(EncryptValue(c, key, ivKey, v)));
    MapTruthy(f, "api_secret", v => Some(EncryptValue(c, key, ivSecret, v)))
  }

  /** load_config's treatment of the section: the key and the secret are
      decrypted when truthy; a failed decryption leaves null. */
  function OpenFields(c: Codec, key: seq<Byte>, fields: Fields): Fields {
    var f := MapTruthy(fields, "api_key", v => DecryptValue(c, key, v));
    MapTruthy(f, "api_secret", v => DecryptValue(c, key, v))
  }

  /** One field survives sealing then opening. */
  lemma OpenSealField(c: Codec, key: seq<Byte>, fields: Fields, name: string, iv: seq<Byte>)
    requires Lawful(c)
    requires |iv| == 16
    ensures MapTruthy(MapTruthy(fields, name, v => Some(EncryptValue(c, key, iv, v))), name,
                      v => DecryptValue(c, key, v)) == fields
  {
    var sealed := MapTruthy(fields, name, v => Some(EncryptValue(c, key, iv, v)));
    if name in fields && Truthy(fields[name]) {
      var v := fields[name].value;
      EncryptValueLonger(c, key, iv, v);
      DecryptEncrypt(c, key, iv, v);
      assert Truthy(sealed[name]);
    }
    var reopened := MapTruthy(sealed, name, v => DecryptValue(c, key, v));
    assert forall k | k in fields :: reopened[k] == fields[k];
  }

  /** Loading what was saved gives the section back. */
  lemma OpenSealFields(c: Codec, key: seq<Byte>, fields: Fields, ivKey: seq<Byte>, ivSecret: seq<Byte>)
    requires Lawful(c)
    requires |ivKey| == 16 && |ivSecret| == 16
    ensures OpenFields(c, key, SealFields(c, key, fields, ivKey, ivSecret)) == fields
  {
    var encKey := (v: string) => Some(EncryptValue(c, key, ivKey, v));
    var encSecret := (v: string) => Some(EncryptValue(c, key, ivSecret, v));
    var dec := (v: string) => DecryptValue(c, key, v);
    var f1 := MapTruthy(fields, "api_key", encKey);
    var f2 := MapTruthy(f1, "api_secret", encSecret);
    var g1 := MapTruthy(f2, "api_key", dec);
    var g2 := MapTruthy(g1, "api_secret", dec);
    // The two fields are handled independently: swap the middle steps.
    var h := MapTruthy(f1, "api_key", dec);
    assert g1 == MapTruthy(h, "api_secret", encSecret) by {
      assert forall k | k in g1 :: g1[k] == MapTruthy(h, "api_secret", encSecret)[k];
    }
    OpenSealField(c, key, fields, "api_key", ivKey);
    assert h == fields;
    OpenSealField(c, key, fields, "api_secret", ivSecret);
  }

  // ---------------------------------------------------------------------
  // Snapshots: the configuration as JSON data

  /** The configuration as a JSON document: the `alpaca` section if there is
      one, and the other top-level entries (`others` never has the key
      "alpaca"). */
  datatype Snapshot = Snapshot(alpaca: Option<Fields>, others: map<string, Opaque>)

  /** The config file: missing, unreadable (bad JSON), or holding a document. */
  datatype FileState = Missing | Unreadable | Written(content: Snapshot)

  const EMPTY: Snapshot := Snapshot(None, map[])

  function Sealed(c: Codec, key: seq<Byte>, s: Snapshot, ivKey: seq<Byte>, ivSecret: seq<Byte>): Snapshot {
    if s.alpaca.None? then s else s.(alpaca := Some(SealFields(c, key, s.alpaca.value, ivKey, ivSecret)))
  }

  /** What load_config makes of the file: nothing when it is missing or
      unreadable, else the document with the key and secret decrypted. */
  function Loaded(c: Codec, key: seq<Byte>, file: FileState): Snapshot {
    match file
    case Missing => EMPTY
    case Unreadable => EMPTY
    case Written(s) =>
      if s.alpaca.None? then s else s.(alpaca := Some(OpenFields(c, key, s.alpaca.value)))
  }

  /** get_alpaca_credentials on a document: (None, None, None) without an
      `alpaca` section; otherwise the key, the secret (None when absent) and
      the base URL, the paper URL when absent. */
  function CredentialsIn(s: Snapshot): (r: (Option<string>, Option<string>, Option<string>))
    ensures s.alpaca.None? ==> r == (None, None, None)
    ensures s.alpaca.Some? && "base_url" !in s.alpaca.value ==> r.2 == Some(PAPER_URL)
    ensures s.alpaca.Some? && "api_key" in s.alpaca.value ==> r.0 == s.alpaca.value["api_key"]
    ensures s.alpaca.Some? && "api_secret" !in s.alpaca.value ==> r.1 == None
  {
    if s.alpaca.None? then (None, None, None)
    else
      var f := s.alpaca.value;
      (if "api_key" in f then f["api_key"] else None,
       if "api_secret" in f then f["api_secret"] else None,
       if "base_url" in f then f["base_url"] else Some(PAPER_URL))
  }

  /** The section set_alpaca_credentials leaves before saving. */
  function WithCredentials(fields: Fields, apiKey: string, apiSecret: string, paper: bool): Fields {
    fields["api_key" := Some(apiKey)]["api_secret" := Some(apiSecret)]
          ["base_url" := Some(if paper then PAPER_URL else LIVE_URL)]
  }

  /** A document saved and loaded again is the document that was in memory. */
  lemma SaveLoadRoundTrip(c: Codec, key: seq<Byte>, s: Snapshot, ivKey: seq<Byte>, ivSecret: seq<Byte>)
    requires Lawful(c)
    requires |ivKey| == 16 && |ivSecret| == 16
    ensures Loaded(c, key, Written(Sealed(c, key, s, ivKey, ivSecret))) == s
  {
    if s.alpaca.Some? {
      OpenSealFields(c, key, s.alpaca.value, ivKey, ivSecret);
    }
  }

  /** With the shallow copy, what the accessor returns after
      set_alpaca_credentials is the stored (encrypted) form of a non-empty
      key, never the key itself. */
  lemma SealedKeyIsNotTheKey(c: Codec, key: seq<Byte>, fields: Fields, apiKey: string, apiSecret: string,
                             paper: bool, ivKey: seq<Byte>, ivSecret: seq<Byte>)
    requires Lawful(c)
    requires apiKey != []
    ensures var s := Snapshot(Some(SealFields(c, key, WithCredentials(fields, apiKey, apiSecret, paper), ivKey, ivSecret)), map[]);
      CredentialsIn(s).0 == Some(EncryptValue(c, key, ivKey, apiKey))
      && CredentialsIn(s).0 != Some(apiKey)
  {
    EncryptValueLonger(c, key, ivKey, apiKey);
  }

  /** The intended behaviour: the accessor returns the plain credentials and
      the URL that was chosen. */
  lemma PlainCredentialsAfterSet(fields: Fields, apiKey: string, apiSecret: string, paper: bool,
                                 others: map<string, Opaque>)
    ensures CredentialsIn(Snapshot(Some(WithCredentials(fields, apiKey, apiSecret, paper)), others))
         == (Some(apiKey), Some(apiSecret), Some(if paper then PAPER_URL else LIVE_URL))
  {
  }

  // ---------------------------------------------------------------------
  // The manager

  /** A Python dict holding the `alpaca` section. */
  class JsonObject {
    var fields: Fields

    constructor()
      ensures fields == map[]
    {
      fields := map[];
    }
  }

  class ConfigManager {
    const codec: Codec
    /** The content of the key file. */
    const key: seq<Byte>
    /** self.config: the `alpaca` section, and the other top-level entries. */
    var alpaca: Option<JsonObject>
    var others: map<string, Opaque>
    /** The config file. */
    var file: FileState

    /** The section object, if any. */
    function Section(): set<JsonObject>
      reads this
    {
      if alpaca.Some? then {alpaca.value} else {}
    }

    /** self.config as a JSON document. */
    function Contents(): Snapshot
      reads this, Section()
    {
      Snapshot(if alpaca.Some? then Some(alpaca.value.fields) else None, others)
    }

    /** __init__ with an existing key file: an empty configuration, then
        load_config. */
    constructor(codec: Codec, key: seq<Byte>, file: FileState)
      ensures this.codec == codec && this.key == key && this.file == file
      ensures Contents() == Loaded(codec, key, file)
    {
      this.codec := codec;
      this.key := key;
      this.file := file;
      alpaca := None;
      others := map[];
      new;
      LoadConfig();
    }

    /** load_config: a missing or unreadable file empties the configuration;
        otherwise the document is loaded into a fresh section object with
        the truthy key and secret decrypted. */
    method LoadConfig()
      modifies this
      ensures file == old(file)
      ensures Contents() == Loaded(codec, key, file)
      ensures alpaca.Some? ==> fresh(alpaca.value)
    {
      match file {
        case Missing =>
          alpaca, others := None, map[];
        case Unreadable =>
          alpaca, others := None, map[];
        case Written(s) =>
          others := s.others;
          if s.alpaca.Some? {
            var section := new JsonObject();
            section.fields := OpenFields(codec, key, s.alpaca.value);
            alpaca := Some(section);
          } else {
            alpaca := None;
          }
      }
    }

    /** get_alpaca_credentials. */
    method GetAlpacaCredentials() returns (apiKey: Option<string>, apiSecret: Option<string>, baseUrl: Option<string>)
      ensures (apiKey, apiSecret, baseUrl) == CredentialsIn(Contents())
    {
      if alpaca.None? {
        return None, None, None;
      }
      var f := alpaca.value.fields;
      apiKey := if "api_key" in f then f["api_key"] else None;
      apiSecret := if "api_secret" in f then f["api_secret"] else None;
      baseUrl := if "base_url" in f then f["base_url"] else Some(PAPER_URL);
    }

    /** save_config as written: `self.config.copy()` is shallow, so the
        section it encrypts is the in-memory section itself. The file gets
        the sealed document, and so does memory. */
    method SaveConfig(ivKey: seq<Byte>, ivSecret: seq<Byte>)
      modifies this, Section()
      ensures alpaca == old(alpaca) && others == old(others)
      ensures Contents() == Sealed(codec, key, old(Contents()), ivKey, ivSecret)
      ensures file == Written(Contents())
    {
      var shared := alpaca;
      if shared.Some? {
        var section := shared.value;
        section.fields := MapTruthy(section.fields, "api_key", v => Some(EncryptValue(codec, key, ivKey, v)));
        section.fields := MapTruthy(section.fields, "api_secret", v => Some(EncryptValue(codec, key, ivSecret, v)));
      }
      file := Written(Contents());
    }

    /** save_config as its comment intends: the section is copied before it
        is encrypted, so memory keeps the plain values. */
    method SaveConfigCopying(ivKey: seq<Byte>, ivSecret: seq<Byte>)
      modifies this
      ensures alpaca == old(alpaca) && others == old(others)
      ensures file == Written(Sealed(codec, key, Contents(), ivKey, ivSecret))
    {
      var data := Contents();
      if data.alpaca.Some? {
        var copied := data.alpaca.value;
        copied := MapTruthy(copied, "api_key", v => Some(EncryptValue(codec, key, ivKey, v)));
        copied := MapTruthy(copied, "api_secret", v => Some(EncryptValue(codec, key, ivSecret, v)));
        data := data.(alpaca := Some(copied));
      }
      file := Written(data);
    }

    /** Puts the key, the secret and the URL of the chosen environment into
        the section, creating the section only when it is missing. */
    method StoreCredentials(apiKey: string, apiSecret: string, paper: bool)
      modifies this, Section()
      ensures others == old(others) && file == old(file)
      ensures old(alpaca).Some? ==> alpaca == old(alpaca)
      ensures old(alpaca).None? ==> alpaca.Some? && fresh(alpaca.value)
      ensures Contents().alpaca
           == Some(WithCredentials(if old(alpaca).Some? then old(alpaca.value.fields) else map[], apiKey, apiSecret, paper))
    {
      if alpaca.None? {
        var section := new JsonObject();
        alpaca := Some(section);
      }
      var section := alpaca.value;
      section.fields := section.fields["api_key" := Some(apiKey)];
      section.fields := section.fields["api_secret" := Some(apiSecret)];
      if paper {
        section.fields := section.fields["base_url" := Some(PAPER_URL)];
      } else {
        section.fields := section.fields["base_url" := Some(LIVE_URL)];
      }
    }

    /** set_alpaca_credentials as written: stores, then save_config. The
        in-memory key and secret end up encrypted. */
    method SetAlpacaCredentials(apiKey: string, apiSecret: string, paper: bool,
                                ivKey: seq<Byte>, ivSecret: seq<Byte>)
      modifies this, Section()
      ensures others == old(others)
      ensures old(alpaca).Some? ==> alpaca == old(alpaca)
      ensures Contents().alpaca == Some(SealFields(codec, key,
                WithCredentials(if old(alpaca).Some? then old(alpaca.value.fields) else map[],
                                apiKey, apiSecret, paper), ivKey, ivSecret))
      ensures file == Written(Contents())
    {
      StoreCredentials(apiKey, apiSecret, paper);
      SaveConfig(ivKey, ivSecret);
    }

    /** set_alpaca_credentials with the copying save: memory keeps the
        plain credentials and the file holds their sealed form, which loads
        back to the same configuration. */
    method SetAlpacaCredentialsCopying(apiKey: string, apiSecret: string, paper: bool,
                                       ivKey: seq<Byte>, ivSecret: seq<Byte>)
      modifies this, Section()
      ensures others == old(others)
      ensures old(alpaca).Some? ==> alpaca == old(alpaca)
      ensures Contents().alpaca == Some(WithCredentials(if old(alpaca).Some? then old(alpaca.value.fields) else map[],
                                                        apiKey, apiSecret, paper))
      ensures CredentialsIn(Contents())
           == (Some(apiKey), Some(apiSecret), Some(if paper then PAPER_URL else LIVE_URL))
      ensures file == Written(Sealed(codec, key, Contents(), ivKey, ivSecret))
      ensures Lawful(codec) && |ivKey| == 16 && |ivSecret| == 16 ==> Loaded(codec, key, file) == Contents()
    {
      StoreCredentials(apiKey, apiSecret, paper);
      SaveConfigCopying(ivKey, ivSecret);
      if Lawful(codec) && |ivKey| == 16 && |ivSecret| == 16 {
        SaveLoadRoundTrip(codec, key, Contents(), ivKey, ivSecret);
      }
    }
  }
}
