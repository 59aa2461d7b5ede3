/** The connection side of GoSFTPtoS3: checking and repairing an SFTPConf,
    merging the key-exchange algorithms, choosing the SSH authentication
    method, and assembling what SFTPConf.NewConn hands to the SSH dialer. */
module Connection {
  import opened Wrappers
  import opened GoUtils

  /** DEFAULT_KEY_EXCHANGE_ALGO: always offered to the server. */
  const DefaultKeyExchangeAlgo: seq<string> := ["diffie-hellman-group-exchange-sha256"]

  /** The fields of an SFTPConf as a value. */
  datatype Conf = Conf(
    host: string,
    user: string,
    password: string,
    port: int,
    timeout: int,
    privKey: string)

  /** The three ways Validate rejects a configuration. */
  datatype ConfigError = HostMissing | UserMissing | CredentialsMissing
  {
    function Message(): string {
      match this
      case HostMissing => "SFTP host not provided"
      case UserMissing => "SFTP user not provided"
      case CredentialsMissing => "SFTP password and priv_key not provided"
    }
  }

  /** What Validate decides for a configuration: the first missing item, in
      the order host, user, credentials; otherwise the configuration with an
      invalid port replaced by 22 and a zero timeout replaced by 60. */
  function Validated(c: Conf): (r: Result<Conf, ConfigError>)
    ensures r == Failure(HostMissing) <==> IsBlank(c.host)
    ensures r == Failure(UserMissing) <==> !IsBlank(c.host) && IsBlank(c.user)
    ensures r == Failure(CredentialsMissing) <==>
              !IsBlank(c.host) && !IsBlank(c.user) && IsBlank(c.password) && IsBlank(c.privKey)
    ensures r.Success? ==> !IsBlank(r.value.host) && !IsBlank(r.value.user)
    ensures r.Success? ==> !IsBlank(r.value.password) || !IsBlank(r.value.privKey)
    ensures r.Success? ==>
              && r.value.host == c.host && r.value.user == c.user
              && r.value.password == c.password && r.value.privKey == c.privKey
    ensures r.Success? ==> ValidatePort(r.value.port)
    ensures r.Success? ==> (r.value.port == c.port <==> ValidatePort(c.port))
    ensures r.Success? && !ValidatePort(c.port) ==> r.value.port == 22
    ensures r.Success? ==> r.value.timeout != 0
    ensures r.Success? ==> (r.value.timeout == c.timeout <==> c.timeout != 0)
    ensures r.Success? && c.timeout == 0 ==> r.value.timeout == 60
  {
    if IsBlank(c.host) then Failure(HostMissing)
    else if IsBlank(c.user) then Failure(UserMissing)
    else if IsBlank(c.password) && IsBlank(c.privKey) then Failure(CredentialsMissing)
    else
      var port := if ValidatePort(c.port) then c.port else 22;
      var timeout := if c.timeout == 0 then 60 else c.timeout;
      Success(c.(port := port, timeout := timeout))
  }

  /** A configuration that Validate accepted is accepted again, unchanged. */
  lemma ValidatedIdempotent(c: Conf)
    requires Validated(c).Success?
    ensures Validated(Validated(c).value) == Validated(c)
  {
  }

  /** The parsed private key, as ssh.ParsePrivateKey returns it. */
  datatype Signer = Signer(fingerprint: string)

  datatype AuthMethod = PublicKeys(signer: Signer) | PasswordAuth(password: string)

  /** Why NewConn gives no client. CredentialsPanic stands for the panic at the
      end of the authentication choice; NewConn never produces it. */
  datatype ConnError =
    | InvalidConfig(reason: ConfigError)
    | KeyParseError(cause: string)
    | CredentialsPanic

  /** The authentication choice of NewConn: a non-blank private key always
      wins (and its parse error is returned), then user and password, and
      otherwise the panic. */
  function ChooseAuth(c: Conf, parsePrivateKey: string -> Result<Signer, string>): (r: Result<AuthMethod, ConnError>)
    ensures !IsBlank(c.privKey) ==> (r.Success? <==> parsePrivateKey(c.privKey).Success?)
    ensures !IsBlank(c.privKey) && r.Success? ==> r.value == PublicKeys(parsePrivateKey(c.privKey).value)
    ensures !IsBlank(c.privKey) && r.Failure? ==> r.error == KeyParseError(parsePrivateKey(c.privKey).error)
    ensures (r.Success? && r.value.PasswordAuth?) <==>
              IsBlank(c.privKey) && !IsBlank(c.password) && !IsBlank(c.user)
    ensures r.Success? && r.value.PasswordAuth? ==> r.value.password == c.password
    ensures r == Failure(CredentialsPanic) <==> IsBlank(c.privKey) && (IsBlank(c.password) || IsBlank(c.user))
  {
    if !IsBlank(c.privKey) then
      match parsePrivateKey(c.privKey)
      case Success(key) => Success(PublicKeys(key))
      case Failure(e) => Failure(KeyParseError(e))
    else if !IsBlank(c.password) && !IsBlank(c.user) then
      Success(PasswordAuth(c.password))
    else
      Failure(CredentialsPanic)
  }

  /** After a successful Validate the panic branch of the choice is dead. */
  lemma ValidatedNeverPanics(c: Conf, parsePrivateKey: string -> Result<Signer, string>)
    requires Validated(c).Success?
    ensures ChooseAuth(Validated(c).value, parsePrivateKey) != Failure(CredentialsPanic)
  {
  }

  /** The key-exchange merge of NewConn: each default not yet in the list is
      appended. The caller's list stays a prefix, every default ends up in the
      result, and only missing defaults are added, each once. */
  method MergeKeyExchanges(keyExchanges: seq<string>, defaults: seq<string>) returns (merged: seq<string>)
    ensures |keyExchanges| <= |merged| && merged[..|keyExchanges|] == keyExchanges
    ensures forall d :: d in defaults ==> d in merged
    ensures forall j :: |keyExchanges| <= j < |merged| ==> merged[j] in defaults && merged[j] !in keyExchanges
    ensures forall j, k :: |keyExchanges| <= j < k < |merged| ==> merged[j] != merged[k]
    ensures |merged| <= |keyExchanges| + |defaults|
  {
    merged := keyExchanges;
    for i := 0 to |defaults|
      invariant |keyExchanges| <= |merged| <= |keyExchanges| + i
      invariant merged[..|keyExchanges|] == keyExchanges
      invariant forall d :: d in defaults[..i] ==> d in merged
      invariant forall j :: |keyExchanges| <= j < |merged| ==> merged[j] in defaults && merged[j] !in keyExchanges
      invariant forall j, k :: |keyExchanges| <= j < k < |merged| ==> merged[j] != merged[k]
    {
      if !InStrings(merged, defaults[i]) {
        merged := merged + [defaults[i]];
      }
      assert defaults[..i + 1] == defaults[..i] + [defaults[i]];
    }
    assert defaults[..|defaults|] == defaults;
  }

  /** What NewConn passes to ssh.Dial: the SSH client configuration and the
      address, with the validated port and timeout. */
  datatype ClientConfig = ClientConfig(
    user: string,
    auth: AuthMethod,
    timeoutSeconds: int,
    keyExchanges: seq<string>,
    host: string,
    port: int)

  class SFTPConf {
    var host: string
    var user: string
    var password: string
    var port: int
    var timeout: int
    var privKey: string

    constructor (c: Conf)
      ensures Value() == c
    {
      host, user, password := c.host, c.user, c.password;
      port, timeout, privKey := c.port, c.timeout, c.privKey;
    }

    function Value(): Conf
      reads this
    {
      Conf(host, user, password, port, timeout, privKey)
    }

    /** Validate: rejects a blank host, a blank user, or blank password and
        key together, changing nothing; otherwise repairs port and timeout in
        place and leaves every other field alone. */
    method Validate() returns (err: Option<ConfigError>)
      modifies this`port, this`timeout
      ensures err.Some? <==> Validated(old(Value())).Failure?
      ensures err.Some? ==> err.value == Validated(old(Value())).error && Value() == old(Value())
      ensures err.None? ==> Validated(old(Value())) == Success(Value())
    {
      if IsBlank(host) {
        return Some(HostMissing);
      }
      if IsBlank(user) {
        return Some(UserMissing);
      }
      if IsBlank(password) && IsBlank(privKey) {
        return Some(CredentialsMissing);
      }
      if !ValidatePort(port) {
        port := 22;
      }
      if timeout == 0 {
        timeout := 60;
      }
      return None;
    }

    /** NewConn up to the dial: validates a copy of the configuration, merges
        the key-exchange algorithms and chooses the authentication method.
        The panic of the choice is never reached. */
    method NewConn(keyExchanges: seq<string>, parsePrivateKey: string -> Result<Signer, string>)
      returns (r: Result<ClientConfig, ConnError>)
      ensures r.Failure? ==> !r.error.CredentialsPanic?
      ensures (r.Failure? && r.error.InvalidConfig?) <==> Validated(Value()).Failure?
      ensures r.Failure? && r.error.InvalidConfig? ==> r.error.reason == Validated(Value()).error
      ensures (r.Failure? && r.error.KeyParseError?) <==>
                Validated(Value()).Success? && !IsBlank(privKey) && parsePrivateKey(privKey).Failure?
      ensures r.Failure? && r.error.KeyParseError? ==> r.error.cause == parsePrivateKey(privKey).error
      ensures r.Success? ==>
                && Validated(Value()).Success?
                && var v := Validated(Value()).value;
                && r.value.host == v.host && r.value.port == v.port
                && r.value.user == v.user && r.value.timeoutSeconds == v.timeout
      ensures r.Success? ==> (r.value.auth.PublicKeys? <==> !IsBlank(privKey))
      ensures r.Success? && r.value.auth.PublicKeys? ==> r.value.auth.signer == parsePrivateKey(privKey).value
      ensures r.Success? && r.value.auth.PasswordAuth? ==> r.value.auth.password == password
      ensures r.Success? ==>
                && |keyExchanges| <= |r.value.keyExchanges|
                && r.value.keyExchanges[..|keyExchanges|] == keyExchanges
                && (forall d :: d in DefaultKeyExchangeAlgo ==> d in r.value.keyExchanges)
                && (forall j :: |keyExchanges| <= j < |r.value.keyExchanges| ==>
                      r.value.keyExchanges[j] in DefaultKeyExchangeAlgo && r.value.keyExchanges[j] !in keyExchanges)
      ensures r.Success? ==>
                forall j, k :: |keyExchanges| <= j < k < |r.value.keyExchanges| ==>
                  r.value.keyExchanges[j] != r.value.keyExchanges[k]
    {
      var c := new SFTPConf(Value());
      var err := c.Validate();
      if err.Some? {
        return Failure(InvalidConfig(err.value));
      }
      var kex := MergeKeyExchanges(keyExchanges, DefaultKeyExchangeAlgo);
      var auth := ChooseAuth(c.Value(), parsePrivateKey);
      if auth.Failure? {
        return Failure(auth.error);
      }
      return Success(ClientConfig(c.user, auth.value, c.timeout, kex, c.host, c.port));
    }
  }
}
