/** The run's configuration (config.go): its validation and the credential cascade that
    fills in the username, password and TOTP settings from the command line, then the
    environment, then the terminal. */
module Configuration {
  import opened Results
  import opened Prompt
  import opened Effects

  const UsernameVar := "AWSSSOLOGIN_USERNAME"
  const PasswordVar := "AWSSSOLOGIN_PASSWORD"
  const TotpSecretVar := "AWSSSOLOGIN_TOTP_SECRET"

  /** os.Getenv: an unset variable reads as the empty string. */
  function Getenv(env: map<string, string>, key: string): (v: string)
    ensures key in env ==> v == env[key]
    ensures key !in env ==> v == []
  {
    if key in env then env[key] else ""
  }

  /** validateDeviceURL's error: "URL does not match expected AWS SSO device URL pattern". */
  datatype UrlError = PatternMismatch(url: string)

  datatype ConfigError =
    | TimeoutTooSmall(got: int)          // "timeout must be at least 1 second, got: %d"
    | InvalidDeviceUrl(cause: UrlError)  // "invalid device URL: %v"

  /** validateDeviceURL. The pattern deviceURLValidationPattern is not part of this model,
      so the test it performs is the parameter `matches`. */
  function ValidateDeviceUrl(url: string, matches: string -> bool): (r: Outcome<UrlError>)
    ensures r.Pass? <==> matches(url)
    ensures r.Fail? ==> r.error == PatternMismatch(url)
  {
    if !matches(url) then Fail(PatternMismatch(url)) else Pass
  }

  /** The fields of Config that getCredentials may change. */
  datatype Credentials = Credentials(username: string, password: string,
                                     totpSecret: string, interactiveTotp: bool)

  /** Where one credential value is taken from. */
  datatype Source = FromCli | FromEnv | FromPrompt

  /** The cascade for one field: a non-empty command-line value, else a non-empty
      environment value, else the prompt. */
  function SourceOf(cli: string, envValue: string): (s: Source)
    ensures s == FromCli <==> cli != []
    ensures s == FromEnv <==> cli == [] && envValue != []
  {
    if cli != [] then FromCli else if envValue != [] then FromEnv else FromPrompt
  }

  /** One field's value after its cascade, the prompt it showed (if any) and what is
      left to read on the terminal. */
  datatype FieldResolution = FieldResolution(value: Result<string, PromptError>,
                                             asked: seq<Call>, remaining: seq<ReadResult>)

  function ResolveField(cli: string, envValue: string, question: Question, secure: bool,
                        input: seq<ReadResult>): (r: FieldResolution)
    ensures r.value.Ok? ==> r.value.value != []
  {
    match SourceOf(cli, envValue)
    case FromCli => FieldResolution(Ok(cli), [], input)
    case FromEnv => FieldResolution(Ok(envValue), [], input)
    case FromPrompt =>
      FieldResolution(PromptForInput(NextRead(input), secure), [Ask(question, secure)], AfterRead(input))
  }

  /** What getCredentials does: its outcome, the credentials it leaves in Config, the
      prompts it shows and what it leaves unread on the terminal. */
  datatype Resolution = Resolution(outcome: Outcome<PromptError>, creds: Credentials,
                                   asked: seq<Call>, remaining: seq<ReadResult>)

  /** The username and password part of getCredentials: each field's cascade in turn,
      stopping at the first prompt that fails. */
  function ResolveLogin(c: Credentials, env: map<string, string>, input: seq<ReadResult>): (r: Resolution)
    ensures r.outcome.Pass? ==> r.creds.username != [] && r.creds.password != []
    ensures r.creds.totpSecret == c.totpSecret && r.creds.interactiveTotp == c.interactiveTotp
  {
    var u := ResolveField(c.username, Getenv(env, UsernameVar), UsernameQuestion, false, input);
    match u.value
    case Err(e) => Resolution(Fail(e), c, u.asked, u.remaining)
    case Ok(username) =>
      var p := ResolveField(c.password, Getenv(env, PasswordVar), PasswordQuestion, true, u.remaining);
      match p.value
      case Err(e) => Resolution(Fail(e), c.(username := username), u.asked + p.asked, p.remaining)
      case Ok(password) => Resolution(Pass, c.(username := username, password := password), u.asked + p.asked, p.remaining)
  }

  /** getCredentials on credentials `c`, environment `env` and terminal input `input`:
      the username and the password, then, if both were obtained, the TOTP settings. */
  function Resolve(c: Credentials, env: map<string, string>, input: seq<ReadResult>): (r: Resolution)
    ensures r.outcome.Pass? ==> r.creds.username != [] && r.creds.password != []
  {
    var l := ResolveLogin(c, env, input);
    if l.outcome.Pass? then l.(creds := ResolveTotp(l.creds, env)) else l
  }

  /** Username precedence: a non-empty command-line value is kept, else a non-empty
      environment value is taken, else the answer to the username prompt, which is the
      first prompt shown; if that prompt fails, nothing else happens. */
  lemma UsernamePrecedence(c: Credentials, env: map<string, string>, input: seq<ReadResult>)
    ensures var r := Resolve(c, env, input);
      (c.username != [] ==> r.creds.username == c.username)
      && (c.username == [] && Getenv(env, UsernameVar) != [] ==>
            r.creds.username == Getenv(env, UsernameVar))
      && (c.username == [] && Getenv(env, UsernameVar) == [] ==>
            r.asked != [] && r.asked[0] == Ask(UsernameQuestion, false)
            && match PromptForInput(NextRead(input), false)
               case Ok(u) => r.creds.username == u
               case Err(e) => r == Resolution(Fail(e), c, [Ask(UsernameQuestion, false)], AfterRead(input)))
  {
    var u := ResolveField(c.username, Getenv(env, UsernameVar), UsernameQuestion, false, input);
    var r := Resolve(c, env, input);
    if u.value.Ok? {
      var p := ResolveField(c.password, Getenv(env, PasswordVar), PasswordQuestion, true, u.remaining);
      assert r.asked == u.asked + p.asked;
      assert r.outcome.Pass? ==> r.creds.username == u.value.value;
      assert r.outcome.Fail? ==> r.creds.username == u.value.value;
    }
  }

  /** Password precedence, once the username is settled: the command line, else the
      environment, else the (secure) password prompt. */
  lemma PasswordPrecedence(c: Credentials, env: map<string, string>, input: seq<ReadResult>)
    ensures var u := ResolveField(c.username, Getenv(env, UsernameVar), UsernameQuestion, false, input);
      var r := Resolve(c, env, input);
      (u.value.Ok? ==>
        (c.password != [] ==> r.outcome.Pass? && r.creds.password == c.password)
        && (c.password == [] && Getenv(env, PasswordVar) != [] ==>
              r.outcome.Pass? && r.creds.password == Getenv(env, PasswordVar)))
      && (r.outcome.Pass? && c.password == [] && Getenv(env, PasswordVar) == [] ==>
              r.asked[|r.asked| - 1] == Ask(PasswordQuestion, true)
              && r.creds.password == PromptForInput(NextRead(u.remaining), true).value)
      && (u.value.Ok? && c.password == [] && Getenv(env, PasswordVar) == [] ==>
            match PromptForInput(NextRead(u.remaining), true)
            case Ok(pw) => r.outcome.Pass? && r.creds.password == pw
            case Err(e) => r.outcome == Fail(e) && r.asked[|r.asked| - 1] == Ask(PasswordQuestion, true))
  {
    var u := ResolveField(c.username, Getenv(env, UsernameVar), UsernameQuestion, false, input);
    var r := Resolve(c, env, input);
    if u.value.Ok? {
      var p := ResolveField(c.password, Getenv(env, PasswordVar), PasswordQuestion, true, u.remaining);
      assert r.asked == u.asked + p.asked;
      if p.value.Ok? {
        assert r.creds.password == p.value.value;
      }
    }
  }

  /** Interactive TOTP is switched on exactly when neither the command line nor the
      environment gives a secret; a secret from either is kept. */
  lemma TotpModeRule(c: Credentials, env: map<string, string>, input: seq<ReadResult>)
    ensures var r := Resolve(c, env, input);
      r.outcome.Pass? ==>
        r.creds.interactiveTotp == (c.interactiveTotp || (c.totpSecret == [] && Getenv(env, TotpSecretVar) == []))
        && r.creds.totpSecret == (if c.totpSecret != [] then c.totpSecret else Getenv(env, TotpSecretVar))
  {
  }

  /** getCredentials fails exactly when the username cascade, or the password cascade
      after it, fails, and then with that prompt's error. A failure comes from a prompt
      that was shown and leaves the password and the TOTP settings as they were. */
  lemma FailureComesFromPrompt(c: Credentials, env: map<string, string>, input: seq<ReadResult>)
    ensures var u := ResolveField(c.username, Getenv(env, UsernameVar), UsernameQuestion, false, input);
      var p := ResolveField(c.password, Getenv(env, PasswordVar), PasswordQuestion, true, u.remaining);
      var r := Resolve(c, env, input);
      (r.outcome.Fail? <==> u.value.Err? || p.value.Err?)
      && (r.outcome.Fail? ==> r.outcome.error == (if u.value.Err? then u.value.error else p.value.error))
    ensures var r := Resolve(c, env, input);
      r.outcome.Fail? ==>
        r.asked != [] && r.creds.totpSecret == c.totpSecret
        && r.creds.interactiveTotp == c.interactiveTotp && r.creds.password == c.password
  {
  }

  /** Only the prompts shown consume input, one read each, and nothing is prompted for a
      field that the command line or the environment supplies. */
  lemma OneReadPerPrompt(c: Credentials, env: map<string, string>, input: seq<ReadResult>)
    ensures var r := Resolve(c, env, input);
      (|r.asked| <= |input| ==> r.remaining == input[|r.asked|..])
      && |r.asked| == (if SourceOf(c.username, Getenv(env, UsernameVar)) == FromPrompt then 1 else 0)
           + (if r.creds.username != [] && SourceOf(c.password, Getenv(env, PasswordVar)) == FromPrompt then 1 else 0)
  {
    var u := ResolveField(c.username, Getenv(env, UsernameVar), UsernameQuestion, false, input);
    if u.value.Ok? {
      var p := ResolveField(c.password, Getenv(env, PasswordVar), PasswordQuestion, true, u.remaining);
      assert Resolve(c, env, input).asked == u.asked + p.asked;
      assert Resolve(c, env, input).remaining == p.remaining;
    }
  }

  /** The TOTP step of getCredentials: a command-line secret is kept, else the
      environment's is taken, else the code will be asked for interactively. */
  function ResolveTotp(c: Credentials, env: map<string, string>): (r: Credentials)
    ensures r.username == c.username && r.password == c.password
  {
    var envSecret := Getenv(env, TotpSecretVar);
    if c.totpSecret != [] then c
    else if envSecret != [] then c.(totpSecret := envSecret)
    else c.(interactiveTotp := true)
  }

  /** The run's configuration, filled in from command-line flags and then updated in
      place by the credential cascade. */
  class Config {
    var username: string
    var password: string
    var totpSecret: string
    var deviceUrl: string
    var showBrowser: bool
    var timeoutSeconds: int
    var interactiveTotp: bool
    var logLevel: string

    /** A configuration as the command line leaves it: interactive TOTP is off. */
    constructor (username: string, password: string, totpSecret: string, deviceUrl: string,
                 showBrowser: bool, timeoutSeconds: int, logLevel: string)
      ensures this.username == username && this.password == password
      ensures this.totpSecret == totpSecret && this.deviceUrl == deviceUrl
      ensures this.showBrowser == showBrowser && this.timeoutSeconds == timeoutSeconds
      ensures this.logLevel == logLevel && !this.interactiveTotp
    {
      this.username, this.password, this.totpSecret := username, password, totpSecret;
      this.deviceUrl, this.showBrowser, this.timeoutSeconds := deviceUrl, showBrowser, timeoutSeconds;
      this.logLevel, this.interactiveTotp := logLevel, false;
    }

    function Creds(): Credentials
      reads this
    {
      Credentials(username, password, totpSecret, interactiveTotp)
    }

    /** The fields getCredentials leaves alone: device URL, browser visibility, timeout
        and log level. */
    function Settings(): (string, bool, int, string)
      reads this
    {
      (deviceUrl, showBrowser, timeoutSeconds, logLevel)
    }

    /** ValidateConfig: a timeout of at least one second and a device URL that is either
        absent or accepted by the pattern; the timeout is checked first. */
    function ValidateConfig(matches: string -> bool): (r: Outcome<ConfigError>)
      reads this
      ensures r.Pass? <==> timeoutSeconds >= 1 && (deviceUrl == [] || matches(deviceUrl))
      ensures timeoutSeconds <= 0 ==> r == Fail(TimeoutTooSmall(timeoutSeconds))
      ensures timeoutSeconds >= 1 && r.Fail? ==>
        deviceUrl != [] && r == Fail(InvalidDeviceUrl(PatternMismatch(deviceUrl)))
    {
      if timeoutSeconds <= 0 then Fail(TimeoutTooSmall(timeoutSeconds))
      else if deviceUrl != [] then
        match ValidateDeviceUrl(deviceUrl, matches)
        case Fail(e) => Fail(InvalidDeviceUrl(e))
        case Pass => Pass
      else Pass
    }

    /** getCredentials: fills in username, password and the TOTP settings, field by
        field, from the command line, the environment `env` or the terminal, stopping at
        the first prompt that fails. */
    method GetCredentials(env: map<string, string>, w: World) returns (r: Outcome<PromptError>)
      modifies this, w
      ensures var res := Resolve(old(Creds()), env, old(w.input));
        r == res.outcome && Creds() == res.creds
        && w.trace == old(w.trace) + res.asked && w.input == res.remaining
      ensures Settings() == old(Settings())
    {
      r := FillLogin(env, w);
      if r.Pass? {
        SetTotp(env);
      }
    }

    /** The username and password part of getCredentials. */
    method FillLogin(env: map<string, string>, w: World) returns (r: Outcome<PromptError>)
      modifies this, w
      ensures var res := ResolveLogin(old(Creds()), env, old(w.input));
        r == res.outcome && Creds() == res.creds
        && w.trace == old(w.trace) + res.asked && w.input == res.remaining
      ensures Settings() == old(Settings())
    {
      ghost var c := Creds();
      ghost var uf := ResolveField(username, Getenv(env, UsernameVar), UsernameQuestion, false, w.input);
      var u := Cascade(username, UsernameVar, UsernameQuestion, false, env, w);
      if u.Err? {
        assert ResolveLogin(c, env, old(w.input)) == Resolution(Fail(u.error), c, uf.asked, uf.remaining);
        return Fail(u.error);
      }
      username := u.value;

      ghost var pf := ResolveField(password, Getenv(env, PasswordVar), PasswordQuestion, true, w.input);
      var p := Cascade(password, PasswordVar, PasswordQuestion, true, env, w);
      if p.Err? {
        assert ResolveLogin(c, env, old(w.input))
          == Resolution(Fail(p.error), c.(username := u.value), uf.asked + pf.asked, pf.remaining);
        return Fail(p.error);
      }
      password := p.value;
      assert ResolveLogin(c, env, old(w.input))
        == Resolution(Pass, c.(username := u.value, password := p.value), uf.asked + pf.asked, pf.remaining);
      return Pass;
    }

    /** The TOTP part of getCredentials. */
    method SetTotp(env: map<string, string>)
      modifies this
      ensures Creds() == ResolveTotp(old(Creds()), env)
      ensures Settings() == old(Settings())
    {
      if totpSecret == [] {
        var fromEnv := Getenv(env, TotpSecretVar);
        if fromEnv != [] {
          totpSecret := fromEnv;
        } else {
          interactiveTotp := true;
        }
      }
    }
  }

  /** The username and password cascade of getCredentials: the command-line value `cli`
      if there is one, else the environment variable `key` if set, else an answer at
      the prompt for `question`. */
  method Cascade(cli: string, key: string, question: Question, secure: bool,
                 env: map<string, string>, w: World) returns (v: Result<string, PromptError>)
    modifies w
    ensures var f := ResolveField(cli, Getenv(env, key), question, secure, old(w.input));
      v == f.value && w.trace == old(w.trace) + f.asked && w.input == f.remaining
  {
    if cli != [] {
      return Ok(cli);
    }
    var fromEnv := Getenv(env, key);
    if fromEnv != [] {
      return Ok(fromEnv);
    }
    v := w.Ask(question, secure);
  }
}
