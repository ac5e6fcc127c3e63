/** runSSO (main.go:47-77): the three stages of a login, in order. The credentials are
    filled in first; then the device URL is taken from the configuration or, when none
    is configured, from the output of `aws sso login` on standard input; then the browser
    is driven. A failing stage ends the run with its error wrapped, and no later stage
    runs. */
module Sso {
  import opened Results
  import opened Prompt
  import opened Effects
  import opened Configuration
  import opened DeviceUrl
  import opened Login

  datatype SsoError =
    | CredentialsFailed(prompt: PromptError) // "failed to get credentials: %v"
    | StdinFailed(stdin: StdinError)         // "failed to read device URL from stdin: %v"
    | AutomationFailed(browser: LoginError)  // "browser automation failed: %v"

  /** Where the device URL comes from: a configured URL is used as it is, otherwise
      standard input (`lines`, then a read error if `readError`) is scanned for one. */
  function DeviceUrlFor(configured: string, lines: seq<string>, readError: bool): (r: Result<string, StdinError>)
    ensures configured != [] ==> r == Ok(configured)
    ensures configured == [] ==> r == DeviceUrlFromLines(lines, readError)
    ensures r.Ok? ==> r.value != []
  {
    if configured != [] then Ok(configured)
    else
      DeviceUrlFromLines(lines, readError)
  }

  /** How many lines of standard input the URL stage reads: none when a URL is
      configured. */
  function LinesReadFor(configured: string, lines: seq<string>): (n: nat)
    ensures n <= |lines|
    ensures configured != [] ==> n == 0
  {
    if configured != [] then 0 else LinesConsumed(lines)
  }

  /** The browser stage's error, wrapped. */
  function Wrapped(r: Outcome<LoginError>): (w: Outcome<SsoError>)
    ensures w.Pass? <==> r.Pass?
    ensures w.Fail? ==> w.error == AutomationFailed(r.error)
  {
    if r.Pass? then Pass else Fail(AutomationFailed(r.error))
  }

  /** runSSO with environment `env`, standard input `lines` (followed by a read error if
      `readError`) and clock reading `now`. Returns the result and how many lines of
      standard input were read. */
  method RunSso(cfg: Config, env: map<string, string>, w: World, lines: seq<string>,
                readError: bool, now: int)
    returns (r: Outcome<SsoError>, consumed: nat)
    modifies cfg, w
    // Whatever happens later, the Config holds the credentials getCredentials left in it,
    // and its other settings are unchanged.
    ensures var res := Resolve(old(cfg.Creds()), env, old(w.input));
      cfg.Creds() == res.creds && cfg.Settings() == old(cfg.Settings())
    // Stage 1: a failed credential prompt ends the run; only the prompts were shown.
    ensures var res := Resolve(old(cfg.Creds()), env, old(w.input));
      res.outcome.Fail? ==>
        r == Fail(CredentialsFailed(res.outcome.error)) && consumed == 0
        && w.trace == old(w.trace) + res.asked && w.input == res.remaining
    // Stage 2: the URL is the configured one, or the first one on standard input.
    ensures var res := Resolve(old(cfg.Creds()), env, old(w.input));
      var url := DeviceUrlFor(old(cfg.deviceUrl), lines, readError);
      res.outcome.Pass? ==>
        consumed == LinesReadFor(old(cfg.deviceUrl), lines)
        && (url.Err? ==> r == Fail(StdinFailed(url.error)) && w.trace == old(w.trace) + res.asked
                         && w.input == res.remaining)
    // Stage 3: the browser is driven with the credentials and the URL.
    ensures var res := Resolve(old(cfg.Creds()), env, old(w.input));
      var url := DeviceUrlFor(old(cfg.deviceUrl), lines, readError);
      res.outcome.Pass? && url.Ok? ==>
        var c := res.creds;
        var s := Setup(url.value, !old(cfg.showBrowser), c.username, c.password,
                       c.interactiveTotp, c.totpSecret, now);
        var run := LoginRun(s, w.fails, w.controlUrl, w.codeFor, NextRead(res.remaining));
        w.trace == old(w.trace) + res.asked + run.calls && r == Wrapped(run.result)
        && w.input == if c.interactiveTotp && |run.calls| > 12 then AfterRead(res.remaining)
                      else res.remaining
  {
    consumed := 0;
    var creds := cfg.GetCredentials(env, w);
    if creds.Fail? {
      return Fail(CredentialsFailed(creds.error)), consumed;
    }

    var deviceUrl;
    if cfg.deviceUrl != [] {
      deviceUrl := cfg.deviceUrl;
    } else {
      var found;
      found, consumed := ReadDeviceUrlFromStdin(lines, readError);
      if found.Err? {
        return Fail(StdinFailed(found.error)), consumed;
      }
      deviceUrl := found.value;
    }

    var login := AutomateBrowserLogin(deviceUrl, cfg, w, now);
    if login.Fail? {
      return Fail(AutomationFailed(login.error)), consumed;
    }
    return Pass, consumed;
  }
}
