/** automateBrowserLogin (browser.go:26-181): a fixed, straight-line sequence of calls to
    the browser and the TOTP source. The first call that fails ends the run with an error
    naming that call; once the browser is connected, it is closed on every way out, and
    a failure to close it does not change the result. */
module Login {
  import opened Results
  import opened Prompt
  import opened Effects
  import opened Configuration

  /** How long each element lookup may wait (DefaultTimeout). */
  const DefaultTimeoutSeconds: nat := 20

  const XPathUsername := "//*[@id=\"awsui-input-0\"]"
  const XPathPassword := "//*[@id=\"awsui-input-1\"]"
  const XPathTotp := "//*[@id=\"awsui-input-2\"]"
  /** Declared in browser.go but used by no step. */
  const XPathTotpLink :=
    "//*[@id=\"main-container\"]/div[2]/div/div/div[2]/div/form/awsui-form/div/div[2]/span/span/div[4]/div[2]/div/div/div/a"
  const XPathAllow1 := "//*[@id=\"cli_verification_btn\"]/span"
  const XPathAllow2 := "//*[@id=\":rl:\"]/div[3]/div/div/div[2]/button/span"
  const XPathSuccess := "//*[@id=\"alert-:r10:\"]/div[1]"

  /** The XPath each element is looked up by. */
  function XPath(e: Element): string {
    match e
    case UsernameField => XPathUsername
    case PasswordField => XPathPassword
    case TotpField => XPathTotp
    case AllowButton1 => XPathAllow1
    case AllowButton2 => XPathAllow2
    case SuccessMessage => XPathSuccess
  }

  /** Why a run failed: an element that was not found, with the XPath searched for
      ("... not found with XPath %s"); another call that failed; or the TOTP prompt's own
      error. */
  datatype LoginError =
    | NotFound(element: Element, xpath: string)
    | StepFailed(call: Call)
    | TotpPromptFailed(cause: PromptError)

  /** What automateBrowserLogin reads: the device URL, the Config fields it uses and the
      clock reading taken when a code is generated. */
  datatype Setup = Setup(deviceUrl: string, headless: bool, username: string, password: string,
                         interactiveTotp: bool, totpSecret: string, now: int)

  function SetupOf(deviceUrl: string, cfg: Config, now: int): Setup
    reads cfg
  {
    Setup(deviceUrl, !cfg.showBrowser, cfg.username, cfg.password,
          cfg.interactiveTotp, cfg.totpSecret, now)
  }

  /** How the TOTP code is obtained: asked for at the terminal in interactive mode,
      otherwise generated from the secret. */
  function TotpStep(s: Setup): (c: Call)
    ensures c.Ask? <==> s.interactiveTotp
    ensures c.Ask? ==> c == Ask(TotpQuestion, false)
    ensures !s.interactiveTotp ==> c.GenerateCode?
    ensures c.GenerateCode? ==> c.secret == s.totpSecret && c.now == s.now
  {
    if s.interactiveTotp then Ask(TotpQuestion, false) else GenerateCode(s.totpSecret, s.now)
  }

  /** How many calls a run makes when nothing fails (Close aside). */
  const PlanLength := 20

  /** The `i`-th call of a run in which nothing fails; `controlUrl` is what the launch
      reported and `code` the TOTP code obtained. */
  function PlanStep(s: Setup, controlUrl: string, code: string, i: nat): Call
    requires i < PlanLength
  {
    match i
    case 0 => Launch(s.headless)
    case 1 => Connect(controlUrl)
    case 2 => OpenPage(s.deviceUrl)
    case 3 => WaitLoad
    case 4 => Find(UsernameField, DefaultTimeoutSeconds)
    case 5 => Input(UsernameField, s.username)
    case 6 => PressEnter(UsernameField)
    case 7 => Find(PasswordField, DefaultTimeoutSeconds)
    case 8 => Input(PasswordField, s.password)
    case 9 => PressEnter(PasswordField)
    case 10 => Find(TotpField, DefaultTimeoutSeconds)
    case 11 => TotpStep(s)
    case 12 => Input(TotpField, code)
    case 13 => PressEnter(TotpField)
    case 14 => Find(AllowButton1, DefaultTimeoutSeconds)
    case 15 => Click(AllowButton1)
    case 16 => Find(AllowButton2, DefaultTimeoutSeconds)
    case 17 => Click(AllowButton2)
    case 18 => Find(SuccessMessage, DefaultTimeoutSeconds)
    case _ => ReadText(SuccessMessage)
  }

  /** Every call a run makes when nothing fails, in order. */
  function Plan(s: Setup, controlUrl: string, code: string): (p: seq<Call>)
    ensures |p| == PlanLength
    ensures forall i :: 0 <= i < PlanLength ==> p[i] == PlanStep(s, controlUrl, code, i)
  {
    seq(PlanLength, i requires 0 <= i < PlanLength => PlanStep(s, controlUrl, code, i))
  }

  /** How the collaborators answer one run: which calls fail, which call obtains the
      TOTP code, and what obtaining it gives. */
  datatype Responses = Responses(fails: Call -> bool, totpStep: Call, code: Result<string, LoginError>)

  predicate Succeeds(rs: Responses, c: Call) {
    if c == rs.totpStep then rs.code.Ok? else !rs.fails(c)
  }

  /** The error reported when browser call `c` fails: a failed lookup names the element
      and its XPath, any other call is reported as itself. */
  function BrowserError(c: Call): (e: LoginError)
    ensures e.NotFound? <==> c.Find?
    ensures e.NotFound? ==> e.element == c.element && e.xpath == XPath(c.element)
    ensures !c.Find? ==> e == StepFailed(c)
  {
    if c.Find? then NotFound(c.element, XPath(c.element)) else StepFailed(c)
  }

  /** The error a run reports when `c` fails. */
  function ErrorOf(rs: Responses, c: Call): LoginError {
    if c == rs.totpStep && rs.code.Err? then rs.code.error else BrowserError(c)
  }

  /** Obtaining the TOTP code: the prompt's answer, or the generator's code unless the
      generator fails. `next` is what the terminal read will return. */
  function AcquireCode(s: Setup, fails: Call -> bool, codeFor: (string, int) -> string,
                       next: ReadResult): (r: Result<string, LoginError>)
    ensures s.interactiveTotp ==>
      match PromptForInput(next, false)
      case Ok(v) => r == Ok(v)
      case Err(e) => r == Err(TotpPromptFailed(e))
    ensures !s.interactiveTotp ==>
      r == if fails(GenerateCode(s.totpSecret, s.now)) then Err(StepFailed(GenerateCode(s.totpSecret, s.now)))
           else Ok(codeFor(s.totpSecret, s.now))
    ensures r.Err? ==> !r.error.NotFound?
  {
    if s.interactiveTotp then
      match PromptForInput(next, false)
      case Ok(v) => Ok(v)
      case Err(e) => Err(TotpPromptFailed(e))
    else
      var c := GenerateCode(s.totpSecret, s.now);
      if fails(c) then Err(StepFailed(c)) else Ok(codeFor(s.totpSecret, s.now))
  }

  function ResponsesOf(s: Setup, fails: Call -> bool, codeFor: (string, int) -> string,
                       next: ReadResult): Responses
  {
    Responses(fails, TotpStep(s), AcquireCode(s, fails, codeFor, next))
  }

  /** The code typed into the TOTP field (any value once obtaining it has failed, as no
      later step then runs). */
  function CodeOr(code: Result<string, LoginError>): string {
    if code.Ok? then code.value else ""
  }

  /** The plan never closes the browser itself: Close is left to the deferred call. */
  lemma PlanHasNoClose(s: Setup, controlUrl: string, code: string)
    ensures Close !in Plan(s, controlUrl, code)
  {
    var plan := Plan(s, controlUrl, code);
    forall i | 0 <= i < |plan| ensures plan[i] != Close {
      assert plan[i] == PlanStep(s, controlUrl, code, i);
    }
  }

  /** `p` is the plan, call by call. */
  ghost predicate SpelledOut(p: seq<Call>, s: Setup, controlUrl: string, code: string)
  {
    |p| == PlanLength
    && p[0] == Launch(s.headless) && p[1] == Connect(controlUrl)
    && p[2] == OpenPage(s.deviceUrl) && p[3] == WaitLoad
    && p[4] == Find(UsernameField, DefaultTimeoutSeconds) && p[5] == Input(UsernameField, s.username)
    && p[6] == PressEnter(UsernameField) && p[7] == Find(PasswordField, DefaultTimeoutSeconds)
    && p[8] == Input(PasswordField, s.password) && p[9] == PressEnter(PasswordField)
    && p[10] == Find(TotpField, DefaultTimeoutSeconds) && p[11] == TotpStep(s)
    && p[12] == Input(TotpField, code) && p[13] == PressEnter(TotpField)
    && p[14] == Find(AllowButton1, DefaultTimeoutSeconds) && p[15] == Click(AllowButton1)
    && p[16] == Find(AllowButton2, DefaultTimeoutSeconds) && p[17] == Click(AllowButton2)
    && p[18] == Find(SuccessMessage, DefaultTimeoutSeconds) && p[19] == ReadText(SuccessMessage)
  }

  lemma PlanSpelledOut(s: Setup, controlUrl: string, code: string)
    ensures SpelledOut(Plan(s, controlUrl, code), s, controlUrl, code)
  {
  }

  /** Where the plan obtains the TOTP code and types it, and how long its lookups wait. */
  lemma PlanLandmarks(s: Setup, controlUrl: string, code: string, i: nat)
    requires i < PlanLength
    ensures var c := PlanStep(s, controlUrl, code, i);
      (c == TotpStep(s) <==> i == 11)
      && (c.Ask? ==> i == 11)
      && (c.Input? && c.element == TotpField <==> i == 12)
      && (c.Find? ==> 4 <= i && c == Find(c.element, DefaultTimeoutSeconds))
  {
  }

  /** The calls a run made and its result. */
  datatype Run = Run(calls: seq<Call>, result: Outcome<LoginError>)

  /** Runs `plan` in order until a call fails: the calls made are the plan up to and
      including the first failure, every call but the last succeeded, and the run
      succeeds exactly when every call of the plan does. */
  function Execute(plan: seq<Call>, rs: Responses): (r: Run)
    ensures |r.calls| <= |plan| && r.calls == plan[..|r.calls|]
    ensures forall j :: 0 <= j < |r.calls| - 1 ==> Succeeds(rs, r.calls[j])
    ensures r.result.Pass? <==> forall j :: 0 <= j < |plan| ==> Succeeds(rs, plan[j])
    ensures r.result.Pass? ==> r.calls == plan
    ensures r.result.Fail? ==>
      r.calls != [] && !Succeeds(rs, r.calls[|r.calls| - 1])
      && r.result.error == ErrorOf(rs, r.calls[|r.calls| - 1])
  {
    if plan == [] then Run([], Pass)
    else if !Succeeds(rs, plan[0]) then Run([plan[0]], Fail(ErrorOf(rs, plan[0])))
    else
      var rest := Execute(plan[1..], rs);
      Run([plan[0]] + rest.calls, rest.result)
  }

  /** After `done` successful calls, the next failing one ends the run. */
  lemma {:induction false} ExecuteStopsAt(plan: seq<Call>, rs: Responses, done: nat)
    requires done < |plan|
    requires forall j :: 0 <= j < done ==> Succeeds(rs, plan[j])
    requires !Succeeds(rs, plan[done])
    ensures Execute(plan, rs) == Run(plan[..done + 1], Fail(ErrorOf(rs, plan[done])))
  {
    if done > 0 {
      ExecuteStopsAt(plan[1..], rs, done - 1);
      assert [plan[0]] + plan[1..][..done] == plan[..done + 1];
    }
  }

  /** Execute depends only on how the calls of the plan are answered. */
  lemma {:induction false} ExecuteAgrees(plan: seq<Call>, rs1: Responses, rs2: Responses)
    requires forall j :: 0 <= j < |plan| ==> Succeeds(rs1, plan[j]) == Succeeds(rs2, plan[j])
    requires forall j :: 0 <= j < |plan| ==> ErrorOf(rs1, plan[j]) == ErrorOf(rs2, plan[j])
    ensures Execute(plan, rs1) == Execute(plan, rs2)
  {
    if plan != [] {
      ExecuteAgrees(plan[1..], rs1, rs2);
    }
  }

  /** The deferred Close: once the first two calls (launch and connect) have been made
      and succeeded, the browser is closed after the last call, whatever the result. */
  function WithClose(run: Run): Run {
    Run(run.calls + (if |run.calls| > 2 then [Close] else []), run.result)
  }

  /** A run that ended at launch or connect is not followed by Close. */
  lemma NotClosedBeforeConnect(run: Run)
    requires |run.calls| <= 2
    ensures WithClose(run) == run
  {
  }

  /** A run that got past connect, followed by Close, is the run WithClose gives. */
  lemma ClosedAfterConnect(run: Run, t0: seq<Call>, before: seq<Call>, after: seq<Call>)
    requires |run.calls| > 2 && before == t0 + run.calls && after == before + [Close]
    ensures after == t0 + WithClose(run).calls
  {
  }

  /** For any plan: the calls made are a non-empty prefix of the plan, followed by Close
      exactly when that prefix is longer than the launch and the connection. */
  lemma RunIsPrefixThenClose(plan: seq<Call>, rs: Responses)
    requires plan != []
    ensures var run := WithClose(Execute(plan, rs));
      exists n :: 1 <= n <= |plan|
        && run.calls == plan[..n] + (if n > 2 then [Close] else [])
        && (forall j :: 0 <= j < n - 1 ==> Succeeds(rs, plan[j]))
        && (run.result.Pass? <==> n == |plan| && Succeeds(rs, plan[n - 1]))
        && (run.result.Fail? ==> !Succeeds(rs, plan[n - 1])
                                 && run.result.error == ErrorOf(rs, plan[n - 1]))
  {
    var exec := Execute(plan, rs);
    var n := |exec.calls|;
    assert exec.calls[n - 1] == plan[n - 1];
    PlannedCallsSucceeded(plan, rs);
  }

  /** Every call of a run but the last is a planned call that succeeded. */
  lemma PlannedCallsSucceeded(plan: seq<Call>, rs: Responses)
    ensures forall j :: 0 <= j < |Execute(plan, rs).calls| - 1 ==> Succeeds(rs, plan[j])
  {
    var calls := Execute(plan, rs).calls;
    forall j | 0 <= j < |calls| - 1 ensures Succeeds(rs, plan[j]) {
      assert calls[j] == plan[j];
    }
  }

  /** A call the plan does not contain is never made. */
  lemma ExecuteOnlyPlanned(plan: seq<Call>, rs: Responses, c: Call)
    requires c !in plan
    ensures c !in Execute(plan, rs).calls
  {
    var calls := Execute(plan, rs).calls;
    forall i | 0 <= i < |calls| ensures calls[i] != c {
      assert calls[i] == plan[i];
    }
  }

  /** For a plan of more than two calls, the run gets past its first two calls exactly
      when both succeed. */
  lemma ExecutePastFirstTwo(plan: seq<Call>, rs: Responses)
    requires |plan| > 2
    ensures |Execute(plan, rs).calls| > 2 <==> Succeeds(rs, plan[0]) && Succeeds(rs, plan[1])
  {
    var calls := Execute(plan, rs).calls;
    if |calls| <= 2 {
      assert calls[|calls| - 1] == plan[|calls| - 1];
    }
    if |calls| > 2 {
      assert calls[0] == plan[0] && calls[1] == plan[1];
    }
  }

  /** For any plan without Close: Close is called once, as the last call, when the first
      two calls succeed, and never otherwise. */
  lemma CloseOnceAfterConnect(plan: seq<Call>, rs: Responses)
    requires |plan| > 2 && Close !in plan
    ensures var calls := WithClose(Execute(plan, rs)).calls;
      multiset(calls)[Close] == (if Succeeds(rs, plan[0]) && Succeeds(rs, plan[1]) then 1 else 0)
      && (multiset(calls)[Close] == 1 ==> calls[|calls| - 1] == Close)
  {
    var exec := Execute(plan, rs);
    ExecuteOnlyPlanned(plan, rs, Close);
    ExecutePastFirstTwo(plan, rs);
    CountClose(exec.calls, |exec.calls| > 2);
  }

  /** Appending Close to calls without one makes it occur once, and last. */
  lemma CountClose(calls: seq<Call>, closed: bool)
    requires Close !in calls
    ensures var all := calls + (if closed then [Close] else []);
      multiset(all)[Close] == (if closed then 1 else 0)
      && (closed ==> all[|all| - 1] == Close)
  {
    assert multiset(calls)[Close] == 0;
  }

  /** For any plan without Close: a call of the run other than Close is the planned call
      at the same index, and the call before it was made and succeeded. */
  lemma MadeCallAt(plan: seq<Call>, rs: Responses, i: nat)
    requires Close !in plan
    requires i < |WithClose(Execute(plan, rs)).calls| && WithClose(Execute(plan, rs)).calls[i] != Close
    ensures var exec := Execute(plan, rs);
      i < |exec.calls| && WithClose(exec).calls[i] == plan[i]
      && (i > 0 ==> WithClose(exec).calls[i - 1] == plan[i - 1] && Succeeds(rs, plan[i - 1]))
  {
    var exec := Execute(plan, rs);
    if i > 0 {
      assert exec.calls[i - 1] == plan[i - 1];
    }
  }

  /** For any plan whose lookups all come after launch and connect and wait
      DefaultTimeout, and whose code source never fails with a lookup error: a "not found"
      run ends with the failed lookup of that element, then Close, and the error carries
      the element's XPath. */
  lemma NotFoundIsLastLookup(plan: seq<Call>, rs: Responses)
    requires forall i :: 0 <= i < |plan| && plan[i].Find? ==>
      2 <= i && plan[i] == Find(plan[i].element, DefaultTimeoutSeconds)
    requires rs.code.Err? ==> !rs.code.error.NotFound?
    ensures var run := WithClose(Execute(plan, rs));
      run.result.Fail? && run.result.error.NotFound? ==>
        |run.calls| >= 2
        && run.result.error.xpath == XPath(run.result.error.element)
        && run.calls[|run.calls| - 1] == Close
        && run.calls[|run.calls| - 2] == Find(run.result.error.element, DefaultTimeoutSeconds)
  {
    var exec := Execute(plan, rs);
    if exec.result.Fail? && exec.result.error.NotFound? {
      var k := |exec.calls| - 1;
      assert exec.calls[k] == plan[k];
      assert plan[k].Find? && exec.result.error == BrowserError(plan[k]);
    }
  }

  /** For any plan, a call planned at index `k` alone (and which is not Close) is made
      exactly when the run gets past `k` calls. */
  lemma MadeIffReached(plan: seq<Call>, rs: Responses, c: Call, k: nat)
    requires k < |plan| && plan[k] == c && c != Close
    requires forall i :: 0 <= i < |plan| && plan[i] == c ==> i == k
    ensures c in WithClose(Execute(plan, rs)).calls <==> |Execute(plan, rs).calls| > k
  {
    var exec := Execute(plan, rs);
    var calls := WithClose(exec).calls;
    if c in calls {
      var i :| 0 <= i < |calls| && calls[i] == c;
      assert i < |exec.calls| && exec.calls[i] == plan[i];
    }
    if |exec.calls| > k {
      assert calls[k] == exec.calls[k] == plan[k];
    }
  }

  /** The whole of automateBrowserLogin: the planned calls up to the first failure,
      followed by Close when the browser got connected, and the result. */
  function LoginRun(s: Setup, fails: Call -> bool, controlUrl: string,
                    codeFor: (string, int) -> string, next: ReadResult): (r: Run)
    ensures r.calls != [] && r.calls[0] == Launch(s.headless)
  {
    var rs := ResponsesOf(s, fails, codeFor, next);
    WithClose(Execute(Plan(s, controlUrl, CodeOr(rs.code)), rs))
  }

  /** A run makes its calls in the planned order and none after the first failure:
      every call but the last (leaving Close aside) succeeded, and a failed run reports
      the call that failed. */
  lemma NothingAfterFirstFailure(s: Setup, fails: Call -> bool, controlUrl: string,
                                 codeFor: (string, int) -> string, next: ReadResult)
    ensures var rs := ResponsesOf(s, fails, codeFor, next);
      var plan := Plan(s, controlUrl, CodeOr(rs.code));
      var run := LoginRun(s, fails, controlUrl, codeFor, next);
      exists n :: 1 <= n <= |plan|
        && run.calls == plan[..n] + (if n > 2 then [Close] else [])
        && (forall j :: 0 <= j < n - 1 ==> Succeeds(rs, plan[j]))
        && (run.result.Pass? <==> n == |plan| && Succeeds(rs, plan[n - 1]))
        && (run.result.Fail? ==> !Succeeds(rs, plan[n - 1])
                                 && run.result.error == ErrorOf(rs, plan[n - 1]))
  {
    var rs := ResponsesOf(s, fails, codeFor, next);
    RunIsPrefixThenClose(Plan(s, controlUrl, CodeOr(rs.code)), rs);
  }

  /** Close is called exactly once when the launch and the connection both succeed,
      and then as the last call; otherwise it is never called. */
  lemma ClosedExactlyOnceIffConnected(s: Setup, fails: Call -> bool, controlUrl: string,
                                      codeFor: (string, int) -> string, next: ReadResult)
    ensures var calls := LoginRun(s, fails, controlUrl, codeFor, next).calls;
      multiset(calls)[Close] == (if !fails(Launch(s.headless)) && !fails(Connect(controlUrl)) then 1 else 0)
      && (multiset(calls)[Close] == 1 ==> calls[|calls| - 1] == Close)
  {
    var rs := ResponsesOf(s, fails, codeFor, next);
    var plan := Plan(s, controlUrl, CodeOr(rs.code));
    PlanHasNoClose(s, controlUrl, CodeOr(rs.code));
    CloseOnceAfterConnect(plan, rs);
    assert plan[0] == Launch(s.headless) && plan[1] == Connect(controlUrl);
  }

  /** Two runs whose collaborators answer every call alike except Close make the same
      calls and return the same result: a failure to close changes nothing. */
  lemma CloseFailureDoesNotChangeResult(s: Setup, fails1: Call -> bool, fails2: Call -> bool,
                                        controlUrl: string, codeFor: (string, int) -> string,
                                        next: ReadResult)
    requires forall c :: c != Close ==> fails1(c) == fails2(c)
    ensures LoginRun(s, fails1, controlUrl, codeFor, next) == LoginRun(s, fails2, controlUrl, codeFor, next)
  {
    var rs1 := ResponsesOf(s, fails1, codeFor, next);
    var rs2 := ResponsesOf(s, fails2, codeFor, next);
    assert rs1.code == rs2.code;
    var plan := Plan(s, controlUrl, CodeOr(rs1.code));
    PlanHasNoClose(s, controlUrl, CodeOr(rs1.code));
    ExecuteAgrees(plan, rs1, rs2);
  }

  /** The TOTP code is obtained only after the TOTP field has been found, and the code
      typed into that field is the one obtained, immediately after obtaining it. */
  lemma TotpCodeTakenBetweenFindAndFill(s: Setup, fails: Call -> bool, controlUrl: string,
                                        codeFor: (string, int) -> string, next: ReadResult)
    ensures var rs := ResponsesOf(s, fails, codeFor, next);
      var calls := LoginRun(s, fails, controlUrl, codeFor, next).calls;
      (forall i :: 0 <= i < |calls| && calls[i] == TotpStep(s) ==>
         1 <= i && calls[i - 1] == Find(TotpField, DefaultTimeoutSeconds) && Succeeds(rs, calls[i - 1]))
      && (forall i :: 0 <= i < |calls| && calls[i].Input? && calls[i].element == TotpField ==>
            1 <= i && calls[i - 1] == TotpStep(s) && rs.code == Ok(calls[i].text))
  {
    var rs := ResponsesOf(s, fails, codeFor, next);
    var code := CodeOr(rs.code);
    var plan := Plan(s, controlUrl, code);
    PlanHasNoClose(s, controlUrl, code);
    var calls := LoginRun(s, fails, controlUrl, codeFor, next).calls;
    forall i | 0 <= i < |calls| && calls[i] == TotpStep(s)
      ensures 1 <= i && calls[i - 1] == Find(TotpField, DefaultTimeoutSeconds) && Succeeds(rs, calls[i - 1])
    {
      MadeCallAt(plan, rs, i);
      PlanLandmarks(s, controlUrl, code, i);
    }
    forall i | 0 <= i < |calls| && calls[i].Input? && calls[i].element == TotpField
      ensures 1 <= i && calls[i - 1] == TotpStep(s) && rs.code == Ok(calls[i].text)
    {
      MadeCallAt(plan, rs, i);
      PlanLandmarks(s, controlUrl, code, i);
    }
  }

  /** A run succeeds exactly when every planned call succeeds; it then ends by finding
      the success message, reading its text and closing the browser. */
  lemma SucceedsOnlyAfterSuccessMessage(s: Setup, fails: Call -> bool, controlUrl: string,
                                        codeFor: (string, int) -> string, next: ReadResult)
    ensures var rs := ResponsesOf(s, fails, codeFor, next);
      var plan := Plan(s, controlUrl, CodeOr(rs.code));
      var run := LoginRun(s, fails, controlUrl, codeFor, next);
      (run.result.Pass? <==> forall j :: 0 <= j < |plan| ==> Succeeds(rs, plan[j]))
      && (run.result.Pass? ==>
            run.calls == plan + [Close]
            && run.calls[|run.calls| - 3..] == [Find(SuccessMessage, DefaultTimeoutSeconds), ReadText(SuccessMessage), Close])
  {
    var rs := ResponsesOf(s, fails, codeFor, next);
    var plan := Plan(s, controlUrl, CodeOr(rs.code));
    assert plan[18] == Find(SuccessMessage, DefaultTimeoutSeconds) && plan[19] == ReadText(SuccessMessage);
  }

  /** Every lookup of an element waits DefaultTimeout. */
  lemma LookupsWaitDefaultTimeout(s: Setup, fails: Call -> bool, controlUrl: string,
                                  codeFor: (string, int) -> string, next: ReadResult)
    ensures var calls := LoginRun(s, fails, controlUrl, codeFor, next).calls;
      forall i :: 0 <= i < |calls| && calls[i].Find? ==> calls[i].timeoutSeconds == DefaultTimeoutSeconds
  {
    var rs := ResponsesOf(s, fails, codeFor, next);
    var code := CodeOr(rs.code);
    var plan := Plan(s, controlUrl, code);
    var calls := LoginRun(s, fails, controlUrl, codeFor, next).calls;
    PlanHasNoClose(s, controlUrl, code);
    forall i | 0 <= i < |calls| && calls[i].Find?
      ensures calls[i].timeoutSeconds == DefaultTimeoutSeconds
    {
      MadeCallAt(plan, rs, i);
      PlanLandmarks(s, controlUrl, code, i);
    }
  }

  /** A lookup failure reports the element that was not found with the XPath it was
      searched by; that lookup was the last call before Close. */
  lemma NotFoundNamesItsXPath(s: Setup, fails: Call -> bool, controlUrl: string,
                              codeFor: (string, int) -> string, next: ReadResult)
    ensures var run := LoginRun(s, fails, controlUrl, codeFor, next);
      run.result.Fail? && run.result.error.NotFound? ==>
        |run.calls| >= 2
        && run.result.error.xpath == XPath(run.result.error.element)
        && run.calls[|run.calls| - 1] == Close
        && run.calls[|run.calls| - 2] == Find(run.result.error.element, DefaultTimeoutSeconds)
  {
    var rs := ResponsesOf(s, fails, codeFor, next);
    var code := CodeOr(rs.code);
    var plan := Plan(s, controlUrl, code);
    forall i | 0 <= i < |plan| && plan[i].Find?
      ensures 2 <= i && plan[i] == Find(plan[i].element, DefaultTimeoutSeconds)
    {
      PlanLandmarks(s, controlUrl, code, i);
    }
    NotFoundIsLastLookup(plan, rs);
  }

  /** In interactive mode the terminal is read for the code exactly when the run gets as
      far as obtaining it: twelve planned calls, then Close. */
  lemma TotpPromptedIffReached(s: Setup, fails: Call -> bool, controlUrl: string,
                               codeFor: (string, int) -> string, next: ReadResult)
    requires s.interactiveTotp
    ensures var calls := LoginRun(s, fails, controlUrl, codeFor, next).calls;
      Ask(TotpQuestion, false) in calls <==> |calls| > 12
  {
    var rs := ResponsesOf(s, fails, codeFor, next);
    var code := CodeOr(rs.code);
    var plan := Plan(s, controlUrl, code);
    forall i | 0 <= i < |plan| && plan[i] == Ask(TotpQuestion, false) ensures i == 11 {
      PlanLandmarks(s, controlUrl, code, i);
    }
    MadeIffReached(plan, rs, Ask(TotpQuestion, false), 11);
  }

  /** A run in which only the lookup of the second Allow button fails: the error names
      that button and its XPath, sixteen planned calls succeed before the failed lookup,
      and the browser is closed last. */
  lemma SecondAllowButtonMissing(s: Setup, controlUrl: string, codeFor: (string, int) -> string)
    requires !s.interactiveTotp
    ensures var fails := (c: Call) => c == Find(AllowButton2, DefaultTimeoutSeconds);
      var run := LoginRun(s, fails, controlUrl, codeFor, ReadFailed);
      run.result == Fail(NotFound(AllowButton2, XPathAllow2))
      && |run.calls| == 18 && run.calls[16] == Find(AllowButton2, DefaultTimeoutSeconds)
      && run.calls[17] == Close
  {
    var fails := (c: Call) => c == Find(AllowButton2, DefaultTimeoutSeconds);
    var rs := ResponsesOf(s, fails, codeFor, ReadFailed);
    var code := CodeOr(rs.code);
    var plan := Plan(s, controlUrl, code);
    assert rs.code == Ok(codeFor(s.totpSecret, s.now));
    forall j | 0 <= j < 16 ensures Succeeds(rs, plan[j]) {
      assert plan[j] == PlanStep(s, controlUrl, code, j);
    }
    assert plan[16] == Find(AllowButton2, DefaultTimeoutSeconds);
    ExecuteStopsAt(plan, rs, 16);
  }

  /** Every planned call up to `k` has been made, in order, and has succeeded. */
  ghost predicate Reached(trace: seq<Call>, t0: seq<Call>, plan: seq<Call>, rs: Responses, k: nat) {
    k <= |plan| && trace == t0 + plan[..k] && forall j :: 0 <= j < k ==> Succeeds(rs, plan[j])
  }

  /** The run has ended with result `r`: the calls made are all those of the run. */
  ghost predicate Ended(trace: seq<Call>, t0: seq<Call>, plan: seq<Call>, rs: Responses,
                        r: Outcome<LoginError>) {
    var run := Execute(plan, rs);
    trace == t0 + run.calls && r == run.result
  }

  /** Performs the `done`-th planned call, a browser call: the run either goes on with
      one more call done, or ends here with that call's error. */
  method Step(w: World, c: Call, ghost plan: seq<Call>, ghost rs: Responses, ghost t0: seq<Call>,
              ghost done: nat) returns (r: Outcome<LoginError>)
    requires done < |plan| && plan[done] == c && rs.fails == w.fails
    requires !c.Ask? && !c.GenerateCode? && (rs.totpStep.Ask? || rs.totpStep.GenerateCode?)
    requires Reached(w.trace, t0, plan, rs, done)
    modifies w
    ensures w.input == old(w.input)
    ensures r.Pass? ==> Reached(w.trace, t0, plan, rs, done + 1)
    ensures r.Fail? ==> Ended(w.trace, t0, plan, rs, r) && |Execute(plan, rs).calls| == done + 1
    ensures r.Fail? ==> r.error == BrowserError(c)
  {
    var ok := w.Perform(c);
    assert plan[..done + 1] == plan[..done] + [c];
    if !ok {
      ExecuteStopsAt(plan, rs, done);
      return Fail(BrowserError(c));
    }
    return Pass;
  }

  /** automateBrowserLogin: launch, connect, then the page steps; the browser is closed
      after the page steps whatever their outcome (the deferred Close), and the result
      of closing is ignored. The terminal is read only for an interactive TOTP code. */
  method AutomateBrowserLogin(deviceUrl: string, cfg: Config, w: World, now: int)
    returns (r: Outcome<LoginError>)
    modifies w
    ensures var run := LoginRun(SetupOf(deviceUrl, cfg, now), w.fails, w.controlUrl, w.codeFor,
                                NextRead(old(w.input)));
      w.trace == old(w.trace) + run.calls && r == run.result
      && w.input == if cfg.interactiveTotp && |run.calls| > 12 then AfterRead(old(w.input)) else old(w.input)
  {
    ghost var s := SetupOf(deviceUrl, cfg, now);
    ghost var rs := ResponsesOf(s, w.fails, w.codeFor, NextRead(w.input));
    ghost var plan := Plan(s, w.controlUrl, CodeOr(rs.code));
    r := Drive(w, deviceUrl, !cfg.showBrowser, cfg.username, cfg.password, cfg.interactiveTotp,
               cfg.totpSecret, now, s, plan, rs, w.trace);
  }

  /** automateBrowserLogin on its inputs, run as `plan` says. This layer and DriveSpelled
      stand for no separate function of browser.go: they split automateBrowserLogin's
      proof in two so that each stays small. Drive only spells the plan out call by call
      (PlanSpelledOut); DriveSpelled then makes the calls against that spelled-out plan. */
  method Drive(w: World, deviceUrl: string, headless: bool, username: string, password: string,
               interactive: bool, secret: string, now: int,
               ghost s: Setup, ghost plan: seq<Call>, ghost rs: Responses, ghost t0: seq<Call>)
    returns (r: Outcome<LoginError>)
    requires s == Setup(deviceUrl, headless, username, password, interactive, secret, now)
    requires rs == ResponsesOf(s, w.fails, w.codeFor, NextRead(w.input))
    requires plan == Plan(s, w.controlUrl, CodeOr(rs.code))
    requires w.trace == t0
    modifies w
    ensures var run := WithClose(Execute(plan, rs));
      w.trace == t0 + run.calls && r == run.result
      && w.input == if interactive && |run.calls| > 12 then AfterRead(old(w.input)) else old(w.input)
  {
    PlanSpelledOut(s, w.controlUrl, CodeOr(rs.code));
    r := DriveSpelled(w, deviceUrl, headless, username, password, interactive, secret, now,
                      s, plan, rs, t0);
  }

  /** The body of automateBrowserLogin (browser.go:26-181), with the plan given call by
      call: launch and connect, the sign-in steps, then the deferred Close. */
  method DriveSpelled(w: World, deviceUrl: string, headless: bool, username: string, password: string,
                      interactive: bool, secret: string, now: int,
                      ghost s: Setup, ghost plan: seq<Call>, ghost rs: Responses, ghost t0: seq<Call>)
    returns (r: Outcome<LoginError>)
    requires s == Setup(deviceUrl, headless, username, password, interactive, secret, now)
    requires rs == ResponsesOf(s, w.fails, w.codeFor, NextRead(w.input))
    requires SpelledOut(plan, s, w.controlUrl, CodeOr(rs.code))
    requires w.trace == t0
    modifies w
    ensures var run := WithClose(Execute(plan, rs));
      w.trace == t0 + run.calls && r == run.result
      && w.input == if interactive && |run.calls| > 12 then AfterRead(old(w.input)) else old(w.input)
  {
    ghost var exec := Execute(plan, rs);
    r := Start(w, headless, plan, rs, t0);
    if r.Fail? {
      NotClosedBeforeConnect(exec);
      return;
    }
    r := FollowPlan(w, deviceUrl, username, password, interactive, secret, now, s, w.controlUrl, plan, rs, t0);
    ghost var before := w.trace;
    var closed := w.Perform(Close);
    ClosedAfterConnect(exec, t0, before, w.trace);
  }

  /** Launching the browser and connecting to the control URL the launch reports
      (browser.go:37-46): planned calls 0 and 1. No Close follows a failure here. */
  method Start(w: World, headless: bool, ghost plan: seq<Call>, ghost rs: Responses, ghost t0: seq<Call>)
    returns (r: Outcome<LoginError>)
    requires |plan| > 2 && plan[0] == Launch(headless) && plan[1] == Connect(w.controlUrl)
    requires rs.fails == w.fails && (rs.totpStep.Ask? || rs.totpStep.GenerateCode?)
    requires w.trace == t0
    modifies w
    ensures w.input == old(w.input)
    ensures r.Pass? ==> Reached(w.trace, t0, plan, rs, 2)
    ensures r.Fail? ==> Ended(w.trace, t0, plan, rs, r) && |Execute(plan, rs).calls| <= 2
  {
    var launched, url := w.Launch(headless);
    if !launched {
      ExecuteStopsAt(plan, rs, 0);
      return Fail(StepFailed(Launch(headless)));
    }
    assert w.trace == t0 + plan[..1];
    r := Step(w, Connect(url), plan, rs, t0, 1);
  }

  /** Everything automateBrowserLogin does between connecting and the deferred Close
      (browser.go:53-181): planned calls 2 to 19, stopping at the first failure. */
  method FollowPlan(w: World, deviceUrl: string, username: string, password: string,
                    interactive: bool, secret: string, now: int,
                    ghost s: Setup, ghost controlUrl: string,
                    ghost plan: seq<Call>, ghost rs: Responses, ghost t0: seq<Call>)
    returns (r: Outcome<LoginError>)
    requires s == Setup(deviceUrl, s.headless, username, password, interactive, secret, now)
    requires rs == ResponsesOf(s, w.fails, w.codeFor, NextRead(w.input))
    requires SpelledOut(plan, s, controlUrl, CodeOr(rs.code))
    requires Reached(w.trace, t0, plan, rs, 2)
    modifies w
    ensures var exec := Execute(plan, rs);
      w.trace == t0 + exec.calls && r == exec.result && |exec.calls| > 2
      && w.input == if interactive && |exec.calls| > 11 then AfterRead(old(w.input)) else old(w.input)
  {
    r := SignIn(w, deviceUrl, username, password, plan, rs, t0);
    if r.Fail? { return; }
    r := EnterTotp(w, interactive, secret, now, s, plan, rs, t0);
    if r.Fail? { return; }
    r := Approve(w, plan, rs, t0);
  }

  /** Opening the device page and submitting the username and the password
      (browser.go:53-105): planned calls 2 to 9. */
  method SignIn(w: World, deviceUrl: string, username: string, password: string,
                ghost plan: seq<Call>, ghost rs: Responses, ghost t0: seq<Call>)
    returns (r: Outcome<LoginError>)
    requires |plan| == PlanLength && rs.fails == w.fails && (rs.totpStep.Ask? || rs.totpStep.GenerateCode?)
    requires plan[2] == OpenPage(deviceUrl) && plan[3] == WaitLoad
    requires plan[4] == Find(UsernameField, DefaultTimeoutSeconds) && plan[5] == Input(UsernameField, username)
    requires plan[6] == PressEnter(UsernameField) && plan[7] == Find(PasswordField, DefaultTimeoutSeconds)
    requires plan[8] == Input(PasswordField, password) && plan[9] == PressEnter(PasswordField)
    requires Reached(w.trace, t0, plan, rs, 2)
    modifies w
    ensures w.input == old(w.input)
    ensures r.Pass? ==> Reached(w.trace, t0, plan, rs, 10)
    ensures r.Fail? ==> Ended(w.trace, t0, plan, rs, r) && 2 < |Execute(plan, rs).calls| <= 10
  {
    r := EnterUsername(w, deviceUrl, username, plan, rs, t0);
    if r.Fail? { return; }
    r := EnterPassword(w, password, plan, rs, t0);
  }

  /** Opening the device page and submitting the username (browser.go:53-84):
      planned calls 2 to 6. */
  method EnterUsername(w: World, deviceUrl: string, username: string,
                       ghost plan: seq<Call>, ghost rs: Responses, ghost t0: seq<Call>)
    returns (r: Outcome<LoginError>)
    requires |plan| == PlanLength && rs.fails == w.fails && (rs.totpStep.Ask? || rs.totpStep.GenerateCode?)
    requires plan[2] == OpenPage(deviceUrl) && plan[3] == WaitLoad
    requires plan[4] == Find(UsernameField, DefaultTimeoutSeconds) && plan[5] == Input(UsernameField, username)
    requires plan[6] == PressEnter(UsernameField)
    requires Reached(w.trace, t0, plan, rs, 2)
    modifies w
    ensures w.input == old(w.input)
    ensures r.Pass? ==> Reached(w.trace, t0, plan, rs, 7)
    ensures r.Fail? ==> Ended(w.trace, t0, plan, rs, r) && 2 < |Execute(plan, rs).calls| <= 7
  {
    r := Step(w, OpenPage(deviceUrl), plan, rs, t0, 2);
    if r.Fail? { return; }
    r := Step(w, WaitLoad, plan, rs, t0, 3);
    if r.Fail? { return; }
    r := Step(w, Find(UsernameField, DefaultTimeoutSeconds), plan, rs, t0, 4);
    if r.Fail? { return; }
    r := Step(w, Input(UsernameField, username), plan, rs, t0, 5);
    if r.Fail? { return; }
    r := Step(w, PressEnter(UsernameField), plan, rs, t0, 6);
  }

  /** Submitting the password (browser.go:86-104): planned calls 7 to 9. */
  method EnterPassword(w: World, password: string,
                       ghost plan: seq<Call>, ghost rs: Responses, ghost t0: seq<Call>)
    returns (r: Outcome<LoginError>)
    requires |plan| == PlanLength && rs.fails == w.fails && (rs.totpStep.Ask? || rs.totpStep.GenerateCode?)
    requires plan[7] == Find(PasswordField, DefaultTimeoutSeconds)
    requires plan[8] == Input(PasswordField, password) && plan[9] == PressEnter(PasswordField)
    requires Reached(w.trace, t0, plan, rs, 7)
    modifies w
    ensures w.input == old(w.input)
    ensures r.Pass? ==> Reached(w.trace, t0, plan, rs, 10)
    ensures r.Fail? ==> Ended(w.trace, t0, plan, rs, r) && 7 < |Execute(plan, rs).calls| <= 10
  {
    r := Step(w, Find(PasswordField, DefaultTimeoutSeconds), plan, rs, t0, 7);
    if r.Fail? { return; }
    r := Step(w, Input(PasswordField, password), plan, rs, t0, 8);
    if r.Fail? { return; }
    r := Step(w, PressEnter(PasswordField), plan, rs, t0, 9);
  }

  /** Finding the TOTP field, obtaining the code and submitting it (browser.go:107-142):
      planned calls 10 to 13. */
  method EnterTotp(w: World, interactive: bool, secret: string, now: int, ghost s: Setup,
                   ghost plan: seq<Call>, ghost rs: Responses, ghost t0: seq<Call>)
    returns (r: Outcome<LoginError>)
    requires s.interactiveTotp == interactive && s.totpSecret == secret && s.now == now
    requires rs == ResponsesOf(s, w.fails, w.codeFor, NextRead(w.input))
    requires |plan| == PlanLength && plan[10] == Find(TotpField, DefaultTimeoutSeconds)
    requires plan[11] == TotpStep(s) && plan[12] == Input(TotpField, CodeOr(rs.code))
    requires plan[13] == PressEnter(TotpField)
    requires Reached(w.trace, t0, plan, rs, 10)
    modifies w
    ensures w.input == if interactive && (r.Pass? || |Execute(plan, rs).calls| > 11)
                       then AfterRead(old(w.input)) else old(w.input)
    ensures r.Pass? ==> Reached(w.trace, t0, plan, rs, 14)
    ensures r.Fail? ==> Ended(w.trace, t0, plan, rs, r) && 10 < |Execute(plan, rs).calls| <= 14
  {
    r := Step(w, Find(TotpField, DefaultTimeoutSeconds), plan, rs, t0, 10);
    if r.Fail? { return; }

    var code;
    code, r := ObtainCode(w, interactive, secret, now, s, plan, rs, t0);
    if r.Fail? { return; }

    r := Step(w, Input(TotpField, code), plan, rs, t0, 12);
    if r.Fail? { return; }
    r := Step(w, PressEnter(TotpField), plan, rs, t0, 13);
  }

  /** Obtaining the TOTP code (browser.go:115-130), planned call 11: asked for at the
      terminal in interactive mode, otherwise generated from the secret at `now`. */
  method ObtainCode(w: World, interactive: bool, secret: string, now: int, ghost s: Setup,
                    ghost plan: seq<Call>, ghost rs: Responses, ghost t0: seq<Call>)
    returns (code: string, r: Outcome<LoginError>)
    requires s.interactiveTotp == interactive && s.totpSecret == secret && s.now == now
    requires rs == ResponsesOf(s, w.fails, w.codeFor, NextRead(w.input))
    requires |plan| == PlanLength && plan[11] == TotpStep(s)
    requires Reached(w.trace, t0, plan, rs, 11)
    modifies w
    ensures w.input == if interactive then AfterRead(old(w.input)) else old(w.input)
    ensures r.Pass? ==> Reached(w.trace, t0, plan, rs, 12) && code == CodeOr(rs.code)
    ensures r.Fail? ==> Ended(w.trace, t0, plan, rs, r) && |Execute(plan, rs).calls| == 12
  {
    if interactive {
      var answer := w.Ask(TotpQuestion, false);
      if answer.Err? {
        code, r := "", Fail(TotpPromptFailed(answer.error));
      } else {
        code, r := answer.value, Pass;
      }
    } else {
      var generated;
      generated, code := w.GenerateCode(secret, now);
      r := if generated then Pass else Fail(StepFailed(GenerateCode(secret, now)));
    }
    assert w.trace == t0 + plan[..11] + [plan[11]];
    assert plan[..12] == plan[..11] + [plan[11]];
    if r.Fail? {
      ExecuteStopsAt(plan, rs, 11);
    }
  }

  /** The two Allow buttons and the success message (browser.go:144-181): planned calls
      14 to 19. */
  method Approve(w: World, ghost plan: seq<Call>, ghost rs: Responses, ghost t0: seq<Call>)
    returns (r: Outcome<LoginError>)
    requires |plan| == PlanLength && rs.fails == w.fails && (rs.totpStep.Ask? || rs.totpStep.GenerateCode?)
    requires plan[14] == Find(AllowButton1, DefaultTimeoutSeconds) && plan[15] == Click(AllowButton1)
    requires plan[16] == Find(AllowButton2, DefaultTimeoutSeconds) && plan[17] == Click(AllowButton2)
    requires plan[18] == Find(SuccessMessage, DefaultTimeoutSeconds) && plan[19] == ReadText(SuccessMessage)
    requires Reached(w.trace, t0, plan, rs, 14)
    modifies w
    ensures w.input == old(w.input)
    ensures Ended(w.trace, t0, plan, rs, r) && 14 < |Execute(plan, rs).calls|
  {
    r := Step(w, Find(AllowButton1, DefaultTimeoutSeconds), plan, rs, t0, 14);
    if r.Fail? { return; }
    r := Step(w, Click(AllowButton1), plan, rs, t0, 15);
    if r.Fail? { return; }

    r := Step(w, Find(AllowButton2, DefaultTimeoutSeconds), plan, rs, t0, 16);
    if r.Fail? { return; }
    r := Step(w, Click(AllowButton2), plan, rs, t0, 17);
    if r.Fail? { return; }

    r := Step(w, Find(SuccessMessage, DefaultTimeoutSeconds), plan, rs, t0, 18);
    if r.Fail? { return; }
    r := Step(w, ReadText(SuccessMessage), plan, rs, t0, 19);
    if r.Pass? {
      assert plan[..PlanLength] == plan;
    }
  }
}
