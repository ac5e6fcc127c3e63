# awsssologin, modelled in Dafny

awsssologin finishes an `aws sso login --no-browser` device authorization without a
person at the browser. `runSSO` works in three stages, in order:

1. It fills in the credentials: the username, the password and either a TOTP secret or
   interactive TOTP mode. Each comes from the command line, else from an environment
   variable, else from a terminal prompt.
2. It takes the device URL from the configuration or, when none is configured, scans
   standard input line by line for the first match of a fixed pattern.
3. It drives a browser through the AWS sign-in page: username, password, TOTP code, two
   Allow buttons and the success message. The browser is closed on every way out once it
   is connected.

The first stage that fails ends the run with its error.

The model has seven modules:

- `Results` (results.dfy): `Result` and `Outcome`.
- `Prompt` (prompt.dfy): `promptForInput` after its read. This covers Go's
  `strings.TrimSpace` over the `unicode.IsSpace` set and the empty-answer rule.
- `Effects` (world.dfy): the collaborators the program calls but does not contain: the
  terminal, the browser and the TOTP generator. They are one `World` object with a single
  trace of every call, so the order of prompts, browser calls and code generation can be
  stated. Whether each call succeeds is decided by an oracle (`fails`). The terminal is a
  queue of read results.
- `Configuration` (config.dfy): `Config` is a class whose fields `GetCredentials` updates
  in place. `GetCredentials` is proved against the pure function `Resolve`, about which
  the precedence rules are proved. `ValidateConfig` and `validateDeviceURL` take the URL
  pattern as a parameter.
- `DeviceUrl` (device_url.dfy): the fixed regular expression, matched by hand as Go's
  leftmost, greedy `FindString`. `ReadDeviceUrlFromStdin` is the scanning loop, proved
  against `DeviceUrlFromLines`.
- `Login` (login.dfy): `automateBrowserLogin` as straight-line imperative code over the
  `World`.
  - Its specification is `LoginRun`. `Plan` lists the 20 calls made when nothing fails.
    `Execute` runs a plan until its first failing call. `WithClose` appends the deferred
    `Close` exactly when the run got past launch and connect.
  - The properties are proved once for arbitrary plans and then instantiated for this
    plan.
  - The method is split into phases (`Start`, `SignIn`, `EnterTotp`, `Approve`). Each
    phase carries the invariant "the first k planned calls were made and succeeded".
- `Sso` (sso.dfy): `runSSO` and the order of its stages.

## Model

| member | source | states |
|---|---|---|
| Prompt.IsSpace | config.go:120 | unicode.IsSpace, the white space strings.TrimSpace cuts: tab, newline, vertical tab, form feed, carriage return, space, U+0085 and U+00A0, and the other Unicode White_Space characters |
| Prompt.TrimSpace | config.go:120 | the trimmed answer is a contiguous piece of the input, with no white space at either end, and everything cut off either side is white space |
| Prompt.TrimSpaceEmptyIffAllSpace | config.go:120-126 | trimming gives the empty string exactly when the input is all white space |
| Prompt.PromptForInput | config.go:101-129 | a failed read gives the secure or the plain read error. A successful read is refused only as empty input; otherwise its answer is returned, verbatim when secure and trimmed when plain. An empty result is refused with "input is empty", and this happens exactly when the secure text is empty or the plain text is all white space. Any answer returned is non-empty |
| Effects.World.Ask | config.go:101-129 | a prompt is one call on the trace and consumes exactly one terminal read, and its result is PromptForInput of that read |
| Effects.World.Launch | browser.go:35-40 | launching is one call on the trace, and it reports the control URL to connect to |
| Effects.World.GenerateCode | browser.go:123 | generating a code is one call on the trace, and it gives the generator's code for the secret and time |
| Effects.World.Perform | browser.go:43-177 | any other browser call is one call on the trace, and its result is the oracle's verdict |
| Configuration.Getenv | config.go:55 | a set variable reads as its value, and an unset one as the empty string |
| Configuration.ValidateDeviceUrl | config.go:43-48 | passes exactly when the pattern matches, and otherwise reports the pattern mismatch for that URL |
| Configuration.Config.ValidateConfig | config.go:26-40 | passes exactly when the timeout is at least 1 and the device URL is absent or matches. A timeout of 0 or less is reported first, with its value. Otherwise only a present, non-matching URL fails |
| Configuration.Config.constructor | config.go:14-23 | a configuration holds the flag values, with interactive TOTP off |
| Configuration.SourceOf | config.go:53-67 | a field comes from the command line exactly when that value is non-empty, and from the environment exactly when only the command-line value is empty |
| Configuration.ResolveLogin | config.go:53-83 | when the username and the password are both obtained, both are non-empty, and the TOTP settings are untouched |
| Configuration.Resolve | config.go:50-99 | when getCredentials succeeds, the username and the password are both non-empty |
| Configuration.UsernamePrecedence | config.go:53-67 | the command line beats the environment, which beats the prompt. The username prompt is the first prompt shown. If it fails, getCredentials fails with that error, having shown that one prompt and changed nothing |
| Configuration.PasswordPrecedence | config.go:69-83 | once the username is obtained, a password from the command line, else from the environment, is taken and getCredentials succeeds. Otherwise the secure password prompt is the last prompt shown: its answer becomes the password and the run succeeds, or its failure ends the run with that error |
| Configuration.TotpModeRule | config.go:85-96 | interactive TOTP is switched on exactly when neither the command line nor the environment gives a secret, and the secret is kept from the command line, else from the environment |
| Configuration.FailureComesFromPrompt | config.go:53-98 | getCredentials fails exactly when the username cascade or the password cascade after it fails, and with that prompt's error. A failure always follows a prompt that was shown, and leaves the password and the TOTP settings unchanged |
| Configuration.OneReadPerPrompt | config.go:53-83 | exactly one prompt per field that neither the command line nor the environment supplies (none for the password once the username fails), and the terminal is read once per prompt |
| Configuration.ResolveTotp | config.go:85-96 | the TOTP step leaves the username and the password alone |
| Configuration.Config.GetCredentials | config.go:50-99 | the new fields, the outcome, the prompts shown and the unread input are those of Resolve. Device URL, browser visibility, timeout and log level are unchanged |
| Configuration.Config.FillLogin | config.go:53-83 | the username and password fields, the outcome, the prompts shown and the unread input are those of ResolveLogin, and the other settings are unchanged |
| Configuration.Config.SetTotp | config.go:85-96 | the TOTP fields become ResolveTotp's, and every other field is unchanged |
| Configuration.ResolveField | config.go:54-64 | one field's cascade: the command-line value, else the environment value, else one prompt and one terminal read. A value it gives is never empty |
| Configuration.Cascade | config.go:54-64 | one field's value, prompt and terminal reads are ResolveField's |
| DeviceUrl.CodeRunEnd | main.go:83 | the user-code run from a position ends at the first character outside `[A-Z0-9-]` |
| DeviceUrl.LeftmostMatch | main.go:83 | the first position at or after i where the pattern matches, with no match before it |
| DeviceUrl.LeftmostLongestMatchUnique | main.go:83 | a line has at most one leftmost-longest match |
| DeviceUrl.FindString | main.go:81-84 | urlRegex.FindString: a non-empty result starts with the literal URL prefix and is longer than it |
| DeviceUrl.FindStringIsLeftmostLongestMatch | main.go:82-84 | FindString is empty exactly when no position matches, and is otherwise the line's leftmost-longest match |
| DeviceUrl.FoundUrlShape | main.go:83 | a match is the literal URL prefix followed by a non-empty run of `[A-Z0-9-]` |
| DeviceUrl.FindsLeadingUrl | main.go:94 | a line that starts with a device URL followed by a non-code character yields exactly that URL |
| DeviceUrl.FirstMatchingLine | main.go:87-98 | the first line containing a match; no earlier line contains one |
| DeviceUrl.FirstMatchingLineIs | main.go:87-98 | an index with no match before it and a match at it (or the end of input) is the first matching line |
| DeviceUrl.DeviceUrlFromLines | main.go:79-105 | succeeds exactly when some line contains a match, and returns the match of the first such line. Otherwise it reports the read error if there was one, else "not found" |
| DeviceUrl.LinesConsumed | main.go:87-97 | reading stops right after the first matching line, or after all lines |
| DeviceUrl.ReadDeviceUrlFromStdin | main.go:79-105 | the loop returns DeviceUrlFromLines and reads exactly LinesConsumed lines |
| Login.TotpStep | browser.go:114-127 | in interactive mode the code is asked for with the plain (not secure) TOTP prompt; otherwise it is generated from the configured secret at the clock reading |
| Login.AcquireCode | browser.go:114-127 | interactive mode gives the prompt's answer or its error. Otherwise it gives the generator's code, or the generator's failure. It is never a lookup error |
| Login.BrowserError | browser.go:106-111 | a failed lookup is reported as "not found" with its element and that element's XPath; any other failed call is reported as itself |
| Login.PlanStep | browser.go:35-177 | the call made at each step of a run in which nothing fails, indexed from 0 (launch) to 19 (reading the success message) |
| Login.Plan | browser.go:35-177 | the 20 calls made when nothing fails, each the PlanStep of its index |
| Login.PlanSpelledOut | browser.go:35-177 | the calls made when nothing fails, in order: launch, connect, open page, wait, then username, password and TOTP (find, fill, Enter), then the two Allow buttons (find, click) and the success message (find, read text) |
| Login.PlanHasNoClose | browser.go:47-51 | no step closes the browser; only the deferred call does |
| Login.PlanLandmarks | browser.go:106-132 | the TOTP code is obtained only at step 11 and typed into the TOTP field only at step 12, and every lookup waits DefaultTimeout |
| Login.WithClose | browser.go:47-51 | the deferred Close: the run's calls and result, followed by Close exactly when the run got past launch and connect |
| Login.Execute | browser.go:37-177 | the calls made are a prefix of the plan, every call but the last succeeded, and the run passes exactly when every planned call succeeds. A failure reports the last call's error |
| Login.ExecuteStopsAt | browser.go:37-177 | after `done` successful calls, a failing call ends the run with its error |
| Login.ExecuteAgrees | browser.go:37-177 | a run depends only on how its planned calls are answered |
| Login.RunIsPrefixThenClose | browser.go:26-181 | for any plan, the calls are a non-empty prefix of it, followed by Close exactly when that prefix is longer than launch and connect. The result passes exactly when the whole plan ran and its last call succeeded. A failed run stops at a call that failed, and names that call's error |
| Login.CloseOnceAfterConnect | browser.go:42-51 | for any plan without Close, Close occurs once (and last) when the first two calls succeed, and never otherwise |
| Login.MadeIffReached | browser.go:37-177 | a call planned at one index only is made exactly when the run gets past that index |
| Login.MadeCallAt | browser.go:37-177 | every call but Close is the planned call at its index, and the call before it succeeded |
| Login.LoginRun | browser.go:26-181 | the whole of automateBrowserLogin: the plan run until its first failure, then the deferred Close. Every run starts by launching the browser in the configured mode |
| Login.NothingAfterFirstFailure | browser.go:37-177 | automateBrowserLogin's calls are the plan up to the first failure and then Close. Every call before the last succeeded, a failed run's last call failed, and the result names that call's error |
| Login.ClosedExactlyOnceIffConnected | browser.go:37-51 | Close is called once, as the last call, exactly when launch and connect succeed; a launch or connect failure never closes |
| Login.CloseFailureDoesNotChangeResult | browser.go:47-51 | whether Close fails changes neither the calls made nor the result |
| Login.TotpCodeTakenBetweenFindAndFill | browser.go:106-132 | the code is obtained only right after a successful TOTP-field lookup. What is typed into the TOTP field is the code just obtained, right after obtaining it |
| Login.SucceedsOnlyAfterSuccessMessage | browser.go:166-180 | the login succeeds exactly when every planned call succeeds. It then ends with finding the success message, reading its text and Close |
| Login.LookupsWaitDefaultTimeout | browser.go:16 | every element lookup waits DefaultTimeout (20 seconds) |
| Login.NotFoundIsLastLookup | browser.go:42-71 | for any plan whose lookups come after launch and connect and wait DefaultTimeout: a "not found" run ends with the failed lookup of that element and then Close, and the error carries the element's XPath |
| Login.NotFoundNamesItsXPath | browser.go:106-111 | a "not found" error names the element with the XPath it was searched by, and that lookup is the call just before Close |
| Login.TotpPromptedIffReached | browser.go:114-120 | in interactive mode the terminal is read for the code exactly when the run reaches that step |
| Login.SecondAllowButtonMissing | browser.go:153-164 | when only the second Allow button is missing, the error is "not found" for that button and its XPath. Sixteen calls succeeded before the failed lookup, and Close comes last |
| Login.Step | browser.go:53-177 | one browser step either extends the successful prefix by its call, or ends the run with that call's error |
| Login.AutomateBrowserLogin | browser.go:26-181 | the calls made and the result are LoginRun's. The terminal is read once, exactly when interactive TOTP mode reaches the prompt |
| Login.Start | browser.go:35-46 | launch, then connect to the reported URL. A failure here ends the run before Close is due |
| Login.Drive | browser.go:26-181 | the calls made and the result are the plan's run followed by the deferred Close, and the terminal is read once exactly when an interactive run reaches the TOTP prompt. This layer only spells the plan out so that the proof of the body stays small |
| Login.DriveSpelled | browser.go:26-181 | the body of automateBrowserLogin against the plan given call by call: launch and connect, the sign-in steps, then Close; the calls, result and terminal reads are as Drive states |
| Login.FollowPlan | browser.go:53-181 | after connecting, the calls and the result are those of running the whole plan, stopping at its first failure |
| Login.SignIn | browser.go:53-104 | planned calls 2 to 9 are made in order, stopping at the first failure |
| Login.EnterUsername | browser.go:53-84 | open the device page, wait for it to load, then find, fill and submit the username field |
| Login.EnterPassword | browser.go:86-104 | find, fill and submit the password field |
| Login.EnterTotp | browser.go:106-138 | find the TOTP field, obtain the code, type it and submit. The terminal is read in interactive mode once the field is found |
| Login.ObtainCode | browser.go:114-127 | the code obtained is AcquireCode's, and a prompt failure is reported as the TOTP prompt's error |
| Login.Approve | browser.go:140-177 | find and click both Allow buttons, then find the success message and read its text |
| Sso.DeviceUrlFor | main.go:55-68 | a configured URL is used as it is; otherwise standard input is scanned, and any URL obtained is non-empty |
| Sso.LinesReadFor | main.go:59-63 | standard input is not read at all when a URL is configured |
| Sso.Wrapped | main.go:71-73 | the run passes exactly when the browser stage does, and otherwise wraps its error |
| Sso.RunSso | main.go:47-77 | credentials first: a failure ends the run with only prompts made and no standard input read. Then the URL: a failure ends the run before any browser call. Then the browser, driven with the filled-in credentials and the URL, with its calls following the prompts and its error wrapped. At every exit the Config holds the credentials getCredentials left in it and its other settings are unchanged. The terminal keeps what the prompts left unread, less one read when interactive TOTP reaches its prompt |

## Left out

- The browser itself (go-rod), the TOTP algorithm (pquerna/otp), the clock and the terminal are oracles. Whether each call fails is an input to the model, as are the code for a secret and time and the results of terminal reads.
- Waiting: `DefaultTimeout` is recorded on each lookup but its waiting is not modelled, nor are the two 3-second sleeps after the Allow clicks (browser.go:148, browser.go:161).
- Logging, the cobra command line (main.go:1-45) and the log level are not modelled.
- The prompt texts printed to the terminal (config.go:59, config.go:75, browser.go:117) are not modelled; a prompt is recorded by its Question and whether it is secure.
- Error message wording is kept only as the shape of the error datatypes: which step failed and, for lookups, the element and XPath.
- `deviceURLValidationPattern` is not part of this model. ValidateConfig and validateDeviceURL take the pattern test as a parameter.
- The regular expression of main.go:83 is matched by a hand-written matcher for that one pattern, not by a general regex engine.
- Standard input: the device-URL scan and the credential prompts both read os.Stdin in the program. The model gives them separate streams: the prompts read the World's terminal queue, the scan reads `lines`. Each plain prompt is modelled as exactly one line read. The program builds a fresh buffered reader per prompt, which can swallow input beyond that line; this is not modelled.
- ValidateConfig is modelled, but runSSO never calls it (main.go:47-77), so RunSso does not either.
- Config.TimeoutSeconds is only validated. The browser steps use the constant DefaultTimeout (browser.go:16), as the code does.
- main.go:51 calls getCredentials with one argument while config.go:50 declares a second (the log level, which only sets logging). GetCredentials takes no log level.
- XPathTOTPLink (browser.go:20) is declared but no step uses it. It is kept as a constant only.
- browser.go:37-51 has no grace delay before closing a visible browser, and does not clean up a launched browser whose Connect fails. The model follows the code (ClosedExactlyOnceIffConnected).
