/** The collaborators the program talks to but does not contain: the terminal it prompts
    on, the browser it drives (launcher, connection, page and elements) and the TOTP
    generator. They are one object whose trace records every call made to any of them, in
    order, so that the ordering of prompts, browser calls and code generation can be
    stated. Each call's success is decided by an oracle fixed when the object is made. */
module Effects {
  import opened Prompt

  /** What the terminal is asked for. The prompt text printed is not modelled. */
  datatype Question =
    | UsernameQuestion   // config.go:59
    | PasswordQuestion   // config.go:75
    | TotpQuestion       // browser.go:117

  /** The page elements a run looks up; each is found by its own XPath (Login.XPath). */
  datatype Element = UsernameField | PasswordField | TotpField | AllowButton1 | AllowButton2
                   | SuccessMessage

  /** One call made to a collaborator. Element operations name the element they act on,
      which the same run has looked up before. */
  datatype Call =
    | Ask(question: Question, secure: bool)      // promptForInput's terminal read
    | Launch(headless: bool)                     // launcher.New().Headless(..).Launch()
    | Connect(controlUrl: string)                // rod.New().ControlURL(..).Connect()
    | OpenPage(url: string)                      // browser.Page(TargetCreateTarget{URL})
    | WaitLoad                                   // page.WaitLoad()
    | Find(element: Element, timeoutSeconds: nat) // page.Timeout(..).ElementX(xpath of element)
    | Input(element: Element, text: string)       // element.Input(text)
    | PressEnter(element: Element)                // element.Type(input.Enter)
    | Click(element: Element)                     // element.Click(left button, 1)
    | ReadText(element: Element)                  // element.Text()
    | GenerateCode(secret: string, now: int)     // totp.GenerateCode(secret, now)
    | Close                                      // browser.Close()

  /** The next terminal read, given what is still to be typed; an exhausted terminal
      reads as an error, as a read at end of input does. */
  function NextRead(input: seq<ReadResult>): ReadResult {
    if input == [] then ReadFailed else input[0]
  }

  /** What is still to be typed after one read. */
  function AfterRead(input: seq<ReadResult>): seq<ReadResult> {
    if input == [] then [] else input[1..]
  }

  class World {
    /** Every call made so far, oldest first. */
    var trace: seq<Call>
    /** What the terminal will deliver to the next reads, in order. */
    var input: seq<ReadResult>
    /** Which browser and TOTP calls fail. */
    const fails: Call -> bool
    /** The control URL a successful launch reports. */
    const controlUrl: string
    /** The code the TOTP generator gives for a secret at a time. */
    const codeFor: (string, int) -> string

    constructor (input: seq<ReadResult>, fails: Call -> bool, controlUrl: string,
                 codeFor: (string, int) -> string)
      ensures this.trace == [] && this.input == input
      ensures this.fails == fails && this.controlUrl == controlUrl && this.codeFor == codeFor
    {
      this.trace := [];
      this.input := input;
      this.fails := fails;
      this.controlUrl := controlUrl;
      this.codeFor := codeFor;
    }

    /** Prints the prompt for `question` and reads one answer (promptForInput). */
    method Ask(question: Question, secure: bool) returns (r: Results.Result<string, PromptError>)
      modifies this
      ensures trace == old(trace) + [Call.Ask(question, secure)]
      ensures input == AfterRead(old(input))
      ensures r == PromptForInput(NextRead(old(input)), secure)
    {
      trace := trace + [Call.Ask(question, secure)];
      r := PromptForInput(NextRead(input), secure);
      input := AfterRead(input);
    }

    /** Starts a browser; on success reports where to connect to it. */
    method Launch(headless: bool) returns (ok: bool, url: string)
      modifies this
      ensures trace == old(trace) + [Call.Launch(headless)] && input == old(input)
      ensures ok == !fails(Call.Launch(headless)) && url == controlUrl
    {
      trace := trace + [Call.Launch(headless)];
      ok, url := !fails(Call.Launch(headless)), controlUrl;
    }

    /** Generates the TOTP code for `secret` at time `now`. */
    method GenerateCode(secret: string, now: int) returns (ok: bool, code: string)
      modifies this
      ensures trace == old(trace) + [Call.GenerateCode(secret, now)] && input == old(input)
      ensures ok == !fails(Call.GenerateCode(secret, now)) && code == codeFor(secret, now)
    {
      trace := trace + [Call.GenerateCode(secret, now)];
      ok, code := !fails(Call.GenerateCode(secret, now)), codeFor(secret, now);
    }

    /** Any other browser call, whose only result is whether it succeeded. */
    method Perform(c: Call) returns (ok: bool)
      modifies this
      ensures trace == old(trace) + [c] && input == old(input)
      ensures ok == !fails(c)
    {
      trace := trace + [c];
      ok := !fails(c);
    }
  }
}
