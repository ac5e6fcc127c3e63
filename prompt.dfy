/** Interactive prompting (config.go:101-129): one read from the terminal, whitespace
    trimming for plain input, and the rule that an empty answer is an error. The terminal
    read itself is an oracle: the model is handed what the read returned. */
module Prompt {
  import opened Results

  /** What one terminal read returned: the text delivered (for a plain read, the line
      including its newline) or a read error (end of input counts as one). */
  datatype ReadResult = Read(text: string) | ReadFailed

  datatype PromptError =
    | SecureReadFailed   // "failed to read secure input"
    | PlainReadFailed    // "failed to read plain text input"
    | EmptyInput         // "input is empty"

  /** Go's unicode.IsSpace: the Latin-1 spaces and the other Unicode White_Space runes. */
  predicate IsSpace(c: char) {
    c == ' ' || c == '\t' || c == '\n' || c == '\r' || c == '\U{B}' || c == '\U{C}'
    || c == '\U{85}' || c == '\U{A0}' || c == '\U{1680}'
    || ('\U{2000}' <= c <= '\U{200A}')
    || c == '\U{2028}' || c == '\U{2029}' || c == '\U{202F}' || c == '\U{205F}' || c == '\U{3000}'
  }

  ghost predicate AllSpace(s: string) {
    forall k :: 0 <= k < |s| ==> IsSpace(s[k])
  }

  /** Where the run of white space that begins at `i` ends. */
  function SpaceRunEnd(s: string, i: nat): (e: nat)
    requires i <= |s|
    ensures i <= e <= |s|
    ensures forall k :: i <= k < e ==> IsSpace(s[k])
    ensures e == |s| || !IsSpace(s[e])
    decreases |s| - i
  {
    if i < |s| && IsSpace(s[i]) then SpaceRunEnd(s, i + 1) else i
  }

  /** Where the run of white space that ends at `j` begins. */
  function SpaceRunStart(s: string, j: nat): (b: nat)
    requires j <= |s|
    ensures b <= j
    ensures forall k :: b <= k < j ==> IsSpace(s[k])
    ensures b == 0 || !IsSpace(s[b - 1])
  {
    if j > 0 && IsSpace(s[j - 1]) then SpaceRunStart(s, j - 1) else j
  }

  /** Drops the leading white space: the result is a suffix of `s` that does not start
      with a space, and everything dropped was a space. */
  function TrimLeft(s: string): (r: string)
    ensures |r| <= |s| && r == s[|s| - |r|..]
    ensures AllSpace(s[..|s| - |r|])
    ensures r == [] || !IsSpace(r[0])
  {
    s[SpaceRunEnd(s, 0)..]
  }

  /** Drops the trailing white space: the result is a prefix of `s` that does not end
      with a space, and everything dropped was a space. */
  function TrimRight(s: string): (r: string)
    ensures |r| <= |s| && r == s[..|r|]
    ensures AllSpace(s[|r|..])
    ensures r == [] || !IsSpace(r[|r| - 1])
  {
    s[..SpaceRunStart(s, |s|)]
  }

  /** How many white-space characters TrimSpace drops from the front of `s`. */
  function LeadingSpace(s: string): (n: nat)
    ensures n <= |s|
  {
    |s| - |TrimLeft(s)|
  }

  /** Go's strings.TrimSpace: a contiguous piece of `s` with no white space at either
      end, all of whose surroundings in `s` are white space. */
  function TrimSpace(s: string): (r: string)
    ensures LeadingSpace(s) + |r| <= |s|
    ensures r == s[LeadingSpace(s)..LeadingSpace(s) + |r|]
    ensures AllSpace(s[..LeadingSpace(s)]) && AllSpace(s[LeadingSpace(s) + |r|..])
    ensures r == [] || (!IsSpace(r[0]) && !IsSpace(r[|r| - 1]))
  {
    var l := TrimLeft(s);
    var r := TrimRight(l);
    PrefixOfSuffix(s, l, r);
    r
  }

  /** A prefix `r` of a suffix `l` of `s` is an infix of `s`, and what follows `r` in `l`
      is what follows it in `s`. */
  lemma PrefixOfSuffix(s: string, l: string, r: string)
    requires |l| <= |s| && l == s[|s| - |l|..]
    requires |r| <= |l| && r == l[..|r|]
    ensures r == s[|s| - |l|..|s| - |l| + |r|]
    ensures s[|s| - |l| + |r|..] == l[|r|..]
  {
  }

  /** Trimming yields nothing exactly when the input is all white space. */
  lemma TrimSpaceEmptyIffAllSpace(s: string)
    ensures TrimSpace(s) == [] <==> AllSpace(s)
  {
    var n := LeadingSpace(s);
    if TrimSpace(s) == [] {
      assert s == s[..n] + s[n..];
    }
  }

  /** promptForInput after the read: a secure (password) read is taken verbatim, a plain
      read is trimmed, and an empty answer is refused. Whatever it returns is non-empty. */
  function PromptForInput(read: ReadResult, secure: bool): (r: Result<string, PromptError>)
    ensures r.Ok? ==> r.value != []
    ensures read.ReadFailed? ==> r == Err(if secure then SecureReadFailed else PlainReadFailed)
    ensures secure && r.Ok? ==> r.value == read.text
    ensures !secure && r.Ok? ==> r.value == TrimSpace(read.text)
    ensures read.Read? && r.Err? ==> r.error == EmptyInput
    ensures r == Err(EmptyInput) <==>
      read.Read? && (if secure then read.text == [] else AllSpace(read.text))
  {
    match read
    case ReadFailed => Err(if secure then SecureReadFailed else PlainReadFailed)
    case Read(text) =>
      var input := if secure then text else TrimSpace(text);
      TrimSpaceEmptyIffAllSpace(text);
      if input == [] then Err(EmptyInput) else Ok(input)
  }
}
