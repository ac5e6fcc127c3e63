/** Finding the device-authorization URL in the output of `aws sso login --no-browser`
    (main.go:79-105). The regular expression of main.go:83 is fixed, so it is matched by
    hand: the literal prefix, then the longest non-empty run of `[A-Z0-9-]`, at the
    leftmost place in the line where such a match exists. */
module DeviceUrl {
  import opened Results

  /** The literal part of the pattern (its `\.` and `\?` are escaped literals). */
  const Prefix := "https://pashapay.awsapps.com/start/#/device?user_code="

  /** The character class `[A-Z0-9-]` of the user code. */
  predicate IsUserCodeChar(c: char) {
    ('A' <= c <= 'Z') || ('0' <= c <= '9') || c == '-'
  }

  /** Some match of the pattern starts at position `i` of `line`. */
  predicate MatchesAt(line: string, i: nat) {
    i + |Prefix| < |line| && line[i..i + |Prefix|] == Prefix && IsUserCodeChar(line[i + |Prefix|])
  }

  /** Where the run of user-code characters that begins at `j` ends. */
  function CodeRunEnd(line: string, j: nat): (e: nat)
    requires j <= |line|
    ensures j <= e <= |line|
    ensures forall k :: j <= k < e ==> IsUserCodeChar(line[k])
    ensures e == |line| || !IsUserCodeChar(line[e])
    decreases |line| - j
  {
    if j < |line| && IsUserCodeChar(line[j]) then CodeRunEnd(line, j + 1) else j
  }

  /** The leftmost position at or after `i` where a match starts, or |line| if none does. */
  function LeftmostMatch(line: string, i: nat): (k: nat)
    requires i <= |line|
    ensures i <= k <= |line|
    ensures k < |line| ==> MatchesAt(line, k)
    ensures forall j :: i <= j < k ==> !MatchesAt(line, j)
    decreases |line| - i
  {
    if i == |line| || MatchesAt(line, i) then i else LeftmostMatch(line, i + 1)
  }

  /** Go's urlRegex.FindString(line): the leftmost, greedy match, or "" if there is none. */
  function FindString(line: string): (r: string)
    ensures r != [] ==> |r| > |Prefix| && r[..|Prefix|] == Prefix
  {
    var s := LeftmostMatch(line, 0);
    if s < |line| then line[s..CodeRunEnd(line, s + |Prefix|)] else ""
  }

  /** `line[s..e]` is the leftmost-longest match of the pattern: it starts with the
      prefix, continues with user-code characters only, cannot be extended by one more,
      and no earlier position of the line starts a match. */
  ghost predicate IsLeftmostLongestMatch(line: string, s: nat, e: nat) {
    s + |Prefix| < e <= |line|
    && line[s..s + |Prefix|] == Prefix
    && (forall k :: s + |Prefix| <= k < e ==> IsUserCodeChar(line[k]))
    && (e == |line| || !IsUserCodeChar(line[e]))
    && (forall j :: 0 <= j < s ==> !MatchesAt(line, j))
  }

  /** A line has at most one leftmost-longest match. */
  lemma LeftmostLongestMatchUnique(line: string, s1: nat, e1: nat, s2: nat, e2: nat)
    requires IsLeftmostLongestMatch(line, s1, e1) && IsLeftmostLongestMatch(line, s2, e2)
    ensures s1 == s2 && e1 == e2
  {
    assert MatchesAt(line, s1) && MatchesAt(line, s2);
  }

  /** FindString returns "" exactly when no position of the line starts a match, and
      otherwise the line's leftmost-longest match. */
  lemma FindStringIsLeftmostLongestMatch(line: string)
    ensures FindString(line) == [] <==> forall i :: !MatchesAt(line, i)
    ensures FindString(line) != [] ==>
      exists s: nat, e: nat :: IsLeftmostLongestMatch(line, s, e) && FindString(line) == line[s..e]
  {
    var s := LeftmostMatch(line, 0);
    if s < |line| {
      var e := CodeRunEnd(line, s + |Prefix|);
      assert IsLeftmostLongestMatch(line, s, e);
    }
  }

  /** A match is what the pattern says: the prefix followed by a non-empty user code. */
  lemma FoundUrlShape(line: string)
    requires FindString(line) != []
    ensures var m := FindString(line);
      |m| > |Prefix| && m[..|Prefix|] == Prefix
      && forall k :: |Prefix| <= k < |m| ==> IsUserCodeChar(m[k])
  {
    var s := LeftmostMatch(line, 0);
    var e := CodeRunEnd(line, s + |Prefix|);
    assert line[s..e][..|Prefix|] == line[s..s + |Prefix|];
    UserCodeCharsInSlice(line, s, s + |Prefix|, e);
  }

  /** The characters of `line[b..e]` stay user-code characters in any slice `line[a..e]`
      that contains them. */
  lemma UserCodeCharsInSlice(line: string, a: nat, b: nat, e: nat)
    requires a <= b <= e <= |line|
    requires forall k :: b <= k < e ==> IsUserCodeChar(line[k])
    ensures forall k :: b - a <= k < e - a ==> IsUserCodeChar(line[a..e][k])
  {
    forall k | b - a <= k < e - a ensures IsUserCodeChar(line[a..e][k]) {
      assert line[a..e][k] == line[a + k];
    }
  }

  /** A line that begins with a device URL and continues with anything that cannot be
      part of a user code yields exactly that URL. */
  lemma {:induction false} FindsLeadingUrl(code: string, rest: string)
    requires code != [] && forall k :: 0 <= k < |code| ==> IsUserCodeChar(code[k])
    requires rest == [] || !IsUserCodeChar(rest[0])
    ensures FindString(Prefix + code + rest) == Prefix + code
  {
    var line := Prefix + code + rest;
    assert line[..|Prefix|] == Prefix;
    assert line[|Prefix|] == code[0];
    assert MatchesAt(line, 0);
    var e := CodeRunEnd(line, |Prefix|);
    forall k | |Prefix| <= k < |Prefix| + |code| ensures IsUserCodeChar(line[k]) {
      assert line[k] == code[k - |Prefix|];
    }
    assert |Prefix| + |code| < |line| ==> line[|Prefix| + |code|] == rest[0];
    assert line[0..e] == Prefix + code;
  }

  datatype StdinError =
    | ReadError    // "error reading from stdin: %v"
    | UrlNotFound  // "device URL not found in AWS SSO output"

  /** The index of the first line that contains a match, or |lines| if none does. */
  function FirstMatchingLine(lines: seq<string>): (k: nat)
    ensures k <= |lines|
    ensures forall j :: 0 <= j < k ==> FindString(lines[j]) == []
    ensures k < |lines| ==> FindString(lines[k]) != []
  {
    if lines == [] then 0
    else if FindString(lines[0]) != [] then 0
    else 1 + FirstMatchingLine(lines[1..])
  }

  /** The first matching line is pinned by its defining facts. */
  lemma {:induction false} FirstMatchingLineIs(lines: seq<string>, k: nat)
    requires k <= |lines|
    requires forall j :: 0 <= j < k ==> FindString(lines[j]) == []
    requires k < |lines| ==> FindString(lines[k]) != []
    ensures FirstMatchingLine(lines) == k
  {
    if k > 0 {
      assert FindString(lines[0]) == [];
      forall j | 0 <= j < k - 1 ensures FindString(lines[1..][j]) == [] {
        assert lines[1..][j] == lines[j + 1];
      }
      FirstMatchingLineIs(lines[1..], k - 1);
    }
  }

  /** What readDeviceURLFromStdin returns when standard input delivers `lines` and then
      ends, with a read error if `readError`: the match in the first line that has one;
      otherwise the read error if there was one, else "not found". */
  function DeviceUrlFromLines(lines: seq<string>, readError: bool): (r: Result<string, StdinError>)
    ensures r.Ok? <==> exists j :: 0 <= j < |lines| && FindString(lines[j]) != []
    ensures r.Ok? ==> r.value == FindString(lines[FirstMatchingLine(lines)])
    ensures r.Err? ==> r.error == if readError then ReadError else UrlNotFound
  {
    var k := FirstMatchingLine(lines);
    if k < |lines| then Ok(FindString(lines[k])) else Err(if readError then ReadError else UrlNotFound)
  }

  /** How many lines readDeviceURLFromStdin takes from standard input: up to and
      including the first matching line, or all of them. */
  function LinesConsumed(lines: seq<string>): (n: nat)
    ensures n <= |lines|
    ensures n == |lines| || (0 < n && FindString(lines[n - 1]) != [])
    ensures forall j :: 0 <= j < n - 1 ==> FindString(lines[j]) == []
  {
    var k := FirstMatchingLine(lines);
    if k < |lines| then k + 1 else |lines|
  }

  /** readDeviceURLFromStdin: scans lines until one contains the device URL and returns
      that match; lines after it are not read. */
  method ReadDeviceUrlFromStdin(lines: seq<string>, readError: bool)
    returns (r: Result<string, StdinError>, consumed: nat)
    ensures r == DeviceUrlFromLines(lines, readError)
    ensures consumed == LinesConsumed(lines)
  {
    consumed := 0;
    while consumed < |lines|
      invariant consumed <= |lines|
      invariant forall j :: 0 <= j < consumed ==> FindString(lines[j]) == []
    {
      var found := FindString(lines[consumed]);
      if found != [] {
        FirstMatchingLineIs(lines, consumed);
        return Ok(found), consumed + 1;
      }
      consumed := consumed + 1;
    }
    FirstMatchingLineIs(lines, |lines|);
    if readError {
      return Err(ReadError), consumed;
    }
    return Err(UrlNotFound), consumed;
  }
}
