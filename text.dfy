/** The pieces of Rust's string library that git-smash uses to shape the
    text it reads from git: Unicode whitespace, `trim_end`, `trim_start`,
    `trim`, `lines`, `split_whitespace().next()`, `splitn(2, c).next()`,
    decimal formatting of integers and `str::parse::<u32>` / `parse::<bool>`. */
module Text {
  import opened Wrappers

  /** Unicode White_Space, the set `char::is_whitespace` tests. */
  predicate IsWhitespace(c: char) {
    ('\t' <= c <= '\r') || c == ' ' || c == '\U{85}' || c == '\U{A0}' || c == '\U{1680}'
    || ('\U{2000}' <= c <= '\U{200A}') || c == '\U{2028}' || c == '\U{2029}'
    || c == '\U{202F}' || c == '\U{205F}' || c == '\U{3000}'
  }

  predicate HasWhitespace(s: string) {
    exists i :: 0 <= i < |s| && IsWhitespace(s[i])
  }

  /** `str::trim_end`: the longest prefix that does not end in whitespace. */
  function TrimEnd(s: string): (r: string)
    ensures |r| <= |s| && r == s[..|r|]
    ensures r == [] || !IsWhitespace(r[|r| - 1])
    ensures forall i :: |r| <= i < |s| ==> IsWhitespace(s[i])
  {
    if |s| > 0 && IsWhitespace(s[|s| - 1]) then TrimEnd(s[..|s| - 1]) else s
  }

  /** `str::trim_start`: the longest suffix that does not start with whitespace. */
  function TrimStart(s: string): (r: string)
    ensures |r| <= |s| && r == s[|s| - |r|..]
    ensures r == [] || !IsWhitespace(r[0])
    ensures forall i :: 0 <= i < |s| - |r| ==> IsWhitespace(s[i])
  {
    if |s| > 0 && IsWhitespace(s[0]) then TrimStart(s[1..]) else s
  }

  /** `str::trim`: whitespace removed at both ends. */
  function Trim(s: string): string {
    TrimStart(TrimEnd(s))
  }

  /** The first index at which `c` occurs in `s`, or `|s|` when it does not. */
  function IndexOf(s: string, c: char): (i: nat)
    ensures i <= |s|
    ensures c !in s[..i]
    ensures i < |s| ==> s[i] == c
  {
    if s == [] then 0
    else if s[0] == c then 0
    else
      var j := IndexOf(s[1..], c);
      assert s[..j + 1] == [s[0]] + s[1..][..j];
      j + 1
  }

  /** `s.splitn(2, c).next()`: the text before the first `c`, or all of it. */
  function TextBefore(s: string, c: char): (r: string)
    ensures |r| <= |s| && r == s[..|r|]
    ensures c !in r
    ensures |r| == |s| || s[|r|] == c
  {
    s[..IndexOf(s, c)]
  }

  function DropCarriageReturn(t: string): string {
    if |t| > 0 && t[|t| - 1] == '\r' then t[..|t| - 1] else t
  }

  /** `str::lines`: split at "\n" (a "\r" just before it is dropped too);
      a final line ending is optional, so no trailing empty line is produced. */
  function Lines(s: string): (r: seq<string>)
    ensures forall k :: 0 <= k < |r| ==> '\n' !in r[k]
    ensures s == [] <==> r == []
    decreases |s|
  {
    if s == [] then []
    else
      var i := IndexOf(s, '\n');
      if i == |s| then [s]
      else [DropCarriageReturn(s[..i])] + Lines(s[i + 1..])
  }

  /** The lines joined with a single "\n" between neighbours. */
  function JoinLines(ls: seq<string>): string
    requires |ls| > 0
  {
    if |ls| == 1 then ls[0] else ls[0] + "\n" + JoinLines(ls[1..])
  }

  /** Every line followed by "\n", the way git prints a list. */
  function Terminated(ls: seq<string>): string {
    if ls == [] then [] else ls[0] + "\n" + Terminated(ls[1..])
  }

  predicate PlainLine(l: string) {
    '\n' !in l && (l == [] || l[|l| - 1] != '\r')
  }

  lemma {:induction false} LinesOfJoined(ls: seq<string>)
    requires |ls| > 0 && ls[|ls| - 1] != []
    requires forall k :: 0 <= k < |ls| ==> PlainLine(ls[k])
    ensures Lines(JoinLines(ls)) == ls
    decreases |ls|
  {
    var x := ls[0];
    if |ls| == 1 {
      assert '\n' !in x;
    } else {
      var s := JoinLines(ls);
      var rest := JoinLines(ls[1..]);
      assert s == x + "\n" + rest;
      var i := IndexOf(s, '\n');
      assert s[|x|] == '\n';
      assert s[..|x|] == x;
      assert i == |x|;
      assert s[..i] == x;
      assert s[i + 1..] == rest;
      LinesOfJoined(ls[1..]);
    }
  }

  lemma {:induction false} TerminatedIsJoined(ls: seq<string>)
    requires |ls| > 0
    ensures Terminated(ls) == JoinLines(ls) + "\n"
    decreases |ls|
  {
    if |ls| > 1 {
      TerminatedIsJoined(ls[1..]);
    } else {
      assert ls[1..] == [];
    }
  }

  lemma TrimEndOfNewline(s: string)
    ensures TrimEnd(s + "\n") == TrimEnd(s)
  {
    assert (s + "\n")[..|s|] == s;
  }

  /** A list that git prints one item per line comes back item for item from
      `trim_end` followed by `lines`, provided the last item is not empty and
      does not end in whitespace. */
  lemma ListedLinesRoundTrip(ls: seq<string>)
    requires |ls| > 0
    requires forall k :: 0 <= k < |ls| ==> PlainLine(ls[k])
    requires ls[|ls| - 1] != [] && !IsWhitespace(ls[|ls| - 1][|ls[|ls| - 1]| - 1])
    ensures Lines(TrimEnd(Terminated(ls))) == ls
  {
    TerminatedIsJoined(ls);
    TrimEndOfNewline(JoinLines(ls));
    LastOfJoined(ls);
    LinesOfJoined(ls);
  }

  lemma {:induction false} LastOfJoined(ls: seq<string>)
    requires |ls| > 0 && ls[|ls| - 1] != []
    ensures var j := JoinLines(ls); |j| > 0 && j[|j| - 1] == ls[|ls| - 1][|ls[|ls| - 1]| - 1]
    decreases |ls|
  {
    if |ls| > 1 {
      LastOfJoined(ls[1..]);
    }
  }

  /** `trim_end` removes exactly a whitespace tail from text that does not
      itself end in whitespace. */
  lemma TrimEndOfTrailing(s: string, trailing: string)
    requires |s| > 0 && !IsWhitespace(s[|s| - 1])
    requires forall i :: 0 <= i < |trailing| ==> IsWhitespace(trailing[i])
    ensures TrimEnd(s + trailing) == s
  {
    assert (s + trailing)[|s| - 1] == s[|s| - 1];
    assert forall i :: |s| <= i < |s + trailing| ==> (s + trailing)[i] == trailing[i - |s|];
    assert (s + trailing)[..|s|] == s;
  }

  /** The end of the run of non-whitespace characters that starts at `i`. */
  function WordEnd(s: string, i: nat): (j: nat)
    requires i <= |s|
    ensures i <= j <= |s|
    ensures forall k :: i <= k < j ==> !IsWhitespace(s[k])
    ensures j == |s| || IsWhitespace(s[j])
    decreases |s| - i
  {
    if i == |s| || IsWhitespace(s[i]) then i else WordEnd(s, i + 1)
  }

  /** `s.split_whitespace().next()`: the first whitespace-delimited token. */
  function FirstToken(s: string): (r: Option<string>)
    ensures r.None? <==> forall i :: 0 <= i < |s| ==> IsWhitespace(s[i])
    ensures r.Some? ==> r.value != [] && !HasWhitespace(r.value)
    ensures r.Some? ==> var t := TrimStart(s);
      |r.value| <= |t| && t[..|r.value|] == r.value && (|r.value| == |t| || IsWhitespace(t[|r.value|]))
  {
    var t := TrimStart(s);
    if t == [] then None else Some(t[..WordEnd(t, 0)])
  }

  /** A token followed by nothing or by whitespace is what `FirstToken` finds. */
  lemma FirstTokenOf(w: string, rest: string)
    requires w != [] && !HasWhitespace(w)
    requires rest == [] || IsWhitespace(rest[0])
    ensures FirstToken(w + rest) == Some(w)
  {
    var s := w + rest;
    assert !IsWhitespace(s[0]) by { assert s[0] == w[0]; }
    assert TrimStart(s) == s;
    assert s[..|w|] == w;
    assert forall k :: 0 <= k < |w| ==> s[k] == w[k];
    assert |w| == |s| || s[|w|] == rest[0];
    assert WordEnd(s, 0) == |w|;
  }

  // ----- integers ---------------------------------------------------------

  /** The values a `u32` can hold. */
  type u32 = x: int | 0 <= x < 0x1_0000_0000

  predicate IsDigit(c: char) { '0' <= c <= '9' }

  function DigitValue(c: char): nat
    requires IsDigit(c)
  {
    c as int - '0' as int
  }

  function DigitChar(d: nat): (c: char)
    requires d < 10
    ensures IsDigit(c) && DigitValue(c) == d
  {
    ('0' as int + d) as char
  }

  /** `format!("{}", n)`: decimal digits, no sign, no leading zeros. */
  function NatToString(n: nat): (r: string)
    ensures |r| > 0 && (forall i :: 0 <= i < |r| ==> IsDigit(r[i]))
    ensures r[0] == '0' ==> n == 0
  {
    if n < 10 then [DigitChar(n)] else NatToString(n / 10) + [DigitChar(n % 10)]
  }

  /** The kinds of `ParseIntError` the standard library reports. */
  datatype IntErrorKind = Empty | InvalidDigit | PosOverflow

  /** The message `ParseIntError` displays for each kind. */
  function IntErrorMessage(k: IntErrorKind): string {
    match k
    case Empty => "cannot parse integer from empty string"
    case InvalidDigit => "invalid digit found in string"
    case PosOverflow => "number too large to fit in target type"
  }

  /** Digits read left to right into `acc`, failing at the first character
      that is not a digit or that would take the value past `u32::MAX`. */
  function AccumulateDigits(s: string, acc: u32): Result<u32, IntErrorKind>
    decreases |s|
  {
    if s == [] then Ok(acc)
    else if !IsDigit(s[0]) then Err(InvalidDigit)
    else
      var next := acc * 10 + DigitValue(s[0]);
      if next >= 0x1_0000_0000 then Err(PosOverflow) else AccumulateDigits(s[1..], next)
  }

  /** `s.parse::<u32>()`: an optional leading '+', then decimal digits. */
  function ParseU32(s: string): Result<u32, IntErrorKind> {
    if s == [] then Err(Empty)
    else if |s| == 1 && (s[0] == '+' || s[0] == '-') then Err(InvalidDigit)
    else if s[0] == '+' then AccumulateDigits(s[1..], 0)
    else AccumulateDigits(s, 0)
  }

  /** The value of a digit string read left to right starting from `acc`. */
  function LeftValue(s: string, acc: nat): nat
    requires forall i :: 0 <= i < |s| ==> IsDigit(s[i])
    decreases |s|
  {
    if s == [] then acc else LeftValue(s[1..], acc * 10 + DigitValue(s[0]))
  }

  lemma {:induction false} LeftValueAtLeast(s: string, acc: nat)
    requires forall i :: 0 <= i < |s| ==> IsDigit(s[i])
    ensures LeftValue(s, acc) >= acc
    decreases |s|
  {
    if s != [] {
      LeftValueAtLeast(s[1..], acc * 10 + DigitValue(s[0]));
    }
  }

  lemma {:induction false} AccumulateInRange(s: string, acc: u32)
    requires forall i :: 0 <= i < |s| ==> IsDigit(s[i])
    requires LeftValue(s, acc) < 0x1_0000_0000
    ensures AccumulateDigits(s, acc) == Ok(LeftValue(s, acc))
    decreases |s|
  {
    if s != [] {
      var next := acc * 10 + DigitValue(s[0]);
      LeftValueAtLeast(s[1..], next);
      AccumulateInRange(s[1..], next);
    }
  }

  lemma {:induction false} LeftValueSnoc(p: string, c: char, acc: nat)
    requires forall i :: 0 <= i < |p| ==> IsDigit(p[i])
    requires IsDigit(c)
    ensures forall i :: 0 <= i < |p + [c]| ==> IsDigit((p + [c])[i])
    ensures LeftValue(p + [c], acc) == LeftValue(p, acc) * 10 + DigitValue(c)
    decreases |p|
  {
    assert forall i :: 0 <= i < |p + [c]| ==> IsDigit((p + [c])[i]) by {
      forall i | 0 <= i < |p + [c]| ensures IsDigit((p + [c])[i]) {
        if i < |p| { assert (p + [c])[i] == p[i]; }
      }
    }
    if p == [] {
      assert p + [c] == [c];
    } else {
      assert (p + [c])[1..] == p[1..] + [c];
      LeftValueSnoc(p[1..], c, acc * 10 + DigitValue(p[0]));
    }
  }

  lemma {:induction false} LeftValueOfNatToString(n: nat)
    ensures LeftValue(NatToString(n), 0) == n
  {
    if n >= 10 {
      LeftValueOfNatToString(n / 10);
      LeftValueSnoc(NatToString(n / 10), DigitChar(n % 10), 0);
    }
  }

  /** Parsing the decimal rendering of a `u32` gives the value back. */
  lemma ParseU32OfNatToString(n: u32)
    ensures ParseU32(NatToString(n)) == Ok(n)
  {
    var s := NatToString(n);
    LeftValueOfNatToString(n);
    AccumulateInRange(s, 0);
  }

  /** `s.parse::<bool>()`: exactly "true" or "false". */
  function ParseBool(s: string): (r: Option<bool>)
    ensures r == Some(true) <==> s == "true"
    ensures r == Some(false) <==> s == "false"
  {
    if s == "true" then Some(true) else if s == "false" then Some(false) else None
  }

  /** The message `ParseBoolError` displays. */
  const BoolErrorMessage := "provided string was not `true` or `false`"

  /** `str::starts_with`. */
  predicate StartsWith(s: string, prefix: string) {
    |prefix| <= |s| && s[..|prefix|] == prefix
  }
}
