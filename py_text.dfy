/**
 * The Python string built-ins the job relies on: `str.isspace`, `str.strip`,
 * `str.split` with a one-character separator, `str.join`, `'=' * n`,
 * `str.capitalize` and `int()` applied to a two-character slice.
 * Strings are sequences of code points, as Python's are.
 */
module PyText {
  import opened Wrappers

  /** The characters for which Python's `str.isspace()` holds. */
  const SpaceChars: set<char> := {
    '\t', '\n', '\U{0B}', '\U{0C}', '\r', '\U{1C}', '\U{1D}', '\U{1E}', '\U{1F}', ' ',
    '\U{85}', '\U{A0}', '\U{1680}',
    '\U{2000}', '\U{2001}', '\U{2002}', '\U{2003}', '\U{2004}', '\U{2005}',
    '\U{2006}', '\U{2007}', '\U{2008}', '\U{2009}', '\U{200A}',
    '\U{2028}', '\U{2029}', '\U{202F}', '\U{205F}', '\U{3000}'
  }

  predicate IsSpace(c: char) {
    c in SpaceChars
  }

  /**
   * The whitespace `int()` tolerates around its digits. Non-ASCII
   * whitespace is first turned into a space, but of the ASCII characters
   * only the C locale's six (space, tab, line feed, vertical tab, form feed,
   * carriage return) are skipped, so the separators 0x1C..0x1F, for which
   * `str.isspace()` holds, are rejected.
   */
  predicate IsIntSpace(c: char) {
    IsSpace(c) && !('\U{1C}' <= c <= '\U{1F}')
  }

  predicate AllSpace(s: string) {
    forall i | 0 <= i < |s| :: IsSpace(s[i])
  }

  predicate IsDigit(c: char) {
    '0' <= c <= '9'
  }

  function DigitValue(c: char): (d: nat)
    requires IsDigit(c)
    ensures d < 10
  {
    c as int - '0' as int
  }

  function DigitChar(d: nat): (c: char)
    requires d < 10
    ensures IsDigit(c) && DigitValue(c) == d
  {
    ('0' as int + d) as char
  }

  // ---------------------------------------------------------------------------
  // str.strip()
  // ---------------------------------------------------------------------------

  /** The index of the first non-whitespace character of `s` at or after `i`, or `|s|`. */
  function SkipSpaceForward(s: string, i: nat): (j: nat)
    requires i <= |s|
    ensures i <= j <= |s|
    ensures forall k | i <= k < j :: IsSpace(s[k])
    ensures j < |s| ==> !IsSpace(s[j])
    decreases |s| - i
  {
    if i < |s| && IsSpace(s[i]) then SkipSpaceForward(s, i + 1) else i
  }

  /** The end of `s[lo..j]` once its trailing whitespace is cut. */
  function SkipSpaceBackward(s: string, lo: nat, j: nat): (e: nat)
    requires lo <= j <= |s|
    ensures lo <= e <= j
    ensures forall k | e <= k < j :: IsSpace(s[k])
    ensures e > lo ==> !IsSpace(s[e - 1])
    decreases j
  {
    if lo < j && IsSpace(s[j - 1]) then SkipSpaceBackward(s, lo, j - 1) else j
  }

  /** `r` is the slice of `s` at `i`, with only whitespace before and after it. */
  predicate SpaceAround(s: string, i: int, r: string) {
    && 0 <= i <= |s| - |r|
    && s[i..i + |r|] == r
    && (forall k | 0 <= k < i :: IsSpace(s[k]))
    && (forall k | i + |r| <= k < |s| :: IsSpace(s[k]))
  }

  /**
   * `s.strip()`: the slice of `s` left once the whitespace at both ends is
   * cut; it neither starts nor ends with whitespace, and it is empty exactly
   * when `s` is all whitespace.
   */
  function Strip(s: string): (r: string)
    ensures r == [] || (!IsSpace(r[0]) && !IsSpace(r[|r| - 1]))
    ensures exists i :: SpaceAround(s, i, r)
    ensures r == [] <==> AllSpace(s)
  {
    var i := SkipSpaceForward(s, 0);
    var e := SkipSpaceBackward(s, i, |s|);
    assert SpaceAround(s, i, s[i..e]);
    s[i..e]
  }

  /** Concatenation regrouped, for lists of lines as for strings. */
  lemma AppendAssoc<T>(a: seq<T>, b: seq<T>, c: seq<T>)
    ensures a + b + c == a + (b + c)
  {
  }

  // ---------------------------------------------------------------------------
  // sep.join(parts) and s.split(sep)
  // ---------------------------------------------------------------------------

  /** `sep.join(parts)`: the pieces in order, one separator between each two neighbours. */
  function Join(parts: seq<string>, sep: string): string {
    if |parts| == 0 then ""
    else if |parts| == 1 then parts[0]
    else parts[0] + sep + Join(parts[1..], sep)
  }

  /** `s.split(sep)` for a one-character separator: every separator cuts, and no piece holds one. */
  function Split(s: string, sep: char): (r: seq<string>)
    ensures r != []
    ensures forall p <- r :: sep !in p
    decreases |s|
  {
    if s == [] then [""]
    else
      var rest := Split(s[1..], sep);
      if s[0] == sep then [""] + rest
      else [[s[0]] + rest[0]] + rest[1..]
  }

  /** There is one more piece than there are separators. */
  lemma {:induction false} SplitCount(s: string, sep: char)
    ensures |Split(s, sep)| == multiset(s)[sep] + 1
    decreases |s|
  {
    if s != [] {
      SplitCount(s[1..], sep);
      assert s == [s[0]] + s[1..];
    }
  }

  /** The total length of the pieces. */
  function TotalLength(parts: seq<string>): nat {
    if parts == [] then 0 else |parts[0]| + TotalLength(parts[1..])
  }

  /** A join is as long as its pieces plus one separator between each two neighbours. */
  lemma {:induction false} JoinLength(parts: seq<string>, sep: string)
    requires parts != []
    ensures |Join(parts, sep)| == TotalLength(parts) + (|parts| - 1) * |sep|
  {
    if |parts| > 1 {
      JoinLength(parts[1..], sep);
    } else {
      assert parts[1..] == [];
    }
  }

  /** A join opens with its first piece. */
  lemma JoinStartsWithFirst(parts: seq<string>, sep: string)
    requires parts != []
    ensures parts[0] <= Join(parts, sep)
  {
    if |parts| > 1 {
      assert Join(parts, sep) == parts[0] + (sep + Join(parts[1..], sep));
    }
  }

  /** A prefix glued onto the first piece ends up at the front of the join. */
  lemma JoinGlueFirst(x: string, parts: seq<string>, sep: string)
    requires parts != []
    ensures Join([x + parts[0]] + parts[1..], sep) == x + Join(parts, sep)
  {
    var q := [x + parts[0]] + parts[1..];
    assert q[1..] == parts[1..];
  }

  /** Splitting and joining back with the same separator gives the original string. */
  lemma {:induction false} JoinSplit(s: string, sep: char)
    ensures Join(Split(s, sep), [sep]) == s
    decreases |s|
  {
    if s != [] {
      var rest := Split(s[1..], sep);
      JoinSplit(s[1..], sep);
      assert s == [s[0]] + s[1..];
      if s[0] == sep {
        var parts := [""] + rest;
        assert Split(s, sep) == parts;
        assert parts[1..] == rest;
        calc {
          Join(parts, [sep]);
          "" + [sep] + Join(rest, [sep]);
          [sep] + s[1..];
        }
      } else {
        assert Split(s, sep) == [[s[0]] + rest[0]] + rest[1..];
        JoinGlueFirst([s[0]], rest, [sep]);
      }
    }
  }

  /** A string free of the separator splits into itself. */
  lemma {:induction false} SplitWithoutSeparator(a: string, sep: char)
    requires sep !in a
    ensures Split(a, sep) == [a]
    decreases |a|
  {
    if a != [] {
      SplitWithoutSeparator(a[1..], sep);
      assert [a[0]] + a[1..] == a;
    }
  }

  /** A separator-free head before a separator becomes the first piece. */
  lemma {:induction false} SplitAtSeparator(a: string, b: string, sep: char)
    requires sep !in a
    ensures Split(a + [sep] + b, sep) == [a] + Split(b, sep)
    decreases |a|
  {
    var s := a + [sep] + b;
    if a == [] {
      assert s[1..] == b;
    } else {
      assert s[1..] == a[1..] + [sep] + b;
      SplitAtSeparator(a[1..], b, sep);
      assert [a[0]] + a[1..] == a;
    }
  }

  /** Joining separator-free pieces and splitting again gives the pieces back. */
  lemma {:induction false} SplitJoin(parts: seq<string>, sep: char)
    requires parts != []
    requires forall p <- parts :: sep !in p
    ensures Split(Join(parts, [sep]), sep) == parts
  {
    if |parts| == 1 {
      SplitWithoutSeparator(parts[0], sep);
    } else {
      assert parts[0] in parts;
      assert forall p <- parts[1..] :: p in parts;
      SplitJoin(parts[1..], sep);
      SplitAtSeparator(parts[0], Join(parts[1..], [sep]), sep);
      assert [parts[0]] + parts[1..] == parts;
    }
  }

  // ---------------------------------------------------------------------------
  // c * n, str.capitalize()
  // ---------------------------------------------------------------------------

  /** `c * n` for a one-character string `c`. */
  function Repeat(c: char, n: nat): (r: string)
    ensures |r| == n
    ensures forall i | 0 <= i < n :: r[i] == c
  {
    if n == 0 then "" else [c] + Repeat(c, n - 1)
  }

  predicate IsAsciiUpper(c: char) { 'A' <= c <= 'Z' }
  predicate IsAsciiLower(c: char) { 'a' <= c <= 'z' }

  function ToLower(c: char): (d: char)
    ensures !IsAsciiUpper(d)
    ensures IsAsciiUpper(c) ==> IsAsciiLower(d) && d as int == c as int + 32
    ensures IsAsciiUpper(c) || d == c
  {
    if IsAsciiUpper(c) then (c as int + 32) as char else c
  }

  function ToUpper(c: char): (d: char)
    ensures !IsAsciiLower(d)
    ensures IsAsciiLower(c) ==> IsAsciiUpper(d) && d as int == c as int - 32
    ensures IsAsciiLower(c) || d == c
  {
    if IsAsciiLower(c) then (c as int - 32) as char else c
  }

  /** Every ASCII upper-case letter of `s` lowered. */
  function LowerAll(s: string): (r: string)
    ensures |r| == |s|
    ensures forall i | 0 <= i < |r| :: !IsAsciiUpper(r[i]) && (IsAsciiUpper(s[i]) || r[i] == s[i])
    ensures forall i | 0 <= i < |r| :: IsAsciiUpper(s[i]) ==> IsAsciiLower(r[i]) && r[i] as int == s[i] as int + 32
  {
    if s == [] then [] else [ToLower(s[0])] + LowerAll(s[1..])
  }

  /** `s.capitalize()` on ASCII letters: upper-case first character, lower-case rest. */
  function Capitalize(s: string): (r: string)
    ensures |r| == |s|
    ensures r != [] ==> !IsAsciiLower(r[0]) && (IsAsciiLower(s[0]) || r[0] == s[0])
    ensures r != [] && IsAsciiLower(s[0]) ==> IsAsciiUpper(r[0]) && r[0] as int == s[0] as int - 32
    ensures forall i | 1 <= i < |r| :: !IsAsciiUpper(r[i]) && (IsAsciiUpper(s[i]) || r[i] == s[i])
    ensures forall i | 1 <= i < |r| :: IsAsciiUpper(s[i]) ==> IsAsciiLower(r[i]) && r[i] as int == s[i] as int + 32
  {
    if s == [] then [] else [ToUpper(s[0])] + LowerAll(s[1..])
  }

  /** Capitalizing twice changes nothing more. */
  lemma CapitalizeIdempotent(s: string)
    ensures Capitalize(Capitalize(s)) == Capitalize(s)
  {
    var r := Capitalize(s);
    if s != [] {
      assert Capitalize(r)[0] == r[0];
      forall i | 1 <= i < |r| ensures Capitalize(r)[i] == r[i] {}
    }
  }

  // ---------------------------------------------------------------------------
  // int(t) for a two-character string t
  // ---------------------------------------------------------------------------

  /**
   * Python's `int(t)` for `|t| == 2`: two digits; a sign or a whitespace
   * character (in the sense of `IsIntSpace`) before one digit; or one digit
   * followed by such whitespace.
   * None stands for the ValueError Python raises on anything else.
   */
  function IntOfTwoChars(t: string): (r: Option<int>)
    requires |t| == 2
    ensures r.Some? ==> -9 <= r.value <= 99
    ensures r.Some? ==> IsDigit(t[0]) || IsDigit(t[1])
    ensures r.Some? && r.value < 0 ==> t[0] == '-'
    ensures r.Some? && !IsDigit(t[0]) ==> t[0] in {'+', '-'} || IsIntSpace(t[0])
    ensures r.Some? && !IsDigit(t[1]) ==> IsIntSpace(t[1])
  {
    var a, b := t[0], t[1];
    if IsDigit(a) && IsDigit(b) then Some(10 * DigitValue(a) + DigitValue(b))
    else if IsDigit(b) && (a == '+' || IsIntSpace(a)) then Some(DigitValue(b))
    else if IsDigit(b) && a == '-' then Some(-(DigitValue(b) as int))
    else if IsDigit(a) && IsIntSpace(b) then Some(DigitValue(a))
    else None
  }

  /**
   * The information separators 0x1C..0x1F count as whitespace for
   * `str.isspace()` but not for `int()`: next to a digit they make it fail.
   */
  lemma {:induction false} IntRejectsSeparators(c: char, d: char)
    requires '\U{1C}' <= c <= '\U{1F}' && IsDigit(d)
    ensures IsSpace(c)
    ensures IntOfTwoChars([c, d]) == None
    ensures IntOfTwoChars([d, c]) == None
  {
  }

  /** The zero-padded two-digit rendering of `n`, as `%02d` prints it. */
  function TwoDigits(n: nat): (t: string)
    requires n < 100
    ensures |t| == 2
  {
    [DigitChar(n / 10), DigitChar(n % 10)]
  }

  /** `int()` reads a zero-padded two-digit number back exactly. */
  lemma IntOfTwoDigits(n: nat)
    requires n < 100
    ensures IntOfTwoChars(TwoDigits(n)) == Some(n)
  {
  }
}
