/**
  Character classes and string operations with the meaning they have in
  JavaScript: `\d`, `\w`, `\s`, `String.prototype.trim`, `split`, `join`,
  `toUpperCase`/`toLowerCase` (restricted to ASCII letters) and `parseInt`
  on a run of decimal digits.
 */
module Text {

  import opened Wrappers

  /** `\d` */
  predicate IsDigit(c: char) { '0' <= c <= '9' }

  predicate IsUpperLetter(c: char) { 'A' <= c <= 'Z' }

  predicate IsLowerLetter(c: char) { 'a' <= c <= 'z' }

  /** `[A-Z]` under the case-insensitive flag */
  predicate IsLetter(c: char) { IsUpperLetter(c) || IsLowerLetter(c) }

  /** `[A-Z0-9]` under the case-insensitive flag */
  predicate IsAlnum(c: char) { IsLetter(c) || IsDigit(c) }

  /** `\w` */
  predicate IsWordChar(c: char) { IsAlnum(c) || c == '_' }

  /** `\s`: the WhiteSpace and LineTerminator characters, which are also what `trim` removes */
  predicate IsSpace(c: char) {
    || c == '\t' || c == '\n' || c == '\U{B}' || c == '\U{C}' || c == '\r' || c == ' '
    || c == '\U{A0}' || c == '\U{1680}' || ('\U{2000}' <= c <= '\U{200A}')
    || c == '\U{2028}' || c == '\U{2029}' || c == '\U{202F}' || c == '\U{205F}'
    || c == '\U{3000}' || c == '\U{FEFF}'
  }

  /** The characters `.` does not match */
  predicate IsLineTerminator(c: char) {
    c == '\n' || c == '\r' || c == '\U{2028}' || c == '\U{2029}'
  }

  /** The characters `.` matches */
  predicate IsLineChar(c: char) {
    !IsLineTerminator(c)
  }

  /** `[.\-\s]` */
  predicate IsSeparator(c: char) {
    c == '.' || c == '-' || IsSpace(c)
  }

  /** The character classes whose runs the parsers measure */
  datatype CharClass = Digits | Spaces | Letters | Alnums | Separators | LineChars | CommaSpaces

  predicate InClass(c: char, k: CharClass) {
    match k
    case Digits => IsDigit(c)
    case Spaces => IsSpace(c)
    case Letters => IsLetter(c)
    case Alnums => IsAlnum(c)
    case Separators => IsSeparator(c)
    case LineChars => IsLineChar(c)
    case CommaSpaces => c == ',' || IsSpace(c)
  }

  function UpperChar(c: char): char {
    if IsLowerLetter(c) then (c as int - 32) as char else c
  }

  function LowerChar(c: char): char {
    if IsUpperLetter(c) then (c as int + 32) as char else c
  }

  /** `toUpperCase`, folding ASCII letters only */
  function Upper(s: string): string {
    seq(|s|, i requires 0 <= i < |s| => UpperChar(s[i]))
  }

  /** `toLowerCase`, folding ASCII letters only */
  function Lower(s: string): string {
    seq(|s|, i requires 0 <= i < |s| => LowerChar(s[i]))
  }

  /** No lower-case ASCII letter left */
  predicate IsUpperCased(s: string) {
    forall i :: 0 <= i < |s| ==> !IsLowerLetter(s[i])
  }

  /** Case-insensitive equality, what `.ilike(column, value)` tests for a value without wildcards */
  predicate EqualsIgnoreCase(a: string, b: string) {
    Lower(a) == Lower(b)
  }

  lemma UpperIsUpperCased(s: string)
    ensures IsUpperCased(Upper(s))
    ensures Upper(Upper(s)) == Upper(s)
    ensures EqualsIgnoreCase(Upper(s), s)
  {
  }

  /** Length of the longest run of characters satisfying `p` that starts at `i` */
  function Run(s: string, i: nat, p: CharClass): (n: nat)
    requires i <= |s|
    ensures i + n <= |s|
    decreases |s| - i
  {
    if i == |s| || !InClass(s[i], p) then 0 else 1 + Run(s, i + 1, p)
  }

  /** The run is made of characters in the class, and is maximal */
  lemma {:induction false} RunFacts(s: string, i: nat, p: CharClass)
    requires i <= |s|
    ensures forall k :: i <= k < i + Run(s, i, p) ==> InClass(s[k], p)
    ensures i + Run(s, i, p) == |s| || !InClass(s[i + Run(s, i, p)], p)
    decreases |s| - i
  {
    if i < |s| && InClass(s[i], p) {
      RunFacts(s, i + 1, p);
    }
  }

  /** A run of digits, cut out, is all digits */
  lemma DigitsRun(s: string, i: nat)
    requires i <= |s|
    ensures AllDigits(s[i..i + Run(s, i, Digits)])
  {
    RunFacts(s, i, Digits);
    var t := s[i..i + Run(s, i, Digits)];
    forall k | 0 <= k < |t|
      ensures IsDigit(t[k])
    {
      assert t[k] == s[i + k];
    }
  }

  /** The run at `i` ends at `j` when every character of `s[i..j]` satisfies `p` and `s[j]`, if any, does not */
  lemma {:induction false} RunIs(s: string, i: nat, j: nat, p: CharClass)
    requires i <= j <= |s|
    requires forall k :: i <= k < j ==> InClass(s[k], p)
    requires j == |s| || !InClass(s[j], p)
    ensures Run(s, i, p) == j - i
    decreases j - i
  {
    if i < j {
      RunIs(s, i + 1, j, p);
    }
  }

  /** A run starting at `i` is the run starting at the beginning of `s[i..]` */
  lemma {:induction false} RunShift(s: string, i: nat, p: CharClass)
    requires i <= |s|
    ensures Run(s, i, p) == Run(s[i..], 0, p)
    decreases |s| - i
  {
    if i < |s| && InClass(s[i], p) {
      RunShift(s, i + 1, p);
      RunShift(s[i..], 1, p);
      assert s[i..][1..] == s[i + 1..];
    }
  }

  /** The run at the start of `a + b` is `a` when every character of `a` and not the first of `b` satisfies `p` */
  lemma {:induction false} RunPrefix(a: string, b: string, p: CharClass)
    requires forall k :: 0 <= k < |a| ==> InClass(a[k], p)
    requires b == [] || !InClass(b[0], p)
    ensures Run(a + b, 0, p) == |a|
  {
    if a == [] {
      assert a + b == b;
    } else {
      RunShift(a + b, 1, p);
      assert (a + b)[1..] == a[1..] + b;
      RunPrefix(a[1..], b, p);
    }
  }

  /** A slice is the concatenation of its two halves */
  lemma SliceSplit(s: string, a: nat, b: nat, c: nat)
    requires a <= b <= c <= |s|
    ensures s[a..c] == s[a..b] + s[b..c]
  {
  }

  lemma SuffixOfSlice(s: string, a: nat, b: nat, m: nat)
    requires a <= b <= |s| && m <= b - a
    ensures s[a..b][m..] == s[a + m..b]
  {
    assert forall k :: 0 <= k < b - a - m ==> s[a..b][m..][k] == s[a + m + k];
  }

  predicate AllSpace(s: string) {
    forall i :: 0 <= i < |s| ==> IsSpace(s[i])
  }

  /** Length of the run of characters of class `p` at the end of `s` */
  function TrailingRun(s: string, p: CharClass): (n: nat)
    ensures n <= |s|
  {
    if s == [] || !InClass(s[|s| - 1], p) then 0
    else TrailingRun(s[..|s| - 1], p) + 1
  }

  /** The trailing run is made of characters of the class, and is maximal */
  lemma {:induction false} TrailingFacts(s: string, p: CharClass)
    ensures forall k :: |s| - TrailingRun(s, p) <= k < |s| ==> InClass(s[k], p)
    ensures TrailingRun(s, p) < |s| ==> !InClass(s[|s| - TrailingRun(s, p) - 1], p)
  {
    if s != [] && InClass(s[|s| - 1], p) {
      TrailingFacts(s[..|s| - 1], p);
    }
  }

  function TrimStart(s: string): string {
    s[Run(s, 0, Spaces)..]
  }

  function TrimEnd(s: string): string {
    s[..|s| - TrailingRun(s, Spaces)]
  }

  /** `String.prototype.trim` */
  function Trim(s: string): string {
    TrimEnd(TrimStart(s))
  }

  /** Neither end of a string starts or ends with a space character */
  predicate IsTrimmed(s: string) {
    s == [] || (!IsSpace(s[0]) && !IsSpace(s[|s| - 1]))
  }

  /** Trim as the cut of two runs of spaces: what is left is a trimmed slice */
  lemma TrimSlice(s: string) returns (a: nat, b: nat)
    ensures a <= b <= |s| && Trim(s) == s[a..b]
    ensures forall k :: 0 <= k < a ==> IsSpace(s[k])
    ensures forall k :: b <= k < |s| ==> IsSpace(s[k])
    ensures IsTrimmed(s[a..b])
  {
    a := Run(s, 0, Spaces);
    RunFacts(s, 0, Spaces);
    var t := s[a..];
    var n := TrailingRun(t, Spaces);
    TrailingFacts(t, Spaces);
    b := |s| - n;
    assert Trim(s) == t[..|t| - n];
    assert t[..|t| - n] == s[a..b];
    forall k | 0 <= k < a
      ensures IsSpace(s[k])
    {
      assert InClass(s[k], Spaces);
    }
    forall k | b <= k < |s|
      ensures IsSpace(s[k])
    {
      assert s[k] == t[k - a] && InClass(t[k - a], Spaces);
    }
    if a < b {
      assert s[a..b][0] == s[a] && !InClass(s[a], Spaces);
      assert s[a..b][b - a - 1] == t[|t| - n - 1] && !InClass(t[|t| - n - 1], Spaces);
    }
  }

  /** The trimmed string is a slice of the input, without space at either end, and only spaces are cut */
  lemma TrimProperties(s: string)
    ensures IsTrimmed(Trim(s))
    ensures exists a, b :: 0 <= a <= b <= |s| && Trim(s) == s[a..b] && AllSpace(s[..a]) && AllSpace(s[b..])
    ensures Trim(Trim(s)) == Trim(s)
  {
    var a, b := TrimSlice(s);
    TrimmedTrim(Trim(s));
  }

  /** Trimming a trimmed string changes nothing */
  lemma TrimmedTrim(w: string)
    requires IsTrimmed(w)
    ensures Trim(w) == w
  {
    assert Run(w, 0, Spaces) == 0;
    assert w[0..] == w;
    assert TrailingRun(w, Spaces) == 0;
  }

  /** Upper-casing keeps a trimmed string trimmed (space characters are not letters) */
  lemma UpperKeepsTrimmed(s: string)
    requires IsTrimmed(s)
    ensures IsTrimmed(Upper(s))
  {
  }

  predicate AllDigits(s: string) {
    forall i :: 0 <= i < |s| ==> IsDigit(s[i])
  }

  /** `parseInt` of a string of decimal digits */
  function DigitsValue(s: string): nat
    requires AllDigits(s)
  {
    if s == [] then 0
    else
      assert IsDigit(s[|s| - 1]);
      DigitsValue(s[..|s| - 1]) * 10 + (s[|s| - 1] as int - '0' as int)
  }

  predicate IsPrefix(p: string, s: string) {
    |p| <= |s| && s[..|p|] == p
  }

  predicate OccursAt(s: string, sub: string, i: nat) {
    i + |sub| <= |s| && s[i..i + |sub|] == sub
  }

  /** `s.includes(sub)` */
  predicate Contains(s: string, sub: string) {
    exists i :: 0 <= i <= |s| - |sub| && OccursAt(s, sub, i)
  }

  /** A string that contains `outer` contains every substring of `outer` */
  lemma ContainsTransitive(s: string, outer: string, k: nat, inner: string)
    requires Contains(s, outer)
    requires OccursAt(outer, inner, k)
    ensures Contains(s, inner)
  {
    var i :| 0 <= i <= |s| - |outer| && OccursAt(s, outer, i);
    assert forall j :: 0 <= j < |inner| ==> s[i + k + j] == outer[k + j] == inner[j];
    assert s[i + k..i + k + |inner|] == inner;
    assert OccursAt(s, inner, i + k);
  }

  /** `s.indexOf(sub, from)`: the first position at or after `from` where `sub` occurs */
  function IndexOfFrom(s: string, sub: string, from: nat): (r: Option<nat>)
    requires from <= |s|
    ensures r.Some? ==> from <= r.value && OccursAt(s, sub, r.value)
    ensures r.Some? ==> forall j :: from <= j < r.value ==> !OccursAt(s, sub, j)
    ensures r.None? ==> forall j :: from <= j <= |s| ==> !OccursAt(s, sub, j)
    decreases |s| - from
  {
    if OccursAt(s, sub, from) then Some(from)
    else if from == |s| then None
    else IndexOfFrom(s, sub, from + 1)
  }

  function IndexOf(s: string, sub: string): Option<nat> {
    IndexOfFrom(s, sub, 0)
  }

  /** `indexOf` finds an occurrence at or before any known one */
  lemma IndexOfFinds(s: string, sub: string, i: nat)
    requires OccursAt(s, sub, i)
    ensures IndexOf(s, sub).Some? && IndexOf(s, sub).value <= i
  {
  }

  /** `s.split(sep)` for a one-character separator */
  function Split(s: string, sep: char): (parts: seq<string>)
    ensures |parts| >= 1
    ensures forall k, i :: 0 <= k < |parts| && 0 <= i < |parts[k]| ==> parts[k][i] != sep
  {
    if s == [] then [""]
    else
      var init := Split(s[..|s| - 1], sep);
      var c := s[|s| - 1];
      if c == sep then init + [""]
      else init[..|init| - 1] + [init[|init| - 1] + [c]]
  }

  /** `parts.join(sep)` */
  function Join(parts: seq<string>, sep: string): string {
    if parts == [] then ""
    else if |parts| == 1 then parts[0]
    else Join(parts[..|parts| - 1], sep) + sep + parts[|parts| - 1]
  }

  lemma JoinSnoc(parts: seq<string>, sep: string, last: string)
    requires parts != []
    ensures Join(parts + [last], sep) == Join(parts, sep) + sep + last
  {
    assert (parts + [last])[..|parts|] == parts;
  }

  lemma JoinExtendLast(parts: seq<string>, sep: string, c: char)
    requires parts != []
    ensures Join(parts[..|parts| - 1] + [parts[|parts| - 1] + [c]], sep) == Join(parts, sep) + [c]
  {
    var init := parts[..|parts| - 1];
    if |parts| > 1 {
      JoinSnoc(init, sep, parts[|parts| - 1] + [c]);
      assert parts == init + [parts[|parts| - 1]];
      JoinSnoc(init, sep, parts[|parts| - 1]);
    }
  }

  /** Splitting and joining back with the same separator gives the input */
  lemma {:induction false} SplitJoin(s: string, sep: char)
    ensures Join(Split(s, sep), [sep]) == s
  {
    if s != [] {
      var init := Split(s[..|s| - 1], sep);
      SplitJoin(s[..|s| - 1], sep);
      var c := s[|s| - 1];
      if c == sep {
        JoinSnoc(init, [sep], "");
      } else {
        JoinExtendLast(init, [sep], c);
      }
      assert s == s[..|s| - 1] + [c];
    }
  }

  /** `String(n)` for an integer */
  function NatToString(n: nat): (r: string)
    ensures |r| >= 1
    ensures forall i :: 0 <= i < |r| ==> IsDigit(r[i])
  {
    if n < 10 then [('0' as int + n) as char]
    else NatToString(n / 10) + [('0' as int + n % 10) as char]
  }

  function IntToString(n: int): string {
    if n < 0 then "-" + NatToString(-n) else NatToString(n)
  }

  lemma {:induction false} NatToStringValue(n: nat)
    ensures DigitsValue(NatToString(n)) == n
  {
    if n >= 10 {
      NatToStringValue(n / 10);
      var r := NatToString(n);
      assert r[..|r| - 1] == NatToString(n / 10);
    }
  }

  /** A template literal `${x}` where `x` may be null */
  function Interp(s: Option<string>): string {
    match s
    case Some(v) => v
    case None => "null"
  }
}
