/**
  The two Spoke route-sheet parsers of the import service, over the text a
  PDF decoder extracted: the multi-driver sheet whose header assigns each
  driver a range of stop numbers, and the single-route sheet that lists
  `N. TRACKING` lines.
 */
module SpokeParsers {

  import opened Wrappers
  import opened Text
  import opened Seqs

  // ---------------------------------------------------------------------
  // Header: `(NAME a-b)` groups
  // ---------------------------------------------------------------------

  predicate AllLetters(s: string) {
    forall i :: 0 <= i < |s| ==> IsLetter(s[i])
  }

  /** A run of letters, cut out, is all letters */
  lemma LettersRun(s: string, i: nat)
    requires i <= |s|
    ensures AllLetters(s[i..i + Run(s, i, Letters)])
  {
    RunFacts(s, i, Letters);
    var t := s[i..i + Run(s, i, Letters)];
    forall k | 0 <= k < |t|
      ensures IsLetter(t[k])
    {
      assert t[k] == s[i + k];
    }
  }

  /** The captures of one header group `(NAME debut-fin)` */
  datatype RangeMatch = RangeMatch(name: string, debut: string, fin: string)

  predicate WellFormed(m: RangeMatch) {
    |m.name| >= 1 && AllLetters(m.name) && |m.debut| >= 1 && AllDigits(m.debut) && |m.fin| >= 1 && AllDigits(m.fin)
  }

  /** The text of a header group with the given captures and the spaces between name and numbers */
  function RangeText(m: RangeMatch, spaces: string): string {
    "(" + m.name + spaces + m.debut + "-" + m.fin + ")"
  }

  /**
    The match of `\([A-Z]+\s+\d+-\d+\)` (case-insensitive) that starts at `i`,
    with the position just after it. Every run is maximal: a shorter run
    would leave a character the next part of the pattern cannot start with.
   */
  function RangeAt(s: string, i: nat): (r: Option<(RangeMatch, nat)>)
    requires i <= |s|
    ensures r.Some? ==> i < r.value.1 <= |s| && WellFormed(r.value.0)
  {
    if !GroupShape(s, i) then None
    else
      LettersRun(s, i + 1);
      DigitsRun(s, NameEnd(s, i) + Run(s, NameEnd(s, i), Spaces));
      DigitsRun(s, DebutEnd(s, i) + 1);
      Some((RangeMatch(s[i + 1..NameEnd(s, i)], s[SpacesEnd(s, i)..DebutEnd(s, i)], s[DebutEnd(s, i) + 1..FinEnd(s, i)]), FinEnd(s, i) + 1))
  }

  /** Where the letters after `(` end */
  function NameEnd(s: string, i: nat): (p1: nat)
    requires i < |s|
    ensures i < p1 <= |s|
  {
    i + 1 + Run(s, i + 1, Letters)
  }

  /** Where the spaces after the name end */
  function SpacesEnd(s: string, i: nat): (p2: nat)
    requires i < |s|
    ensures NameEnd(s, i) <= p2 <= |s|
  {
    NameEnd(s, i) + Run(s, NameEnd(s, i), Spaces)
  }

  /** Where the digits of the first number end */
  function DebutEnd(s: string, i: nat): (p3: nat)
    requires i < |s|
    ensures SpacesEnd(s, i) <= p3 <= |s|
  {
    SpacesEnd(s, i) + Run(s, SpacesEnd(s, i), Digits)
  }

  /** Where the digits of the second number end */
  function FinEnd(s: string, i: nat): (p4: nat)
    requires i < |s| && DebutEnd(s, i) < |s|
    ensures DebutEnd(s, i) < p4 <= |s|
  {
    DebutEnd(s, i) + 1 + Run(s, DebutEnd(s, i) + 1, Digits)
  }

  /** A group starts at `i`: each run is non-empty and the punctuation is in place */
  predicate GroupShape(s: string, i: nat)
    requires i <= |s|
  {
    i < |s| && s[i] == '('
    && NameEnd(s, i) > i + 1 && SpacesEnd(s, i) > NameEnd(s, i) && DebutEnd(s, i) > SpacesEnd(s, i)
    && DebutEnd(s, i) < |s| && s[DebutEnd(s, i)] == '-'
    && FinEnd(s, i) > DebutEnd(s, i) + 1 && FinEnd(s, i) < |s| && s[FinEnd(s, i)] == ')'
  }

  /** `text.match(/\([A-Z]+\s+\d+-\d+\)/gi)`: every match from `from` on, left to right, without overlap */
  function FindRanges(s: string, from: nat): (r: seq<RangeMatch>)
    requires from <= |s|
    ensures forall k :: 0 <= k < |r| ==> WellFormed(r[k])
    decreases |s| - from
  {
    if from == |s| then []
    else
      match RangeAt(s, from)
      case Some((m, next)) => [m] + FindRanges(s, next)
      case None => FindRanges(s, from + 1)
  }

  /** The positions where the runs of a matched group end */
  lemma RangeAtParts(s: string, i: nat) returns (p1: nat, p2: nat, p3: nat, p4: nat)
    requires i <= |s| && RangeAt(s, i).Some?
    ensures i + 1 < p1 < p2 < p3 && p3 + 1 < p4 < |s| && RangeAt(s, i).value.1 == p4 + 1
    ensures RangeAt(s, i).value.0 == RangeMatch(s[i + 1..p1], s[p2..p3], s[p3 + 1..p4])
    ensures s[i] == '(' && s[p3] == '-' && s[p4] == ')'
    ensures forall k :: i + 1 <= k < p1 ==> IsLetter(s[k])
    ensures forall k :: p1 <= k < p2 ==> IsSpace(s[k])
    ensures forall k :: p2 <= k < p3 ==> IsDigit(s[k])
    ensures forall k :: p3 + 1 <= k < p4 ==> IsDigit(s[k])
  {
    p1, p2, p3, p4 := NameEnd(s, i), SpacesEnd(s, i), DebutEnd(s, i), FinEnd(s, i);
    RunsOfGroup(s, i);
  }

  lemma RunsOfGroup(s: string, i: nat)
    requires i < |s| && DebutEnd(s, i) < |s|
    ensures forall k :: i + 1 <= k < NameEnd(s, i) ==> IsLetter(s[k])
    ensures forall k :: NameEnd(s, i) <= k < SpacesEnd(s, i) ==> IsSpace(s[k])
    ensures forall k :: SpacesEnd(s, i) <= k < DebutEnd(s, i) ==> IsDigit(s[k])
    ensures forall k :: DebutEnd(s, i) + 1 <= k < FinEnd(s, i) ==> IsDigit(s[k])
  {
    RunFacts(s, i + 1, Letters);
    RunFacts(s, NameEnd(s, i), Spaces);
    RunFacts(s, SpacesEnd(s, i), Digits);
    RunFacts(s, DebutEnd(s, i) + 1, Digits);
  }

  /** The matched text is the group written back from its captures and the spaces between name and numbers */
  lemma RangeAtText(s: string, i: nat, m: RangeMatch, e: nat)
    requires i <= |s| && RangeAt(s, i) == Some((m, e))
    ensures var p1 := i + 1 + |m.name|; var p2 := e - 2 - |m.debut| - |m.fin|;
      p1 < p2 <= e <= |s| && AllSpace(s[p1..p2]) && s[i..e] == RangeText(m, s[p1..p2])
  {
    var p1, p2, p3, p4 := RangeAtParts(s, i);
    PartsText(s, i, m, e, p1, p2, p3, p4);
  }

  lemma PartsText(s: string, i: nat, m: RangeMatch, e: nat, p1: nat, p2: nat, p3: nat, p4: nat)
    requires i + 1 < p1 < p2 < p3 && p3 + 1 < p4 < |s| && e == p4 + 1
    requires m == RangeMatch(s[i + 1..p1], s[p2..p3], s[p3 + 1..p4])
    requires s[i] == '(' && s[p3] == '-' && s[p4] == ')'
    requires forall k :: p1 <= k < p2 ==> IsSpace(s[k])
    ensures var p1 := i + 1 + |m.name|; var p2 := e - 2 - |m.debut| - |m.fin|;
      p1 < p2 <= e <= |s| && AllSpace(s[p1..p2]) && s[i..e] == RangeText(m, s[p1..p2])
  {
    GroupText(s, i, p1, p2, p3, p4);
  }

  /** A slice cut at the ends of the runs is the group text of its pieces */
  lemma GroupText(s: string, i: nat, p1: nat, p2: nat, p3: nat, p4: nat)
    requires i + 1 < p1 < p2 < p3 && p3 + 1 < p4 < |s|
    requires s[i] == '(' && s[p3] == '-' && s[p4] == ')'
    requires forall k :: p1 <= k < p2 ==> IsSpace(s[k])
    ensures AllSpace(s[p1..p2])
    ensures s[i..p4 + 1] == RangeText(RangeMatch(s[i + 1..p1], s[p2..p3], s[p3 + 1..p4]), s[p1..p2])
  {
    assert forall k :: 0 <= k < p2 - p1 ==> s[p1..p2][k] == s[p1 + k];
    var name, spaces, debut, fin := s[i + 1..p1], s[p1..p2], s[p2..p3], s[p3 + 1..p4];
    assert s[i..p1] == "(" + name by {
      assert s[i..i + 1] == "(";
      SliceSplit(s, i, i + 1, p1);
    }
    assert s[i..p3] == "(" + name + spaces + debut by {
      SliceSplit(s, i, p1, p2);
      SliceSplit(s, i, p2, p3);
    }
    assert s[i..p4] == "(" + name + spaces + debut + "-" + fin by {
      assert s[p3..p3 + 1] == "-";
      SliceSplit(s, i, p3, p3 + 1);
      SliceSplit(s, i, p3 + 1, p4);
    }
    assert s[p4..p4 + 1] == ")";
    SliceSplit(s, i, p4, p4 + 1);
  }

  /** No opening parenthesis after the first character of a matched group */
  lemma RangeAtInside(s: string, i: nat)
    requires i <= |s| && RangeAt(s, i).Some?
    ensures forall j :: i < j < RangeAt(s, i).value.1 ==> s[j] != '('
  {
    var p1, p2, p3, p4 := RangeAtParts(s, i);
  }

  /** The characters of a group's text, part by part */
  lemma RangeTextChars(m: RangeMatch, spaces: string)
    ensures var t := RangeText(m, spaces); var n, w, a, b := |m.name|, |spaces|, |m.debut|, |m.fin|;
      |t| == n + w + a + b + 3 && t[0] == '(' && t[n + w + a + 1] == '-' && t[n + w + a + b + 2] == ')'
      && (forall k :: 0 <= k < n ==> t[1 + k] == m.name[k])
      && (forall k :: 0 <= k < w ==> t[1 + n + k] == spaces[k])
      && (forall k :: 0 <= k < a ==> t[1 + n + w + k] == m.debut[k])
      && (forall k :: 0 <= k < b ==> t[2 + n + w + a + k] == m.fin[k])
  {
    var t1 := "(" + m.name;
    var t2 := t1 + spaces;
    var t3 := t2 + m.debut;
    var t4 := t3 + "-";
    var t5 := t4 + m.fin;
    assert RangeText(m, spaces) == t5 + ")";
  }

  /** The characters of a group's text where it stands in `s` */
  lemma GroupChars(s: string, i: nat, m: RangeMatch, spaces: string)
    requires i + |RangeText(m, spaces)| <= |s| && s[i..i + |RangeText(m, spaces)|] == RangeText(m, spaces)
    ensures var n, w, a, b := |m.name|, |spaces|, |m.debut|, |m.fin|;
      i + n + w + a + b + 3 <= |s| && s[i] == '(' && s[i + 1 + n + w + a] == '-' && s[i + 2 + n + w + a + b] == ')'
      && (forall k :: 0 <= k < n ==> s[i + 1 + k] == m.name[k])
      && (forall k :: 0 <= k < w ==> s[i + 1 + n + k] == spaces[k])
      && (forall k :: 0 <= k < a ==> s[i + 1 + n + w + k] == m.debut[k])
      && (forall k :: 0 <= k < b ==> s[i + 2 + n + w + a + k] == m.fin[k])
  {
    var t := RangeText(m, spaces);
    RangeTextChars(m, spaces);
    forall k | 0 <= k < |t|
      ensures s[i + k] == t[k]
    {
      assert s[i..i + |t|][k] == s[i + k];
    }
  }

  /** The runs a group's text makes where it stands in `s` */
  lemma GroupRuns(s: string, i: nat, m: RangeMatch, spaces: string)
    requires WellFormed(m) && |spaces| >= 1 && AllSpace(spaces)
    requires i + |RangeText(m, spaces)| <= |s| && s[i..i + |RangeText(m, spaces)|] == RangeText(m, spaces)
    ensures var n, w, a, b := |m.name|, |spaces|, |m.debut|, |m.fin|;
      Run(s, i + 1, Letters) == n && Run(s, i + 1 + n, Spaces) == w
      && Run(s, i + 1 + n + w, Digits) == a && Run(s, i + 2 + n + w + a, Digits) == b
  {
    NameRuns(s, i, m, spaces);
    NumberRuns(s, i, m, spaces);
  }

  lemma NameRuns(s: string, i: nat, m: RangeMatch, spaces: string)
    requires WellFormed(m) && |spaces| >= 1 && AllSpace(spaces)
    requires i + |RangeText(m, spaces)| <= |s| && s[i..i + |RangeText(m, spaces)|] == RangeText(m, spaces)
    ensures Run(s, i + 1, Letters) == |m.name| && Run(s, i + 1 + |m.name|, Spaces) == |spaces|
  {
    var n, w := |m.name|, |spaces|;
    GroupChars(s, i, m, spaces);
    assert s[i + 1 + n] == spaces[0] && s[i + 1 + n + w] == m.debut[0];
    RunOver(s, i + 1, m.name, Letters);
    RunOver(s, i + 1 + n, spaces, Spaces);
  }

  lemma NumberRuns(s: string, i: nat, m: RangeMatch, spaces: string)
    requires WellFormed(m) && |spaces| >= 1 && AllSpace(spaces)
    requires i + |RangeText(m, spaces)| <= |s| && s[i..i + |RangeText(m, spaces)|] == RangeText(m, spaces)
    ensures var n, w, a, b := |m.name|, |spaces|, |m.debut|, |m.fin|;
      Run(s, i + 1 + n + w, Digits) == a && Run(s, i + 2 + n + w + a, Digits) == b
  {
    var n, w, a, b := |m.name|, |spaces|, |m.debut|, |m.fin|;
    var t := RangeText(m, spaces);
    GroupSlices(s, i, m, spaces);
    RangeTextChars(m, spaces);
    assert s[i + 1 + n + w + a] == '-' by {
      assert s[i..i + |t|][1 + n + w + a] == s[i + 1 + n + w + a];
    }
    assert s[i + 2 + n + w + a + b] == ')' by {
      assert s[i..i + |t|][2 + n + w + a + b] == s[i + 2 + n + w + a + b];
    }
    DigitsSlice(s, i + 1 + n + w, i + 1 + n + w + a);
    DigitsSlice(s, i + 2 + n + w + a, i + 2 + n + w + a + b);
  }

  /** A run of digits that stands in a slice and is not followed by a digit */
  lemma DigitsSlice(s: string, lo: nat, hi: nat)
    requires lo <= hi < |s| && AllDigits(s[lo..hi]) && !IsDigit(s[hi])
    ensures Run(s, lo, Digits) == hi - lo
  {
    forall k | lo <= k < hi
      ensures IsDigit(s[k])
    {
      assert s[lo..hi][k - lo] == s[k];
    }
    RunIs(s, lo, hi, Digits);
  }

  /** The run of class `p` at `lo` is `t` when `t` stands there, is all of class `p`, and is not followed by that class */
  lemma RunOver(s: string, lo: nat, t: string, p: CharClass)
    requires lo + |t| <= |s| && forall k :: 0 <= k < |t| ==> s[lo + k] == t[k] && InClass(t[k], p)
    requires lo + |t| == |s| || !InClass(s[lo + |t|], p)
    ensures Run(s, lo, p) == |t|
  {
    forall k | lo <= k < lo + |t|
      ensures InClass(s[k], p)
    {
      assert s[lo + (k - lo)] == t[k - lo];
    }
    RunIs(s, lo, lo + |t|, p);
  }

  /** The captures of a group's text where it stands in `s` */
  lemma GroupSlices(s: string, i: nat, m: RangeMatch, spaces: string)
    requires i + |RangeText(m, spaces)| <= |s| && s[i..i + |RangeText(m, spaces)|] == RangeText(m, spaces)
    ensures var n, w, a, b := |m.name|, |spaces|, |m.debut|, |m.fin|;
      i + n + w + a + b + 3 <= |s|
      && s[i + 1..i + 1 + n] == m.name && s[i + 1 + n + w..i + 1 + n + w + a] == m.debut
      && s[i + 2 + n + w + a..i + 2 + n + w + a + b] == m.fin
  {
    GroupChars(s, i, m, spaces);
  }

  /** Conversely, the text of a well-formed group, with at least one space, matches where it stands */
  lemma RangeTextMatches(s: string, i: nat, m: RangeMatch, spaces: string)
    requires WellFormed(m) && |spaces| >= 1 && AllSpace(spaces)
    requires i + |RangeText(m, spaces)| <= |s| && s[i..i + |RangeText(m, spaces)|] == RangeText(m, spaces)
    ensures RangeAt(s, i) == Some((m, i + |RangeText(m, spaces)|))
  {
    GroupChars(s, i, m, spaces);
    GroupRuns(s, i, m, spaces);
    GroupSlices(s, i, m, spaces);
    RangeTextChars(m, spaces);
    RangeAtFromRuns(s, i, |m.name|, |spaces|, |m.debut|, |m.fin|);
  }

  /** A group whose runs have the given lengths matches, with the captures those lengths cut out */
  lemma RangeAtFromRuns(s: string, i: nat, n: nat, w: nat, a: nat, b: nat)
    requires 1 <= n && 1 <= w && 1 <= a && 1 <= b && i + n + w + a + b + 3 <= |s|
    requires s[i] == '(' && Run(s, i + 1, Letters) == n && Run(s, i + 1 + n, Spaces) == w
    requires Run(s, i + 1 + n + w, Digits) == a && s[i + 1 + n + w + a] == '-'
    requires Run(s, i + 2 + n + w + a, Digits) == b && s[i + 2 + n + w + a + b] == ')'
    ensures RangeAt(s, i) == Some((RangeMatch(s[i + 1..i + 1 + n], s[i + 1 + n + w..i + 1 + n + w + a], s[i + 2 + n + w + a..i + 2 + n + w + a + b]), i + n + w + a + b + 3))
  {
    assert NameEnd(s, i) == i + 1 + n;
    assert SpacesEnd(s, i) == i + 1 + n + w;
    assert DebutEnd(s, i) == i + 1 + n + w + a;
    assert FinEnd(s, i) == i + 2 + n + w + a + b;
    assert GroupShape(s, i);
  }

  /**
    The groups `ms` match, in order, at the positions `pos`: the first one at
    or after `from`, and each following one at or after the end of the one
    before it
   */
  ghost predicate Laid(s: string, from: nat, ms: seq<RangeMatch>, pos: seq<nat>)
    decreases |pos|
  {
    |pos| == |ms|
    && (|pos| > 0 ==>
          from <= pos[0] < |s| && RangeAt(s, pos[0]).Some? && RangeAt(s, pos[0]).value.0 == ms[0]
          && Laid(s, RangeAt(s, pos[0]).value.1, ms[1..], pos[1..]))
  }

  /** The positions `pos` lie at or after `from`, and a group matches at a position from `from` on exactly when the position is in `pos` */
  ghost predicate AllFound(s: string, from: nat, pos: seq<nat>) {
    && (forall k :: 0 <= k < |pos| ==> from <= pos[k])
    && (forall i :: from <= i <= |s| ==> (RangeAt(s, i).Some? <==> i in pos))
  }

  lemma ConsAllFound(s: string, from: nat, pos: seq<nat>)
    requires from <= |s| && RangeAt(s, from).Some? && AllFound(s, RangeAt(s, from).value.1, pos)
    ensures AllFound(s, from, [from] + pos)
  {
    var next := RangeAt(s, from).value.1;
    RangeAtInside(s, from);
    forall i | from <= i <= |s|
      ensures RangeAt(s, i).Some? <==> i in [from] + pos
    {
      if from < i < next {
        assert s[i] != '(';
      } else if i >= next {
        assert i in pos <==> i in [from] + pos;
      }
    }
  }

  /** Positions laid out from `from` are laid out from any earlier start */
  lemma LaidFrom(s: string, from: nat, ms: seq<RangeMatch>, pos: seq<nat>)
    requires Laid(s, from, ms, pos)
    ensures forall f: nat :: f <= from ==> Laid(s, f, ms, pos)
  {
  }

  lemma SkipAllFound(s: string, from: nat, pos: seq<nat>)
    requires from < |s| && RangeAt(s, from).None? && AllFound(s, from + 1, pos)
    ensures AllFound(s, from, pos)
  {
  }

  /**
    The groups `FindRanges` returns stand at increasing, non-overlapping
    positions from `from` on, and a group matches at a position exactly when
    that position is one of them: none is missed and none is invented.
   */
  lemma {:induction false} FindRangesLocated(s: string, from: nat) returns (pos: seq<nat>)
    requires from <= |s|
    ensures Laid(s, from, FindRanges(s, from), pos)
    ensures AllFound(s, from, pos)
    decreases |s| - from
  {
    if from == |s| {
      pos := [];
    } else if RangeAt(s, from).Some? {
      var next := RangeAt(s, from).value.1;
      var rest := FindRangesLocated(s, next);
      pos := [from] + rest;
      assert FindRanges(s, from) == [RangeAt(s, from).value.0] + FindRanges(s, next);
      assert pos[1..] == rest;
      LaidFrom(s, next, FindRanges(s, next), rest);
      ConsAllFound(s, from, rest);
    } else {
      pos := FindRangesLocated(s, from + 1);
      LaidFrom(s, from + 1, FindRanges(s, from + 1), pos);
      SkipAllFound(s, from, pos);
    }
  }

  /** A text that contains no opening parenthesis has no header group */
  lemma {:induction false} NoParenNoRanges(s: string, from: nat)
    requires from <= |s|
    requires forall k :: from <= k < |s| ==> s[k] != '('
    ensures FindRanges(s, from) == []
    decreases |s| - from
  {
    if from < |s| {
      NoParenNoRanges(s, from + 1);
    }
  }

  // ---------------------------------------------------------------------
  // Drivers and their ranges
  // ---------------------------------------------------------------------

  datatype SpokeColis = SpokeColis(tracking: string, adresse: string, ordreDansTournee: nat)

  datatype SpokeDriver = SpokeDriver(nom: string, debut: nat, fin: nat, colis: seq<SpokeColis>)

  /** `{ nom: NAME.toUpperCase(), debut: parseInt(a), fin: parseInt(b), colis: [] }` */
  function InitialDriver(m: RangeMatch): SpokeDriver
    requires WellFormed(m)
  {
    SpokeDriver(Upper(m.name), DigitsValue(m.debut), DigitsValue(m.fin), [])
  }

  function InitialDrivers(ms: seq<RangeMatch>): seq<SpokeDriver>
    requires forall k :: 0 <= k < |ms| ==> WellFormed(ms[k])
  {
    seq(|ms|, k requires 0 <= k < |ms| => InitialDriver(ms[k]))
  }

  predicate InRange(d: SpokeDriver, n: nat) {
    d.debut <= n <= d.fin
  }

  /** The first driver, from `from` on, whose range contains stop `n` */
  function FirstRangeFrom(ds: seq<SpokeDriver>, n: nat, from: nat): (r: Option<nat>)
    requires from <= |ds|
    ensures r.Some? ==> from <= r.value < |ds| && InRange(ds[r.value], n)
    ensures r.Some? ==> forall k :: from <= k < r.value ==> !InRange(ds[k], n)
    ensures r.None? ==> forall k :: from <= k < |ds| ==> !InRange(ds[k], n)
    decreases |ds| - from
  {
    if from == |ds| then None
    else if InRange(ds[from], n) then Some(from)
    else FirstRangeFrom(ds, n, from + 1)
  }

  function FirstRange(ds: seq<SpokeDriver>, n: nat): Option<nat> {
    FirstRangeFrom(ds, n, 0)
  }

  /** What the search loop over the drivers finds is FirstRange */
  lemma FirstRangeIs(ds: seq<SpokeDriver>, n: nat, j: nat)
    requires j <= |ds|
    requires forall k :: 0 <= k < j ==> !InRange(ds[k], n)
    requires j < |ds| ==> InRange(ds[j], n)
    ensures FirstRange(ds, n) == if j < |ds| then Some(j) else None
  {
  }

  /** Same drivers in the same order with the same ranges; only the parcels may differ */
  predicate SameBounds(a: seq<SpokeDriver>, b: seq<SpokeDriver>) {
    |a| == |b| && forall k :: 0 <= k < |a| ==> a[k].nom == b[k].nom && a[k].debut == b[k].debut && a[k].fin == b[k].fin
  }

  /** Which driver a stop goes to depends on the ranges only */
  lemma {:induction false} FirstRangeSameBounds(a: seq<SpokeDriver>, b: seq<SpokeDriver>, n: nat, from: nat)
    requires SameBounds(a, b) && from <= |a|
    ensures FirstRangeFrom(a, n, from) == FirstRangeFrom(b, n, from)
    decreases |a| - from
  {
    if from < |a| {
      FirstRangeSameBounds(a, b, n, from + 1);
    }
  }

  // ---------------------------------------------------------------------
  // Table lines
  // ---------------------------------------------------------------------

  /** The last position in `[lo, hi)` holding a character `.` matches */
  function LastLineChar(line: string, lo: nat, hi: nat): (r: Option<nat>)
    requires lo <= hi <= |line|
    ensures r.Some? ==> lo <= r.value < hi && IsLineChar(line[r.value])
    ensures r.Some? ==> forall k :: r.value < k < hi ==> !IsLineChar(line[k])
    ensures r.None? ==> forall k :: lo <= k < hi ==> !IsLineChar(line[k])
    decreases hi - lo
  {
    if lo == hi then None
    else if IsLineChar(line[hi - 1]) then Some(hi - 1)
    else LastLineChar(line, lo, hi - 1)
  }

  /**
    Where group 2 of `^(\d+)\s+(.+)` starts: the greedy `\s+` after the
    leading digits gives back characters from its end until `.` can match,
    so it is the last position after the first space, up to the end of the
    run of spaces, that holds a character `.` matches.
   */
  function RestStart(line: string): (r: Option<nat>)
    ensures var d := Run(line, 0, Digits); var w := Run(line, d, Spaces);
      && (r.Some? ==> d >= 1 && w >= 1 && d < r.value <= d + w && r.value < |line| && IsLineChar(line[r.value])
                      && forall k :: r.value < k <= d + w && k < |line| ==> !IsLineChar(line[k]))
      && (r.None? && d >= 1 && w >= 1 ==> forall k :: d < k <= d + w && k < |line| ==> !IsLineChar(line[k]))
  {
    var d := Run(line, 0, Digits);
    var w := Run(line, d, Spaces);
    RunFacts(line, d, Spaces);
    if d == 0 || w == 0 then None
    else if d + w < |line| then
      assert !IsSpace(line[d + w]);
      Some(d + w)
    else LastLineChar(line, d + 1, d + w)
  }

  /** The run of digits a line starts with */
  function LeadingDigits(line: string): (ds: string)
    ensures ds == line[..Run(line, 0, Digits)] && AllDigits(ds)
  {
    DigitsRun(line, 0);
    line[..Run(line, 0, Digits)]
  }

  /**
    `line.match(/^(\d+)\s+(.+)/)`: the value of the leading digits and the
    longest run of characters `.` matches from where group 2 starts.
   */
  function LineHead(line: string): (r: Option<(nat, string)>)
    ensures r.Some? <==> RestStart(line).Some?
    ensures r.Some? ==> Run(line, 0, Digits) >= 1 && r.value.0 == DigitsValue(LeadingDigits(line))
    ensures r.Some? ==> var b := RestStart(line).value; var e := b + |r.value.1|;
      e <= |line| && r.value.1 == line[b..e] && (e == |line| || !IsLineChar(line[e]))
    ensures r.Some? ==> |r.value.1| >= 1 && forall k :: 0 <= k < |r.value.1| ==> IsLineChar(r.value.1[k])
  {
    match RestStart(line)
    case None => None
    case Some(b) =>
      RunFacts(line, b, LineChars);
      Some((DigitsValue(LeadingDigits(line)), line[b..b + Run(line, b, LineChars)]))
  }

  /** `[A-Z]{2}FR\d{13}[A-Z]{2}` (case-insensitive) at position `p` */
  predicate TrackingAt(s: string, p: nat) {
    p + 19 <= |s| && IsLetter(s[p]) && IsLetter(s[p + 1])
    && (s[p + 2] == 'F' || s[p + 2] == 'f') && (s[p + 3] == 'R' || s[p + 3] == 'r')
    && (forall k :: p + 4 <= k < p + 17 ==> IsDigit(s[k]))
    && IsLetter(s[p + 17]) && IsLetter(s[p + 18])
  }

  /** A tracking code as the multi-driver parser stores it */
  predicate IsSpokeTracking(t: string) {
    |t| == 19 && TrackingAt(t, 0) && IsUpperCased(t)
  }

  /** The leftmost tracking match at or after `from` */
  function FirstTrackingFrom(s: string, from: nat): (r: Option<nat>)
    requires from <= |s|
    ensures r.Some? ==> from <= r.value && TrackingAt(s, r.value)
    ensures r.Some? ==> forall k :: from <= k < r.value ==> !TrackingAt(s, k)
    ensures r.None? ==> forall k :: from <= k <= |s| ==> !TrackingAt(s, k)
    decreases |s| - from
  {
    if TrackingAt(s, from) then Some(from)
    else if from == |s| then None
    else FirstTrackingFrom(s, from + 1)
  }

  /** The tracking pattern looks only at the nineteen characters it covers */
  lemma TrackingAtSlice(s: string, p: nat, t: string, q: nat)
    requires p + 19 <= |s| && q + 19 <= |t| && s[p..p + 19] == t[q..q + 19]
    ensures TrackingAt(s, p) <==> TrackingAt(t, q)
  {
    assert forall k :: p <= k < p + 19 ==> s[k] == s[p..p + 19][k - p];
    assert forall k :: q <= k < q + 19 ==> t[k] == t[q..q + 19][k - q];
    if TrackingAt(s, p) {
      assert forall k :: q + 4 <= k < q + 17 ==> t[k] == s[p + (k - q)];
    }
    if TrackingAt(t, q) {
      assert forall k :: p + 4 <= k < p + 17 ==> s[k] == t[q + (k - p)];
    }
  }

  /**
    `reste.indexOf(trackingMatch[0])` is the position of the match itself: an
    earlier occurrence of the same text would be an earlier match.
   */
  lemma IndexOfIsMatchPosition(reste: string, p: nat)
    requires FirstTrackingFrom(reste, 0) == Some(p)
    ensures IndexOf(reste, reste[p..p + 19]) == Some(p)
  {
    var code := reste[p..p + 19];
    assert OccursAt(reste, code, p);
    var r := IndexOf(reste, code);
    var q := r.value;
    TrackingAtSlice(reste, q, reste, p);
  }

  /** An upper-cased tracking match is still a tracking match */
  lemma UpperTracking(s: string, p: nat)
    requires TrackingAt(s, p)
    ensures IsSpokeTracking(Upper(s[p..p + 19]))
  {
    var t := Upper(s[p..p + 19]);
    assert forall k :: 0 <= k < 19 ==> t[k] == UpperChar(s[p + k]);
    UpperIsUpperCased(s[p..p + 19]);
  }

  /** `\d{1,2}:\d{2}\s*$` after the first digit, which is at `j - 1` */
  predicate TimeTailAt(s: string, j: nat) {
    j + 3 <= |s| && s[j] == ':' && IsDigit(s[j + 1]) && IsDigit(s[j + 2]) && AllSpace(s[j + 3..])
  }

  /** `\d{1,2}:\d{2}\s*$` at position `i`, trying two digits before one */
  predicate TimeAt(s: string, i: nat) {
    i < |s| && IsDigit(s[i]) && ((i + 1 < |s| && IsDigit(s[i + 1]) && TimeTailAt(s, i + 2)) || TimeTailAt(s, i + 1))
  }

  function FirstTimeFrom(s: string, from: nat): (r: Option<nat>)
    requires from <= |s|
    ensures r.Some? ==> from <= r.value < |s| && TimeAt(s, r.value)
    ensures r.Some? ==> forall k :: from <= k < r.value ==> !TimeAt(s, k)
    ensures r.None? ==> forall k :: from <= k < |s| ==> !TimeAt(s, k)
    decreases |s| - from
  {
    if from == |s| then None
    else if TimeAt(s, from) then Some(from)
    else FirstTimeFrom(s, from + 1)
  }

  /** `s.replace(/\d{1,2}:\d{2}\s*$/, '')`: the match runs to the end, so everything from the leftmost match goes */
  function StripTime(s: string): (r: string)
    ensures IsPrefix(r, s)
    ensures |r| < |s| ==> TimeAt(s, |r|) && forall k :: 0 <= k < |r| ==> !TimeAt(s, k)
    ensures |r| == |s| ==> forall k :: 0 <= k < |s| ==> !TimeAt(s, k)
  {
    match FirstTimeFrom(s, 0)
    case Some(i) => s[..i]
    case None => s
  }

  /** One table line of the multi-driver sheet that carries a tracking code */
  datatype LineItem = LineItem(ordre: nat, tracking: string, adresse: string)

  /**
    A table line: its stop number, its tracking code upper-cased, and the text
    before the code, trimmed, without a trailing `HH:MM` time, trimmed again.
   */
  function ParseLine(line: string): (r: Option<LineItem>)
    ensures r.Some? ==> LineHead(line).Some? && r.value.ordre == LineHead(line).value.0
    ensures r.Some? ==> var reste := LineHead(line).value.1;
      FirstTrackingFrom(reste, 0).Some? &&
      var p := FirstTrackingFrom(reste, 0).value;
      r.value.tracking == Upper(reste[p..p + 19]) && r.value.adresse == Trim(StripTime(Trim(reste[..p])))
    ensures r.Some? ==> IsSpokeTracking(r.value.tracking) && IsTrimmed(r.value.adresse)
    ensures LineHead(line).Some? && FirstTrackingFrom(LineHead(line).value.1, 0).Some? ==> r.Some?
  {
    match LineHead(line)
    case None => None
    case Some((ordre, reste)) =>
      match FirstTrackingFrom(reste, 0)
      case None => None
      case Some(p) =>
        UpperTracking(reste, p);
        TrimProperties(StripTime(Trim(reste[..p])));
        Some(LineItem(ordre, Upper(reste[p..p + 19]), Trim(StripTime(Trim(reste[..p])))))
  }

  // ---------------------------------------------------------------------
  // Assigning lines to drivers
  // ---------------------------------------------------------------------

  /** The parcel a line adds to driver `j`, if it goes there */
  function Placed(ds: seq<SpokeDriver>, j: nat, line: string): (r: Option<SpokeColis>)
    requires j < |ds|
    ensures r.Some? ==> 1 <= r.value.ordreDansTournee <= ds[j].fin - ds[j].debut + 1
    ensures r.Some? ==> IsSpokeTracking(r.value.tracking)
  {
    match ParseLine(line)
    case None => None
    case Some(item) => PlaceItem(ds, j, item)
  }

  /** The parcel of a parsed line, if its stop number falls first in the range of driver `j` */
  function PlaceItem(ds: seq<SpokeDriver>, j: nat, item: LineItem): (r: Option<SpokeColis>)
    requires j < |ds|
    ensures r.Some? ==> 1 <= r.value.ordreDansTournee <= ds[j].fin - ds[j].debut + 1
    ensures r.Some? <==> FirstRange(ds, item.ordre) == Some(j)
  {
    if FirstRange(ds, item.ordre) == Some(j) then
      Some(SpokeColis(item.tracking, item.adresse, item.ordre - ds[j].debut + 1))
    else None
  }

  function PlacedIn(ds: seq<SpokeDriver>, j: nat): string -> Option<SpokeColis>
    requires j < |ds|
  {
    line => if j < |ds| then Placed(ds, j, line) else None
  }

  /** The stop's parcel goes to the first driver whose range holds its stop number, if there is one */
  function AddStop(ds: seq<SpokeDriver>, item: LineItem): (r: seq<SpokeDriver>)
    ensures SameBounds(r, ds)
  {
    match FirstRange(ds, item.ordre)
    case None => ds
    case Some(j) =>
      ds[j := ds[j].(colis := ds[j].colis + [SpokeColis(item.tracking, item.adresse, item.ordre - ds[j].debut + 1)])]
  }

  /** The inner loop of the parser: a line that parses adds its stop */
  function AssignLine(ds: seq<SpokeDriver>, line: string): (r: seq<SpokeDriver>)
    ensures SameBounds(r, ds)
  {
    match ParseLine(line)
    case None => ds
    case Some(item) => AddStop(ds, item)
  }

  function AssignLines(ds: seq<SpokeDriver>, lines: seq<string>): seq<SpokeDriver> {
    if lines == [] then ds
    else AssignLine(AssignLines(ds, lines[..|lines| - 1]), lines[|lines| - 1])
  }

  lemma {:induction false} SameBoundsTransitive(a: seq<SpokeDriver>, b: seq<SpokeDriver>, c: seq<SpokeDriver>)
    requires SameBounds(a, b) && SameBounds(b, c)
    ensures SameBounds(a, c)
  {
  }

  /** One line adds to driver `j` exactly the parcel Placed computes from the original ranges */
  lemma AssignLineStep(a: seq<SpokeDriver>, ds: seq<SpokeDriver>, line: string, j: nat)
    requires SameBounds(a, ds) && j < |ds|
    ensures SameBounds(AssignLine(a, line), ds)
    ensures AssignLine(a, line)[j].colis == a[j].colis + Emit(Placed(ds, j, line))
  {
    SameBoundsTransitive(AssignLine(a, line), a, ds);
    match ParseLine(line)
    case None =>
    case Some(item) =>
      AddStopColis(a, ds, item, j);
  }

  /** Adding a stop adds to driver `j` the parcel whose stop number falls first in its range */
  lemma AddStopColis(a: seq<SpokeDriver>, ds: seq<SpokeDriver>, item: LineItem, j: nat)
    requires SameBounds(a, ds) && j < |ds|
    ensures AddStop(a, item)[j].colis == a[j].colis + Emit(PlaceItem(ds, j, item))
  {
    FirstRangeSameBounds(a, ds, item.ordre, 0);
  }

  lemma AssignLinesSnoc(ds: seq<SpokeDriver>, lines: seq<string>, l: nat)
    requires l < |lines|
    ensures AssignLines(ds, lines[..l + 1]) == AssignLine(AssignLines(ds, lines[..l]), lines[l])
  {
    assert lines[..l + 1][..l] == lines[..l];
  }

  /**
    After all the lines, driver `j` holds the parcels it started with followed
    by, in line order, those of exactly the lines whose stop number falls first
    in its range; no driver appears, disappears or changes range.
   */
  lemma {:induction false} AssignLinesColis(ds: seq<SpokeDriver>, lines: seq<string>, j: nat)
    requires j < |ds|
    ensures SameBounds(AssignLines(ds, lines), ds)
    ensures AssignLines(ds, lines)[j].colis == ds[j].colis + Collect(lines, PlacedIn(ds, j))
  {
    if lines != [] {
      var init := lines[..|lines| - 1];
      AssignLinesColis(ds, init, j);
      AssignLineStep(AssignLines(ds, init), ds, lines[|lines| - 1], j);
    }
  }

  /** The line loop never loses a driver nor changes a range */
  lemma {:induction false} AssignLinesBounds(ds: seq<SpokeDriver>, lines: seq<string>)
    ensures SameBounds(AssignLines(ds, lines), ds)
  {
    if lines != [] {
      var init := lines[..|lines| - 1];
      AssignLinesBounds(ds, init);
      SameBoundsTransitive(AssignLines(ds, lines), AssignLines(ds, init), ds);
    }
  }

  /** `chauffeurRanges.filter(c => c.colis.length > 0)` keeps this one */
  function KeepWithParcels(d: SpokeDriver): Option<SpokeDriver> {
    if |d.colis| > 0 then Some(d) else None
  }

  const SpokeReadError := "Erreur lors de la lecture du fichier Spoke: "
  const NoHeaderMessage := "Format Spoke non reconnu: en-tête chauffeurs introuvable"

  /** What the multi-driver parser computes from the text of the sheet */
  function SpokeSheet(text: string): (r: Result<seq<SpokeDriver>, string>)
    ensures r.Failure? <==> FindRanges(text, 0) == []
    ensures r.Failure? ==> r.error == SpokeReadError + NoHeaderMessage
  {
    var ms := FindRanges(text, 0);
    if |ms| == 0 then Failure(SpokeReadError + NoHeaderMessage)
    else Success(Collect(AssignLines(InitialDrivers(ms), Split(text, '\n')), KeepWithParcels))
  }

  /** The per-driver parcels before drivers without parcels are dropped */
  function HeaderDriverColis(text: string, j: nat): seq<SpokeColis>
    requires j < |FindRanges(text, 0)|
  {
    Collect(Split(text, '\n'), PlacedIn(InitialDrivers(FindRanges(text, 0)), j))
  }

  /** SpokeSheetDrivers for given header matches and lines */
  lemma AssignedDrivers(ms: seq<RangeMatch>, lines: seq<string>) returns (idx: seq<nat>)
    requires forall k :: 0 <= k < |ms| ==> WellFormed(ms[k])
    ensures var ds := InitialDrivers(ms); var out := Collect(AssignLines(ds, lines), KeepWithParcels);
      |idx| == |out|
      && (forall k, l :: 0 <= k < l < |idx| ==> idx[k] < idx[l])
      && (forall k :: 0 <= k < |idx| ==>
            idx[k] < |ms| && out[k] == InitialDriver(ms[idx[k]]).(colis := Collect(lines, PlacedIn(ds, idx[k]))) && |out[k].colis| > 0)
      && (forall j :: 0 <= j < |ms| && |Collect(lines, PlacedIn(ds, j))| > 0 ==> j in idx)
  {
    var ds := InitialDrivers(ms);
    var fin := AssignLines(ds, lines);
    AssignLinesBounds(ds, lines);
    idx := CollectIndices(fin, KeepWithParcels);
    var out := Collect(fin, KeepWithParcels);
    forall j | 0 <= j < |ms|
      ensures fin[j] == InitialDriver(ms[j]).(colis := Collect(lines, PlacedIn(ds, j)))
    {
      AssignLinesColis(ds, lines, j);
    }
    forall k | 0 <= k < |idx|
      ensures out[k] == InitialDriver(ms[idx[k]]).(colis := Collect(lines, PlacedIn(ds, idx[k]))) && |out[k].colis| > 0
    {
      assert KeepWithParcels(fin[idx[k]]) == Some(out[k]);
    }
    forall j | 0 <= j < |ms| && |Collect(lines, PlacedIn(ds, j))| > 0 ensures j in idx {
      assert KeepWithParcels(fin[j]).Some?;
    }
  }

  /**
    The result lists, in header order, exactly the header drivers that got
    at least one parcel, each with its upper-cased name, its range from the
    header, and the parcels of the lines whose stop number falls first in its
    range, in line order.
   */
  lemma SpokeSheetDrivers(text: string) returns (idx: seq<nat>)
    requires SpokeSheet(text).Success?
    ensures var ms := FindRanges(text, 0); var out := SpokeSheet(text).value;
      |idx| == |out|
      && (forall k, l :: 0 <= k < l < |idx| ==> idx[k] < idx[l])
      && (forall k :: 0 <= k < |idx| ==>
            idx[k] < |ms| && out[k] == InitialDriver(ms[idx[k]]).(colis := HeaderDriverColis(text, idx[k])) && |out[k].colis| > 0)
      && (forall j :: 0 <= j < |ms| && |HeaderDriverColis(text, j)| > 0 ==> j in idx)
  {
    idx := AssignedDrivers(FindRanges(text, 0), Split(text, '\n'));
  }

  /** Every parcel has a Spoke tracking code and a position between 1 and the size of its driver's range */
  lemma SpokeSheetParcels(text: string)
    requires SpokeSheet(text).Success?
    ensures forall d :: d in SpokeSheet(text).value ==>
      forall c :: c in d.colis ==> IsSpokeTracking(c.tracking) && 1 <= c.ordreDansTournee <= d.fin - d.debut + 1
  {
    var ms := FindRanges(text, 0);
    var out := SpokeSheet(text).value;
    var idx := SpokeSheetDrivers(text);
    forall d | d in out
      ensures forall c :: c in d.colis ==> IsSpokeTracking(c.tracking) && 1 <= c.ordreDansTournee <= d.fin - d.debut + 1
    {
      var k :| 0 <= k < |out| && out[k] == d;
      var j := idx[k];
      var ds := InitialDrivers(ms);
      var P := (c: SpokeColis) => IsSpokeTracking(c.tracking) && 1 <= c.ordreDansTournee <= ds[j].fin - ds[j].debut + 1;
      CollectAll(Split(text, '\n'), PlacedIn(ds, j), P);
    }
  }

  /** A line goes to at most one driver, and a parsed line whose stop number lies in some range goes to one */
  lemma LinePlacedOnce(ds: seq<SpokeDriver>, line: string)
    ensures forall j1, j2 :: 0 <= j1 < |ds| && 0 <= j2 < |ds| && Placed(ds, j1, line).Some? && Placed(ds, j2, line).Some? ==> j1 == j2
    ensures ParseLine(line).Some? && (exists j :: 0 <= j < |ds| && InRange(ds[j], ParseLine(line).value.ordre)) ==>
      exists j :: 0 <= j < |ds| && Placed(ds, j, line).Some?
  {
    if ParseLine(line).Some? && (exists j :: 0 <= j < |ds| && InRange(ds[j], ParseLine(line).value.ordre)) {
      var j := FirstRange(ds, ParseLine(line).value.ordre).value;
      assert Placed(ds, j, line).Some?;
    }
  }

  /** `chauffeurRanges.find(...)`: the index of the first driver whose range holds stop `ordre`, or `|ranges|` */
  method FindRange(ranges: seq<SpokeDriver>, ordre: nat) returns (j: nat)
    ensures j <= |ranges|
    ensures FirstRange(ranges, ordre) == if j < |ranges| then Some(j) else None
  {
    j := 0;
    while j < |ranges| && !(ordre >= ranges[j].debut && ordre <= ranges[j].fin)
      invariant 0 <= j <= |ranges|
      invariant forall k :: 0 <= k < j ==> !InRange(ranges[k], ordre)
    {
      j := j + 1;
    }
    FirstRangeIs(ranges, ordre, j);
  }

  /** One pass of the line loop: the line's parcel goes to the first driver whose range holds its stop number */
  method PlaceLine(chauffeurRanges: seq<SpokeDriver>, line: string) returns (updated: seq<SpokeDriver>)
    ensures updated == AssignLine(chauffeurRanges, line)
  {
    updated := chauffeurRanges;
    var item := ParseLine(line);
    if item.Some? {
      updated := PlaceStop(chauffeurRanges, item.value);
    }
  }

  /** The body of the line loop once the line is parsed: find the range, then push the parcel */
  method PlaceStop(chauffeurRanges: seq<SpokeDriver>, item: LineItem) returns (updated: seq<SpokeDriver>)
    ensures updated == AddStop(chauffeurRanges, item)
  {
    updated := chauffeurRanges;
    var ordre := item.ordre;
    var j := FindRange(updated, ordre);
    if j < |updated| {
      var chauffeur := updated[j];
      updated := updated[j := chauffeur.(colis := chauffeur.colis + [SpokeColis(item.tracking, item.adresse, ordre - chauffeur.debut + 1)])];
    }
  }

  /** `parseSpokePDF` once the PDF text is extracted */
  method ParseSpokePDF(text: string) returns (r: Result<seq<SpokeDriver>, string>)
    ensures r == SpokeSheet(text)
  {
    var headerMatch := FindRanges(text, 0);
    if |headerMatch| == 0 {
      return Failure(SpokeReadError + NoHeaderMessage);
    }
    var chauffeurRanges: seq<SpokeDriver> := [];
    for i := 0 to |headerMatch|
      invariant |chauffeurRanges| == i
      invariant forall k :: 0 <= k < i ==> chauffeurRanges[k] == InitialDriver(headerMatch[k])
    {
      var parsed := headerMatch[i];
      chauffeurRanges := chauffeurRanges + [SpokeDriver(Upper(parsed.name), DigitsValue(parsed.debut), DigitsValue(parsed.fin), [])];
    }
    ghost var initial := chauffeurRanges;
    assert initial == InitialDrivers(headerMatch);
    var lines := Split(text, '\n');
    for l := 0 to |lines|
      invariant chauffeurRanges == AssignLines(initial, lines[..l])
    {
      AssignLinesSnoc(initial, lines, l);
      chauffeurRanges := PlaceLine(chauffeurRanges, lines[l]);
    }
    assert lines[..|lines|] == lines;
    r := Success(Collect(chauffeurRanges, KeepWithParcels));
  }

  // ---------------------------------------------------------------------
  // Single-route sheet
  // ---------------------------------------------------------------------

  datatype SingleEntry = SingleEntry(ordre: nat, tracking: string)

  predicate AllAlnum(s: string) {
    forall i :: 0 <= i < |s| ==> IsAlnum(s[i])
  }

  predicate AllSeparators(s: string) {
    forall i :: 0 <= i < |s| ==> IsSeparator(s[i])
  }

  /** `line.match(/^(\d+)[.\-\s]+([A-Z0-9]{8,})/i)`: the captured stop number and code */
  function SingleMatch(line: string): (r: Option<(string, string)>)
    ensures r.Some? ==> |r.value.0| >= 1 && AllDigits(r.value.0) && |r.value.1| >= 8 && AllAlnum(r.value.1)
  {
    var d := Run(line, 0, Digits);
    var s := Run(line, d, Separators);
    var a := Run(line, d + s, Alnums);
    if d == 0 || s == 0 || a < 8 then None
    else
      RunFacts(line, 0, Digits);
      RunFacts(line, d + s, Alnums);
      Some((line[..d], line[d + s..d + s + a]))
  }

  /** The entry of one line: `parseInt` of the number and the code upper-cased */
  function SingleLine(line: string): (r: Option<SingleEntry>)
    ensures r.Some? ==> |r.value.tracking| >= 8 && AllAlnum(r.value.tracking) && IsUpperCased(r.value.tracking)
  {
    match SingleMatch(line)
    case None => None
    case Some((digits, code)) =>
      UpperIsUpperCased(code);
      Some(SingleEntry(DigitsValue(digits), Upper(code)))
  }

  /** A line the pattern matches: digits, then separators, then a maximal run of at least 8 letters and digits */
  lemma SingleMatchShape(line: string) returns (d: nat, s: nat, a: nat)
    requires SingleMatch(line).Some?
    ensures 1 <= d && 1 <= s && 8 <= a && d + s + a <= |line|
    ensures forall k :: 0 <= k < d ==> IsDigit(line[k])
    ensures forall k :: d <= k < d + s ==> IsSeparator(line[k])
    ensures forall k :: d + s <= k < d + s + a ==> IsAlnum(line[k])
    ensures d + s + a == |line| || !IsAlnum(line[d + s + a])
    ensures SingleMatch(line) == Some((line[..d], line[d + s..d + s + a]))
  {
    d := Run(line, 0, Digits);
    s := Run(line, d, Separators);
    a := Run(line, d + s, Alnums);
    RunFacts(line, 0, Digits);
    RunFacts(line, d, Separators);
    RunFacts(line, d + s, Alnums);
    forall k | 0 <= k < d
      ensures IsDigit(line[k])
    {
      assert InClass(line[k], Digits);
    }
    forall k | d <= k < d + s
      ensures IsSeparator(line[k])
    {
      assert InClass(line[k], Separators);
    }
    forall k | d + s <= k < d + s + a
      ensures IsAlnum(line[k])
    {
      assert InClass(line[k], Alnums);
    }
    if d + s + a < |line| {
      assert !InClass(line[d + s + a], Alnums);
    }
  }

  /** Conversely, a line that gives an entry is shaped that way */
  lemma SingleLineShape(line: string) returns (d: nat, s: nat, a: nat)
    requires SingleLine(line).Some?
    ensures 1 <= d && 1 <= s && 8 <= a && d + s + a <= |line|
    ensures forall k :: 0 <= k < d ==> IsDigit(line[k])
    ensures forall k :: d <= k < d + s ==> IsSeparator(line[k])
    ensures forall k :: d + s <= k < d + s + a ==> IsAlnum(line[k])
    ensures d + s + a == |line| || !IsAlnum(line[d + s + a])
    ensures SingleLine(line) == Some(SingleEntry(DigitsValue(line[..d]), Upper(line[d + s..d + s + a])))
  {
    d, s, a := SingleMatchShape(line);
  }

  /** Digits on `[0, d)`, separators on `[d, d + s)` and at least 8 letters or digits from `d + s` */
  predicate SingleShaped(line: string, d: nat, s: nat) {
    1 <= d && 1 <= s && d + s + 8 <= |line|
    && (forall k :: 0 <= k < d ==> IsDigit(line[k]))
    && (forall k :: d <= k < d + s ==> IsSeparator(line[k]))
    && (forall k :: d + s <= k < d + s + 8 ==> IsAlnum(line[k]))
  }

  /** Every line of that shape matches, with its digits as the number and the whole run of letters and digits as the code */
  lemma SingleMatchComplete(line: string, d: nat, s: nat)
    requires SingleShaped(line, d, s)
    ensures SingleMatch(line).Some? && SingleMatch(line).value.0 == line[..d]
    ensures SingleMatch(line).value.1 == line[d + s..d + s + Run(line, d + s, Alnums)]
    ensures SingleLine(line) == Some(SingleEntry(DigitsValue(line[..d]), Upper(line[d + s..d + s + Run(line, d + s, Alnums)])))
  {
    assert !IsDigit(line[d]) by { assert IsSeparator(line[d]); }
    RunIs(line, 0, d, Digits);
    assert !IsSeparator(line[d + s]) by { assert IsAlnum(line[d + s]); }
    RunIs(line, d, d + s, Separators);
    RunFacts(line, d + s, Alnums);
  }

  /**
    The single-route sheet gives one entry per trimmed line that yields one,
    in line order, and every trimmed line of the shape above is among them
   */
  lemma SingleSheetLines(text: string) returns (idx: seq<nat>)
    ensures var lines := TrimmedLines(text); var colis := Collect(lines, SingleLine);
      |idx| == |colis|
      && (forall k :: 0 <= k < |idx| ==> idx[k] < |lines| && SingleLine(lines[idx[k]]) == Some(colis[k]))
      && (forall k, l :: 0 <= k < l < |idx| ==> idx[k] < idx[l])
      && (forall l, d, s :: 0 <= l < |lines| && SingleShaped(lines[l], d, s) ==> l in idx)
  {
    var lines := TrimmedLines(text);
    idx := CollectIndices(lines, SingleLine);
    forall l, d, s | 0 <= l < |lines| && SingleShaped(lines[l], d, s)
      ensures l in idx
    {
      SingleMatchComplete(lines[l], d, s);
    }
  }

  /** `text.split('\n').map(l => l.trim()).filter(l => l)` keeps this line */
  function NonBlankTrimmed(line: string): Option<string> {
    if Trim(line) != "" then Some(Trim(line)) else None
  }

  function TrimmedLines(text: string): seq<string> {
    Collect(Split(text, '\n'), NonBlankTrimmed)
  }

  /** `parseSpokeSinglePDF` once the PDF text is extracted: one entry per matching trimmed line, in line order */
  method ParseSpokeSinglePDF(text: string) returns (colis: seq<SingleEntry>)
    ensures colis == Collect(TrimmedLines(text), SingleLine)
    ensures forall k :: 0 <= k < |colis| ==> |colis[k].tracking| >= 8 && IsUpperCased(colis[k].tracking)
  {
    colis := [];
    var lines := TrimmedLines(text);
    for i := 0 to |lines|
      invariant colis == Collect(lines[0..i], SingleLine)
    {
      CollectStep(lines, 0, i, SingleLine);
      var line := lines[i];
      var found := SingleMatch(line);
      if found.Some? {
        var ordre := DigitsValue(found.value.0);
        var tracking := Upper(found.value.1);
        colis := colis + [SingleEntry(ordre, tracking)];
      }
      assert SingleLine(line) == if found.Some? then Some(SingleEntry(DigitsValue(found.value.0), Upper(found.value.1))) else None;
    }
    assert lines[0..|lines|] == lines;
    SingleEntriesShape(lines);
  }

  lemma SingleEntriesShape(lines: seq<string>)
    ensures forall k :: 0 <= k < |Collect(lines, SingleLine)| ==>
      |Collect(lines, SingleLine)[k].tracking| >= 8 && IsUpperCased(Collect(lines, SingleLine)[k].tracking)
  {
    var P := (e: SingleEntry) => |e.tracking| >= 8 && IsUpperCased(e.tracking);
    CollectAll(lines, SingleLine, P);
    assert forall e :: e in Collect(lines, SingleLine) ==> P(e);
  }
}
