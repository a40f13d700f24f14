/**
  `parseAdresse`: split a one-line French address into the street part, the
  five-digit postcode and the town that follows it.
 */
module AddressParser {

  import opened Wrappers
  import opened Text

  datatype Adresse = Adresse(adresse: string, ville: Option<string>, codePostal: Option<string>)

  /** `\b(\d{5})\b` at position `i`: five digits with no word character on either side */
  predicate CpAt(s: string, i: nat) {
    i + 5 <= |s| && (forall k :: i <= k < i + 5 ==> IsDigit(s[k]))
    && (i == 0 || !IsWordChar(s[i - 1]))
    && (i + 5 == |s| || !IsWordChar(s[i + 5]))
  }

  /** The leftmost postcode at or after `from` */
  function FirstCpFrom(s: string, from: nat): (r: Option<nat>)
    requires from <= |s|
    ensures r.Some? ==> from <= r.value && CpAt(s, r.value)
    ensures r.Some? ==> forall k :: from <= k < r.value ==> !CpAt(s, k)
    ensures r.None? ==> forall k :: from <= k <= |s| ==> !CpAt(s, k)
    decreases |s| - from
  {
    if CpAt(s, from) then Some(from)
    else if from == |s| then None
    else FirstCpFrom(s, from + 1)
  }

  /** `s.replace(/^[,\s]+/, '')` */
  function StripLeading(s: string): string {
    s[Run(s, 0, CommaSpaces)..]
  }

  /** `s.replace(/[,\s]+$/, '')` */
  function StripTrailing(s: string): string {
    s[..|s| - TrailingRun(s, CommaSpaces)]
  }

  /** The street and the town around a postcode taken to start at `pos` */
  function SplitAt(s: string, pos: nat): Adresse
    requires pos + 5 <= |s|
  {
    var afterCP := Trim(s[pos + 5..]);
    Adresse(Trim(StripTrailing(s[..pos])),
            if afterCP != [] then Some(Trim(StripLeading(afterCP))) else None,
            Some(s[pos..pos + 5]))
  }

  /**
    The function as the source writes it: the postcode is the first
    `\b\d{5}\b` match, but the text is cut at `indexOf` of those five digits,
    which is an earlier position when they also occur inside a longer number.
   */
  function ParseAdresseAsWritten(s: string): (r: Adresse)
    ensures r.codePostal == ParseAdresse(s).codePostal
  {
    match FirstCpFrom(s, 0)
    case None => Adresse(s, None, None)
    case Some(i) =>
      IndexOfFinds(s, s[i..i + 5], i);
      SplitAt(s, IndexOf(s, s[i..i + 5]).value)
  }

  /** The intended function: the text is cut around the matched postcode itself */
  function ParseAdresse(s: string): (r: Adresse)
    ensures r.codePostal.None? <==> forall k :: 0 <= k <= |s| ==> !CpAt(s, k)
    ensures r.codePostal.None? ==> r.adresse == s && r.ville.None?
  {
    match FirstCpFrom(s, 0)
    case None => Adresse(s, None, None)
    case Some(i) => SplitAt(s, i)
  }

  /** The street part: a slice of `t` without leading spaces nor a trailing comma or space, cut only there */
  lemma StreetFacts(t: string) returns (a: nat, b: nat)
    ensures a <= b <= |t| && Trim(StripTrailing(t)) == t[a..b]
    ensures forall k :: 0 <= k < a ==> IsSpace(t[k])
    ensures forall k :: b <= k < |t| ==> t[k] == ',' || IsSpace(t[k])
    ensures a == b || (!IsSpace(t[a]) && t[b - 1] != ',' && !IsSpace(t[b - 1]))
  {
    var n := TrailingRun(t, CommaSpaces);
    TrailingFacts(t, CommaSpaces);
    var u := t[..|t| - n];
    a := Run(u, 0, Spaces);
    RunFacts(u, 0, Spaces);
    b := |u|;
    var v := u[a..];
    assert TrimStart(u) == v;
    if v != [] {
      assert v[|v| - 1] == t[|t| - n - 1];
      assert TrailingRun(v, Spaces) == 0;
      assert v[0] == u[a];
    } else {
      assert TrailingRun(v, Spaces) == 0;
    }
  }

  /** StreetFacts for the text before position `i`, with positions counted in `s` */
  lemma StreetBefore(s: string, i: nat) returns (a: nat, b: nat)
    requires i <= |s|
    ensures a <= b <= i && Trim(StripTrailing(s[..i])) == s[a..b]
    ensures forall k :: 0 <= k < a ==> IsSpace(s[k])
    ensures forall k :: b <= k < i ==> s[k] == ',' || IsSpace(s[k])
    ensures a == b || (!IsSpace(s[a]) && s[b - 1] != ',' && !IsSpace(s[b - 1]))
  {
    var before := s[..i];
    a, b := StreetFacts(before);
    assert before[a..b] == s[a..b];
    assert forall k :: 0 <= k < i ==> before[k] == s[k];
  }

  /** The town: a slice of `t` without a leading comma or space nor trailing spaces, cut only there */
  lemma TownFacts(t: string) returns (c: nat, d: nat)
    ensures c <= d <= |t| && Trim(StripLeading(Trim(t))) == t[c..d]
    ensures forall k :: 0 <= k < c ==> t[k] == ',' || IsSpace(t[k])
    ensures forall k :: d <= k < |t| ==> IsSpace(t[k])
    ensures c == d || (t[c] != ',' && !IsSpace(t[c]) && !IsSpace(t[d - 1]))
  {
    var a0, b0 := TrimSlice(t);
    c := LeadingSliceIn(t, a0, b0);
    d := b0;
    TrimmedTrim(t[c..d]);
  }

  /** LeadingSlice for the slice `t[a0..b0]`, with positions counted in `t` */
  lemma LeadingSliceIn(t: string, a0: nat, b0: nat) returns (c: nat)
    requires a0 <= b0 <= |t| && IsTrimmed(t[a0..b0])
    ensures a0 <= c <= b0 && StripLeading(t[a0..b0]) == t[c..b0]
    ensures forall k :: a0 <= k < c ==> t[k] == ',' || IsSpace(t[k])
    ensures IsTrimmed(t[c..b0])
    ensures c < b0 ==> t[c] != ',' && !IsSpace(t[c]) && !IsSpace(t[b0 - 1])
  {
    var u := t[a0..b0];
    var m := LeadingSlice(u);
    c := a0 + m;
    SuffixOfSlice(t, a0, b0, m);
    forall k | a0 <= k < c ensures t[k] == ',' || IsSpace(t[k]) {
      assert t[k] == u[k - a0];
    }
    if c < b0 {
      assert t[c] == u[m];
      assert t[b0 - 1] == u[b0 - a0 - 1];
    }
  }

  lemma LeadingSlice(u: string) returns (m: nat)
    requires IsTrimmed(u)
    ensures m <= |u| && StripLeading(u) == u[m..]
    ensures forall k :: 0 <= k < m ==> u[k] == ',' || IsSpace(u[k])
    ensures IsTrimmed(u[m..])
    ensures m < |u| ==> u[m] != ',' && !IsSpace(u[m]) && !IsSpace(u[|u| - 1])
  {
    m := Run(u, 0, CommaSpaces);
    RunFacts(u, 0, CommaSpaces);
    var w := u[m..];
    if w != [] {
      assert w[0] == u[m];
      assert w[|w| - 1] == u[|u| - 1];
    }
  }

  /** Trim leaves nothing exactly when the string is all spaces */
  lemma TrimEmpty(t: string)
    ensures Trim(t) == [] <==> AllSpace(t)
  {
    var a, b := TrimSlice(t);
    if a < b {
      assert t[a..b][0] == t[a];
    }
  }

  /**
    When there is a postcode token, the result holds the leftmost one; the
    street is the text before it with only leading spaces and a trailing run
    of commas and spaces cut; the town is absent exactly when only spaces
    follow the postcode, and otherwise is the text after it (`c` and `d`
    count from the end of the postcode) with only a leading run of commas and
    spaces and trailing spaces cut.
   */
  lemma ParseAdresseParts(s: string) returns (i: nat, a: nat, b: nat, c: nat, d: nat)
    requires ParseAdresse(s).codePostal.Some?
    ensures CpAt(s, i) && (forall k :: 0 <= k < i ==> !CpAt(s, k))
    ensures ParseAdresse(s).codePostal == Some(s[i..i + 5])
    ensures a <= b <= i && ParseAdresse(s).adresse == s[a..b]
    ensures forall k :: 0 <= k < a ==> IsSpace(s[k])
    ensures forall k :: b <= k < i ==> s[k] == ',' || IsSpace(s[k])
    ensures a == b || (!IsSpace(s[a]) && s[b - 1] != ',' && !IsSpace(s[b - 1]))
    ensures ParseAdresse(s).ville.None? <==> AllSpace(s[i + 5..])
    ensures ParseAdresse(s).ville.Some? ==> var after := s[i + 5..];
      c <= d <= |after| && ParseAdresse(s).ville.value == after[c..d]
      && (forall k :: 0 <= k < c ==> after[k] == ',' || IsSpace(after[k]))
      && (forall k :: d <= k < |after| ==> IsSpace(after[k]))
      && (c == d || (after[c] != ',' && !IsSpace(after[c]) && !IsSpace(after[d - 1])))
  {
    i := FirstCpFrom(s, 0).value;
    var r := SplitAt(s, i);
    assert ParseAdresse(s) == r;
    a, b := StreetBefore(s, i);
    TrimEmpty(s[i + 5..]);
    assert r.ville.None? <==> Trim(s[i + 5..]) == [];
    c, d := TownFacts(s[i + 5..]);
  }

  /** An occurrence ending before `n` is an occurrence in the prefix of length `n` */
  lemma OccursInPrefix(s: string, sub: string, p: nat, n: nat)
    requires OccursAt(s, sub, p) && p + |sub| <= n <= |s|
    ensures Contains(s[..n], sub)
  {
    var pre := s[..n];
    assert forall k :: p <= k < p + |sub| ==> pre[k] == s[k];
    assert pre[p..p + |sub|] == s[p..p + |sub|];
    assert OccursAt(pre, sub, p);
  }

  /** Cutting at `indexOf` is right whenever the postcode's digits do not occur earlier in the address */
  lemma AsWrittenAgrees(s: string, i: nat)
    requires FirstCpFrom(s, 0) == Some(i)
    requires !Contains(s[..i + 4], s[i..i + 5])
    ensures ParseAdresseAsWritten(s) == ParseAdresse(s)
  {
    var code := s[i..i + 5];
    forall p: nat | p < i
      ensures !OccursAt(s, code, p)
    {
      if OccursAt(s, code, p) {
        OccursInPrefix(s, code, p, i + 4);
      }
    }
    IndexOfFinds(s, code, i);
  }

  /**
    In "123456 12345" the postcode is the final token, but its digits also
    start the address: the source cuts there, so the street comes out empty
    and the town is "6 12345", where the street is "123456" and there is no town.
   */
  lemma AsWrittenCutsEarly()
    ensures ParseAdresseAsWritten("123456 12345") == Adresse("", Some("6 12345"), Some("12345"))
    ensures ParseAdresse("123456 12345") == Adresse("123456", None, Some("12345"))
  {
    AsWrittenExample();
    IntendedExample();
  }

  lemma AsWrittenExample()
    ensures ParseAdresseAsWritten("123456 12345") == Adresse("", Some("6 12345"), Some("12345"))
  {
    var s := "123456 12345";
    CpAtExample();
    assert s[7..12] == "12345";
    assert OccursAt(s, "12345", 0);
    assert IndexOf(s, "12345") == Some(0);
    var tail := "6 12345";
    assert s[5..] == tail;
    TrimmedTrim(tail);
    assert Run(tail, 0, CommaSpaces) == 0;
    assert StripLeading(tail) == tail;
    assert StripTrailing(s[..0]) == [];
    assert ParseAdresseAsWritten(s) == SplitAt(s, 0);
  }

  lemma IntendedExample()
    ensures ParseAdresse("123456 12345") == Adresse("123456", None, Some("12345"))
  {
    var s := "123456 12345";
    CpAtExample();
    var head := "123456 ";
    assert s[..7] == head;
    assert TrailingRun(head[..6], CommaSpaces) == 0;
    assert TrailingRun(head, CommaSpaces) == 1;
    assert StripTrailing(head) == "123456";
    TrimmedTrim("123456");
    assert s[12..] == [];
    assert s[7..12] == "12345";
    assert ParseAdresse(s) == SplitAt(s, 7);
  }

  /** The only postcode token of "123456 12345" is the final one */
  lemma CpAtExample()
    ensures FirstCpFrom("123456 12345", 0) == Some(7)
  {
    var s := "123456 12345";
    assert IsWordChar(s[5]) && IsWordChar(s[0]) && IsWordChar(s[1]) && IsWordChar(s[2]) && IsWordChar(s[3]) && IsWordChar(s[4]);
    assert !IsDigit(s[6]);
    assert CpAt(s, 7);
  }
}
