/**
  `findByName`: the driver an import file or a Spoke header names. Two
  passes over the active drivers in list order: a whole-name pass, then a
  pass on the family name or the first name alone.
 */
module Drivers {

  import opened Wrappers
  import opened Text
  import opened Seqs
  import opened Store

  /** `s.replace(/_/g, ' ')` */
  function Underscores(s: string): string {
    seq(|s|, k requires 0 <= k < |s| => if s[k] == '_' then ' ' else s[k])
  }

  /** The string both passes compare with: underscores made spaces, lower-cased, not trimmed */
  function SearchName(nomComplet: string): string {
    Lower(Underscores(nomComplet))
  }

  /** `.eq('actif', true)` and, when a subcontractor id is given and not 0 (a falsy id), `.eq('sous_traitant_id', id)` */
  predicate Candidate(c: Chauffeur, sousTraitantId: Option<nat>) {
    c.actif && (sousTraitantId.None? || sousTraitantId == Some(0) || c.sousTraitantId == sousTraitantId)
  }

  function Candidates(cs: seq<Chauffeur>, sousTraitantId: Option<nat>): seq<Chauffeur> {
    Select(cs, (c: Chauffeur) => Candidate(c, sousTraitantId), true)
  }

  datatype Pass = Exact | Partial

  /**
    The exact pass compares `${prenom} ${nom}` and `${nom} ${prenom}`, where a
    missing first name prints as "null"; the partial pass compares the family
    name, or the first name with a missing one read as "".
   */
  predicate Matches(c: Chauffeur, search: string, pass: Pass) {
    match pass
    case Exact => Lower(Interp(c.prenom) + " " + c.nom) == search || Lower(c.nom + " " + Interp(c.prenom)) == search
    case Partial => Lower(c.nom) == search || Lower(c.prenom.GetOr("")) == search
  }

  /** The first driver from `from` on that the pass accepts */
  function FirstFrom(cs: seq<Chauffeur>, search: string, pass: Pass, from: nat): (r: Option<nat>)
    requires from <= |cs|
    ensures r.Some? ==> from <= r.value < |cs| && Matches(cs[r.value], search, pass)
    ensures r.Some? ==> forall k :: from <= k < r.value ==> !Matches(cs[k], search, pass)
    ensures r.None? ==> forall k :: from <= k < |cs| ==> !Matches(cs[k], search, pass)
    decreases |cs| - from
  {
    if from == |cs| then None
    else if Matches(cs[from], search, pass) then Some(from)
    else FirstFrom(cs, search, pass, from + 1)
  }

  function FindByName(cs: seq<Chauffeur>, nomComplet: string, sousTraitantId: Option<nat>): (r: Option<Chauffeur>)
    ensures r.Some? ==> r.value in cs && Candidate(r.value, sousTraitantId)
    ensures Candidates(cs, sousTraitantId) == [] ==> r.None?
  {
    var cands := Candidates(cs, sousTraitantId);
    if |cands| == 0 then None
    else
      var search := SearchName(nomComplet);
      match FirstFrom(cands, search, Exact, 0)
      case Some(i) => Some(cands[i])
      case None =>
        match FirstFrom(cands, search, Partial, 0)
        case Some(i) => Some(cands[i])
        case None => None
  }

  /** The first candidate, in list order, that matches the whole name is the result */
  lemma ExactPassFirst(cs: seq<Chauffeur>, nomComplet: string, sousTraitantId: Option<nat>, i: nat)
    requires var cands := Candidates(cs, sousTraitantId);
      i < |cands| && Matches(cands[i], SearchName(nomComplet), Exact)
      && forall k :: 0 <= k < i ==> !Matches(cands[k], SearchName(nomComplet), Exact)
    ensures FindByName(cs, nomComplet, sousTraitantId) == Some(Candidates(cs, sousTraitantId)[i])
  {
  }

  /**
    The partial pass decides only when no candidate matches the whole name:
    then the first candidate whose family or first name matches is the result,
    and with none the result is null.
   */
  lemma PartialPassFirst(cs: seq<Chauffeur>, nomComplet: string, sousTraitantId: Option<nat>)
    requires var cands := Candidates(cs, sousTraitantId);
      forall k :: 0 <= k < |cands| ==> !Matches(cands[k], SearchName(nomComplet), Exact)
    ensures var cands := Candidates(cs, sousTraitantId); var search := SearchName(nomComplet);
      match FirstFrom(cands, search, Partial, 0)
      case Some(i) => FindByName(cs, nomComplet, sousTraitantId) == Some(cands[i])
      case None => FindByName(cs, nomComplet, sousTraitantId) == None
  {
  }

  /** Whenever some candidate matches the whole name, the result matches the whole name */
  lemma ExactBeatsPartial(cs: seq<Chauffeur>, nomComplet: string, sousTraitantId: Option<nat>, i: nat)
    requires i < |Candidates(cs, sousTraitantId)| && Matches(Candidates(cs, sousTraitantId)[i], SearchName(nomComplet), Exact)
    ensures FindByName(cs, nomComplet, sousTraitantId).Some?
    ensures Matches(FindByName(cs, nomComplet, sousTraitantId).value, SearchName(nomComplet), Exact)
  {
  }

  /** A null result means no active candidate matches in either pass */
  lemma NoneMeansNoMatch(cs: seq<Chauffeur>, nomComplet: string, sousTraitantId: Option<nat>)
    requires FindByName(cs, nomComplet, sousTraitantId).None?
    ensures forall c :: c in cs && Candidate(c, sousTraitantId) ==>
      !Matches(c, SearchName(nomComplet), Exact) && !Matches(c, SearchName(nomComplet), Partial)
  {
    var cands := Candidates(cs, sousTraitantId);
    forall c | c in cs && Candidate(c, sousTraitantId)
      ensures !Matches(c, SearchName(nomComplet), Exact) && !Matches(c, SearchName(nomComplet), Partial)
    {
      var k :| 0 <= k < |cs| && cs[k] == c;
      assert c in cands;
    }
  }
}
