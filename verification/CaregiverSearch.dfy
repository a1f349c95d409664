/** The caregiver search page: a fixed list of caregivers narrowed by a
    free-text term, matched without regard to case against the name, the
    location and each specialty. */
module CaregiverSearch {
  import opened Common

  /** A caregiver card; only the fields the search looks at. */
  datatype Caregiver = Caregiver(id: nat, name: string, location: string, specialties: seq<string>)

  /** Lower-casing of one character: the ASCII capitals and the Latin-1
      capitals `À`..`Þ` (except the sign `×`) move to their small letters;
      everything else is kept. */
  function LowerChar(c: char): (r: char)
    ensures 'A' <= c <= 'Z' ==> r as int == c as int + 32
    ensures 'À' <= c <= 'Þ' && c != '×' ==> r as int == c as int + 32
    ensures !('A' <= c <= 'Z') && !('À' <= c <= 'Þ' && c != '×') ==> r == c
  {
    if 'A' <= c <= 'Z' || ('À' <= c <= 'Þ' && c != '×') then (c as int + 32) as char else c
  }

  /** Lower-casing never yields a capital, so a second pass changes nothing. */
  lemma LowerCharIdempotent(c: char)
    ensures LowerChar(LowerChar(c)) == LowerChar(c)
    ensures !('A' <= LowerChar(c) <= 'Z')
  {
  }

  /** `s.toLowerCase()`, character by character. */
  function Lower(s: string): (r: string)
    ensures |r| == |s|
    ensures forall i :: 0 <= i < |s| ==> r[i] == LowerChar(s[i])
  {
    seq(|s|, i requires 0 <= i < |s| => LowerChar(s[i]))
  }

  lemma LowerIdempotent(s: string)
    ensures Lower(Lower(s)) == Lower(s)
  {
    forall i | 0 <= i < |s|
      ensures Lower(Lower(s))[i] == Lower(s)[i]
    {
      LowerCharIdempotent(s[i]);
    }
  }

  /** The predicate handed to `filter`: the lowercased term occurs in the
      lowercased name, location or some specialty. */
  predicate Matches(c: Caregiver, term: string)
  {
    var t := Lower(term);
    Contains(Lower(c.name), t)
    || Contains(Lower(c.location), t)
    || exists s :: s in c.specialties && Contains(Lower(s), t)
  }

  /** `a` is `b` with some entries removed and the rest in their order. */
  ghost predicate Subsequence<T>(a: seq<T>, b: seq<T>)
    decreases |b|
  {
    if a == [] then true
    else if b == [] then false
    else (a[0] == b[0] && Subsequence(a[1..], b[1..])) || Subsequence(a, b[1..])
  }

  /** `cuidadores.filter(...)` for a term. */
  function Filter(cs: seq<Caregiver>, term: string): (r: seq<Caregiver>)
    ensures Subsequence(r, cs)
    ensures forall c :: c in r <==> c in cs && Matches(c, term)
    ensures forall c :: multiset(r)[c] == if Matches(c, term) then multiset(cs)[c] else 0
    decreases |cs|
  {
    if cs == [] then []
    else
      var rest := Filter(cs[1..], term);
      assert cs == [cs[0]] + cs[1..];
      if Matches(cs[0], term) then [cs[0]] + rest else rest
  }

  /** An empty term keeps every caregiver, in order. */
  lemma {:induction false} EmptyTermKeepsAll(cs: seq<Caregiver>)
    ensures Filter(cs, "") == cs
    decreases |cs|
  {
    if cs != [] {
      EmptyContained(Lower(cs[0].name));
      assert Lower("") == "";
      EmptyTermKeepsAll(cs[1..]);
    }
  }

  /** The case of the term does not matter: `t` and its lowercase give the
      same result. */
  lemma {:induction false} CaseInsensitive(cs: seq<Caregiver>, term: string)
    ensures Filter(cs, Lower(term)) == Filter(cs, term)
    decreases |cs|
  {
    LowerIdempotent(term);
    if cs != [] {
      assert Matches(cs[0], Lower(term)) == Matches(cs[0], term);
      CaseInsensitive(cs[1..], term);
    }
  }

  /** The six caregivers the page lists. */
  function Caregivers(): seq<Caregiver>
  {
    [Caregiver(1, "Maria Silva", "São Paulo, SP", ["Cuidadora de Idosos", "Técnica de Enfermagem"]),
     Caregiver(2, "João Pereira", "São Paulo, SP", ["Cuidador de Idosos", "Fisioterapeuta"]),
     Caregiver(3, "Ana Oliveira", "São Paulo, SP", ["Cuidadora de Idosos", "Enfermeira"]),
     Caregiver(4, "Carlos Santos", "São Paulo, SP", ["Cuidador de Idosos"]),
     Caregiver(5, "Beatriz Lima", "São Paulo, SP", ["Cuidadora de Idosos", "Psicóloga"]),
     Caregiver(6, "Ricardo Moreira", "São Paulo, SP", ["Cuidador de Idosos"])]
  }

  /** The page's result list for the current term. */
  function Results(searchTerm: string): (r: seq<Caregiver>)
    ensures searchTerm == "" ==> r == Caregivers()
    ensures Subsequence(r, Caregivers())
  {
    EmptyTermKeepsAll(Caregivers());
    Filter(Caregivers(), searchTerm)
  }
}
