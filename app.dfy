/**
 * App.tsx: the directory's search filter and the hiring modal's open/close state.
 *
 * The filter is stated over any list of professionals (the app passes the fixed
 * `PROFESSIONALS` list of constants.ts). The search effect that recomputes the list
 * whenever the term changes runs, in this model, as part of the change itself.
 */
module App {
  import opened Types
  import opened JsText

  /** `skills.some(skill => skill.toLowerCase().includes(term))` */
  predicate SomeSkillMatches(skills: seq<string>, lowerTerm: string) {
    exists k :: 0 <= k < |skills| && Contains(ToLower(skills[k]), lowerTerm)
  }

  /** The filter's test for one professional, given the already lower-cased term. */
  predicate Matches(p: Professional, lowerTerm: string) {
    Contains(ToLower(p.name), lowerTerm)
    || Contains(ToLower(p.title), lowerTerm)
    || Contains(ToLower(p.location), lowerTerm)
    || SomeSkillMatches(p.skills, lowerTerm)
  }

  /** `a` is `b` with some elements left out, the rest in their original order. */
  predicate IsSubsequence<T(==)>(a: seq<T>, b: seq<T>)
    decreases |b|
  {
    if a == [] then true
    else if b == [] then false
    else (a[0] == b[0] && IsSubsequence(a[1..], b[1..])) || IsSubsequence(a, b[1..])
  }

  /**
   * `pros.filter(p => Matches(p, lowerTerm))`: every matching occurrence is kept, as often
   * as it occurs, and nothing else.
   */
  function Keep(pros: seq<Professional>, lowerTerm: string): (r: seq<Professional>)
    ensures forall p :: p in r <==> p in pros && Matches(p, lowerTerm)
    ensures forall p :: multiset(r)[p] == if Matches(p, lowerTerm) then multiset(pros)[p] else 0
  {
    if pros == [] then []
    else
      assert pros == [pros[0]] + pros[1..];
      (if Matches(pros[0], lowerTerm) then [pros[0]] else []) + Keep(pros[1..], lowerTerm)
  }

  /** The search effect: lower-case the term once, keep the professionals that match it. */
  function FilterProfessionals(pros: seq<Professional>, searchTerm: string): seq<Professional> {
    Keep(pros, ToLower(searchTerm))
  }

  lemma {:induction false} SubsequenceOfCons<T>(a: seq<T>, x: T, b: seq<T>)
    requires IsSubsequence(a, b)
    ensures IsSubsequence(a, [x] + b)
  {
    assert ([x] + b)[1..] == b;
  }

  /** The filtered list keeps the directory's order: it is a subsequence of it. */
  lemma {:induction false} FilterIsSubsequence(pros: seq<Professional>, searchTerm: string)
    ensures IsSubsequence(FilterProfessionals(pros, searchTerm), pros)
  {
    KeepIsSubsequence(pros, ToLower(searchTerm));
  }

  lemma {:induction false} KeepIsSubsequence(pros: seq<Professional>, lowerTerm: string)
    ensures IsSubsequence(Keep(pros, lowerTerm), pros)
  {
    if pros != [] {
      KeepIsSubsequence(pros[1..], lowerTerm);
      var rest := Keep(pros[1..], lowerTerm);
      if Matches(pros[0], lowerTerm) {
        assert Keep(pros, lowerTerm) == [pros[0]] + rest;
        assert ([pros[0]] + rest)[1..] == rest;
      } else {
        assert Keep(pros, lowerTerm) == rest;
        SubsequenceOfCons(rest, pros[0], pros[1..]);
        assert [pros[0]] + pros[1..] == pros;
      }
    }
  }

  /** A professional is listed exactly when the lower-cased term occurs in one of its fields. */
  lemma FilterMembership(pros: seq<Professional>, searchTerm: string, p: Professional)
    ensures p in FilterProfessionals(pros, searchTerm) <==> p in pros && Matches(p, ToLower(searchTerm))
  {
  }

  /** The empty search lists every professional, in order. */
  lemma {:induction false} EmptySearchKeepsAll(pros: seq<Professional>)
    ensures FilterProfessionals(pros, "") == pros
  {
    assert ToLower("") == "";
    KeepEverything(pros);
  }

  lemma {:induction false} KeepEverything(pros: seq<Professional>)
    ensures Keep(pros, "") == pros
  {
    if pros != [] {
      ContainsEmpty(ToLower(pros[0].name));
      KeepEverything(pros[1..]);
      assert [pros[0]] + pros[1..] == pros;
    }
  }

  /** A term that occurs in a longer term matches everything the longer one matches. */
  lemma MatchesNarrowing(p: Professional, shorter: string, longer: string)
    requires Contains(longer, shorter)
    requires Matches(p, longer)
    ensures Matches(p, shorter)
  {
    if Contains(ToLower(p.name), longer) {
      ContainsTransitive(ToLower(p.name), longer, shorter);
    } else if Contains(ToLower(p.title), longer) {
      ContainsTransitive(ToLower(p.title), longer, shorter);
    } else if Contains(ToLower(p.location), longer) {
      ContainsTransitive(ToLower(p.location), longer, shorter);
    } else {
      var k :| 0 <= k < |p.skills| && Contains(ToLower(p.skills[k]), longer);
      ContainsTransitive(ToLower(p.skills[k]), longer, shorter);
    }
  }

  lemma {:induction false} KeepNarrowing(pros: seq<Professional>, shorter: string, longer: string)
    requires Contains(longer, shorter)
    ensures IsSubsequence(Keep(pros, longer), Keep(pros, shorter))
  {
    if pros != [] {
      KeepNarrowing(pros[1..], shorter, longer);
      var a := Keep(pros[1..], longer);
      var b := Keep(pros[1..], shorter);
      if Matches(pros[0], longer) {
        MatchesNarrowing(pros[0], shorter, longer);
        assert Keep(pros, longer) == [pros[0]] + a;
        assert Keep(pros, shorter) == [pros[0]] + b;
        assert ([pros[0]] + a)[1..] == a && ([pros[0]] + b)[1..] == b;
      } else if Matches(pros[0], shorter) {
        assert Keep(pros, longer) == a;
        assert Keep(pros, shorter) == [pros[0]] + b;
        SubsequenceOfCons(a, pros[0], b);
      } else {
        assert Keep(pros, longer) == a && Keep(pros, shorter) == b;
      }
    }
  }

  /**
   * Typing more narrows the list: when term `t` occurs in term `t2`, the list for `t2` is a
   * subsequence of the list for `t`.
   */
  lemma Narrowing(pros: seq<Professional>, t: string, t2: string)
    requires Contains(t2, t)
    ensures IsSubsequence(FilterProfessionals(pros, t2), FilterProfessionals(pros, t))
  {
    ToLowerKeepsContains(t2, t);
    KeepNarrowing(pros, ToLower(t), ToLower(t2));
  }

  /** Terms that differ only in the case of their letters list the same professionals. */
  lemma CaseInsensitive(pros: seq<Professional>, t: string, t2: string)
    requires ToLower(t) == ToLower(t2)
    ensures FilterProfessionals(pros, t) == FilterProfessionals(pros, t2)
  {
  }

  /** The state of the `App` component that this model covers. */
  class Directory {
    const professionals: seq<Professional>
    var searchTerm: string
    var filteredProfessionals: seq<Professional>
    var isModalOpen: bool
    var selectedProfessional: Option<Professional>

    /** The shown list is always the filter of the directory by the current term. */
    ghost predicate Valid()
      reads this
    {
      filteredProfessionals == FilterProfessionals(professionals, searchTerm)
    }

    /** The initial state: empty term, the whole directory shown, no modal. */
    constructor (directory: seq<Professional>)
      ensures Valid()
      ensures professionals == directory && searchTerm == "" && filteredProfessionals == directory
      ensures !isModalOpen && selectedProfessional.None?
    {
      professionals := directory;
      searchTerm := "";
      filteredProfessionals := directory;
      isModalOpen := false;
      selectedProfessional := None;
      EmptySearchKeepsAll(directory);
    }

    /** `handleSearchChange` followed by the search effect. */
    method HandleSearchChange(value: string)
      modifies this`searchTerm, this`filteredProfessionals
      ensures Valid()
      ensures searchTerm == value
      ensures isModalOpen == old(isModalOpen) && selectedProfessional == old(selectedProfessional)
    {
      searchTerm := value;
      var lowercasedSearchTerm := ToLower(searchTerm);
      filteredProfessionals := Keep(professionals, lowercasedSearchTerm);
    }

    /** `handleHireClick`, which a card's Hire button calls with that card's professional. */
    method HandleHireClick(professional: Professional)
      requires Valid()
      modifies this`selectedProfessional, this`isModalOpen
      ensures Valid()
      ensures selectedProfessional == Some(professional) && isModalOpen
      ensures searchTerm == old(searchTerm) && filteredProfessionals == old(filteredProfessionals)
    {
      selectedProfessional := Some(professional);
      isModalOpen := true;
    }

    /** `handleCloseModal` */
    method HandleCloseModal()
      requires Valid()
      modifies this`isModalOpen, this`selectedProfessional
      ensures Valid()
      ensures !isModalOpen && selectedProfessional.None?
      ensures searchTerm == old(searchTerm) && filteredProfessionals == old(filteredProfessionals)
    {
      isModalOpen := false;
      selectedProfessional := None;
    }
  }
}
