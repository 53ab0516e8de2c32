/** The search-and-category test that both the template gallery and the
    tool picker apply to their entries. */
module Search {
  import opened Common
  import opened JsValues
  import opened Seqs

  /** The lower-cased name or description includes the lower-cased term. */
  predicate MatchesSearch(name: string, description: string, term: string)
  {
    Includes(Lower(name), Lower(term)) || Includes(Lower(description), Lower(term))
  }

  /** `selectedCategory` is `string | null`; `!selectedCategory` also holds
      for the empty string. */
  predicate CategorySelected(selected: Option<string>)
  {
    selected.Some? && selected.value != ""
  }

  predicate MatchesCategory(category: string, selected: Option<string>)
  {
    !CategorySelected(selected) || category == selected.value
  }

  predicate Matches(name: string, description: string, category: string, term: string, selected: Option<string>)
  {
    MatchesSearch(name, description, term) && MatchesCategory(category, selected)
  }

  lemma EitherIncludes(a: string, b: string, t: string)
    ensures (Includes(a, t) || Includes(b, t)) <==> Occurs(a, t) || Occurs(b, t)
  {
    IncludesIffOccurs(a, t);
    IncludesIffOccurs(b, t);
  }

  /** The whole test spelled out: the lower-cased term occurs at some
      offset of the lower-cased name or description, and either no category
      is selected or the entry's category is the selected one. */
  lemma MatchesExactly(name: string, description: string, category: string, term: string,
                       selected: Option<string>)
    ensures Matches(name, description, category, term, selected)
        <==> (Occurs(Lower(name), Lower(term)) || Occurs(Lower(description), Lower(term)))
             && (selected.None? || selected.value == "" || category == selected.value)
  {
    EitherIncludes(Lower(name), Lower(description), Lower(term));
  }

  /** `Array.from(new Set(entries.map(e => e.category)))`: each category
      once, whichever entries use it. */
  function Categories<T>(entries: seq<T>, categoryOf: T -> string): (r: seq<string>)
    ensures NoDuplicates(r)
    ensures forall i :: 0 <= i < |entries| ==> categoryOf(entries[i]) in r
    ensures forall i :: 0 <= i < |r| ==> exists j :: 0 <= j < |entries| && categoryOf(entries[j]) == r[i]
  {
    var cats := Map(entries, categoryOf);
    var r := Distinct(cats);
    assert forall i :: 0 <= i < |r| ==> r[i] in cats;
    r
  }

  /** The categories appear in the order in which the entries first use them. */
  lemma CategoriesInFirstUseOrder<T>(entries: seq<T>, categoryOf: T -> string, i: nat, j: nat)
    requires i < j < |Categories(entries, categoryOf)|
    ensures IndexOf(Map(entries, categoryOf), Categories(entries, categoryOf)[i])
          < IndexOf(Map(entries, categoryOf), Categories(entries, categoryOf)[j])
  {
    DistinctFirstOccurrenceOrder(Map(entries, categoryOf), i, j);
  }

  /** An empty term with no category selected matches everything. */
  lemma EmptySearchMatches(name: string, description: string, category: string)
    ensures Matches(name, description, category, "", None)
  {
    IncludesEmpty(Lower(name));
  }

  /** The term's case does not matter. */
  lemma SearchIgnoresTermCase(name: string, description: string, term: string)
    ensures MatchesSearch(name, description, Lower(term)) == MatchesSearch(name, description, term)
  {
    LowerIdempotent(term);
  }

  /** The entry's case does not matter either. */
  lemma SearchIgnoresEntryCase(name: string, description: string, term: string)
    ensures MatchesSearch(Lower(name), Lower(description), term) == MatchesSearch(name, description, term)
  {
    LowerIdempotent(name);
    LowerIdempotent(description);
  }

  lemma LowerConcat(t: string, u: string)
    ensures Lower(t + u) == Lower(t) + Lower(u)
  {
    assert forall i :: 0 <= i < |t + u| ==> Lower(t + u)[i] == (Lower(t) + Lower(u))[i];
  }

  /** Typing more characters never brings an entry back: an entry that
      matches a term matches each of its prefixes. */
  lemma SearchNarrows(name: string, description: string, t: string, u: string)
    requires MatchesSearch(name, description, t + u)
    ensures MatchesSearch(name, description, t)
  {
    LowerConcat(t, u);
    if Includes(Lower(name), Lower(t) + Lower(u)) {
      IncludesPrefix(Lower(name), Lower(t), Lower(u));
    } else {
      IncludesPrefix(Lower(description), Lower(t), Lower(u));
    }
  }
}
