/**
 * The search box of the cattle list (app/bovinos/page.tsx): the rows shown
 * are those whose code, name or breed contains the query, ignoring case.
 */
module CattleList {
  import opened Wrappers
  import opened Text
  import opened Domain
  import opened Lists

  /** An optional column takes part in the search only when it is truthy. */
  predicate FieldMatches(o: Option<string>, q: string) {
    Truthy(o) && ContainsFolded(o.value, q)
  }

  /** The search predicate of one row. */
  predicate Matches(b: Bovino, q: string) {
    ContainsFolded(b.codigo, q) || FieldMatches(b.nombre, q) || FieldMatches(b.raza, q)
  }

  /** `bovinosFiltrados`. */
  function Filtered(items: seq<Bovino>, q: string): (r: seq<Bovino>)
    ensures |r| <= |items|
    ensures forall b :: b in r <==> b in items && Matches(b, q)
  {
    Filter(items, b => Matches(b, q))
  }

  /** The rows shown are rows of the list, in the list's order. */
  lemma FilteredIsSubsequence(items: seq<Bovino>, q: string)
    ensures IsSubsequence(Filtered(items, q), items)
  {
    FilterIsSubsequence(items, b => Matches(b, q));
  }

  /** An empty search shows every row. */
  lemma EmptyQueryKeepsAll(items: seq<Bovino>)
    ensures Filtered(items, "") == items
  {
    forall i | 0 <= i < |items| ensures Matches(items[i], "") {
      ContainsFoldedEmpty(items[i].codigo);
    }
    FilterKeepsAll(items, b => Matches(b, ""));
  }

  /** The case of the query does not matter. */
  lemma QueryCaseIgnored(items: seq<Bovino>, q: string)
    ensures Filtered(items, q) == Filtered(items, Lower(q))
  {
    LowerIdempotent(q);
    FilterAgrees(items, b => Matches(b, q), b => Matches(b, Lower(q)));
  }

  /** A null or empty name or breed never makes a row match: such a row
      matches exactly when another row that differs only in having no name
      and no breed at all would. */
  lemma FalsyFieldsNeverMatch(b: Bovino, q: string)
    requires !Truthy(b.nombre) && !Truthy(b.raza)
    ensures Matches(b, q) <==> ContainsFolded(b.codigo, q)
  {
  }
}
