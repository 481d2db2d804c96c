/**
 * The search box and the summary of the owner list
 * (app/propietarios/page.tsx). Name and email are searched ignoring case;
 * the telephone is searched as typed.
 */
module OwnerList {
  import opened Wrappers
  import opened Text
  import opened Domain
  import opened Lists

  /** The search predicate of one owner. */
  predicate Matches(o: OwnerRow, q: string) {
    || ContainsFolded(o.nombre, q)
    || (Truthy(o.telefono) && Contains(o.telefono.value, q))
    || (Truthy(o.email) && ContainsFolded(o.email.value, q))
  }

  /** `propietariosFiltrados`. */
  function Filtered(items: seq<OwnerRow>, q: string): (r: seq<OwnerRow>)
    ensures |r| <= |items|
    ensures forall o :: o in r <==> o in items && Matches(o, q)
  {
    Filter(items, o => Matches(o, q))
  }

  /** The owners shown are owners of the list, in the list's order. */
  lemma FilteredIsSubsequence(items: seq<OwnerRow>, q: string)
    ensures IsSubsequence(Filtered(items, q), items)
  {
    FilterIsSubsequence(items, o => Matches(o, q));
  }

  /** An empty search shows every owner. */
  lemma EmptyQueryKeepsAll(items: seq<OwnerRow>)
    ensures Filtered(items, "") == items
  {
    forall i | 0 <= i < |items| ensures Matches(items[i], "") {
      ContainsFoldedEmpty(items[i].nombre);
    }
    FilterKeepsAll(items, o => Matches(o, ""));
  }

  /** Where no owner has a telephone, the case of the query does not matter. */
  lemma QueryCaseIgnoredWithoutPhones(items: seq<OwnerRow>, q: string)
    requires forall i :: 0 <= i < |items| ==> !Truthy(items[i].telefono)
    ensures Filtered(items, q) == Filtered(items, Lower(q))
  {
    LowerIdempotent(q);
    FilterAgrees(items, o => Matches(o, q), o => Matches(o, Lower(q)));
  }

  /** A null or empty telephone or email never makes an owner match. */
  lemma FalsyFieldsNeverMatch(o: OwnerRow, q: string)
    requires !Truthy(o.telefono) && !Truthy(o.email)
    ensures Matches(o, q) <==> ContainsFolded(o.nombre, q)
  {
  }

  /** The telephone is matched case-sensitively: an owner found by the
      telephone as written is lost when the query is typed in lower case. */
  lemma PhoneMatchIsCaseSensitive(o: OwnerRow)
    requires o.nombre == "Ana" && o.telefono == Some("Ext A") && o.email == None
    ensures Matches(o, "Ext A")
    ensures !Matches(o, "ext a")
  {
    ContainsEmptyAndSelf("Ext A");
    assert !OccursAt("Ext A", "ext a", 0) by {
      assert "Ext A"[0] != "ext a"[0];
    }
  }

  predicate HasPhone(o: OwnerRow) {
    Truthy(o.telefono)
  }

  predicate HasEmail(o: OwnerRow) {
    Truthy(o.email)
  }

  /** `items.filter(p => p.telefono).length`. */
  function WithPhone(items: seq<OwnerRow>): (n: nat)
    ensures n <= |items|
  {
    CountWhere(items, HasPhone)
  }

  /** `items.filter(p => p.email).length`. */
  function WithEmail(items: seq<OwnerRow>): (n: nat)
    ensures n <= |items|
  {
    CountWhere(items, HasEmail)
  }

  /** The number with a telephone is the number an "any telephone" filter keeps. */
  lemma WithPhoneIsFilterLength(items: seq<OwnerRow>)
    ensures WithPhone(items) == |Filter(items, HasPhone)|
    ensures forall o :: o in Filter(items, HasPhone) <==> o in items && HasPhone(o)
  {
    CountIsFilterLength(items, HasPhone);
  }
}
