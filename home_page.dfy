/**
 * The topic selection page: the `items` catalog, its grouping into
 * `<optgroup>`s, and the submit handler that navigates to the generation
 * page.
 */
module HomePage {
  import opened Options
  import GenerateRoute

  /** One selectable topic: its category, its `label` (shown as `caption`) and its slug. */
  datatype Item = Item(group: string, caption: string, value: string)

  /** The `items` offered by the dropdown. */
  const Items: seq<Item> := [
    Item("Musique", "Le piano", "piano"),
    Item("Programmation", "HTML", "html")
  ]

  /** The route the submit handler navigates to, before the encoded slug. */
  const NewPlanPath := "/parcours/new?slug="

  predicate NoDuplicates<T(==)>(s: seq<T>)
  {
    forall i, j :: 0 <= i < j < |s| ==> s[i] != s[j]
  }

  // ---------------------------------------------------------------------
  // Groups
  // ---------------------------------------------------------------------

  /**
   * `Array.from(new Set(s))`: each element once, in the order in which a
   * set filled from `s` first received it.
   */
  function Distinct<T(==, !new)>(s: seq<T>): (r: seq<T>)
    ensures forall x :: x in r <==> x in s
    ensures NoDuplicates(r)
  {
    if s == [] then []
    else
      var d := Distinct(s[..|s| - 1]);
      if s[|s| - 1] in d then d else d + [s[|s| - 1]]
  }

  /** The position of the first occurrence of `x` in `s`. */
  function FirstIndex<T(==)>(s: seq<T>, x: T): (k: nat)
    requires x in s
    ensures k < |s| && s[k] == x && x !in s[..k]
  {
    if s[0] == x then 0 else 1 + FirstIndex(s[1..], x)
  }

  /** The first occurrence is the one position holding `x` with no `x` before it. */
  lemma FirstIndexUnique<T>(s: seq<T>, x: T, k: nat)
    requires k < |s| && s[k] == x && x !in s[..k]
    ensures FirstIndex(s, x) == k
  {
  }

  /** Appending an element does not move the first occurrence of anything already present. */
  lemma FirstIndexAppend<T>(s: seq<T>, y: T, x: T)
    requires x in s
    ensures FirstIndex(s + [y], x) == FirstIndex(s, x)
  {
    var k := FirstIndex(s, x);
    assert (s + [y])[..k] == s[..k];
    FirstIndexUnique(s + [y], x, k);
  }

  /** `Distinct(s)` lists its elements in the order of their first occurrence in `s`. */
  lemma {:induction false} DistinctFirstOccurrenceOrder<T(!new)>(s: seq<T>)
    ensures forall i, j :: 0 <= i < j < |Distinct(s)| ==>
              FirstIndex(s, Distinct(s)[i]) < FirstIndex(s, Distinct(s)[j])
  {
    if s != [] {
      var p, y := s[..|s| - 1], s[|s| - 1];
      assert s == p + [y];
      var d := Distinct(p);
      DistinctFirstOccurrenceOrder(p);
      forall x | x in p ensures FirstIndex(s, x) == FirstIndex(p, x) {
        FirstIndexAppend(p, y, x);
      }
      if y !in d {
        assert y !in s[..|p|];
        FirstIndexUnique(s, y, |p|);
        assert Distinct(s) == d + [y];
      }
    }
  }

  /** `items.map(i => i.group)`. */
  function GroupColumn(items: seq<Item>): (r: seq<string>)
    ensures |r| == |items|
    ensures forall k :: 0 <= k < |items| ==> r[k] == items[k].group
  {
    seq(|items|, k requires 0 <= k < |items| => items[k].group)
  }

  /**
   * `groups`: the categories of the items, each once, in first-occurrence
   * order; it holds the group of every item, and each of its entries is
   * the group of some item.
   */
  function GroupsOf(items: seq<Item>): (r: seq<string>)
    ensures NoDuplicates(r)
    ensures forall k :: 0 <= k < |items| ==> items[k].group in r
    ensures forall g :: g in r ==> exists k :: 0 <= k < |items| && items[k].group == g
  {
    var col := GroupColumn(items);
    assert forall k :: 0 <= k < |items| ==> col[k] == items[k].group;
    assert forall g :: g in col ==> col[FirstIndex(col, g)] == g;
    Distinct(col)
  }

  /** Each item falls under exactly one entry of `groups`. */
  lemma EachItemUnderOneGroup(items: seq<Item>, k: nat)
    requires k < |items|
    ensures exists j :: 0 <= j < |GroupsOf(items)| && GroupsOf(items)[j] == items[k].group
    ensures forall j1, j2 ::
              (0 <= j1 < |GroupsOf(items)| && 0 <= j2 < |GroupsOf(items)|
               && GroupsOf(items)[j1] == items[k].group && GroupsOf(items)[j2] == items[k].group) ==> j1 == j2
  {
    var gs := GroupsOf(items);
    assert items[k].group in gs;
  }

  // ---------------------------------------------------------------------
  // Options of one group, and the whole dropdown
  // ---------------------------------------------------------------------

  /** `items.filter(i => i.group === g)`: the options of one `<optgroup>`. */
  function OptionsIn(items: seq<Item>, g: string): (r: seq<Item>)
    ensures |r| <= |items|
    ensures forall x :: x in r <==> x in items && x.group == g
  {
    if items == [] then []
    else (if items[0].group == g then [items[0]] else []) + OptionsIn(items[1..], g)
  }

  /**
   * The filter keeps the order of `items`: filtering a concatenation is
   * concatenating the filtered parts.
   */
  lemma {:induction false} OptionsInAppend(a: seq<Item>, b: seq<Item>, g: string)
    ensures OptionsIn(a + b, g) == OptionsIn(a, g) + OptionsIn(b, g)
  {
    if a != [] {
      assert (a + b)[1..] == a[1..] + b;
      OptionsInAppend(a[1..], b, g);
    } else {
      assert a + b == b;
    }
  }

  /**
   * The options of the groups in `gs`, one `<optgroup>` after the other:
   * an item is offered exactly when its group is one of `gs`.
   */
  function Dropdown(items: seq<Item>, gs: seq<string>): (r: seq<Item>)
    ensures forall x :: x in r <==> x in items && x.group in gs
  {
    if gs == [] then [] else OptionsIn(items, gs[0]) + Dropdown(items, gs[1..])
  }

  /** The items whose group is one of `groups`, in order. */
  function ItemsIn(items: seq<Item>, groups: set<string>): seq<Item>
  {
    if items == [] then []
    else (if items[0].group in groups then [items[0]] else []) + ItemsIn(items[1..], groups)
  }

  lemma {:induction false} ItemsInJoin(items: seq<Item>, g: string, groups: set<string>)
    requires g !in groups
    ensures multiset(OptionsIn(items, g)) + multiset(ItemsIn(items, groups)) == multiset(ItemsIn(items, groups + {g}))
  {
    if items != [] {
      ItemsInJoin(items[1..], g, groups);
    }
  }

  lemma {:induction false} ItemsInEverything(items: seq<Item>, groups: set<string>)
    requires forall x :: x in items ==> x.group in groups
    ensures ItemsIn(items, groups) == items
  {
    if items != [] {
      ItemsInEverything(items[1..], groups);
    }
  }

  lemma {:induction false} DropdownOfDistinct(items: seq<Item>, gs: seq<string>)
    requires NoDuplicates(gs)
    ensures multiset(Dropdown(items, gs)) == multiset(ItemsIn(items, set g | g in gs))
  {
    if gs == [] {
      assert (set g | g in gs) == {};
      ItemsInNone(items);
    } else {
      var rest := gs[1..];
      DropdownOfDistinct(items, rest);
      assert gs[0] !in rest;
      ItemsInJoin(items, gs[0], set g | g in rest);
      assert (set g | g in gs) == (set g | g in rest) + {gs[0]};
    }
  }

  lemma {:induction false} ItemsInNone(items: seq<Item>)
    ensures ItemsIn(items, {}) == []
  {
    if items != [] {
      ItemsInNone(items[1..]);
    }
  }

  /** The dropdown built from `groups` lists every item exactly as often as `items` does. */
  lemma DropdownListsEveryItemOnce(items: seq<Item>)
    ensures multiset(Dropdown(items, GroupsOf(items))) == multiset(items)
  {
    var gs := GroupsOf(items);
    DropdownOfDistinct(items, gs);
    forall x | x in items ensures x.group in (set g | g in gs) {
      var k :| 0 <= k < |items| && items[k] == x;
    }
    ItemsInEverything(items, set g | g in gs);
  }

  // ---------------------------------------------------------------------
  // Selection and submit
  // ---------------------------------------------------------------------

  /** `v` is the value of one of the dropdown's options (other than the placeholder). */
  predicate IsSelectable(v: string)
  {
    exists k :: 0 <= k < |Items| && Items[k].value == v
  }

  /** No option of the dropdown leads to the unknown-topic response. */
  lemma SelectableTopicsAreKnown(v: string)
    requires IsSelectable(v)
    ensures GenerateRoute.LookupTopic(Some(v)).Some?
  {
    var k :| 0 <= k < |Items| && Items[k].value == v;
    assert k == 0 || k == 1;
  }

  /** The form state of the page: the selected `value` and the navigations it has asked the router for. */
  class HomeForm {
    var value: string
    var navigations: seq<string>

    /** `value` is the placeholder's empty value or the value of an option. */
    ghost predicate Valid()
      reads this
    {
      value == "" || IsSelectable(value)
    }

    constructor ()
      ensures Valid() && value == "" && navigations == []
    {
      value := "";
      navigations := [];
    }

    /** `onChange`: the dropdown reports the value of the chosen option. */
    method Choose(v: string)
      requires v == "" || IsSelectable(v)
      modifies this
      ensures Valid() && value == v && navigations == old(navigations)
    {
      value := v;
    }

    /**
     * `onSubmit`: nothing happens without a selection; otherwise one
     * navigation to the generation page carrying the encoded slug, which
     * names a topic of the catalog.
     */
    method Submit(encode: string -> string)
      requires Valid()
      modifies this
      ensures Valid() && value == old(value)
      ensures old(value) == "" ==> navigations == old(navigations)
      ensures old(value) != "" ==> navigations == old(navigations) + [NewPlanPath + encode(old(value))]
      ensures old(value) != "" ==> GenerateRoute.LookupTopic(Some(old(value))).Some?
    {
      if value == "" {
        return;
      }
      SelectableTopicsAreKnown(value);
      navigations := navigations + [NewPlanPath + encode(value)];
    }
  }
}
