/**
 * The menu page's catalogue: the module-level lists `categories` and `menus`
 * that the page loads, filters, counts, sorts and updates in place. The DOM
 * reads of the filter controls become parameters; the confirmation dialog
 * becomes a `confirmed` flag; the mocked server calls always succeed, and the
 * record a save gets back from the server is a parameter.
 */
module MenuCatalogue {
  import opened Common

  /** A category; `displayOrder` is `urutan_tampilan`. */
  datatype Category = Category(id: string, name: string, displayOrder: int)

  /**
   * A menu item; `available` is `status_ketersediaan`, `enabled` is
   * `is_enabled`, and an absent description is "".
   */
  datatype Menu = Menu(id: string, name: string, description: string, price: int,
                       categoryId: string, available: bool, enabled: bool, imageUrl: string)

  /** The two availability filter values with an effect. */
  const AvailableFilter := "tersedia"
  const SoldOutFilter := "habis"

  // ===================== lookups =====================

  function IndexOfCategory(cats: seq<Category>, id: string): (r: int)
    ensures -1 <= r < |cats|
    ensures r >= 0 ==> cats[r].id == id && forall j :: 0 <= j < r ==> cats[j].id != id
    ensures r == -1 <==> forall j :: 0 <= j < |cats| ==> cats[j].id != id
  {
    FirstIndex(cats, (c: Category) => c.id == id)
  }

  function IndexOfMenu(menus: seq<Menu>, id: string): (r: int)
    ensures -1 <= r < |menus|
    ensures r >= 0 ==> menus[r].id == id && forall j :: 0 <= j < r ==> menus[j].id != id
    ensures r == -1 <==> forall j :: 0 <= j < |menus| ==> menus[j].id != id
  {
    FirstIndex(menus, (m: Menu) => m.id == id)
  }

  // ===================== filterMenus =====================

  predicate CategoryMatch(m: Menu, categoryId: string)
  {
    categoryId == "" || m.categoryId == categoryId
  }

  predicate AvailabilityMatch(m: Menu, availability: string)
  {
    if availability == AvailableFilter then m.available
    else if availability == SoldOutFilter then !m.available
    else true
  }

  /** The name, or a non-empty description, contains `term` once lower-cased. */
  predicate SearchMatch(m: Menu, term: string)
  {
    term == "" || Includes(ToLower(m.name), term)
    || (m.description != "" && Includes(ToLower(m.description), term))
  }

  /** The search box's value as `filterMenus` uses it. */
  function NormalizeSearch(raw: string): string
  {
    ToLower(Trim(raw))
  }

  predicate Shown(m: Menu, categoryId: string, availability: string, term: string)
  {
    CategoryMatch(m, categoryId) && AvailabilityMatch(m, availability) && SearchMatch(m, term)
  }

  function ByCategory(menus: seq<Menu>, categoryId: string): (r: seq<Menu>)
    ensures r == Filter(menus, (m: Menu) => CategoryMatch(m, categoryId))
  {
    if categoryId != "" then
      var r := Filter(menus, (m: Menu) => m.categoryId == categoryId);
      FilterExt(menus, (m: Menu) => m.categoryId == categoryId, (m: Menu) => CategoryMatch(m, categoryId));
      r
    else
      FilterAll(menus, (m: Menu) => CategoryMatch(m, categoryId));
      menus
  }

  function ByAvailability(menus: seq<Menu>, availability: string): (r: seq<Menu>)
    ensures r == Filter(menus, (m: Menu) => AvailabilityMatch(m, availability))
  {
    if availability == AvailableFilter then
      var r := Filter(menus, (m: Menu) => m.available);
      FilterExt(menus, (m: Menu) => m.available, (m: Menu) => AvailabilityMatch(m, availability));
      r
    else if availability == SoldOutFilter then
      var r := Filter(menus, (m: Menu) => !m.available);
      FilterExt(menus, (m: Menu) => !m.available, (m: Menu) => AvailabilityMatch(m, availability));
      r
    else
      FilterAll(menus, (m: Menu) => AvailabilityMatch(m, availability));
      menus
  }

  function BySearch(menus: seq<Menu>, term: string): (r: seq<Menu>)
    ensures r == Filter(menus, (m: Menu) => SearchMatch(m, term))
  {
    if term != "" then
      var r := Filter(menus, (m: Menu) => Includes(ToLower(m.name), term)
                                          || (m.description != "" && Includes(ToLower(m.description), term)));
      FilterExt(menus, (m: Menu) => Includes(ToLower(m.name), term)
                                    || (m.description != "" && Includes(ToLower(m.description), term)),
                (m: Menu) => SearchMatch(m, term));
      r
    else
      FilterAll(menus, (m: Menu) => SearchMatch(m, term));
      menus
  }

  /** `filterMenus`: category, then availability, then the search term. */
  function FilterMenus(menus: seq<Menu>, categoryId: string, availability: string, search: string): seq<Menu>
  {
    BySearch(ByAvailability(ByCategory(menus, categoryId), availability), NormalizeSearch(search))
  }

  /** The three filters in a row are one filter by `Shown`. */
  lemma FilterMenusIsOneFilter(menus: seq<Menu>, categoryId: string, availability: string, search: string)
    ensures FilterMenus(menus, categoryId, availability, search)
            == Filter(menus, (m: Menu) => Shown(m, categoryId, availability, NormalizeSearch(search)))
  {
    var t := NormalizeSearch(search);
    var p1 := (m: Menu) => CategoryMatch(m, categoryId);
    var p2 := (m: Menu) => AvailabilityMatch(m, availability);
    var p12 := (m: Menu) => CategoryMatch(m, categoryId) && AvailabilityMatch(m, availability);
    var p3 := (m: Menu) => SearchMatch(m, t);
    var all := (m: Menu) => Shown(m, categoryId, availability, t);
    FilterFuse(menus, p1, p2, p12);
    FilterFuse(menus, p12, p3, all);
  }

  /** A menu is shown iff it is in the list and passes every active filter. */
  lemma FilterMenusMembership(menus: seq<Menu>, categoryId: string, availability: string, search: string, m: Menu)
    ensures m in FilterMenus(menus, categoryId, availability, search)
            <==> m in menus && Shown(m, categoryId, availability, NormalizeSearch(search))
  {
    FilterMenusIsOneFilter(menus, categoryId, availability, search);
  }

  /** The shown menus keep the order they have in `menus`. */
  lemma FilterMenusKeepsOrder(menus: seq<Menu>, categoryId: string, availability: string, search: string)
    ensures IsSubsequence(FilterMenus(menus, categoryId, availability, search), menus)
  {
    FilterMenusIsOneFilter(menus, categoryId, availability, search);
    FilterIsSubsequence(menus, (m: Menu) => Shown(m, categoryId, availability, NormalizeSearch(search)));
  }

  /** No category, an inactive availability value and a blank search show every menu. */
  lemma NoFilterShowsAll(menus: seq<Menu>, availability: string, search: string)
    requires availability != AvailableFilter && availability != SoldOutFilter
    requires forall i :: 0 <= i < |search| ==> IsWhitespace(search[i])
    ensures FilterMenus(menus, "", availability, search) == menus
  {
    BlankTrimsToEmpty(search);
    assert NormalizeSearch(search) == "";
    assert ByCategory(menus, "") == menus;
    assert ByAvailability(menus, availability) == menus;
  }

  // ===================== per-category counts =====================

  /** How many menus belong to `categoryId`. */
  function CountIn(menus: seq<Menu>, categoryId: string): (n: nat)
    ensures n <= |menus|
  {
    if menus == [] then 0
    else CountIn(menus[..|menus| - 1], categoryId) + (if menus[|menus| - 1].categoryId == categoryId then 1 else 0)
  }

  /** `categoryCounts[id] || 0` */
  function DisplayedCount(counts: map<string, nat>, categoryId: string): nat
  {
    if categoryId in counts then counts[categoryId] else 0
  }

  /** The `forEach` in `renderCategories` that tallies menus per category. */
  method CountByCategory(menus: seq<Menu>) returns (counts: map<string, nat>)
    ensures forall id :: DisplayedCount(counts, id) == CountIn(menus, id)
    ensures forall id :: id in counts <==> CountIn(menus, id) > 0
  {
    counts := map[];
    var i := 0;
    while i < |menus|
      invariant 0 <= i <= |menus|
      invariant forall id :: DisplayedCount(counts, id) == CountIn(menus[..i], id)
      invariant forall id :: id in counts <==> CountIn(menus[..i], id) > 0
    {
      var m := menus[i];
      counts := counts[m.categoryId := DisplayedCount(counts, m.categoryId) + 1];
      assert menus[..i + 1][..i] == menus[..i];
      i := i + 1;
    }
    assert menus[..|menus|] == menus;
  }

  /** The tally agrees with the `filter(...).length` that guards deleting a category. */
  lemma {:induction false} CountIsFilterLength(menus: seq<Menu>, categoryId: string)
    ensures CountIn(menus, categoryId) == |Filter(menus, (m: Menu) => m.categoryId == categoryId)|
    decreases |menus|
  {
    if menus != [] {
      var init := menus[..|menus| - 1];
      var last := menus[|menus| - 1];
      CountIsFilterLength(init, categoryId);
      FilterAppend(init, [last], (m: Menu) => m.categoryId == categoryId);
      assert init + [last] == menus;
    }
  }

  /** A category's count is positive iff some menu references it. */
  lemma {:induction false} CountPositiveIffReferenced(menus: seq<Menu>, categoryId: string)
    ensures CountIn(menus, categoryId) > 0 <==> exists i :: 0 <= i < |menus| && menus[i].categoryId == categoryId
    decreases |menus|
  {
    if menus != [] {
      var init := menus[..|menus| - 1];
      CountPositiveIffReferenced(init, categoryId);
      assert forall i :: 0 <= i < |init| ==> init[i] == menus[i];
    }
  }

  // ===================== display order =====================

  predicate SortedByOrder(cats: seq<Category>)
  {
    forall i, j :: 0 <= i < j < |cats| ==> cats[i].displayOrder <= cats[j].displayOrder
  }

  /** Puts `c` in front of the first element whose order is not below its own. */
  function Insert(c: Category, s: seq<Category>): (r: seq<Category>)
    ensures multiset(r) == multiset(s) + multiset{c}
  {
    if s == [] then [c]
    else if c.displayOrder <= s[0].displayOrder then [c] + s
    else
      assert s == [s[0]] + s[1..];
      [s[0]] + Insert(c, s[1..])
  }

  /** Prepending an element no larger than any other keeps a sorted list sorted. */
  lemma SortedCons(h: Category, rest: seq<Category>)
    requires SortedByOrder(rest)
    requires forall i :: 0 <= i < |rest| ==> h.displayOrder <= rest[i].displayOrder
    ensures SortedByOrder([h] + rest)
  {
    var r := [h] + rest;
    forall i, j | 0 <= i < j < |r|
      ensures r[i].displayOrder <= r[j].displayOrder
    {
      assert r[j] == rest[j - 1];
      if i > 0 {
        assert r[i] == rest[i - 1];
      }
    }
  }

  /** Every element of `Insert(c, s)` is `c` or an element of `s`. */
  lemma InsertBound(c: Category, s: seq<Category>, lo: int)
    requires c.displayOrder >= lo
    requires forall i :: 0 <= i < |s| ==> s[i].displayOrder >= lo
    ensures forall i :: 0 <= i < |Insert(c, s)| ==> Insert(c, s)[i].displayOrder >= lo
  {
    var r := Insert(c, s);
    forall i | 0 <= i < |r|
      ensures r[i].displayOrder >= lo
    {
      assert r[i] in multiset(r);
      assert r[i] == c || r[i] in multiset(s);
    }
  }

  lemma {:induction false} InsertSorted(c: Category, s: seq<Category>)
    requires SortedByOrder(s)
    ensures SortedByOrder(Insert(c, s))
    decreases |s|
  {
    if s != [] && c.displayOrder > s[0].displayOrder {
      var tail := s[1..];
      assert SortedByOrder(tail);
      InsertSorted(c, tail);
      assert forall i :: 0 <= i < |tail| ==> tail[i] == s[i + 1];
      InsertBound(c, tail, s[0].displayOrder);
      SortedCons(s[0], Insert(c, tail));
    }
  }

  /** The in-place `categories.sort` by `urutan_tampilan`. */
  function SortByOrder(cats: seq<Category>): (r: seq<Category>)
    ensures multiset(r) == multiset(cats)
    ensures SortedByOrder(r)
  {
    if cats == [] then []
    else
      assert cats == [cats[0]] + cats[1..];
      var rest := SortByOrder(cats[1..]);
      InsertSorted(cats[0], rest);
      Insert(cats[0], rest)
  }

  /** The test "has display order `k`". */
  function HasOrder(k: int): Category -> bool
  {
    (c: Category) => c.displayOrder == k
  }

  /** Inserting `c` leaves the categories of any one display order in the order of `[c] + s`. */
  lemma {:induction false} InsertKeepsTies(c: Category, s: seq<Category>, k: int)
    ensures Filter(Insert(c, s), HasOrder(k)) == Filter([c] + s, HasOrder(k))
    decreases |s|
  {
    if s != [] && c.displayOrder > s[0].displayOrder {
      var tail := s[1..];
      InsertKeepsTies(c, tail, k);
      assert ([s[0]] + Insert(c, tail))[1..] == Insert(c, tail);
      assert ([c] + tail)[1..] == tail;
      assert ([c] + s)[1..] == s;
      assert s == [s[0]] + tail;
    }
  }

  /** The sort is stable: categories with equal display order keep their input order. */
  lemma {:induction false} SortByOrderIsStable(cats: seq<Category>, k: int)
    ensures Filter(SortByOrder(cats), HasOrder(k)) == Filter(cats, HasOrder(k))
    decreases |cats|
  {
    if cats != [] {
      var rest := SortByOrder(cats[1..]);
      SortByOrderIsStable(cats[1..], k);
      InsertKeepsTies(cats[0], rest, k);
      assert ([cats[0]] + rest)[1..] == rest;
    }
  }

  // ===================== saveReorderedCategories =====================

  /** The last position of `x` in `s`, or -1. */
  function LastIndex(s: seq<string>, x: string): (r: int)
    ensures -1 <= r < |s|
    ensures r >= 0 ==> s[r] == x && forall j :: r < j < |s| ==> s[j] != x
    ensures r == -1 <==> x !in s
  {
    if s == [] then -1
    else if s[|s| - 1] == x then |s| - 1
    else
      var r := LastIndex(s[..|s| - 1], x);
      assert forall y :: y in s <==> y in s[..|s| - 1] || y == s[|s| - 1];
      r
  }

  /**
   * The order a category has after the reorder: the position after the last
   * update naming its id, for the first category with that id; otherwise its
   * old order.
   */
  function ReorderedOrder(cats: seq<Category>, ids: seq<string>, j: int): int
    requires 0 <= j < |cats|
  {
    var last := LastIndex(ids, cats[j].id);
    if last >= 0 && IndexOfCategory(cats, cats[j].id) == j then last + 1 else cats[j].displayOrder
  }

  predicate DistinctIds(ids: seq<string>)
  {
    forall i, j :: 0 <= i < j < |ids| ==> ids[i] != ids[j]
  }

  /** With no repeated ids, a listed category gets its list position plus one. */
  lemma ReorderedPosition(cats: seq<Category>, ids: seq<string>, j: int, p: int)
    requires 0 <= j < |cats| && 0 <= p < |ids|
    requires DistinctIds(ids) && ids[p] == cats[j].id && IndexOfCategory(cats, cats[j].id) == j
    ensures ReorderedOrder(cats, ids, j) == p + 1
  {
    var last := LastIndex(ids, cats[j].id);
    assert p <= last;
  }

  /** A category whose id is not listed keeps its order. */
  lemma ReorderedUnlisted(cats: seq<Category>, ids: seq<string>, j: int)
    requires 0 <= j < |cats| && cats[j].id !in ids
    ensures ReorderedOrder(cats, ids, j) == cats[j].displayOrder
  {
  }

  lemma {:induction false} IndexOfSameIds(a: seq<Category>, b: seq<Category>, id: string)
    requires |a| == |b| && forall j :: 0 <= j < |a| ==> a[j].id == b[j].id
    ensures IndexOfCategory(a, id) == IndexOfCategory(b, id)
  {
  }

  /** Adding one more id to the reorder list changes only the first category with that id. */
  lemma ReorderedOrderStep(cats: seq<Category>, ids: seq<string>, k: int, j: int)
    requires 0 <= k < |ids| && 0 <= j < |cats|
    ensures ReorderedOrder(cats, ids[..k + 1], j)
            == if cats[j].id == ids[k] && IndexOfCategory(cats, ids[k]) == j then k + 1
               else ReorderedOrder(cats, ids[..k], j)
  {
    var pre := ids[..k + 1];
    assert pre[..|pre| - 1] == ids[..k];
    assert pre[|pre| - 1] == ids[k];
  }

  /** After the first `k` ids: each category carries its reordered order and nothing else changed. */
  predicate ReorderedUpTo(cur: seq<Category>, cats: seq<Category>, ids: seq<string>, k: int)
    requires 0 <= k <= |ids|
  {
    |cur| == |cats|
    && forall j :: 0 <= j < |cur| ==> ReorderedAt(cur, cats, ids[..k], j)
  }

  /** Category `j` of `cur` is category `j` of `cats` carrying its reordered order. */
  predicate ReorderedAt(cur: seq<Category>, cats: seq<Category>, ids: seq<string>, j: int)
    requires 0 <= j < |cur| == |cats|
  {
    cur[j] == cats[j].(displayOrder := ReorderedOrder(cats, ids, j))
  }

  lemma ReorderStart(cats: seq<Category>, ids: seq<string>)
    ensures ReorderedUpTo(cats, cats, ids, 0)
  {
    forall j | 0 <= j < |cats|
      ensures ReorderedAt(cats, cats, ids[..0], j)
    {
      assert LastIndex(ids[..0], cats[j].id) == -1;
    }
  }

  lemma ReorderLoopStep(cur: seq<Category>, cats: seq<Category>, ids: seq<string>, k: int, idx: int, next: seq<Category>)
    requires 0 <= k < |ids| && ReorderedUpTo(cur, cats, ids, k)
    requires idx == IndexOfCategory(cur, ids[k])
    requires next == if idx != -1 then cur[idx := cur[idx].(displayOrder := k + 1)] else cur
    ensures ReorderedUpTo(next, cats, ids, k + 1)
  {
    forall j | 0 <= j < |cur|
      ensures cur[j].id == cats[j].id
    {
      assert ReorderedAt(cur, cats, ids[..k], j);
    }
    IndexOfSameIds(cur, cats, ids[k]);
    var pre := ids[..k + 1];
    forall j | 0 <= j < |next|
      ensures ReorderedAt(next, cats, pre, j)
    {
      assert ReorderedAt(cur, cats, ids[..k], j);
      ReorderedOrderStep(cats, ids, k, j);
    }
  }

  /** The loop of `saveReorderedCategories`: each id in turn stamps its position on the first category carrying it. */
  method Renumber(cats: seq<Category>, ids: seq<string>) returns (cur: seq<Category>)
    ensures ReorderedUpTo(cur, cats, ids, |ids|)
  {
    var k := 0;
    cur := cats;
    ReorderStart(cats, ids);
    while k < |ids|
      invariant 0 <= k <= |ids|
      invariant ReorderedUpTo(cur, cats, ids, k)
    {
      var idx := IndexOfCategory(cur, ids[k]);
      var next := cur;
      if idx != -1 {
        next := cur[idx := cur[idx].(displayOrder := k + 1)];
      }
      ReorderLoopStep(cur, cats, ids, k, idx, next);
      cur, k := next, k + 1;
    }
  }

  // ===================== the page's state =====================

  datatype DeleteOutcome = Refused | Cancelled | Deleted

  class Catalogue {
    var categories: seq<Category>
    var menus: seq<Menu>

    constructor ()
      ensures categories == [] && menus == []
    {
      categories := [];
      menus := [];
    }

    /** `loadCategories` and `loadMenus` after their data arrived. */
    method Load(cats: seq<Category>, items: seq<Menu>)
      modifies this
      ensures categories == cats && menus == items
    {
      categories := cats;
      menus := items;
    }

    /** The listing currently shown, for the given filter controls. */
    function Shown(categoryId: string, availability: string, search: string): seq<Menu>
      reads this
    {
      FilterMenus(menus, categoryId, availability, search)
    }

    /** The in-place sort at the start of `renderCategories` and `updateCategoryFilters`. */
    method SortCategories()
      modifies this
      ensures categories == SortByOrder(old(categories)) && menus == old(menus)
      ensures SortedByOrder(categories) && multiset(categories) == multiset(old(categories))
    {
      categories := SortByOrder(categories);
    }

    /** `saveCategory`'s local update; `editId == ""` is an add. */
    method SaveCategory(editId: string, result: Category)
      modifies this
      ensures menus == old(menus)
      ensures editId == "" ==> categories == old(categories) + [result]
      ensures editId != "" ==>
                var i := IndexOfCategory(old(categories), editId);
                categories == if i >= 0 then old(categories)[i := result] else old(categories)
    {
      if editId != "" {
        var i := IndexOfCategory(categories, editId);
        if i != -1 {
          categories := categories[i := result];
        }
      } else {
        categories := categories + [result];
      }
    }

    /** `saveMenu`'s local update; `editId == ""` is an add. */
    method SaveMenu(editId: string, result: Menu)
      modifies this
      ensures categories == old(categories)
      ensures editId == "" ==> menus == old(menus) + [result]
      ensures editId != "" ==>
                var i := IndexOfMenu(old(menus), editId);
                menus == if i >= 0 then old(menus)[i := result] else old(menus)
    {
      if editId != "" {
        var i := IndexOfMenu(menus, editId);
        if i != -1 {
          menus := menus[i := result];
        }
      } else {
        menus := menus + [result];
      }
    }

    /** `deleteCategory`: refused while any menu still references the category. */
    method DeleteCategory(categoryId: string, confirmed: bool) returns (outcome: DeleteOutcome)
      modifies this
      ensures menus == old(menus)
      ensures outcome == Refused <==> exists i :: 0 <= i < |menus| && menus[i].categoryId == categoryId
      ensures outcome == Cancelled <==> outcome != Refused && !confirmed
      ensures outcome == Deleted ==> categories == Filter(old(categories), (c: Category) => c.id != categoryId)
      ensures outcome != Deleted ==> categories == old(categories)
    {
      var inUse := Filter(menus, (m: Menu) => m.categoryId == categoryId);
      if |inUse| > 0 {
        assert inUse[0] in menus;
        outcome := Refused;
      } else if !confirmed {
        assert forall i :: 0 <= i < |menus| ==> menus[i].categoryId != categoryId by {
          forall i | 0 <= i < |menus| ensures menus[i].categoryId != categoryId {
            assert menus[i] in menus;
          }
        }
        outcome := Cancelled;
      } else {
        assert forall i :: 0 <= i < |menus| ==> menus[i].categoryId != categoryId by {
          forall i | 0 <= i < |menus| ensures menus[i].categoryId != categoryId {
            assert menus[i] in menus;
          }
        }
        categories := Filter(categories, (c: Category) => c.id != categoryId);
        outcome := Deleted;
      }
    }

    /** `deleteMenu` */
    method DeleteMenu(menuId: string, confirmed: bool)
      modifies this
      ensures categories == old(categories)
      ensures menus == if confirmed then Filter(old(menus), (m: Menu) => m.id != menuId) else old(menus)
    {
      if confirmed {
        menus := Filter(menus, (m: Menu) => m.id != menuId);
      }
    }

    /** `saveReorderedCategories`: position k of `ids` gets display order k + 1. */
    method SaveReorderedCategories(ids: seq<string>)
      modifies this
      ensures menus == old(menus)
      ensures ReorderedUpTo(categories, old(categories), ids, |ids|)
    {
      categories := Renumber(categories, ids);
    }

    /** `toggleMenuAvailability`: flips one menu's availability; an unknown id changes nothing. */
    method ToggleMenuAvailability(menuId: string) returns (found: bool)
      modifies this
      ensures categories == old(categories)
      ensures found <==> IndexOfMenu(old(menus), menuId) >= 0
      ensures found ==>
                var i := IndexOfMenu(old(menus), menuId);
                menus == old(menus)[i := old(menus)[i].(available := !old(menus)[i].available)]
      ensures !found ==> menus == old(menus)
    {
      var i := IndexOfMenu(menus, menuId);
      if i == -1 {
        found := false;
      } else {
        menus := menus[i := menus[i].(available := !menus[i].available)];
        found := true;
      }
    }
  }
}
