/**
 * The FAQ page of app/faq/page.tsx: the category filter over the FAQ list
 * and the accordion, whose open entries are a list of positions in the
 * filtered list that a click toggles.
 */
module Faq {
  datatype Category = General | Game | Tokens | Tech

  /** The category's `id` as the filter buttons and the items spell it. */
  function CategoryId(c: Category): string {
    match c
    case General => "general"
    case Game => "game"
    case Tokens => "tokens"
    case Tech => "tech"
  }

  /** The filter id that shows every item. */
  const AllCategories := "all"

  /** One question; the answer's text lives in the translations. */
  datatype FaqItem = FaqItem(question: string, category: Category)

  /** `items.filter(item => item.category === id)`. */
  function InCategory(items: seq<FaqItem>, id: string): (r: seq<FaqItem>)
    ensures |r| <= |items|
  {
    if items == [] then []
    else if CategoryId(items[0].category) == id then [items[0]] + InCategory(items[1..], id)
    else InCategory(items[1..], id)
  }

  /** The filter keeps every item of the category as often as it occurs, and nothing else. */
  lemma {:induction false} InCategoryCounts(items: seq<FaqItem>, id: string)
    ensures forall x :: multiset(InCategory(items, id))[x] == if CategoryId(x.category) == id then multiset(items)[x] else 0
  {
    if items != [] {
      InCategoryCounts(items[1..], id);
      assert items == [items[0]] + items[1..];
    }
  }

  /** The filter keeps the original order: filtering a concatenation filters each part. */
  lemma {:induction false} InCategoryAppend(a: seq<FaqItem>, b: seq<FaqItem>, id: string)
    ensures InCategory(a + b, id) == InCategory(a, id) + InCategory(b, id)
  {
    if a != [] {
      var ab := a + b;
      assert ab[0] == a[0] && ab[1..] == a[1..] + b;
      InCategoryAppend(a[1..], b, id);
    } else {
      assert a + b == b;
    }
  }

  /** `filteredFAQs`: everything for "all", else the items of that category. */
  function Filtered(items: seq<FaqItem>, activeCategory: string): (r: seq<FaqItem>)
    ensures activeCategory == AllCategories ==> r == items
    ensures activeCategory != AllCategories ==>
      forall x :: multiset(r)[x] == if CategoryId(x.category) == activeCategory then multiset(items)[x] else 0
  {
    InCategoryCounts(items, activeCategory);
    if activeCategory == AllCategories then items else InCategory(items, activeCategory)
  }

  /** No item carries the id "all", so filtering by a category never reproduces the "all" view by accident. */
  lemma {:induction false} NoItemIsInAll(items: seq<FaqItem>)
    ensures InCategory(items, AllCategories) == []
  {
    if items != [] {
      NoItemIsInAll(items[1..]);
    }
  }

  predicate NoDuplicates(s: seq<int>) {
    forall i, j :: 0 <= i < j < |s| ==> s[i] != s[j]
  }

  /** `prev.filter(i => i !== index)`. */
  function Without(prev: seq<int>, index: int): (r: seq<int>)
    ensures index !in r
    ensures forall y :: y != index ==> multiset(r)[y] == multiset(prev)[y]
    ensures |r| <= |prev|
  {
    if prev == [] then []
    else
      var rest := Without(prev[1..], index);
      assert prev == [prev[0]] + prev[1..];
      if prev[0] == index then rest else [prev[0]] + rest
  }

  /** Removing keeps the other entries in their order. */
  lemma {:induction false} WithoutAppend(a: seq<int>, b: seq<int>, index: int)
    ensures Without(a + b, index) == Without(a, index) + Without(b, index)
  {
    if a != [] {
      var ab := a + b;
      assert ab[0] == a[0] && ab[1..] == a[1..] + b;
      WithoutAppend(a[1..], b, index);
      assert Without(ab, index) == (if a[0] == index then [] else [a[0]]) + Without(ab[1..], index);
      assert Without(a, index) == (if a[0] == index then [] else [a[0]]) + Without(a[1..], index);
    } else {
      assert a + b == b;
    }
  }

  /** Removing an absent entry changes nothing. */
  lemma {:induction false} WithoutAbsent(prev: seq<int>, index: int)
    requires index !in prev
    ensures Without(prev, index) == prev
  {
    if prev != [] {
      WithoutAbsent(prev[1..], index);
    }
  }

  lemma {:induction false} WithoutKeepsNoDuplicates(prev: seq<int>, index: int)
    ensures NoDuplicates(prev) ==> NoDuplicates(Without(prev, index))
  {
    if prev != [] && NoDuplicates(prev) {
      WithoutKeepsNoDuplicates(prev[1..], index);
      var rest := Without(prev[1..], index);
      assert prev[0] !in prev[1..];
      assert multiset(rest)[prev[0]] == 0 by {
        if prev[0] != index {
          assert multiset(prev[1..])[prev[0]] == 0;
        }
      }
    }
  }

  /** The updater `toggleItem(index)` hands to `setOpenItems`: remove every occurrence if present, else append. */
  function Toggled(prev: seq<int>, index: int): (r: seq<int>)
    ensures index in r <==> index !in prev
    ensures forall y :: y != index ==> multiset(r)[y] == multiset(prev)[y]
    ensures index !in prev ==> r == prev + [index]
    ensures NoDuplicates(prev) ==> NoDuplicates(r)
  {
    if index in prev then
      WithoutKeepsNoDuplicates(prev, index);
      Without(prev, index)
    else prev + [index]
  }

  /** An entry of a list without duplicates occurs exactly once. */
  lemma {:induction false} OccursOnce(prev: seq<int>, index: int)
    requires NoDuplicates(prev) && index in prev
    ensures multiset(prev)[index] == 1
  {
    var rest := prev[1..];
    assert prev == [prev[0]] + rest;
    if prev[0] == index {
      assert index !in rest;
    } else {
      assert NoDuplicates(rest);
      OccursOnce(rest, index);
    }
  }

  /** Opening and closing an entry gives back the list exactly. */
  lemma {:induction false} ToggleClosedTwice(prev: seq<int>, index: int)
    requires index !in prev
    ensures Toggled(Toggled(prev, index), index) == prev
  {
    WithoutAppend(prev, [index], index);
    WithoutAbsent(prev, index);
    assert Without([index], index) == [];
  }

  /** Closing and reopening an entry keeps the same entries, with that one moved to the end. */
  lemma {:induction false} ToggleOpenTwice(prev: seq<int>, index: int)
    requires NoDuplicates(prev) && index in prev
    ensures Toggled(Toggled(prev, index), index) == Without(prev, index) + [index]
    ensures multiset(Toggled(Toggled(prev, index), index)) == multiset(prev)
  {
    var once := Without(prev, index);
    var twice := once + [index];
    OccursOnce(prev, index);
    assert multiset(twice)[index] == multiset(prev)[index];
    assert forall y :: y != index ==> multiset(twice)[y] == multiset(prev)[y];
  }

  /** The FAQ page: the active filter and the open accordion entries. */
  class FaqPage {
    const items: seq<FaqItem>
    var activeCategory: string
    /** Positions in the filtered list whose answer is open. */
    var openItems: seq<int>

    ghost predicate Valid()
      reads this
    {
      NoDuplicates(openItems)
    }

    constructor (items: seq<FaqItem>)
      ensures Valid() && this.items == items && activeCategory == AllCategories && openItems == []
    {
      this.items := items;
      activeCategory := AllCategories;
      openItems := [];
    }

    /** The list on show. */
    function Shown(): seq<FaqItem>
      reads this
    {
      Filtered(items, activeCategory)
    }

    /** Whether the entry at `position` of the shown list is open. */
    predicate IsOpen(position: int)
      reads this
    {
      position in openItems
    }

    /** A click on a category button: the open entries are kept as they are. */
    method SelectCategory(id: string)
      requires Valid()
      modifies this
      ensures Valid() && activeCategory == id && openItems == old(openItems)
      ensures forall p :: IsOpen(p) <==> old(IsOpen(p))
    {
      activeCategory := id;
    }

    /** A click on the entry at `position`. */
    method ToggleItem(position: int)
      requires Valid()
      modifies this
      ensures Valid() && activeCategory == old(activeCategory)
      ensures openItems == Toggled(old(openItems), position)
      ensures IsOpen(position) <==> !old(IsOpen(position))
      ensures forall p :: p != position ==> (IsOpen(p) <==> old(IsOpen(p)))
    {
      openItems := Toggled(openItems, position);
      assert forall p :: p != position ==> (p in openItems <==> multiset(openItems)[p] > 0);
    }
  }
}
