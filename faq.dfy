/** The FAQ page: fetched questions sorted featured-first and then by
    `displayOrder`, the category buttons and filter, and the one-slot
    accordion `openIndex`. */
module Faqs {
  import opened Common
  import opened Entities
  import opened Sorting

  /** `faq.isFeatured` as the comparator tests it. */
  predicate IsFeatured(f: Faq) {
    f.isFeatured == Some(true)
  }

  /** `faq.displayOrder || 0`. */
  function OrderOf(f: Faq): int {
    OrZero(f.displayOrder)
  }

  /** The key the comparator of `loadFAQs` orders by: featured (0) before
      not featured (1), then display order ascending. */
  function FaqRank(f: Faq): Rank {
    Rank(if IsFeatured(f) then 0 else 1, OrderOf(f))
  }

  /** The comparator `(a, b) => ...` of `loadFAQs`, as written. */
  function Compare(a: Faq, b: Faq): int {
    if IsFeatured(a) && !IsFeatured(b) then -1
    else if !IsFeatured(a) && IsFeatured(b) then 1
    else OrderOf(a) - OrderOf(b)
  }

  /** The comparator puts `a` no later than `b` exactly when its rank is no greater. */
  lemma CompareMatchesRank(a: Faq, b: Faq)
    ensures Compare(a, b) <= 0 <==> RankLe(FaqRank(a), FaqRank(b))
    ensures Compare(a, b) == 0 <==> FaqRank(a) == FaqRank(b)
  {
  }

  /** The order `loadFAQs` stores. */
  function SortFaqs(items: seq<Faq>): seq<Faq> {
    InsertionSort(items, FaqRank)
  }

  /** After sorting every featured FAQ precedes every other one, and within
      each group display orders (missing counted as 0) never decrease. */
  lemma SortedFaqsOrder(items: seq<Faq>)
    ensures forall i, j :: 0 <= i < j < |SortFaqs(items)| && IsFeatured(SortFaqs(items)[j]) ==>
              IsFeatured(SortFaqs(items)[i])
    ensures forall i, j :: (0 <= i < j < |SortFaqs(items)| &&
              IsFeatured(SortFaqs(items)[i]) == IsFeatured(SortFaqs(items)[j])) ==>
              OrderOf(SortFaqs(items)[i]) <= OrderOf(SortFaqs(items)[j])
  {
    InsertionSortSorted(items, FaqRank);
  }

  /** The sorted list holds exactly the fetched FAQs. */
  lemma SortedFaqsPermutation(items: seq<Faq>)
    ensures multiset(SortFaqs(items)) == multiset(items)
    ensures |SortFaqs(items)| == |items|
  {
    InsertionSortPermutes(items, FaqRank);
    assert |multiset(SortFaqs(items))| == |multiset(items)|;
  }

  /** The category filter buttons of the FAQ page. */
  function Categories(faqs: seq<Faq>): seq<string> {
    Choices(Keys(faqs, CategoryOf))
  }

  /** The category buttons: `'all'` first, then every non-empty category of
      a FAQ exactly once, in the order in which the FAQs first carry them. */
  lemma CategoriesSpec(faqs: seq<Faq>)
    ensures |Categories(faqs)| >= 1 && Categories(faqs)[0] == "all"
    ensures forall c :: c in Categories(faqs)[1..] <==>
              c != "" && exists i :: 0 <= i < |faqs| && faqs[i].category == Some(c)
    ensures NoDuplicates(Categories(faqs)[1..])
    ensures forall a, b :: 1 <= a < b < |Categories(faqs)| ==>
              exists k :: 0 <= k < |faqs| && faqs[k].category == Some(Categories(faqs)[a]) &&
                forall k' :: 0 <= k' <= k ==> faqs[k'].category != Some(Categories(faqs)[b])
  {
    ChoicesFollowItems(faqs, CategoryOf);
  }

  function CategoryOf(f: Faq): Option<string> {
    f.category
  }

  /** `filteredFAQs`. */
  function FilteredFaqs(faqs: seq<Faq>, selected: string): seq<Faq> {
    SelectAllOrEqual(faqs, CategoryOf, selected)
  }

  /** `toggleFAQ(index)`'s new `openIndex`. */
  function Toggled(openIndex: Option<int>, index: int): Option<int> {
    if openIndex == Some(index) then None else Some(index)
  }

  /** After a toggle, entry `k` is open exactly when `k` was the toggled
      entry and it was closed; every other entry is closed. */
  lemma ToggleOpensOne(openIndex: Option<int>, index: int, k: int)
    ensures Toggled(openIndex, index) == Some(k) <==> k == index && openIndex != Some(index)
  {
  }

  /** Toggling the same entry twice from a closed accordion, or from that
      entry open, restores the state. */
  lemma ToggleTwice(openIndex: Option<int>, index: int)
    requires openIndex == None || openIndex == Some(index)
    ensures Toggled(Toggled(openIndex, index), index) == openIndex
  {
  }

  /** `openIndex` counts positions in the filtered list, so after a category
      change the same index opens a different question: with a `general` and
      a `payment` FAQ, opening the first `general` one and then selecting
      `payment` shows the `payment` one open. */
  lemma OpenIndexOutlivesCategoryChange(general: Faq, payment: Faq)
    requires general.category == Some("general") && payment.category == Some("payment")
    ensures |FilteredFaqs([general, payment], "general")| >= 1 && FilteredFaqs([general, payment], "general")[0] == general
    ensures |FilteredFaqs([general, payment], "payment")| >= 1 && FilteredFaqs([general, payment], "payment")[0] == payment
    ensures Toggled(None, 0) == Some(0)
  {
    var g, p := FilteredFaqs([general, payment], "general"), FilteredFaqs([general, payment], "payment");
    assert general in g && payment !in g;
    assert g[0] in g;
    assert payment in p && general !in p;
    assert p[0] in p;
  }

  /** The state of the FAQ page. */
  class FaqPage {
    var faqs: seq<Faq>
    var loading: bool
    var openIndex: Option<int>
    var selectedCategory: string

    constructor ()
      ensures faqs == [] && loading && openIndex == None && selectedCategory == "all"
    {
      faqs, loading, openIndex, selectedCategory := [], true, None, "all";
    }

    /** `loadFAQs`: sorts the fetched array in place and keeps it; a failed
        fetch keeps the empty list. Either way loading ends. */
    method LoadFaqs(fetched: Fetch<array<Faq>>)
      modifies this`faqs, this`loading
      modifies if fetched.Fetched? then {fetched.items} else {}
      ensures !loading
      ensures fetched.Fetched? ==>
                fetched.items[..] == SortFaqs(old(fetched.items[..])) && faqs == fetched.items[..]
      ensures fetched.Failed? ==> faqs == old(faqs)
    {
      if fetched.Fetched? {
        SortInPlace(fetched.items, FaqRank);
        faqs := fetched.items[..];
      }
      loading := false;
    }

    /** A question button. */
    method ToggleFaq(index: int)
      modifies this`openIndex
      ensures openIndex == Toggled(old(openIndex), index)
    {
      openIndex := Toggled(openIndex, index);
    }

    /** A category button. The open index is left as it was although it
        counts positions in the newly filtered list. */
    method SelectCategory(category: string)
      modifies this`selectedCategory
      ensures selectedCategory == category && openIndex == old(openIndex)
    {
      selectedCategory := category;
    }
  }
}
