/** The schedule page: fetched items sorted by date, the day buttons and day
    filter, the category legend and its colour table.

    `new Date(d).getTime()` and date-fns `format(new Date(d), 'MMM dd')` are
    outside the model: they are the parameters `dateKey` and `dayLabel`. */
module Schedule {
  import opened Common
  import opened Entities
  import opened Sorting

  /** `item.eventDate ? new Date(item.eventDate).getTime() : 0`. */
  function DateKey(item: ScheduleItem, dateKey: string -> int): int {
    if Truthy(item.eventDate) then dateKey(item.eventDate.value) else 0
  }

  /** The comparator `dateA - dateB` orders by the date key alone. */
  function ScheduleRank(dateKey: string -> int): ScheduleItem -> Rank {
    (item: ScheduleItem) => Rank(DateKey(item, dateKey), 0)
  }

  /** The order `loadSchedule` stores. */
  function SortSchedule(items: seq<ScheduleItem>, dateKey: string -> int): seq<ScheduleItem> {
    InsertionSort(items, ScheduleRank(dateKey))
  }

  /** After loading, date keys never decrease; the list holds exactly the
      fetched items. */
  lemma SortedScheduleSpec(items: seq<ScheduleItem>, dateKey: string -> int)
    ensures forall i, j :: 0 <= i < j < |SortSchedule(items, dateKey)| ==>
              DateKey(SortSchedule(items, dateKey)[i], dateKey) <= DateKey(SortSchedule(items, dateKey)[j], dateKey)
    ensures multiset(SortSchedule(items, dateKey)) == multiset(items)
  {
    InsertionSortSorted(items, ScheduleRank(dateKey));
    InsertionSortPermutes(items, ScheduleRank(dateKey));
  }

  /** A dateless item counts as time 0, so it comes before every item dated
      after the epoch. */
  lemma DatelessFirst(items: seq<ScheduleItem>, dateKey: string -> int)
    ensures forall i, j :: (0 <= i < |SortSchedule(items, dateKey)| && 0 <= j < |SortSchedule(items, dateKey)| &&
              !Truthy(SortSchedule(items, dateKey)[i].eventDate) &&
              DateKey(SortSchedule(items, dateKey)[j], dateKey) > 0) ==> i < j
  {
    SortedScheduleSpec(items, dateKey);
  }

  /** The day label of an item, `''` when it has no date. */
  function DayOf(dayLabel: string -> string): ScheduleItem -> Option<string> {
    (item: ScheduleItem) => if Truthy(item.eventDate) then Some(dayLabel(item.eventDate.value)) else None
  }

  /** Whether `item` is dated and its date falls on the day labelled `d`. */
  predicate OnDay(item: ScheduleItem, dayLabel: string -> string, d: string) {
    Truthy(item.eventDate) && dayLabel(item.eventDate.value) == d
  }

  /** The day filter buttons of the schedule. */
  function Days(items: seq<ScheduleItem>, dayLabel: string -> string): seq<string> {
    Choices(Keys(items, DayOf(dayLabel)))
  }

  /** The day buttons: `'all'` first, then each non-empty day label once, in
      the order in which the items first fall on them. */
  lemma DaysSpec(items: seq<ScheduleItem>, dayLabel: string -> string)
    ensures |Days(items, dayLabel)| >= 1 && Days(items, dayLabel)[0] == "all"
    ensures forall d :: d in Days(items, dayLabel)[1..] <==>
              d != "" && exists i :: 0 <= i < |items| && OnDay(items[i], dayLabel, d)
    ensures NoDuplicates(Days(items, dayLabel)[1..])
    ensures forall a, b :: 1 <= a < b < |Days(items, dayLabel)| ==>
              exists k :: 0 <= k < |items| && OnDay(items[k], dayLabel, Days(items, dayLabel)[a]) &&
                forall k' :: 0 <= k' <= k ==> !OnDay(items[k'], dayLabel, Days(items, dayLabel)[b])
  {
    var key := DayOf(dayLabel);
    forall item: ScheduleItem, d: string
      ensures key(item) == Some(d) <==> OnDay(item, dayLabel, d)
    {
    }
    ChoicesFollowItems(items, key);
  }

  /** `filteredSchedule`. */
  function FilteredSchedule(items: seq<ScheduleItem>, selectedDay: string, dayLabel: string -> string): seq<ScheduleItem> {
    SelectAllOrEqual(items, DayOf(dayLabel), selectedDay)
  }

  /** A specific day keeps exactly the dated items with that label; dateless
      items never appear. The filtered list keeps the date order. */
  lemma FilteredScheduleSpec(items: seq<ScheduleItem>, selectedDay: string, dayLabel: string -> string, dateKey: string -> int)
    ensures selectedDay != "all" ==> forall item :: item in FilteredSchedule(items, selectedDay, dayLabel) <==>
              item in items && Truthy(item.eventDate) && dayLabel(item.eventDate.value) == selectedDay
    ensures SortedBy(items, ScheduleRank(dateKey)) ==>
              SortedBy(FilteredSchedule(items, selectedDay, dayLabel), ScheduleRank(dateKey))
  {
    if SortedBy(items, ScheduleRank(dateKey)) && selectedDay != "all" {
      FilterKeepsSorted(items, KeyIs(DayOf(dayLabel), selectedDay), ScheduleRank(dateKey));
    }
  }

  function CategoryOf(item: ScheduleItem): Option<string> { item.category }

  /** The schedule's category list, which has no `'all'` entry. */
  function Categories(items: seq<ScheduleItem>): seq<string> {
    Distinct(Keys(items, CategoryOf))
  }

  /** Each non-empty category once, in the order in which the items first
      carry them. */
  lemma CategoriesSpec(items: seq<ScheduleItem>)
    ensures forall c :: c in Categories(items) <==>
              c != "" && exists i :: 0 <= i < |items| && items[i].category == Some(c)
    ensures NoDuplicates(Categories(items))
    ensures forall a, b :: 0 <= a < b < |Categories(items)| ==>
              exists k :: 0 <= k < |items| && items[k].category == Some(Categories(items)[a]) &&
                forall k' :: 0 <= k' <= k ==> items[k'].category != Some(Categories(items)[b])
  {
    DistinctFollowsItems(items, CategoryOf);
  }

  const DefaultGradient := "from-neon-green to-neon-blue"

  const CategoryColors: map<string, string> := map[
    "Music" := "from-neon-green to-neon-blue",
    "Dance" := "from-secondary to-neon-green",
    "Art" := "from-neon-blue to-secondary",
    "Workshop" := "from-neon-green to-secondary",
    "Competition" := "from-secondary to-neon-blue"]

  /** `categoryColors[category] || 'from-neon-green to-neon-blue'`. */
  function CategoryColor(category: string): string {
    if category in CategoryColors then CategoryColors[category] else DefaultGradient
  }

  /** A listed category gets its own gradient; any other gets the default
      (the catalogue's `Ceremony` and `Break` among them). */
  lemma CategoryColorSpec(category: string)
    ensures category in CategoryColors ==> CategoryColor(category) == CategoryColors[category]
    ensures category !in CategoryColors ==> CategoryColor(category) == DefaultGradient
    ensures CategoryColor("Ceremony") == DefaultGradient && CategoryColor("Break") == DefaultGradient
    ensures CategoryColor(category) in CategoryColors.Values
  {
    assert CategoryColors["Music"] == DefaultGradient;
  }

  /** The state of the schedule page. */
  class SchedulePage {
    var items: seq<ScheduleItem>
    var loading: bool
    var selectedDay: string

    constructor ()
      ensures items == [] && loading && selectedDay == "all"
    {
      items, loading, selectedDay := [], true, "all";
    }

    /** `loadSchedule`: sorts the fetched array in place and keeps it; a
        failed fetch keeps the empty list. Either way loading ends. */
    method LoadSchedule(fetched: Fetch<array<ScheduleItem>>, dateKey: string -> int)
      modifies this`items, this`loading
      modifies if fetched.Fetched? then {fetched.items} else {}
      ensures !loading
      ensures fetched.Fetched? ==>
                fetched.items[..] == SortSchedule(old(fetched.items[..]), dateKey) && items == fetched.items[..]
      ensures fetched.Failed? ==> items == old(items)
    {
      if fetched.Fetched? {
        SortInPlace(fetched.items, ScheduleRank(dateKey));
        items := fetched.items[..];
      }
      loading := false;
    }

    /** A day button. */
    method SelectDay(day: string)
      modifies this`selectedDay
      ensures selectedDay == day
    {
      selectedDay := day;
    }
  }
}
