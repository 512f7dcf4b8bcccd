# Varnothsava 2026 festival site — page logic in Dafny

This project models the logic behind the pages of the Varnothsava 2026 college
festival site, a React/Astro front end. It covers:

- the home page countdown to the festival;
- the gallery carousel and its tag filter;
- the FAQ accordion with its featured-first ordering;
- the schedule's date sort and day filter;
- the sponsors grouped by tier;
- the events list with its "add to cart" button;
- the cart page's lines, heading and store calls;
- the header's cart badge and active link;
- the profile page's badge colours;
- the in-memory CMS mock (`wix-mocks.ts`) that serves every collection in
  local development.

Rendering, animation and styling are not modelled. What is modelled is what
each page computes from its state and what each handler does to that state.

Layout, one module per source file plus three shared modules:

| module | file | models |
|---|---|---|
| `Common` | common.dfy | shared helpers, listed below |
| `Entities` | entities.dfy | the CMS collection records of `src/entities/index.ts` and the cart line a page reads from the cart store |
| `Sorting` | sorting.dfy | the pages' stable sort, listed below |
| `Home` | home.dfy | `HomePage.tsx` |
| `Gallery` | gallery.dfy | `GalleryPage.tsx` |
| `Faqs` | faq.dfy | `FAQPage.tsx` |
| `Schedule` | schedule.dfy | `SchedulePage.tsx` |
| `Sponsors` | sponsors.dfy | `SponsorsPage.tsx` |
| `Events` | events.dfy | `EventsPage.tsx` |
| `Cart` | cart.dfy | `CartPage.tsx` |
| `Header` | header.dfy | `layout/Header.tsx` |
| `Profile` | profile.dfy | `ProfilePage.tsx` |
| `WixMocks` | mocks.dfy | `src/lib/wix-mocks.ts` |
| `Catalogue` | catalogue.dfy | the mock catalogue read as page entities, with consequences proved about it |

`Common` holds:

- an optional field (`Option`);
- the result of a loader's `try`/`catch`: `Fetched(items)` or `Failed`;
- JavaScript truthiness and the `x || default` idiom;
- `filter`;
- `Array.from(new Set(..))`;
- the `['all', ...]` choice lists the pages build;
- the "all or equal" filter the pages share;
- decimal rendering of counts.

`Sorting` is the pages' stable sort: an insertion sort in place on an array,
proved equal to a functional insertion sort, which is proved sorted and a
permutation.

Each page's state (`useState` hooks) is a class whose methods are the page's
handlers. Values derived during rendering are functions, with lemmas that
state what the page promises about them. The following are parameters of the
model, so their results are whatever the caller supplies:

- clock readings;
- date parsing (`new Date(d).getTime()`);
- date formatting (date-fns `format`);
- the cart store's contents and total.

Behaviour the model makes explicit:

- The FAQ accordion's `openIndex` survives a category change. It counts
  positions in the filtered list, so afterwards it opens a different
  question (`Faqs.OpenIndexOutlivesCategoryChange`).
- On an empty gallery the "previous" arrow sets slide `-1`
  (`Gallery.EmptyListSteps`).
- A sponsor list that is not empty but whose sponsors all carry unknown
  tiers renders neither a section nor the "No sponsors" message
  (`Sponsors.UnknownTiersShowNothing`).
- The mock badges spell their rarities in lower case. The capitalised colour
  table never matches them, so every mock badge is drawn in the Common
  colours (`Catalogue.MockBadgesAllCommon`).
- The mock `update` returns the same record as `insert`. The spread
  `...data` overwrites the `_id` defaulted before it
  (`WixMocks.UpdateIsInsert`).

## Model

| member | source | states |
|---|---|---|
| Common.Filter | src/components/pages/FAQPage.tsx:38-40 | the result is no longer than the input, and holds exactly the input's elements that satisfy the predicate |
| Common.FilterAppend | src/components/pages/SponsorsPage.tsx:33 | filtering a concatenation is the concatenation of the filtered parts |
| Common.FilterAll | src/components/pages/SponsorsPage.tsx:33 | a predicate true of every element keeps the whole sequence |
| Common.FilterKeepsIncreasing | src/components/pages/SponsorsPage.tsx:152-154 | a filter keeps a strictly increasing key strictly increasing, so skipped sections do not reorder the rest |
| Common.FirstIndex | src/components/pages/FAQPage.tsx:36 | the index of the first occurrence: it holds the element and no earlier position does |
| Common.Unique | src/components/pages/FAQPage.tsx:36 | `Array.from(new Set(xs))`: the same members as the input, each exactly once |
| Common.UniqueFirstAppearanceOrder | src/components/pages/FAQPage.tsx:36 | the set keeps the order of first appearance: earlier entries first appeared earlier in the input |
| Common.Present | src/components/pages/FAQPage.tsx:36 | `.filter(Boolean)` on optional strings keeps exactly the present, non-empty values |
| Common.PresentAppend | src/components/pages/FAQPage.tsx:36 | the filter works element by element, in order: filtering a concatenation concatenates the filtered parts, and one element is kept iff it is truthy |
| Common.PresentKeepsFirstOrder | src/components/pages/FAQPage.tsx:36 | a value that first appears before another in the filtered list also first appears before it in the input |
| Common.Distinct | src/components/pages/SchedulePage.tsx:45 | `Array.from(new Set(vals.filter(Boolean)))`: each present non-empty value exactly once, in the order of first appearance in the input |
| Common.DistinctFollowsItems | src/components/pages/SchedulePage.tsx:45 | over the items' keys: a value is listed iff some item carries it; no repeats; a listed value's first carrier comes before any carrier of a later-listed value |
| Common.Choices | src/components/pages/FAQPage.tsx:36 | the button list starts with `'all'`, then lists each present non-empty value exactly once, in the order of first appearance in the input |
| Common.ChoicesFollowItems | src/components/pages/FAQPage.tsx:36 | over the items' keys: `'all'` first; a value is listed iff some item carries it; no repeats; a listed value's first carrier comes before any carrier of a later-listed value |
| Common.SelectAllOrEqual | src/components/pages/FAQPage.tsx:38-40 | `'all'` returns the list unchanged; any other selection keeps exactly the items whose key equals it |
| Common.Decimal | src/components/pages/CartPage.tsx:90 | a count renders as a non-empty string of decimal digits |
| Common.DecimalRoundTrip | src/components/pages/CartPage.tsx:90 | reading back the rendered digits gives the count |
| Sorting.InsertPermutes | src/components/pages/FAQPage.tsx:23-27 | inserting adds exactly the one element (as multisets) |
| Sorting.InsertionSortPermutes | src/components/pages/FAQPage.tsx:23-27 | sorting is a permutation of its input |
| Sorting.InsertSorted | src/components/pages/FAQPage.tsx:23-27 | inserting into a sorted list keeps it sorted |
| Sorting.InsertionSortSorted | src/components/pages/FAQPage.tsx:23-27 | the sort's output is ordered by the comparator's key |
| Sorting.FilterKeepsSorted | src/components/pages/SchedulePage.tsx:39-43 | filtering a sorted list leaves it sorted |
| Sorting.InsertAt | src/components/pages/FAQPage.tsx:23-27 | one step of the in-place sort: the first i+1 slots become the functional insert; the rest is unchanged |
| Sorting.SortInPlace | src/components/pages/FAQPage.tsx:23-27 | `items.sort(cmp)` in place: the array ends as the functional sort of its old contents |
| Sorting.Insert | src/components/pages/FAQPage.tsx:23-27 | specified by `Sorting.InsertPermutes` and `Sorting.InsertSorted`: adds exactly one element and keeps a sorted list sorted |
| Sorting.InsertionSort | src/components/pages/FAQPage.tsx:23-27 | specified by `Sorting.InsertionSortPermutes` and `Sorting.InsertionSortSorted`: a sorted permutation of the input |
| Home.Split | src/components/pages/HomePage.tsx:88-93 | for a positive distance: hours below 24, minutes and seconds below 60, days = distance / 1 day, and the displayed time is within one second below the distance |
| Home.NestedRemainder | src/components/pages/HomePage.tsx:89-92 | reducing modulo a day (hour, minute) before the next unit leaves the finer remainder unchanged |
| Home.LexLeIffMilliseconds | src/components/pages/HomePage.tsx:88-93 | on in-range values, the lexicographic order of (d, h, m, s) is the order of the time they stand for |
| Home.SplitMonotone | src/components/pages/HomePage.tsx:83-95 | a larger distance never shows a smaller countdown |
| Home.Countdown.constructor | src/components/pages/HomePage.tsx:63-68 | the countdown starts at all zeros |
| Home.Countdown.Tick | src/components/pages/HomePage.tsx:83-95 | a positive distance writes its split; a zero or negative one leaves `timeLeft` as it was; the range invariant is kept |
| Home.ExpiredTicksKeepState | src/components/pages/HomePage.tsx:87 | once the festival has started, any number of ticks leaves the display unchanged |
| Home.Run | src/components/pages/HomePage.tsx:83-98 | specified by `Home.ExpiredTicksKeepState`: the state after a series of ticks, unchanged when every tick comes after the festival start |
| Gallery.TagsSpec | src/components/pages/GalleryPage.tsx:35 | tag buttons: `'all'` first, then every non-empty tag of a photo exactly once, ordered by the first photo carrying each; this specifies `Gallery.Tags` |
| Gallery.FilteredPhotosSpec | src/components/pages/GalleryPage.tsx:37-39 | `'all'` shows every photo; a tag shows exactly the photos with that tag, in order |
| Gallery.Tags | src/components/pages/GalleryPage.tsx:35 | specified by `Gallery.TagsSpec` |
| Gallery.FilteredPhotos | src/components/pages/GalleryPage.tsx:37-39 | specified by `Gallery.FilteredPhotosSpec` |
| Gallery.NextIndex | src/components/pages/GalleryPage.tsx:44-47 | specified by `Gallery.StepsStayInRange`, `Gallery.StepsAreInverse`, `Gallery.StepsModulo` and `Gallery.EmptyListSteps` |
| Gallery.PrevIndex | src/components/pages/GalleryPage.tsx:49-52 | specified by `Gallery.StepsStayInRange`, `Gallery.StepsAreInverse` and `Gallery.EmptyListSteps` |
| Gallery.StepsStayInRange | src/components/pages/GalleryPage.tsx:44-52 | on a non-empty list both arrows stay in range, wrapping exactly at the ends |
| Gallery.StepsAreInverse | src/components/pages/GalleryPage.tsx:44-52 | next then previous, or previous then next, returns to the same slide |
| Gallery.NextCycles | src/components/pages/GalleryPage.tsx:44-47 | up to `len` presses of next advance k slides, wrapping once past the end, so `len` presses return to the start |
| Gallery.StepsModulo | src/components/pages/GalleryPage.tsx:44-47 | any number k of presses of next lands on `(current + k) mod len` |
| Gallery.StepsCompose | src/components/pages/GalleryPage.tsx:44-47 | a presses then b presses equal a + b presses |
| Gallery.StepsPeriodic | src/components/pages/GalleryPage.tsx:44-47 | `len` extra presses change nothing |
| Gallery.EmptyListSteps | src/components/pages/GalleryPage.tsx:44-52 | on an empty list, previous yields -1 and next yields 0 |
| Gallery.CounterInRange | src/components/pages/GalleryPage.tsx:351 | the counter reads 1..n for an in-range slide |
| Gallery.Counter | src/components/pages/GalleryPage.tsx:351 | specified by `Gallery.CounterInRange` |
| Gallery.GalleryPage.constructor | src/components/pages/GalleryPage.tsx:13-18 | no photos, loading, tag `'all'`, slide 0, no full-size photo |
| Gallery.GalleryPage.LoadPhotos | src/components/pages/GalleryPage.tsx:25-34 | loading ends; photos are the fetched ones, or unchanged if the fetch threw |
| Gallery.GalleryPage.NextSlide | src/components/pages/GalleryPage.tsx:44-47 | direction 1, slide = next index over the filtered list; an in-range slide stays in range |
| Gallery.GalleryPage.PrevSlide | src/components/pages/GalleryPage.tsx:49-52 | direction -1, slide = previous index over the filtered list; an in-range slide stays in range |
| Gallery.GalleryPage.GoToSlide | src/components/pages/GalleryPage.tsx:54-57 | slide = the thumbnail's index; direction 1 exactly when it lies after the old slide |
| Gallery.GalleryPage.OpenCurrent | src/components/pages/GalleryPage.tsx:237-244 | clicking the rendered slide, which exists only while the index names a shown photo, opens exactly that photo |
| Gallery.GalleryPage.ClosePhoto | src/components/pages/GalleryPage.tsx:366-380 | the full-size view closes |
| Gallery.GalleryPage.SelectTag | src/components/pages/GalleryPage.tsx:59-61 | the tag is set, and a changed tag resets the slide to 0 |
| Faqs.CompareMatchesRank | src/components/pages/FAQPage.tsx:23-27 | the comparator as written orders by (featured first, then display order): `cmp <= 0` iff rank is no greater, `cmp == 0` iff ranks are equal |
| Faqs.SortedFaqsOrder | src/components/pages/FAQPage.tsx:23-27 | after loading, every featured FAQ precedes every other one, and display orders never decrease within a group |
| Faqs.SortedFaqsPermutation | src/components/pages/FAQPage.tsx:23-27 | the sorted list holds exactly the fetched FAQs |
| Faqs.Compare | src/components/pages/FAQPage.tsx:23-27 | specified by `Faqs.CompareMatchesRank` |
| Faqs.SortFaqs | src/components/pages/FAQPage.tsx:23-27 | specified by `Faqs.SortedFaqsOrder` and `Faqs.SortedFaqsPermutation` |
| Faqs.CategoriesSpec | src/components/pages/FAQPage.tsx:36 | `'all'` first, then every non-empty category of a FAQ exactly once, ordered by the first FAQ carrying each; this specifies `Faqs.Categories` |
| Faqs.FilteredFaqs | src/components/pages/FAQPage.tsx:38-40 | specified by `Common.SelectAllOrEqual`, which it applies to the FAQs' categories: `'all'` keeps every FAQ, a category keeps exactly the FAQs in it |
| Faqs.ToggleOpensOne | src/components/pages/FAQPage.tsx:42-44 | after a toggle, entry k is open iff k was toggled while closed |
| Faqs.ToggleTwice | src/components/pages/FAQPage.tsx:42-44 | when nothing or this entry is open, toggling the same entry twice restores the state |
| Faqs.Toggled | src/components/pages/FAQPage.tsx:42-44 | specified by `Faqs.ToggleOpensOne` and `Faqs.ToggleTwice` |
| Faqs.OpenIndexOutlivesCategoryChange | src/components/pages/FAQPage.tsx:165 | with one general and one payment FAQ, index 0 is the general one under `general` and the payment one under `payment` |
| Faqs.FaqPage.constructor | src/components/pages/FAQPage.tsx:11-14 | no FAQs, loading, nothing open, category `'all'` |
| Faqs.FaqPage.LoadFaqs | src/components/pages/FAQPage.tsx:20-34 | the fetched array is sorted in place and stored; a failed fetch keeps the list; loading ends |
| Faqs.FaqPage.ToggleFaq | src/components/pages/FAQPage.tsx:42-44 | `openIndex` becomes the toggled value |
| Faqs.FaqPage.SelectCategory | src/components/pages/FAQPage.tsx:165 | the category is set and `openIndex` is left as it was |
| Schedule.SortedScheduleSpec | src/components/pages/SchedulePage.tsx:23-27 | after loading, date keys (dateless = 0) never decrease, and the list is a permutation of the fetched items |
| Schedule.DatelessFirst | src/components/pages/SchedulePage.tsx:24-25 | an item without a date sorts before every item dated after the epoch |
| Schedule.DateKey | src/components/pages/SchedulePage.tsx:24-25 | specified by `Schedule.DatelessFirst`: a dateless item sorts with key 0 |
| Schedule.SortSchedule | src/components/pages/SchedulePage.tsx:23-27 | specified by `Schedule.SortedScheduleSpec` |
| Schedule.DaysSpec | src/components/pages/SchedulePage.tsx:35-37 | day buttons: `'all'` first, then each non-empty day label of a dated item exactly once, ordered by the first item on each day |
| Schedule.Days | src/components/pages/SchedulePage.tsx:35-37 | specified by `Schedule.DaysSpec` |
| Schedule.FilteredScheduleSpec | src/components/pages/SchedulePage.tsx:39-43 | a day keeps exactly the dated items with that label; the filtered list keeps the date order |
| Schedule.FilteredSchedule | src/components/pages/SchedulePage.tsx:39-43 | specified by `Schedule.FilteredScheduleSpec` |
| Schedule.CategoriesSpec | src/components/pages/SchedulePage.tsx:45 | the legend lists every non-empty category exactly once, ordered by the first item carrying each, with no `'all'` entry |
| Schedule.CategoryColorSpec | src/components/pages/SchedulePage.tsx:47-53 | a listed category gets its gradient; any other, `Ceremony` and `Break` included, gets the default; the default is one of the table's values |
| Schedule.CategoryColor | src/components/pages/SchedulePage.tsx:47-53 | specified by `Schedule.CategoryColorSpec` |
| Schedule.SchedulePage.constructor | src/components/pages/SchedulePage.tsx:12-14 | no items, loading, day `'all'` |
| Schedule.SchedulePage.LoadSchedule | src/components/pages/SchedulePage.tsx:20-33 | the fetched array is sorted in place by date and stored; a failed fetch keeps the list; loading ends |
| Schedule.SchedulePage.SelectDay | src/components/pages/SchedulePage.tsx:166 | the selected day is set |
| Sponsors.GroupByTier | src/components/pages/SponsorsPage.tsx:31-34 | the reduce yields one key per listed tier, each bound to that tier's filter |
| Sponsors.SponsorsByTierSpec | src/components/pages/SponsorsPage.tsx:30-34 | keys are exactly the four tiers; each group is exactly the sponsors of that tier, in order |
| Sponsors.SponsorsByTier | src/components/pages/SponsorsPage.tsx:30-34 | specified by `Sponsors.SponsorsByTierSpec` and `Sponsors.GroupsPartition` |
| Sponsors.GroupsPartition | src/components/pages/SponsorsPage.tsx:31-34 | no sponsor is in two groups; one with a missing or unknown tier is in none |
| Sponsors.RenderedTiersSpec | src/components/pages/SponsorsPage.tsx:152-154 | a tier section renders iff some sponsor has that tier |
| Sponsors.RenderedTiersOrdered | src/components/pages/SponsorsPage.tsx:152-154 | rendered sections follow `tierOrder` |
| Sponsors.AllTiersRender | src/components/pages/SponsorsPage.tsx:152-154 | when every tier has a sponsor, all four sections render in order |
| Sponsors.RenderedTiers | src/components/pages/SponsorsPage.tsx:152-154 | specified by `Sponsors.RenderedTiersSpec`, `Sponsors.RenderedTiersOrdered` and `Sponsors.AllTiersRender` |
| Sponsors.TierOrderIncreasing | src/components/pages/SponsorsPage.tsx:30 | `tierOrder` lists the tiers by increasing position |
| Sponsors.UnknownTiersShowNothing | src/components/pages/SponsorsPage.tsx:240 | a non-empty list of unknown tiers renders no section and no empty message |
| Sponsors.ShowsEmptyMessage | src/components/pages/SponsorsPage.tsx:240 | specified by `Sponsors.UnknownTiersShowNothing`: the message shows only for an empty list |
| Sponsors.TierSize | src/components/pages/SponsorsPage.tsx:185 | a listed tier gets its own size; any other falls back to `lg:col-span-2` |
| Sponsors.RenderedTierStyles | src/components/pages/SponsorsPage.tsx:36-48 | every rendered tier has a colour and a size; only Platinum spans four columns |
| Sponsors.DisplayName | src/components/pages/SponsorsPage.tsx:204 | non-empty; the sponsor's name when truthy, else `Unnamed Sponsor` |
| Sponsors.SponsorsPage.constructor | src/components/pages/SponsorsPage.tsx:12-13 | no sponsors, loading |
| Sponsors.SponsorsPage.LoadSponsors | src/components/pages/SponsorsPage.tsx:19-28 | loading ends; sponsors are the fetched ones, or unchanged if the fetch threw |
| Events.AddPayloadSpec | src/components/pages/EventsPage.tsx:37-43 | the payload keeps the event's id, and takes each field from the event when present, else its default (`Unnamed Event`, 0, `''`, `TBA`) |
| Events.AddPayload | src/components/pages/EventsPage.tsx:37-43 | specified by `Events.AddPayloadSpec` |
| Events.InCart | src/components/pages/EventsPage.tsx:55-57 | true iff some cart line has the event's id |
| Events.Label | src/components/pages/EventsPage.tsx:269-292 | "In Cart" iff in the cart; else "Added!" iff just added; else "Add to Cart" |
| Events.DisabledIffInCartLabel | src/components/pages/EventsPage.tsx:267 | the button is disabled exactly when it reads "In Cart" |
| Events.Disabled | src/components/pages/EventsPage.tsx:267 | specified by `Events.DisabledIffInCartLabel` |
| Events.CategoriesSpec | src/components/pages/EventsPage.tsx:59 | `'all'` first, then every non-empty location exactly once, ordered by the first event held there; this specifies `Events.Categories` |
| Events.Categories | src/components/pages/EventsPage.tsx:59 | specified by `Events.CategoriesSpec` |
| Events.FilteredEvents | src/components/pages/EventsPage.tsx:61-63 | `'all'` keeps every event; a location keeps exactly the events there |
| Events.EventsPage.constructor | src/components/pages/EventsPage.tsx:13-17 | no events, loading, `'all'`, nothing just added |
| Events.EventsPage.LoadEvents | src/components/pages/EventsPage.tsx:25-34 | loading ends; events are the fetched ones, or unchanged if the fetch threw |
| Events.EventsPage.SelectCategory | src/components/pages/EventsPage.tsx:176 | the location filter is set |
| Events.EventsPage.ClickAdd | src/components/pages/EventsPage.tsx:36-45 | a disabled button does nothing; otherwise the store gets the payload and the id joins `addedItems` |
| Events.EventsPage.AddedExpired | src/components/pages/EventsPage.tsx:46-51 | the timeout removes exactly that id |
| Events.AddThenExpire | src/components/pages/EventsPage.tsx:45-51 | a fresh add reads "Added!" unless the item is in the cart; its timeout clears it and no other event's label |
| Cart.Click | src/components/pages/CartPage.tsx:187-225 | minus asks for quantity - 1, plus asks for quantity + 1, and remove removes, always for the line's own id |
| Cart.MinusPlusInverse | src/components/pages/CartPage.tsx:187-200 | plus after minus (or minus after plus) asks for the original quantity |
| Cart.MinusOnSingleAsksZero | src/components/pages/CartPage.tsx:187 | minus on a single ticket asks the store for quantity 0 |
| Cart.LeadingDigits | src/components/pages/CartPage.tsx:90 | a prefix of the string made only of digits |
| Cart.HeadingEmptyIff | src/components/pages/CartPage.tsx:90 | the heading reads "Your cart is empty" iff the cart has no lines |
| Cart.HeadingCount | src/components/pages/CartPage.tsx:90 | the number the heading starts with is the line count |
| Cart.HeadingPlural | src/components/pages/CartPage.tsx:90 | the heading says "events" iff there is more than one line |
| Cart.Heading | src/components/pages/CartPage.tsx:90 | specified by `Cart.HeadingEmptyIff`, `Cart.HeadingCount` and `Cart.HeadingPlural` |
| Cart.Line | src/components/pages/CartPage.tsx:161-216 | subtotal = price × quantity; the unit price is shown iff quantity > 1; the image is shown iff non-empty |
| Cart.View | src/components/pages/CartPage.tsx:94-276 | empty view iff no lines; otherwise one view per line, in order, with fee 0 and subtotal = total = the store's total |
| Cart.TotalEqualsSubtotal | src/components/pages/CartPage.tsx:263-276 | the summary's total is its subtotal plus the (zero) fee |
| Cart.HeadingMatchesView | src/components/pages/CartPage.tsx:90-94 | the heading and the body agree on emptiness |
| Header.TotalItemsAppend | src/components/layout/Header.tsx:31 | the badge count of a concatenation is the sum of the counts |
| Header.TotalItemsBounds | src/components/layout/Header.tsx:31 | with quantities of at least 1, the count is at least the number of lines, and positive iff the cart is non-empty |
| Header.TotalItems | src/components/layout/Header.tsx:31 | specified by `Header.TotalItemsAppend` and `Header.TotalItemsBounds` |
| Header.BadgeSpec | src/components/layout/Header.tsx:99 | an empty cart shows no badge; adding a line to a cart that shows one keeps it shown |
| Header.BadgeShown | src/components/layout/Header.tsx:99 | specified by `Header.BadgeSpec` |
| Header.ActiveLinkUnique | src/components/layout/Header.tsx:21-29 | at most one link is active, and one is active iff the path is one of the seven |
| Header.IsActive | src/components/layout/Header.tsx:63 | specified by `Header.ActiveLinkUnique` |
| Header.HeaderState.constructor | src/components/layout/Header.tsx:8-9 | menu closed, not scrolled |
| Header.HeaderState.ToggleMenu | src/components/layout/Header.tsx:113 | the menu flag flips |
| Header.HeaderState.CloseMenu | src/components/layout/Header.tsx:140 | the menu is closed |
| Header.HeaderState.OnScroll | src/components/layout/Header.tsx:15 | `scrolled` iff scrollY > 20 |
| Profile.BadgeGradientSpec | src/components/pages/ProfilePage.tsx:225 | a listed rarity gets its gradient; a missing, empty or unlisted one gets Common's; the result is always in the table |
| Profile.LowerCaseFallsBack | src/components/pages/ProfilePage.tsx:46-51 | lower-case rarity names get the Common gradient on both the card and the pill |
| Profile.PillMatchesBadge | src/components/pages/ProfilePage.tsx:254-256 | the pill is shown iff the rarity is non-empty, and then has the card's colour |
| Profile.BadgeGradient | src/components/pages/ProfilePage.tsx:225 | specified by `Profile.BadgeGradientSpec` and `Profile.LowerCaseFallsBack` |
| Profile.PillGradient | src/components/pages/ProfilePage.tsx:254-256 | specified by `Profile.PillMatchesBadge` and `Profile.LowerCaseFallsBack` |
| Profile.DisplayName | src/components/pages/ProfilePage.tsx:245 | non-empty; the badge's name when truthy, else `Unnamed Badge` |
| Profile.DisplayDescription | src/components/pages/ProfilePage.tsx:249 | non-empty; the description when truthy, else `No description` |
| Profile.ProfilePage.constructor | src/components/pages/ProfilePage.tsx:12-13 | no badges, loading |
| Profile.ProfilePage.EarnedCount | src/components/pages/ProfilePage.tsx:201 | the counter is the number of badges |
| Profile.ProfilePage.LoadBadges | src/components/pages/ProfilePage.tsx:19-28 | loading ends; badges are the fetched ones or unchanged; the empty state shows iff nothing was fetched |
| Profile.ProfilePage.ShowsEmptyState | src/components/pages/ProfilePage.tsx:206 | specified by `Profile.ProfilePage.LoadBadges`: the empty state shows iff no badge was fetched |
| WixMocks.Spread | src/lib/wix-mocks.ts:82-83 | `{...a, ...b}` has both key sets; b's values win, and a's remain elsewhere |
| WixMocks.Records | src/lib/wix-mocks.ts:4-70 | a collection has one record per catalogue row, in order |
| WixMocks.Apply | src/lib/wix-mocks.ts:78-80 | `eq`, `limit` and `include` return the query unchanged |
| WixMocks.ModifiersAreIgnored | src/lib/wix-mocks.ts:78-80 | any chain of modifiers leaves the query unchanged |
| WixMocks.Find | src/lib/wix-mocks.ts:74-77 | the whole collection, `[]` for an unknown id, with `totalCount` its length |
| WixMocks.FindIgnoresModifiers | src/lib/wix-mocks.ts:73-80 | `find` after any modifiers returns the whole collection |
| WixMocks.Insert | src/lib/wix-mocks.ts:82 | the record is data plus `_id`, which is data's own when present and `mock-id` otherwise |
| WixMocks.Update | src/lib/wix-mocks.ts:83 | the record is data plus `_id`, with every field of data kept |
| WixMocks.UpdateIsInsert | src/lib/wix-mocks.ts:82-83 | update returns exactly what insert returns; `_id` comes from data whenever data has the key |
| WixMocks.Remove | src/lib/wix-mocks.ts:84 | the result is exactly `{_id: itemId}` |
| WixMocks.InsertReference | src/lib/wix-mocks.ts:85 | the result is the empty object |
| WixMocks.ImageUrlSpec | src/lib/wix-mocks.ts:106-113 | both helpers return the id when non-empty, else the placeholder URL, whatever the dimensions |
| WixMocks.ScaleToFitImageUrl | src/lib/wix-mocks.ts:106-113 | specified by `WixMocks.ImageUrlSpec` |
| WixMocks.ScaleToFillImageUrl | src/lib/wix-mocks.ts:106-113 | specified by `WixMocks.ImageUrlSpec` |
| WixMocks.GetPlaceholder | src/lib/wix-mocks.ts:98-102 | `uri` is `data.src` when that is truthy, else `''` |
| WixMocks.DistinctRowIds | src/lib/wix-mocks.ts:4-70 | rows with distinct ids give records with distinct `_id`s |
| WixMocks.DummyIdsDistinct | src/lib/wix-mocks.ts:4-70 | within each mock collection the `_id`s are pairwise distinct |
| Catalogue.MockBadgesAllCommon | src/lib/wix-mocks.ts:64-69 | every mock badge gets the Common gradient on card and pill |
| Catalogue.MockSponsorTiersKnown | src/lib/wix-mocks.ts:56-63 | every mock sponsor has one of the four tiers |
| Catalogue.MockSponsorsRenderAllTiers | src/lib/wix-mocks.ts:56-63 | over the mock sponsors, all four tier sections render in order |
| Catalogue.ToBadge | src/lib/wix-mocks.ts:64-69 | specified by `Catalogue.MockBadgesAllCommon`: read as profile badges, the mock rows all get the Common gradient |
| Catalogue.ToSponsor | src/lib/wix-mocks.ts:56-63 | specified by `Catalogue.MockSponsorTiersKnown` and `Catalogue.MockSponsorsRenderAllTiers` |

## Left out

- Animation, layout, styling and icons (framer-motion, Tailwind classes): presentation only.
- The full-size photo view's captions (`title || 'Untitled'` and the optional fields): display text only; which photo it shows is modelled.
- The static content arrays (home features, about page, profile `user` and `stats`, footer): constant text with no logic.
- Timers: the countdown's `setInterval`, the gallery autoplay, and the two-second `setTimeout` of the events page. Their handlers are methods (`Tick`, `NextSlide`, `AddedExpired`), and when they fire is left to the caller.
- Gallery keyboard handler: its effect depends on `[currentSlide, maxSlide]`, so it can hold a stale `filteredPhotos` closure. Closures and React render timing are not modelled; each key press is modelled with the current list.
- React state batching and asynchronous `await`: each loader is one atomic step from its fetch outcome.
- `new Date(...)` and date-fns `format` are the parameters `dateKey`, `dayLabel` and `dateLabel`. Invalid dates (a `NaN` key) are not modelled: sort keys are integers.
- Numbers are integers: prices, display orders and `scrollY` are `int`. Floating point and `NaN` are not modelled.
- Cart store (`useCartStore`) is not part of this model. It is not among the source files: its lines and `getTotalPrice()` are inputs, and a button yields the store call it makes.
- Cart.View: the summary shows the store's `getTotalPrice()` as given; whether it equals the sum of line subtotals depends on the store.
- `BaseCrudService` is not part of this model. The mock's `find` models the data a page receives in local development.
- WixMocks.Insert, WixMocks.Update and WixMocks.GetPlaceholder: `data` is a plain object (`Record`). Non-object arguments and prototype-inherited keys (`constructor`, `toString`) are not modelled. A JavaScript record lookup such as `rarityColors[key]` is modelled as a lookup of the object's own keys.
- `members.getCurrentMember`, `authentication`, the router, SEO and Astro configuration: stubs or wiring with no logic.
- Schedule `eventTime`, `_createdDate` and the other fields no page computes with: carried in the entities, not used.
- Sorting.SortInPlace: stability is not stated separately. The model is a stable insertion sort equal to a functional one. Its order is fully determined for the comparators here, because each orders by a key; proved are sortedness by the key and the permutation.
