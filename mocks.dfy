/** The in-memory stand-in for the CMS client used in local development:
    a constant catalogue of six collections, a query whose modifiers change
    nothing, record-merging write calls that store nothing, and image-URL
    helpers that ignore every dimension. */
module WixMocks {
  import opened Common

  /** A JSON-like field value of a catalogue record. */
  datatype Value = Str(s: string) | Num(n: int) | Bool(b: bool) | Undefined | Null

  /** A plain object: its own enumerable properties. */
  type Record = map<string, Value>

  /** JavaScript truthiness of a field value. */
  predicate TruthyValue(v: Value) {
    match v
    case Str(s) => s != ""
    case Num(n) => n != 0
    case Bool(b) => b
    case Undefined => false
    case Null => false
  }

  /** `obj.key`: `undefined` when the property is absent. */
  function Get(r: Record, key: string): Value {
    if key in r then r[key] else Undefined
  }

  /** `{...base, ...over}`: properties of `over` replace those of `base`. */
  function Spread(base: Record, over: Record): (r: Record)
    ensures r.Keys == base.Keys + over.Keys
    ensures forall k :: k in over ==> r[k] == over[k]
    ensures forall k :: k in base && k !in over ==> r[k] == base[k]
  {
    base + over
  }

  /** A record of `dummyData.events`, its fields in source order. */
  datatype EventRow = EventRow(id: string, eventName: string, eventDescription: string, eventDate: string, eventTime: string, eventLocation: string, eventImage: string, eventPrice: int)

  function EventRecord(r: EventRow): Record {
    map[
      "_id" := Str(r.id),
      "eventName" := Str(r.eventName),
      "eventDescription" := Str(r.eventDescription),
      "eventDate" := Str(r.eventDate),
      "eventTime" := Str(r.eventTime),
      "eventLocation" := Str(r.eventLocation),
      "eventImage" := Str(r.eventImage),
      "eventPrice" := Num(r.eventPrice)]
  }

  const EventRows: seq<EventRow> := [
    EventRow("1", "Tech Workshop", "Hands-on technology workshop", "2026-03-15", "10:00", "Tech Lab", "/images/techworkshop.webp", 299),
    EventRow("2", "Music Concert", "Live music performance", "2026-03-15", "18:00", "Main Stage", "/images/music_concert.jpg", 399),
    EventRow("3", "Art Exhibition", "Contemporary art showcase", "2026-03-16", "11:00", "Art Gallery", "/images/art_exbi.png", 99),
    EventRow("4", "Dance Competition", "Inter-college dance battle", "2026-03-16", "15:00", "Auditorium", "/images/dance.jpg", 199),
    EventRow("5", "Free Fire Tournament", "E-sports championship", "2026-03-17", "09:00", "Gaming Arena", "/images/ff1.png", 299),
    EventRow("6", "Fashion Show", "Student fashion showcase", "2026-03-17", "19:00", "Main Stage", "/images/fasion.jpeg", 299),
    EventRow("7", "Stand-up Comedy", "Professional comedians live", "2026-03-15", "20:00", "Comedy Club", "/images/stand.jpg", 199),
    EventRow("8", "Photography Workshop", "Learn mobile photography", "2026-03-16", "09:00", "Media Lab", "/images/photo.avif", 149),
    EventRow("9", "Battle of Bands", "Rock band competition", "2026-03-16", "18:00", "Open Air Stage", "/images/bands.jpg", 249),
    EventRow("10", "Poetry Slam", "Spoken word competition", "2026-03-17", "14:00", "Literature Hall", "/images/poo.png", 299),
    EventRow("11", "DJ Night", "Electronic dance music party", "2026-03-17", "21:00", "Main Stage", "/images/night.jpg", 350),
    EventRow("12", "Treasure Hunt", "Campus-wide adventure game", "2026-03-16", "10:00", "Entire Campus", "/images/tre.jpg", 199)]

  /** A record of `dummyData.galleryphotos`, its fields in source order. */
  datatype PhotoRow = PhotoRow(id: string, photoFile: string, title: string, description: string, uploadDate: string, photographer: string, eventTag: string)

  function PhotoRecord(r: PhotoRow): Record {
    map[
      "_id" := Str(r.id),
      "photoFile" := Str(r.photoFile),
      "title" := Str(r.title),
      "description" := Str(r.description),
      "uploadDate" := Str(r.uploadDate),
      "photographer" := Str(r.photographer),
      "eventTag" := Str(r.eventTag)]
  }

  const PhotoRows: seq<PhotoRow> := [
    PhotoRow("1", "/images/cul.jpg", "Previous Event 1", "Amazing moments captured", "2025-12-01", "John Doe", "cultural"),
    PhotoRow("2", "/images/line.webp", "Previous Event 2", "Memorable performances", "2025-12-02", "Jane Smith", "technical"),
    PhotoRow("3", "/images/spo2.webp", "Previous Event 3", "Community gathering", "2025-12-03", "Bob Wilson", "sports"),
    PhotoRow("4", "/images/cul2.jpg", "Previous Event 4", "Festival highlights", "2025-12-04", "Alice Brown", "cultural"),
    PhotoRow("5", "/images/robo.jpg", "Previous Event 5", "Student activities", "2025-12-05", "Charlie Davis", "technical"),
    PhotoRow("6", "/images/cri.webp", "Previous Event 6", "Campus celebrations", "2025-12-06", "Diana Moore", "sports"),
    PhotoRow("7", "/images/dan.png", "Dance Performance", "Energetic dance showcase", "2025-12-07", "Eva Martinez", "cultural"),
    PhotoRow("8", "/images/tec.jpg", "Tech Exhibition", "Innovation on display", "2025-12-08", "Frank Johnson", "technical"),
    PhotoRow("9", "/images/sing.jpg", "Music Festival", "Live band performances", "2025-12-09", "Grace Lee", "cultural"),
    PhotoRow("10", "/images/gam.jpg", "Gaming Arena", "E-sports action shots", "2025-12-10", "Henry Chen", "technical"),
    PhotoRow("11", "/images/spo1.jpg", "Sports Day", "Athletic competitions", "2025-12-11", "Iris Wang", "sports"),
    PhotoRow("12", "/images/art.webp", "Art Gallery", "Creative expressions", "2025-12-12", "Jack Robinson", "cultural")]

  /** A record of `dummyData.schedule`, its fields in source order. */
  datatype ScheduleItemRow = ScheduleItemRow(id: string, eventName: string, description: string, eventDate: string, eventTime: string, location: string, category: string)

  function ScheduleItemRecord(r: ScheduleItemRow): Record {
    map[
      "_id" := Str(r.id),
      "eventName" := Str(r.eventName),
      "description" := Str(r.description),
      "eventDate" := Str(r.eventDate),
      "eventTime" := Str(r.eventTime),
      "location" := Str(r.location),
      "category" := Str(r.category)]
  }

  const ScheduleItemRows: seq<ScheduleItemRow> := [
    ScheduleItemRow("1", "Opening Ceremony", "Grand opening with chief guest", "2026-03-15", "09:00 AM - 10:00 AM", "Main Auditorium", "Ceremony"),
    ScheduleItemRow("2", "Tech Workshop", "AI & Machine Learning basics", "2026-03-15", "10:00 AM - 01:00 PM", "Tech Lab", "Workshop"),
    ScheduleItemRow("3", "Lunch Break", "Networking and refreshments", "2026-03-15", "01:00 PM - 02:00 PM", "Food Court", "Break"),
    ScheduleItemRow("4", "Dance Auditions", "Preliminary rounds", "2026-03-15", "02:00 PM - 05:00 PM", "Dance Studio", "Competition"),
    ScheduleItemRow("5", "Music Concert", "Live band performance", "2026-03-15", "06:00 PM - 09:00 PM", "Main Stage", "Music"),
    ScheduleItemRow("6", "Day 2 Opening", "Welcome address", "2026-03-16", "09:00 AM - 10:00 AM", "Main Auditorium", "Ceremony"),
    ScheduleItemRow("7", "Art Exhibition", "Student artwork display", "2026-03-16", "10:00 AM - 06:00 PM", "Art Gallery", "Art"),
    ScheduleItemRow("8", "Photography Workshop", "Mobile photography techniques", "2026-03-16", "02:00 PM - 05:00 PM", "Media Lab", "Workshop"),
    ScheduleItemRow("9", "Fashion Show", "Student designer showcase", "2026-03-16", "07:00 PM - 09:00 PM", "Main Stage", "Dance"),
    ScheduleItemRow("10", "Gaming Tournament Finals", "E-sports championship", "2026-03-17", "09:00 AM - 05:00 PM", "Gaming Arena", "Competition"),
    ScheduleItemRow("11", "Cultural Performances", "Traditional and modern fusion", "2026-03-17", "03:00 PM - 06:00 PM", "Open Air Theatre", "Music"),
    ScheduleItemRow("12", "Prize Distribution", "Award ceremony for winners", "2026-03-17", "07:00 PM - 08:00 PM", "Main Auditorium", "Ceremony"),
    ScheduleItemRow("13", "Closing Ceremony", "Valedictory and celebration", "2026-03-17", "08:00 PM - 10:00 PM", "Main Auditorium", "Ceremony")]

  /** A record of `dummyData.faqs`, its fields in source order. */
  datatype FaqRow = FaqRow(id: string, question: string, answer: string, category: string, isFeatured: bool, displayOrder: int)

  function FaqRecord(r: FaqRow): Record {
    map[
      "_id" := Str(r.id),
      "question" := Str(r.question),
      "answer" := Str(r.answer),
      "category" := Str(r.category),
      "isFeatured" := Bool(r.isFeatured),
      "displayOrder" := Num(r.displayOrder)]
  }

  const FaqRows: seq<FaqRow> := [
    FaqRow("1", "When is Varnothsava 2K26?", "Varnothsava 2K26 will be held from March 15-17, 2026 at SMVITM Campus.", "general", true, 1),
    FaqRow("2", "How do I register for events?", "You can register online through our website or on-campus during the festival days.", "registration", true, 2),
    FaqRow("3", "What is the entry fee?", "Entry to the campus is free. Individual events have separate registration fees.", "payment", true, 3),
    FaqRow("4", "Are accommodations available?", "Yes, limited accommodations are available. Contact us early for booking.", "accommodation", false, 4),
    FaqRow("5", "Can I participate in multiple events?", "Yes, you can participate in multiple events if the schedules don't clash.", "registration", false, 5),
    FaqRow("6", "Is food available on campus?", "Yes, multiple food stalls and canteens will be operational throughout the festival.", "facilities", false, 6)]

  /** A record of `dummyData.sponsors`, its fields in source order. */
  datatype SponsorRow = SponsorRow(id: string, name: string, logo: string, websiteUrl: string, tier: string, description: string)

  function SponsorRecord(r: SponsorRow): Record {
    map[
      "_id" := Str(r.id),
      "name" := Str(r.name),
      "logo" := Str(r.logo),
      "websiteUrl" := Str(r.websiteUrl),
      "tier" := Str(r.tier),
      "description" := Str(r.description)]
  }

  const SponsorRows: seq<SponsorRow> := [
    SponsorRow("1", "Google India", "/images/google.png", "https://google.com", "Platinum", "Leading technology company"),
    SponsorRow("2", "Tata Group", "/images/tata.jpg", "https://tata.com", "Gold", "Innovation and research partner"),
    SponsorRow("3", "Microsoft", "/images/micro.jpg", "https://microsoft.com", "Gold", "Creative design solutions"),
    SponsorRow("4", "T-Series", "/images/tse.png", "https://tseries.com", "Silver", "Music and entertainment"),
    SponsorRow("5", "Swiggy", "/images/swig.png", "https://swiggy.com", "Silver", "Food and beverage partner"),
    SponsorRow("6", "Nvidia", "/images/nvidia.jpg", "https://nvidia.com", "Bronze", "Official merchandise partner")]

  /** A record of `dummyData.badges`, its fields in source order. */
  datatype BadgeRow = BadgeRow(id: string, badgeName: string, badgeDescription: string, badgeImage: string, rarity: string, category: string)

  function BadgeRecord(r: BadgeRow): Record {
    map[
      "_id" := Str(r.id),
      "badgeName" := Str(r.badgeName),
      "badgeDescription" := Str(r.badgeDescription),
      "badgeImage" := Str(r.badgeImage),
      "rarity" := Str(r.rarity),
      "category" := Str(r.category)]
  }

  const BadgeRows: seq<BadgeRow> := [
    BadgeRow("1", "Early Bird", "Registered in the first week", "/images/bird.webp", "common", "registration"),
    BadgeRow("2", "Event Champion", "Won first place in any event", "/images/champ.jpg", "rare", "achievement"),
    BadgeRow("3", "Social Butterfly", "Attended 5+ events", "/images/but.jpg", "common", "participation"),
    BadgeRow("4", "Festival Legend", "Participated all 3 days", "/images/fest.jpg", "epic", "participation")]

  /** A collection's records, row by row. */
  function Records<R>(rows: seq<R>, toRecord: R -> Record): (items: seq<Record>)
    ensures |items| == |rows|
    ensures forall i :: 0 <= i < |rows| ==> items[i] == toRecord(rows[i])
  {
    seq(|rows|, i requires 0 <= i < |rows| => toRecord(rows[i]))
  }

  /** `dummyData`: never written by any call below. */
  const DummyData: map<string, seq<Record>> := map[
    "events" := Records(EventRows, EventRecord),
    "galleryphotos" := Records(PhotoRows, PhotoRecord),
    "schedule" := Records(ScheduleItemRows, ScheduleItemRecord),
    "faqs" := Records(FaqRows, FaqRecord),
    "sponsors" := Records(SponsorRows, SponsorRecord),
    "badges" := Records(BadgeRows, BadgeRecord)]

  /** `items.query(collectionId)`, after any number of modifiers. */
  datatype Query = Query(collectionId: string)

  /** A modifier call on a query. */
  datatype Modifier = Eq(field: string, value: Value) | Limit(limit: int) | Include(fields: seq<string>)

  /** `eq`, `limit` and `include` each return `this`. */
  function Apply(q: Query, m: Modifier): (r: Query)
    ensures r == q
  {
    match m
    case Eq(_, _) => q
    case Limit(_) => q
    case Include(_) => q
  }

  /** A chain of modifiers applied left to right. */
  function ApplyAll(q: Query, ms: seq<Modifier>): Query {
    if ms == [] then q else ApplyAll(Apply(q, ms[0]), ms[1..])
  }

  /** No chain of modifiers filters, truncates or redirects a query. */
  lemma {:induction false} ModifiersAreIgnored(q: Query, ms: seq<Modifier>)
    ensures ApplyAll(q, ms) == q
  {
    if ms != [] {
      ModifiersAreIgnored(Apply(q, ms[0]), ms[1..]);
    }
  }

  /** The resolved value of `find()`. */
  datatype FindResult = FindResult(items: seq<Record>, totalCount: nat)

  /** `find()`: the collection's records, `[]` for an unknown collection, and
      their number. */
  function Find(q: Query): (r: FindResult)
    ensures q.collectionId in DummyData ==> r.items == DummyData[q.collectionId]
    ensures q.collectionId !in DummyData ==> r.items == []
    ensures r.totalCount == |r.items|
  {
    var items := if q.collectionId in DummyData then DummyData[q.collectionId] else [];
    FindResult(items, |items|)
  }

  /** Whatever modifiers a page chains, `find` returns the whole collection. */
  lemma FindIgnoresModifiers(collectionId: string, ms: seq<Modifier>)
    ensures Find(ApplyAll(Query(collectionId), ms)) == Find(Query(collectionId))
  {
    ModifiersAreIgnored(Query(collectionId), ms);
  }

  const MockId := "mock-id"

  /** `insert(collectionId, data)`: `{_id: 'mock-id', ...data}`. */
  function Insert(collectionId: string, data: Record): (r: Record)
    ensures "_id" in r
    ensures r["_id"] == if "_id" in data then data["_id"] else Str(MockId)
    ensures forall k :: k in data ==> k in r && r[k] == data[k]
    ensures r.Keys == data.Keys + {"_id"}
  {
    Spread(map["_id" := Str(MockId)], data)
  }

  /** `update(collectionId, data)`: `{_id: data._id || 'mock-id', ...data}`. */
  function Update(collectionId: string, data: Record): (r: Record)
    ensures "_id" in r
    ensures forall k :: k in data ==> k in r && r[k] == data[k]
    ensures r.Keys == data.Keys + {"_id"}
  {
    Spread(map["_id" := if TruthyValue(Get(data, "_id")) then Get(data, "_id") else Str(MockId)], data)
  }

  /** The spread copies `data._id` over the defaulted one whenever `data` has
      that key (even an empty or `undefined` one), so `update` returns the same
      record as `insert`: `'mock-id'` only when `data` has no `_id` at all. */
  lemma UpdateIsInsert(collectionId: string, data: Record)
    ensures Update(collectionId, data) == Insert(collectionId, data)
    ensures "_id" in data ==> Update(collectionId, data)["_id"] == data["_id"]
    ensures "_id" !in data ==> Update(collectionId, data)["_id"] == Str(MockId)
  {
  }

  /** `remove(collectionId, itemId)`: `{_id: itemId}`. */
  function Remove(collectionId: string, itemId: string): (r: Record)
    ensures r.Keys == {"_id"} && r["_id"] == Str(itemId)
  {
    map["_id" := Str(itemId)]
  }

  /** `insertReference(...)`: `{}`. */
  function InsertReference(collectionId: string, propertyName: string, itemId: string, refIds: seq<string>): (r: Record)
    ensures r == map[]
  {
    map[]
  }

  const PlaceholderUrl := "https://via.placeholder.com/800x600?text=Image"

  /** `sdk.getScaleToFitImageURL(id, ...)`. */
  function ScaleToFitImageUrl(id: string, origWidth: int, origHeight: int, targetWidth: int, targetHeight: int): string {
    if id != "" then id else PlaceholderUrl
  }

  /** `sdk.getScaleToFillImageURL(id, ...)`. */
  function ScaleToFillImageUrl(id: string, origWidth: int, origHeight: int, targetWidth: int, targetHeight: int): string {
    if id != "" then id else PlaceholderUrl
  }

  /** Both helpers return the image id itself when it is non-empty and the
      placeholder otherwise, whatever the dimensions, so fit and fill agree. */
  lemma ImageUrlSpec(id: string, w1: int, h1: int, w2: int, h2: int, w3: int, h3: int, w4: int, h4: int)
    ensures id != "" ==> ScaleToFitImageUrl(id, w1, h1, w2, h2) == id
    ensures id == "" ==> ScaleToFitImageUrl(id, w1, h1, w2, h2) == PlaceholderUrl
    ensures ScaleToFitImageUrl(id, w1, h1, w2, h2) == ScaleToFitImageUrl(id, w3, h3, w4, h4)
    ensures ScaleToFillImageUrl(id, w1, h1, w2, h2) == ScaleToFitImageUrl(id, w3, h3, w4, h4)
  {
  }

  /** The result of `getPlaceholder`: its `css` and `attr` are always empty. */
  datatype Placeholder = Placeholder(uri: Value)

  /** `getPlaceholder(fittingType, data, options)` for `data` an object
      (`Some`) or `null`/`undefined` (`None`): `uri` is `data?.src || ''`. */
  function GetPlaceholder(fittingType: string, data: Option<Record>, options: Option<Record>): (p: Placeholder)
    ensures data.Some? && TruthyValue(Get(data.value, "src")) ==> p.uri == data.value["src"]
    ensures !(data.Some? && TruthyValue(Get(data.value, "src"))) ==> p.uri == Str("")
  {
    Placeholder(if data.Some? && TruthyValue(Get(data.value, "src")) then Get(data.value, "src") else Str(""))
  }

  /** The `_id` of a record. */
  function IdOf(r: Record): Value {
    Get(r, "_id")
  }

  /** Rows whose ids differ give records whose `_id`s differ. */
  lemma DistinctRowIds<R>(rows: seq<R>, toRecord: R -> Record, id: R -> string)
    requires forall r :: IdOf(toRecord(r)) == Str(id(r))
    requires forall i, j :: 0 <= i < j < |rows| ==> id(rows[i]) != id(rows[j])
    ensures DistinctIds(Records(rows, toRecord))
  {
  }

  /** Within a collection no two records share an `_id`. */
  ghost predicate DistinctIds(items: seq<Record>) {
    forall i, j :: 0 <= i < j < |items| ==> IdOf(items[i]) != IdOf(items[j])
  }

  lemma EventIdsDistinct()
    ensures DistinctIds(Records(EventRows, EventRecord))
  {
    DistinctRowIds(EventRows, EventRecord, (r: EventRow) => r.id);
  }

  lemma PhotoIdsDistinct()
    ensures DistinctIds(Records(PhotoRows, PhotoRecord))
  {
    DistinctRowIds(PhotoRows, PhotoRecord, (r: PhotoRow) => r.id);
  }

  lemma ScheduleItemIdsDistinct()
    ensures DistinctIds(Records(ScheduleItemRows, ScheduleItemRecord))
  {
    DistinctRowIds(ScheduleItemRows, ScheduleItemRecord, (r: ScheduleItemRow) => r.id);
  }

  lemma FaqIdsDistinct()
    ensures DistinctIds(Records(FaqRows, FaqRecord))
  {
    DistinctRowIds(FaqRows, FaqRecord, (r: FaqRow) => r.id);
  }

  lemma SponsorIdsDistinct()
    ensures DistinctIds(Records(SponsorRows, SponsorRecord))
  {
    DistinctRowIds(SponsorRows, SponsorRecord, (r: SponsorRow) => r.id);
  }

  lemma BadgeIdsDistinct()
    ensures DistinctIds(Records(BadgeRows, BadgeRecord))
  {
    DistinctRowIds(BadgeRows, BadgeRecord, (r: BadgeRow) => r.id);
  }

  /** Within each collection the `_id`s are pairwise distinct. */
  lemma DummyIdsDistinct()
    ensures forall c :: c in DummyData ==> DistinctIds(DummyData[c])
  {
    EventIdsDistinct();
    PhotoIdsDistinct();
    ScheduleItemIdsDistinct();
    FaqIdsDistinct();
    SponsorIdsDistinct();
    BadgeIdsDistinct();
  }
}
