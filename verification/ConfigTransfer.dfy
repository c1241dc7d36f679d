/**
 * Carrying an event's configuration to another installation: exporting it with references instead of
 * ids, checking the document, and importing it under fresh ids.
 */
module ConfigTransfer {
  import opened Common
  import EventModes
  import Rows
  import Sorting

  type Id = nat

  /** The reference texts of a document; a foreign document may use any text. */
  datatype Ref = StationRef(n: nat) | CategoryRef(n: nat) | ProductRef(c: nat, p: nat) | OtherRef(text: string)

  datatype Availability = AVAILABLE | LOW_STOCK | OUT_OF_STOCK | DISABLED

  datatype Choice = Choice(name: string, priceEffect: int, isActive: bool, sortOrder: int)

  datatype Group = Group(
    name: string, single: bool, isRequired: bool, minSelect: int, maxSelect: Option<int>,
    absolute: bool, quickSaleTiles: bool, sortOrder: int, options: seq<Choice>)

  /** The product fields that a document carries unchanged. */
  datatype Article = Article(
    name: string, shortName: Option<string>, description: Option<string>, price: int, taxRate: int,
    color: Option<string>, sortOrder: int, imageUrl: Option<string>, groups: seq<Group>)

  datatype Header = Header(name: string, organizer: Option<string>, location: Option<string>, start: Option<int>, end: Option<int>, timezone: string)

  datatype Place = Place(name: string, sortOrder: int)

  // ---- Rows ----

  /** What becomes of an event besides its configuration. */
  datatype Progress = Progress(
    status: EventModes.EventStatus, testMode: bool,
    rksvConfirmedAt: Option<int>, rksvConfirmedBy: Option<Id>, rksvDisclaimerVersion: Option<string>)

  datatype Area = Area(place: Place, floorPlan: Option<string>)

  datatype Look = Look(name: string, shortName: Option<string>, color: Option<string>, sortOrder: int, isActive: bool)

  datatype Station = Station(id: Id, look: Look, printer: Option<Id>)

  datatype Category = Category(id: Id, name: string, sortOrder: int, target: Option<Id>, deposit: nat, isActive: bool)

  datatype Product = Product(category: Id, target: Option<Id>, article: Article, availability: Availability, deposit: nat)

  datatype Festival = Festival(header: Header, progress: Progress, areas: seq<Area>, stations: seq<Station>, categories: seq<Category>, products: seq<Product>)

  // ---- Documents (schema version 3) ----

  datatype StationDoc = StationDoc(ref: Ref, look: Look)

  datatype CategoryDoc = CategoryDoc(ref: Ref, name: string, sortOrder: int, stationRef: Option<Ref>)

  datatype ProductDoc = ProductDoc(ref: Ref, categoryRef: Option<Ref>, stationRef: Option<Ref>, article: Article, availability: Availability)

  datatype Document = Document(header: Header, areas: seq<Place>, stations: seq<StationDoc>, categories: seq<CategoryDoc>, products: seq<ProductDoc>)

  // ---- Export ----

  function StationIndex(stations: seq<Station>, id: Id): (i: Option<nat>)
    ensures i.Some? ==> i.value < |stations| && stations[i.value].id == id
    ensures i.None? ==> forall j :: 0 <= j < |stations| ==> stations[j].id != id
    decreases |stations|
  {
    if stations == [] then None
    else
      var last := |stations| - 1;
      if stations[last].id == id then Some(last) else StationIndex(stations[..last], id)
  }

  function StationRefOf(stations: seq<Station>, id: Option<Id>): Option<Ref> {
    if id.None? || StationIndex(stations, id.value).None? then None else Some(StationRef(StationIndex(stations, id.value).value))
  }

  function CategoryOf(p: Product): Id { p.category }

  /** The products of one category, in table order. */
  function Segment(f: Festival, c: nat): seq<Product>
    requires c < |f.categories|
  {
    Rows.Of(CategoryOf, f.products, f.categories[c].id)
  }

  function ExportProduct(f: Festival, c: nat, p: nat, row: Product): ProductDoc {
    ProductDoc(ProductRef(c, p), Some(CategoryRef(c)), StationRefOf(f.stations, row.target), row.article, row.availability)
  }

  function ExportSegment(f: Festival, c: nat): seq<ProductDoc>
    requires c < |f.categories|
  {
    seq(|Segment(f, c)|, p requires 0 <= p < |Segment(f, c)| => ExportProduct(f, c, p, Segment(f, c)[p]))
  }

  function Flat<T>(parts: seq<seq<T>>): seq<T> {
    if parts == [] then [] else parts[0] + Flat(parts[1..])
  }

  function ExportSegments(f: Festival): seq<seq<ProductDoc>> {
    seq(|f.categories|, c requires 0 <= c < |f.categories| => ExportSegment(f, c))
  }

  function PlaceOf(a: Area): Place { a.place }

  function Export(f: Festival): Document {
    Document(f.header, Sorting.Image(PlaceOf, f.areas),
             seq(|f.stations|, i requires 0 <= i < |f.stations| => StationDoc(StationRef(i), f.stations[i].look)),
             seq(|f.categories|, i requires 0 <= i < |f.categories| =>
               CategoryDoc(CategoryRef(i), f.categories[i].name, f.categories[i].sortOrder, StationRefOf(f.stations, f.categories[i].target))),
             Flat(ExportSegments(f)))
  }

  // ---- Checking a document ----

  predicate TextOk(s: string) { Trim(s) != "" && |s| <= 500 }

  predicate OptTextOk(s: Option<string>) { s.Some? ==> TextOk(s.value) }

  predicate Int32(n: int) { -2147483648 <= n <= 2147483647 }

  predicate ChoiceOk(o: Choice) { TextOk(o.name) && -1_000_000 <= o.priceEffect <= 1_000_000 && Int32(o.sortOrder) }

  predicate GroupOk(g: Group) {
    && TextOk(g.name) && 0 <= g.minSelect && Int32(g.minSelect)
    && (g.maxSelect.Some? ==> Int32(g.maxSelect.value) && g.maxSelect.value >= 1 && g.maxSelect.value >= g.minSelect)
    && (g.isRequired <==> g.minSelect >= 1) && 0 <= g.sortOrder && Int32(g.sortOrder)
    && (g.single ==> g.maxSelect == Some(1) && g.minSelect <= 1)
    && (g.absolute || g.quickSaleTiles ==> g.single && g.isRequired)
    && |g.options| <= 1000 && (forall i :: 0 <= i < |g.options| ==> ChoiceOk(g.options[i]))
    && (g.absolute ==> forall i :: 0 <= i < |g.options| ==> g.options[i].priceEffect >= 0)
  }

  predicate ArticleOk(a: Article) {
    && TextOk(a.name) && OptTextOk(a.shortName) && OptTextOk(a.description) && OptTextOk(a.color) && OptTextOk(a.imageUrl)
    && 0 <= a.price && Int32(a.price) && 0 <= a.taxRate <= 10000 && Int32(a.sortOrder)
    && |a.groups| <= 1000 && (forall i :: 0 <= i < |a.groups| ==> GroupOk(a.groups[i]))
    && (forall i, j :: 0 <= i < j < |a.groups| ==> !(a.groups[i].absolute && a.groups[j].absolute))
    && (forall i, j :: 0 <= i < j < |a.groups| ==> !(a.groups[i].quickSaleTiles && a.groups[j].quickSaleTiles))
  }

  predicate HeaderOk(h: Header) {
    && TextOk(h.name) && OptTextOk(h.organizer) && OptTextOk(h.location) && TextOk(h.timezone)
    && (h.start.Some? && h.end.Some? ==> h.start.value <= h.end.value)
  }

  predicate LookOk(l: Look) { TextOk(l.name) && OptTextOk(l.shortName) && OptTextOk(l.color) && Int32(l.sortOrder) }

  predicate AreasOk(areas: seq<Place>) {
    |areas| <= 1000 && forall i :: 0 <= i < |areas| ==> TextOk(areas[i].name) && Int32(areas[i].sortOrder)
  }

  predicate RefOk(r: Ref) { r.OtherRef? ==> TextOk(r.text) }

  predicate KnownStation(doc: Document, r: Ref) { exists i :: 0 <= i < |doc.stations| && CleanRef(doc.stations[i].ref) == r }

  predicate KnownCategory(doc: Document, r: Ref) { exists i :: 0 <= i < |doc.categories| && CleanRef(doc.categories[i].ref) == r }

  predicate StationsOk(doc: Document) {
    && |doc.stations| <= 1000
    && (forall i :: 0 <= i < |doc.stations| ==> LookOk(doc.stations[i].look) && RefOk(doc.stations[i].ref))
    && (forall i, j :: 0 <= i < j < |doc.stations| ==> CleanRef(doc.stations[i].ref) != CleanRef(doc.stations[j].ref))
  }

  predicate CategoriesOk(doc: Document) {
    && |doc.categories| <= 1000
    && (forall i :: 0 <= i < |doc.categories| ==>
          TextOk(doc.categories[i].name) && Int32(doc.categories[i].sortOrder) && RefOk(doc.categories[i].ref)
          && (doc.categories[i].stationRef.Some? ==> KnownStation(doc, doc.categories[i].stationRef.value)))
    && (forall i, j :: 0 <= i < j < |doc.categories| ==> CleanRef(doc.categories[i].ref) != CleanRef(doc.categories[j].ref))
  }

  predicate ProductDocOk(doc: Document, p: ProductDoc) {
    && ArticleOk(p.article) && RefOk(p.ref)
    && (p.categoryRef.Some? ==> KnownCategory(doc, p.categoryRef.value))
    && (p.stationRef.Some? ==> KnownStation(doc, p.stationRef.value))
  }

  predicate ProductsOk(doc: Document) {
    && |doc.products| <= 1000
    && (forall i :: 0 <= i < |doc.products| ==> ProductDocOk(doc, doc.products[i]))
    && (forall i, j :: 0 <= i < j < |doc.products| ==> CleanRef(doc.products[i].ref) != CleanRef(doc.products[j].ref))
  }

  function TrimOpt(s: Option<string>): Option<string> { if s.Some? then Some(Trim(s.value)) else None }

  function CleanChoice(o: Choice): Choice { o.(name := Trim(o.name)) }

  function CleanGroup(g: Group): Group { g.(name := Trim(g.name), options := Sorting.Image(CleanChoice, g.options)) }

  function CleanArticle(a: Article): Article {
    a.(name := Trim(a.name), shortName := TrimOpt(a.shortName), description := TrimOpt(a.description), color := TrimOpt(a.color),
       imageUrl := TrimOpt(a.imageUrl), groups := Sorting.Image(CleanGroup, a.groups))
  }

  function CleanRef(r: Ref): Ref { if r.OtherRef? then OtherRef(Trim(r.text)) else r }

  function CleanLook(l: Look): Look { l.(name := Trim(l.name), shortName := TrimOpt(l.shortName), color := TrimOpt(l.color)) }

  function CleanHeader(h: Header): Header {
    h.(name := Trim(h.name), organizer := TrimOpt(h.organizer), location := TrimOpt(h.location), timezone := Trim(h.timezone))
  }

  function CleanArea(a: Place): Place { a.(name := Trim(a.name)) }

  function CleanStation(s: StationDoc): StationDoc { StationDoc(CleanRef(s.ref), CleanLook(s.look)) }

  /** References to other rows are kept as they stand; only a row's own reference is trimmed. */
  function CleanCategory(c: CategoryDoc): CategoryDoc { c.(ref := CleanRef(c.ref), name := Trim(c.name)) }

  function CleanProduct(p: ProductDoc): ProductDoc { p.(ref := CleanRef(p.ref), article := CleanArticle(p.article)) }

  function Clean(doc: Document): Document {
    Document(CleanHeader(doc.header), Sorting.Image(CleanArea, doc.areas), Sorting.Image(CleanStation, doc.stations),
             Sorting.Image(CleanCategory, doc.categories), Sorting.Image(CleanProduct, doc.products))
  }

  function ValidateImport(doc: Document): Option<Document> {
    if HeaderOk(doc.header) && AreasOk(doc.areas) && StationsOk(doc) && CategoriesOk(doc) && ProductsOk(doc) then Some(Clean(doc)) else None
  }

  // ---- Import ----

  /** Where a reference is found in the list of its own references. */
  function IndexOfRef(refs: seq<Ref>, r: Ref): (i: Option<nat>)
    ensures i.Some? ==> i.value < |refs| && refs[i.value] == r
    ensures i.None? ==> r !in refs
    decreases |refs|
  {
    if refs == [] then None
    else
      var last := |refs| - 1;
      if refs[last] == r then Some(last) else IndexOfRef(refs[..last], r)
  }

  function RefOfStation(s: StationDoc): Ref { s.ref }

  function RefOfCategory(c: CategoryDoc): Ref { c.ref }

  function StationIdFor(doc: Document, newId: nat -> Id, r: Option<Ref>): Option<Id> {
    if r.None? || IndexOfRef(Sorting.Image(RefOfStation, doc.stations), r.value).None? then None
    else Some(newId(IndexOfRef(Sorting.Image(RefOfStation, doc.stations), r.value).value))
  }

  /** A product of an old document without a category goes to the fallback category, the last one. */
  function CategoryIdFor(doc: Document, newId: nat -> Id, r: Option<Ref>): Id {
    if r.None? || IndexOfRef(Sorting.Image(RefOfCategory, doc.categories), r.value).None? then newId(|doc.categories|)
    else newId(IndexOfRef(Sorting.Image(RefOfCategory, doc.categories), r.value).value)
  }

  /** The field the import reads is not the one the check returns, so the database default applies. */
  const ImportedAvailability := AVAILABLE

  function ImportProduct(doc: Document, newId: nat -> Id, p: ProductDoc): Product {
    Product(CategoryIdFor(doc, newId, p.categoryRef), StationIdFor(doc, newId, p.stationRef), p.article, ImportedAvailability, 0)
  }

  function MaxSortOrder(cs: seq<CategoryDoc>): int {
    if cs == [] then -1
    else var rest := MaxSortOrder(cs[..|cs| - 1]); if cs[|cs| - 1].sortOrder > rest then cs[|cs| - 1].sortOrder else rest
  }

  function FallbackCategory(doc: Document, newId: nat -> Id): Category {
    var taken := exists i :: 0 <= i < |doc.categories| && doc.categories[i].name == "Sonstige Artikel";
    Category(newId(|doc.categories|), if taken then "Sonstige Artikel (ohne Kategorie)" else "Sonstige Artikel",
             MaxSortOrder(doc.categories) + 1, None, 0, true)
  }

  predicate NeedsFallback(doc: Document) { exists i :: 0 <= i < |doc.products| && doc.products[i].categoryRef.None? }

  // ---- What the database refuses ----

  predicate OptionRowOk(o: Choice) { o.sortOrder >= 0 && Trim(o.name) != "" && -1_000_000 <= o.priceEffect <= 1_000_000 }

  predicate GroupRowOk(g: Group) {
    && g.sortOrder >= 0 && Trim(g.name) != "" && g.minSelect >= 0
    && (g.maxSelect.Some? ==> g.maxSelect.value >= 1 && g.maxSelect.value >= g.minSelect)
    && (g.isRequired <==> g.minSelect >= 1)
    && (g.single ==> g.maxSelect == Some(1) && g.minSelect <= 1)
    && (g.absolute ==> g.single && g.isRequired) && (g.quickSaleTiles ==> g.single && g.isRequired)
    && forall i :: 0 <= i < |g.options| ==> OptionRowOk(g.options[i])
  }

  /** Check constraints and unique indexes of one product's groups and options. */
  predicate ArticleRowsOk(a: Article) {
    && (forall i :: 0 <= i < |a.groups| ==> GroupRowOk(a.groups[i]))
    && (forall i, j :: 0 <= i < j < |a.groups| ==> !(a.groups[i].absolute && a.groups[j].absolute))
    && (forall i, j :: 0 <= i < j < |a.groups| ==> !(a.groups[i].quickSaleTiles && a.groups[j].quickSaleTiles))
  }

  /** The fallback category comes after all others, if its column reaches that far. */
  predicate RowsOk(doc: Document) {
    && (forall i :: 0 <= i < |doc.products| ==> ArticleRowsOk(doc.products[i].article))
    && (NeedsFallback(doc) ==> Int32(MaxSortOrder(doc.categories) + 1))
  }

  /** A new event is a draft without confirmations. */
  const NotStarted := Progress(EventModes.DRAFT, false, None, None, None)

  function NewArea(p: Place): Area { Area(p, None) }

  function ImportedStations(doc: Document, newId: nat -> Id): seq<Station> {
    seq(|doc.stations|, i requires 0 <= i < |doc.stations| => Station(newId(i), doc.stations[i].look, None))
  }

  function ImportedCategories(doc: Document, newId: nat -> Id): seq<Category> {
    seq(|doc.categories|, i requires 0 <= i < |doc.categories| =>
      Category(newId(i), doc.categories[i].name, doc.categories[i].sortOrder, StationIdFor(doc, newId, doc.categories[i].stationRef), 0, true))
  }

  function Importer(doc: Document, newId: nat -> Id): ProductDoc -> Product { (p: ProductDoc) => ImportProduct(doc, newId, p) }

  function ImportedProducts(doc: Document, newId: nat -> Id): seq<Product> { Sorting.Image(Importer(doc, newId), doc.products) }

  function Import(doc: Document, newId: nat -> Id): Festival {
    Festival(doc.header, NotStarted, Sorting.Image(NewArea, doc.areas), ImportedStations(doc, newId),
             ImportedCategories(doc, newId) + (if NeedsFallback(doc) then [FallbackCategory(doc, newId)] else []),
             ImportedProducts(doc, newId))
  }

  ghost predicate DistinctRefs(doc: Document) {
    && (forall i, j :: 0 <= i < j < |doc.stations| ==> doc.stations[i].ref != doc.stations[j].ref)
    && (forall i, j :: 0 <= i < j < |doc.categories| ==> doc.categories[i].ref != doc.categories[j].ref)
  }

  /** A document that passed the check can be imported. */
  lemma CheckedDocumentsImport(doc: Document)
    requires ValidateImport(doc).Some?
    ensures DistinctRefs(ValidateImport(doc).value)
  {
    var clean := Clean(doc);
    forall i, j | 0 <= i < j < |clean.stations| ensures clean.stations[i].ref != clean.stations[j].ref {
      assert clean.stations[i] == CleanStation(doc.stations[i]) && clean.stations[j] == CleanStation(doc.stations[j]);
    }
    forall i, j | 0 <= i < j < |clean.categories| ensures clean.categories[i].ref != clean.categories[j].ref {
      assert clean.categories[i] == CleanCategory(doc.categories[i]) && clean.categories[j] == CleanCategory(doc.categories[j]);
    }
  }

  class ImportService {
    var events: seq<Festival>

    /** Refused where an event of that name exists, or where the database refuses a row; otherwise creates the
        rows table by table and remembers the new id of every reference. */
    method ImportConfig(doc: Document, newId: nat -> Id) returns (ok: bool)
      requires DistinctRefs(doc)
      modifies this
      ensures ok <==> (forall i :: 0 <= i < |old(events)| ==> old(events)[i].header.name != doc.header.name) && RowsOk(doc)
      ensures events == old(events) + if ok then [Import(doc, newId)] else []
    {
      if exists i :: 0 <= i < |events| && events[i].header.name == doc.header.name { return false; }
      var stations, stationIds := ImportStations(doc, newId);
      var categories, categoryIds := ImportCategories(doc, newId, stationIds);
      if NeedsFallback(doc) { categories := categories + [FallbackCategory(doc, newId)]; }
      var products := ImportProducts(doc, newId, stationIds, categoryIds);
      var areas := Sorting.Image(NewArea, doc.areas);
      if !RowsOk(doc) { return false; }
      var event := Festival(doc.header, NotStarted, areas, stations, categories, products);
      assert event == Import(doc, newId);
      events := events + [event];
      return true;
    }

    method ImportStations(doc: Document, newId: nat -> Id) returns (stations: seq<Station>, stationIds: map<Ref, Id>)
      requires DistinctRefs(doc)
      ensures stations == ImportedStations(doc, newId)
      ensures forall r :: StationIdFor(doc, newId, Some(r)) == if r in stationIds then Some(stationIds[r]) else None
    {
      stations, stationIds := [], map[];
      ghost var refs := Sorting.Image(RefOfStation, doc.stations);
      NothingAssigned(doc, newId);
      for i := 0 to |doc.stations|
        invariant |stations| == i && forall j :: 0 <= j < i ==> stations[j] == Station(newId(j), doc.stations[j].look, None)
        invariant Assigned(refs, newId, stationIds, i)
      {
        var station := doc.stations[i];
        AssignNext(refs, newId, stationIds, i);
        assert refs[i] == RefOfStation(station) == station.ref;
        stations := stations + [Station(newId(i), station.look, None)];
        stationIds := stationIds[station.ref := newId(i)];
      }
      LookupIsRight(refs, newId, stationIds);
    }

    method ImportCategories(doc: Document, newId: nat -> Id, stationIds: map<Ref, Id>) returns (categories: seq<Category>, categoryIds: map<Ref, Id>)
      requires DistinctRefs(doc)
      requires forall r :: StationIdFor(doc, newId, Some(r)) == if r in stationIds then Some(stationIds[r]) else None
      ensures categories == ImportedCategories(doc, newId)
      ensures forall r :: CategoryIdFor(doc, newId, Some(r)) == if r in categoryIds then categoryIds[r] else newId(|doc.categories|)
    {
      categories, categoryIds := [], map[];
      ghost var refs := Sorting.Image(RefOfCategory, doc.categories);
      NothingAssigned(doc, newId);
      for i := 0 to |doc.categories|
        invariant |categories| == i
        invariant forall j :: 0 <= j < i ==>
          categories[j] == Category(newId(j), doc.categories[j].name, doc.categories[j].sortOrder, StationIdFor(doc, newId, doc.categories[j].stationRef), 0, true)
        invariant Assigned(refs, newId, categoryIds, i)
      {
        var c := doc.categories[i];
        AssignNext(refs, newId, categoryIds, i);
        assert refs[i] == RefOfCategory(c) == c.ref;
        var target := if c.stationRef.Some? && c.stationRef.value in stationIds then Some(stationIds[c.stationRef.value]) else None;
        categories := categories + [Category(newId(i), c.name, c.sortOrder, target, 0, true)];
        categoryIds := categoryIds[c.ref := newId(i)];
      }
      LookupIsRight(refs, newId, categoryIds);
    }

    method ImportProducts(doc: Document, newId: nat -> Id, stationIds: map<Ref, Id>, categoryIds: map<Ref, Id>) returns (products: seq<Product>)
      requires forall r :: StationIdFor(doc, newId, Some(r)) == if r in stationIds then Some(stationIds[r]) else None
      requires forall r :: CategoryIdFor(doc, newId, Some(r)) == if r in categoryIds then categoryIds[r] else newId(|doc.categories|)
      ensures products == ImportedProducts(doc, newId)
    {
      products := [];
      for i := 0 to |doc.products|
        invariant |products| == i && forall j :: 0 <= j < i ==> products[j] == ImportProduct(doc, newId, doc.products[j])
      {
        var p := doc.products[i];
        var category := if p.categoryRef.Some? && p.categoryRef.value in categoryIds then categoryIds[p.categoryRef.value] else newId(|doc.categories|);
        var target := if p.stationRef.Some? && p.stationRef.value in stationIds then Some(stationIds[p.stationRef.value]) else None;
        products := products + [Product(category, target, p.article, ImportedAvailability, 0)];
      }
    }
  }

  /** The first i references lead to their new ids, and no other reference leads anywhere. */
  ghost predicate Assigned(refs: seq<Ref>, newId: nat -> Id, ids: map<Ref, Id>, i: nat) {
    && i <= |refs| && (forall j, k :: 0 <= j < k < |refs| ==> refs[j] != refs[k])
    && (forall j :: 0 <= j < i ==> refs[j] in ids && ids[refs[j]] == newId(j))
    && (forall r :: r in ids ==> exists j :: 0 <= j < i && refs[j] == r)
  }

  lemma NothingAssigned(doc: Document, newId: nat -> Id)
    requires DistinctRefs(doc)
    ensures Assigned(Sorting.Image(RefOfStation, doc.stations), newId, map[], 0)
    ensures Assigned(Sorting.Image(RefOfCategory, doc.categories), newId, map[], 0)
  {
    var stations, categories := Sorting.Image(RefOfStation, doc.stations), Sorting.Image(RefOfCategory, doc.categories);
    forall j, k | 0 <= j < k < |stations| ensures stations[j] != stations[k] {
      assert doc.stations[j].ref != doc.stations[k].ref;
    }
    forall j, k | 0 <= j < k < |categories| ensures categories[j] != categories[k] {
      assert doc.categories[j].ref != doc.categories[k].ref;
    }
  }

  lemma AssignNext(refs: seq<Ref>, newId: nat -> Id, ids: map<Ref, Id>, i: nat)
    requires Assigned(refs, newId, ids, i) && i < |refs|
    ensures Assigned(refs, newId, ids[refs[i] := newId(i)], i + 1)
  {
  }

  lemma LookupIsRight(refs: seq<Ref>, newId: nat -> Id, ids: map<Ref, Id>)
    requires Assigned(refs, newId, ids, |refs|)
    ensures forall r :: r in ids <==> IndexOfRef(refs, r).Some?
    ensures forall r :: r in ids ==> ids[r] == newId(IndexOfRef(refs, r).value)
  {
  }

  // ---- The check accepts an export ----

  predicate Plain(s: string) { TextOk(s) && Trim(s) == s }

  predicate PlainArticle(a: Article) { ArticleOk(a) && CleanArticle(a) == a }

  /** The event's own fields meet the limits of a document. */
  ghost predicate Exportable(f: Festival) {
    && HeaderOk(f.header) && CleanHeader(f.header) == f.header
    && AreasOk(Export(f).areas) && (forall i :: 0 <= i < |f.areas| ==> Plain(f.areas[i].place.name))
    && |f.stations| <= 1000 && (forall i :: 0 <= i < |f.stations| ==> LookOk(f.stations[i].look) && CleanLook(f.stations[i].look) == f.stations[i].look)
    && |f.categories| <= 1000 && (forall i :: 0 <= i < |f.categories| ==> Plain(f.categories[i].name) && Int32(f.categories[i].sortOrder))
    && |Export(f).products| <= 1000
    && (forall c, p :: 0 <= c < |f.categories| && 0 <= p < |Segment(f, c)| ==> PlainArticle(Segment(f, c)[p].article))
  }

  lemma {:induction false} FlatAt<T>(parts: seq<seq<T>>, i: nat) returns (c: nat, p: nat)
    requires i < |Flat(parts)|
    ensures c < |parts| && p < |parts[c]| && Flat(parts)[i] == parts[c][p]
    decreases |parts|
  {
    if i < |parts[0]| {
      c, p := 0, i;
    } else {
      c, p := FlatAt(parts[1..], i - |parts[0]|);
      c := c + 1;
    }
  }

  /** Elements that tell apart their part and place are all different. */
  lemma {:induction false} FlatDistinct(parts: seq<seq<ProductDoc>>, first: nat)
    requires forall c, p :: 0 <= c < |parts| && 0 <= p < |parts[c]| ==> parts[c][p].ref == ProductRef(first + c, p)
    ensures forall i, j :: 0 <= i < j < |Flat(parts)| ==> Flat(parts)[i].ref != Flat(parts)[j].ref
    decreases |parts|
  {
    if parts != [] {
      forall c, p | 0 <= c < |parts[1..]| && 0 <= p < |parts[1..][c]| ensures parts[1..][c][p].ref == ProductRef(first + 1 + c, p) {
        assert parts[c + 1][p].ref == ProductRef(first + (c + 1), p);
      }
      FlatDistinct(parts[1..], first + 1);
      var rest := Flat(parts[1..]);
      forall i, j | 0 <= i < |parts[0]| && 0 <= j < |rest| ensures parts[0][i].ref != rest[j].ref {
        var c, p := FlatAt(parts[1..], j);
        assert parts[0][i].ref == ProductRef(first + 0, i) && parts[c + 1][p].ref == ProductRef(first + (c + 1), p);
      }
      AppendDistinct(parts[0], rest);
    }
  }

  lemma AppendDistinct(a: seq<ProductDoc>, b: seq<ProductDoc>)
    requires forall i, j :: 0 <= i < j < |a| ==> a[i].ref != a[j].ref
    requires forall i, j :: 0 <= i < j < |b| ==> b[i].ref != b[j].ref
    requires forall i, j :: 0 <= i < |a| && 0 <= j < |b| ==> a[i].ref != b[j].ref
    ensures forall i, j :: 0 <= i < j < |a + b| ==> (a + b)[i].ref != (a + b)[j].ref
  {
  }

  lemma ExportedProduct(f: Festival, i: nat) returns (c: nat, p: nat)
    requires i < |Export(f).products|
    ensures c < |f.categories| && p < |Segment(f, c)| && Export(f).products[i] == ExportProduct(f, c, p, Segment(f, c)[p])
  {
    c, p := FlatAt(ExportSegments(f), i);
  }

  lemma StationRefIsKnown(f: Festival, id: Option<Id>)
    requires StationRefOf(f.stations, id).Some?
    ensures KnownStation(Export(f), StationRefOf(f.stations, id).value)
  {
    var i := StationIndex(f.stations, id.value).value;
    assert CleanRef(Export(f).stations[i].ref) == StationRef(i);
  }

  lemma ExportedProductIsOk(f: Festival, i: nat)
    requires Exportable(f) && i < |Export(f).products|
    ensures ProductDocOk(Export(f), Export(f).products[i])
    ensures CleanProduct(Export(f).products[i]) == Export(f).products[i]
  {
    var c, p := ExportedProduct(f, i);
    assert PlainArticle(Segment(f, c)[p].article);
    assert CleanRef(Export(f).categories[c].ref) == CategoryRef(c);
    var target := Segment(f, c)[p].target;
    if StationRefOf(f.stations, target).Some? { StationRefIsKnown(f, target); }
  }

  lemma ExportedCategoriesAreOk(f: Festival)
    requires Exportable(f)
    ensures CategoriesOk(Export(f)) && StationsOk(Export(f))
  {
    var doc := Export(f);
    forall i | 0 <= i < |doc.categories| && doc.categories[i].stationRef.Some?
      ensures KnownStation(doc, doc.categories[i].stationRef.value)
    {
      StationRefIsKnown(f, f.categories[i].target);
    }
    forall i | 0 <= i < |f.categories| ensures TextOk(f.categories[i].name) { assert Plain(f.categories[i].name); }
  }

  lemma SameImage<T>(f: T -> T, s: seq<T>)
    requires forall i :: 0 <= i < |s| ==> f(s[i]) == s[i]
    ensures Sorting.Image(f, s) == s
  {
  }

  lemma CleaningChangesNothing(f: Festival)
    requires Exportable(f)
    ensures Clean(Export(f)) == Export(f)
  {
    var doc := Export(f);
    forall i | 0 <= i < |doc.areas| ensures CleanArea(doc.areas[i]) == doc.areas[i] {
      assert doc.areas[i] == PlaceOf(f.areas[i]) && Plain(f.areas[i].place.name);
    }
    SameImage(CleanArea, doc.areas);
    SameImage(CleanStation, doc.stations);
    forall i | 0 <= i < |doc.categories| ensures CleanCategory(doc.categories[i]) == doc.categories[i] { assert Plain(f.categories[i].name); }
    SameImage(CleanCategory, doc.categories);
    forall i | 0 <= i < |doc.products| ensures CleanProduct(doc.products[i]) == doc.products[i] { ExportedProductIsOk(f, i); }
    SameImage(CleanProduct, doc.products);
  }

  /** The check takes an export of such an event as it is. */
  lemma ExportIsAccepted(f: Festival)
    requires Exportable(f)
    ensures ValidateImport(Export(f)) == Some(Export(f))
  {
    var doc := Export(f);
    ExportedCategoriesAreOk(f);
    forall i | 0 <= i < |doc.products| ensures ProductDocOk(doc, doc.products[i]) { ExportedProductIsOk(f, i); }
    FlatDistinct(ExportSegments(f), 0);
    forall i, j | 0 <= i < j < |doc.products| ensures CleanRef(doc.products[i].ref) != CleanRef(doc.products[j].ref) {
      ExportedProductIsOk(f, i);
      ExportedProductIsOk(f, j);
    }
    CleaningChangesNothing(f);
  }

  lemma {:induction false} FlatPlace<T>(parts: seq<seq<T>>, c: nat, p: nat) returns (i: nat)
    requires c < |parts| && p < |parts[c]|
    ensures i < |Flat(parts)| && Flat(parts)[i] == parts[c][p]
    decreases |parts|
  {
    if c == 0 {
      i := p;
    } else {
      i := FlatPlace(parts[1..], c - 1, p);
      i := i + |parts[0]|;
    }
  }

  lemma UnchangedImage<T>(f: T -> T, s: seq<T>, i: nat)
    requires Sorting.Image(f, s) == s && i < |s|
    ensures f(s[i]) == s[i]
  {
    assert Sorting.Image(f, s)[i] == f(s[i]);
  }

  lemma AcceptedIsExportable(f: Festival)
    requires ValidateImport(Export(f)) == Some(Export(f))
    ensures Exportable(f)
  {
    var doc := Export(f);
    assert Clean(doc) == doc;
    forall i | 0 <= i < |f.areas| ensures Plain(f.areas[i].place.name) {
      UnchangedImage(CleanArea, doc.areas, i);
      assert doc.areas[i] == PlaceOf(f.areas[i]);
    }
    forall i | 0 <= i < |f.stations| ensures LookOk(f.stations[i].look) && CleanLook(f.stations[i].look) == f.stations[i].look {
      UnchangedImage(CleanStation, doc.stations, i);
      assert doc.stations[i].look == f.stations[i].look;
    }
    forall i | 0 <= i < |f.categories| ensures Plain(f.categories[i].name) && Int32(f.categories[i].sortOrder) {
      UnchangedImage(CleanCategory, doc.categories, i);
      assert doc.categories[i].name == f.categories[i].name && TextOk(doc.categories[i].name);
    }
    forall c, p | 0 <= c < |f.categories| && 0 <= p < |Segment(f, c)| ensures PlainArticle(Segment(f, c)[p].article) {
      assert ExportSegments(f)[c] == ExportSegment(f, c);
      var i := FlatPlace(ExportSegments(f), c, p);
      UnchangedImage(CleanProduct, doc.products, i);
      assert ProductDocOk(doc, doc.products[i]);
    }
  }

  /** The check takes an export as it is exactly if the event's own fields meet its limits. */
  lemma ExportIsAcceptedExactly(f: Festival)
    ensures ValidateImport(Export(f)) == Some(Export(f)) <==> Exportable(f)
  {
    if Exportable(f) { ExportIsAccepted(f); }
    if ValidateImport(Export(f)) == Some(Export(f)) { AcceptedIsExportable(f); }
  }

  // ---- There and back ----

  ghost predicate Injective(newId: nat -> Id) {
    forall i: nat, j: nat :: newId(i) == newId(j) ==> i == j
  }

  lemma OwnStationRefs(f: Festival, newId: nat -> Id, id: Option<Id>)
    requires Injective(newId)
    ensures var g := Import(Export(f), newId);
            StationRefOf(g.stations, StationIdFor(Export(f), newId, StationRefOf(f.stations, id))) == StationRefOf(f.stations, id)
  {
    var doc := Export(f);
    var r := StationRefOf(f.stations, id);
    if r.Some? {
      var refs := Sorting.Image(RefOfStation, doc.stations);
      var n := StationIndex(f.stations, id.value).value;
      assert refs[n] == RefOfStation(doc.stations[n]) == StationRef(n);
      var i := IndexOfRef(refs, r.value).value;
      assert refs[i] == RefOfStation(doc.stations[i]) == StationRef(i);
      var stations := ImportedStations(doc, newId);
      assert stations[n].id == newId(n);
      var k := StationIndex(stations, newId(n)).value;
      assert stations[k].id == newId(k);
    }
  }

  lemma OwnCategoryIds(f: Festival, newId: nat -> Id, c: nat)
    requires c < |f.categories|
    ensures CategoryIdFor(Export(f), newId, Some(CategoryRef(c))) == newId(c)
  {
    var doc := Export(f);
    var refs := Sorting.Image(RefOfCategory, doc.categories);
    assert refs[c] == RefOfCategory(doc.categories[c]) == CategoryRef(c);
    var i := IndexOfRef(refs, CategoryRef(c)).value;
    assert refs[i] == RefOfCategory(doc.categories[i]) == CategoryRef(i);
  }

  function Images<T, U>(f: T -> U, parts: seq<seq<T>>): seq<seq<U>> {
    seq(|parts|, c requires 0 <= c < |parts| => Sorting.Image(f, parts[c]))
  }

  lemma {:induction false} ImageOfFlat<T, U>(f: T -> U, parts: seq<seq<T>>)
    ensures Sorting.Image(f, Flat(parts)) == Flat(Images(f, parts))
    decreases |parts|
  {
    if parts != [] {
      ImageOfFlat(f, parts[1..]);
      assert Images(f, parts)[1..] == Images(f, parts[1..]);
      assert Sorting.Image(f, Flat(parts)) == Sorting.Image(f, parts[0]) + Sorting.Image(f, Flat(parts[1..]));
    }
  }

  lemma {:induction false} AccountConcat(a: seq<Product>, b: seq<Product>, id: Id)
    ensures Rows.Of(CategoryOf, a + b, id) == Rows.Of(CategoryOf, a, id) + Rows.Of(CategoryOf, b, id)
    decreases |a|
  {
    if a == [] { assert a + b == b; } else {
      assert (a + b)[1..] == a[1..] + b;
      AccountConcat(a[1..], b, id);
    }
  }

  lemma {:induction false} AllOfOne(a: seq<Product>, id: Id)
    requires forall i :: 0 <= i < |a| ==> a[i].category == id
    ensures Rows.Of(CategoryOf, a, id) == a
    ensures forall other :: other != id ==> Rows.Of(CategoryOf, a, other) == []
  {
    if a != [] { AllOfOne(a[1..], id); }
  }

  /** Picking one category out of the parts gives its part back. */
  lemma {:induction false} PartIsPicked(parts: seq<seq<Product>>, newId: nat -> Id, first: nat, c: nat)
    requires Injective(newId)
    requires forall k :: 0 <= k < |parts| ==> forall p :: 0 <= p < |parts[k]| ==> parts[k][p].category == newId(first + k)
    ensures Rows.Of(CategoryOf, Flat(parts), newId(c)) == if first <= c < first + |parts| then parts[c - first] else []
    decreases |parts|
  {
    if parts != [] {
      forall k | 0 <= k < |parts[1..]| ensures forall p :: 0 <= p < |parts[1..][k]| ==> parts[1..][k][p].category == newId(first + 1 + k) {
        assert parts[1..][k] == parts[k + 1];
      }
      PartIsPicked(parts[1..], newId, first + 1, c);
      AccountConcat(parts[0], Flat(parts[1..]), newId(c));
      AllOfOne(parts[0], newId(first));
      assert newId(c) == newId(first) ==> c == first;
    }
  }

  function WithDefault(p: ProductDoc): ProductDoc { p.(availability := ImportedAvailability) }

  lemma NoFallback(f: Festival)
    ensures !NeedsFallback(Export(f))
  {
    forall i | 0 <= i < |Export(f).products| ensures Export(f).products[i].categoryRef.Some? {
      var c, p := ExportedProduct(f, i);
    }
  }

  lemma SegmentIsImported(f: Festival, newId: nat -> Id, c: nat)
    requires Injective(newId) && c < |f.categories|
    ensures var g := Import(Export(f), newId);
            c < |g.categories| && Segment(g, c) == Sorting.Image(Importer(Export(f), newId), ExportSegment(f, c))
  {
    var doc := Export(f);
    NoFallback(f);
    var importer := Importer(doc, newId);
    var parts := ExportSegments(f);
    ImageOfFlat(importer, parts);
    var images: seq<seq<Product>> := Images(importer, parts);
    forall k | 0 <= k < |images| ensures forall p :: 0 <= p < |images[k]| ==> images[k][p].category == newId(0 + k) {
      forall p | 0 <= p < |images[k]| ensures images[k][p].category == newId(k) {
        assert images[k][p] == ImportProduct(doc, newId, ExportSegment(f, k)[p]);
        OwnCategoryIds(f, newId, k);
      }
    }
    PartIsPicked(images, newId, 0, c);
  }

  lemma SegmentComesBack(f: Festival, newId: nat -> Id, c: nat)
    requires Injective(newId) && c < |f.categories|
    ensures var g := Import(Export(f), newId);
            c < |g.categories| && ExportSegment(g, c) == Sorting.Image(WithDefault, ExportSegment(f, c))
  {
    var doc, g := Export(f), Import(Export(f), newId);
    SegmentIsImported(f, newId, c);
    forall p | 0 <= p < |ExportSegment(f, c)| ensures ExportSegment(g, c)[p] == WithDefault(ExportSegment(f, c)[p]) {
      assert Segment(g, c)[p] == ImportProduct(doc, newId, ExportSegment(f, c)[p]);
      OwnStationRefs(f, newId, Segment(f, c)[p].target);
    }
  }

  lemma PlacesComeBack(places: seq<Place>)
    ensures Sorting.Image(PlaceOf, Sorting.Image(NewArea, places)) == places
  {
    var areas := Sorting.Image(NewArea, places);
    forall i | 0 <= i < |places| ensures Sorting.Image(PlaceOf, areas)[i] == places[i] {
      assert areas[i] == NewArea(places[i]);
      assert Sorting.Image(PlaceOf, areas)[i] == PlaceOf(areas[i]);
    }
  }

  lemma CategoriesComeBack(f: Festival, newId: nat -> Id)
    requires Injective(newId)
    ensures Export(Import(Export(f), newId)).categories == Export(f).categories
  {
    var doc, g := Export(f), Import(Export(f), newId);
    NoFallback(f);
    assert |g.categories| == |f.categories|;
    forall c | 0 <= c < |f.categories| ensures Export(g).categories[c] == doc.categories[c] {
      OwnStationRefs(f, newId, f.categories[c].target);
    }
  }

  lemma ProductsComeBack(f: Festival, newId: nat -> Id)
    requires Injective(newId)
    ensures Flat(ExportSegments(Import(Export(f), newId))) == Sorting.Image(WithDefault, Flat(ExportSegments(f)))
  {
    var g := Import(Export(f), newId);
    NoFallback(f);
    var parts := ExportSegments(f);
    ImageOfFlat(WithDefault, parts);
    forall c | 0 <= c < |parts| ensures ExportSegments(g)[c] == Images(WithDefault, parts)[c] { SegmentComesBack(f, newId, c); }
    assert ExportSegments(g) == Images(WithDefault, parts);
  }

  /** Exporting the imported event gives the document back, but for the availability of its products. */
  lemma RoundTripButAvailability(f: Festival, newId: nat -> Id)
    requires Injective(newId)
    ensures Export(Import(Export(f), newId)) == Export(f).(products := Sorting.Image(WithDefault, Export(f).products))
  {
    PlacesComeBack(Export(f).areas);
    CategoriesComeBack(f, newId);
    ProductsComeBack(f, newId);
    assert Export(Import(Export(f), newId)).stations == Export(f).stations;
  }

  predicate AllAvailable(f: Festival) {
    forall i :: 0 <= i < |Export(f).products| ==> Export(f).products[i].availability == AVAILABLE
  }

  lemma DefaultsFit(products: seq<ProductDoc>)
    ensures Sorting.Image(WithDefault, products) == products <==> forall i :: 0 <= i < |products| ==> products[i].availability == AVAILABLE
  {
    var images := Sorting.Image(WithDefault, products);
    if forall i :: 0 <= i < |products| ==> products[i].availability == AVAILABLE {
      assert images == products;
    } else {
      var i :| 0 <= i < |products| && products[i].availability != AVAILABLE;
      assert images[i] == WithDefault(products[i]);
    }
  }

  /** The whole trip: the export is accepted, and importing and exporting again gives the same
      document exactly if every product was available. */
  lemma ConfigRoundTrip(f: Festival, newId: nat -> Id)
    requires Exportable(f) && Injective(newId)
    ensures ValidateImport(Export(f)).Some?
    ensures Export(Import(ValidateImport(Export(f)).value, newId)) == Export(f) <==> AllAvailable(f)
  {
    ExportIsAccepted(f);
    RoundTripButAvailability(f, newId);
    DefaultsFit(Export(f).products);
  }

  // ---- What becomes of the event itself ----

  function IdOfStation(s: Station): Id { s.id }

  function IdOfCategory(c: Category): Id { c.id }

  /** Primary keys: no two stations and no two categories share an id. */
  ghost predicate OwnIds(f: Festival) {
    && (forall i, j :: 0 <= i < j < |f.stations| ==> f.stations[i].id != f.stations[j].id)
    && (forall i, j :: 0 <= i < j < |f.categories| ==> f.categories[i].id != f.categories[j].id)
  }

  /** New ids for old ones. */
  datatype Renaming = Renaming(stations: map<Id, Id>, categories: map<Id, Id>)

  ghost predicate OneToOne(m: map<Id, Id>) { forall a, b :: a in m && b in m && m[a] == m[b] ==> a == b }

  predicate TargetIn(m: map<Id, Id>, target: Option<Id>) { target.Some? ==> target.value in m }

  /** The renaming knows every id that the event mentions. */
  ghost predicate Renames(r: Renaming, f: Festival) {
    && OneToOne(r.stations) && OneToOne(r.categories)
    && (forall i :: 0 <= i < |f.stations| ==> f.stations[i].id in r.stations)
    && (forall i :: 0 <= i < |f.categories| ==> f.categories[i].id in r.categories && TargetIn(r.stations, f.categories[i].target))
    && (forall i :: 0 <= i < |f.products| ==> f.products[i].category in r.categories && TargetIn(r.stations, f.products[i].target))
  }

  function NewId(m: map<Id, Id>, id: Id): Id { if id in m then m[id] else 0 }

  function NewTarget(m: map<Id, Id>, target: Option<Id>): Option<Id> {
    if target.Some? then Some(NewId(m, target.value)) else None
  }

  function NewProduct(r: Renaming): Product -> Product {
    (p: Product) => p.(category := NewId(r.categories, p.category), target := NewTarget(r.stations, p.target))
  }

  /** Everything is the same under new ids; the products of an event have no order among themselves. */
  ghost predicate Corresponds(f: Festival, g: Festival, r: Renaming) {
    && Renames(r, f) && g.header == f.header && g.progress == f.progress && g.areas == f.areas
    && |g.stations| == |f.stations| && |g.categories| == |f.categories|
    && (forall i :: 0 <= i < |f.stations| ==> g.stations[i] == f.stations[i].(id := NewId(r.stations, f.stations[i].id)))
    && (forall i :: 0 <= i < |f.categories| ==>
          g.categories[i] == f.categories[i].(id := NewId(r.categories, f.categories[i].id), target := NewTarget(r.stations, f.categories[i].target)))
    && multiset(g.products) == multiset(Sorting.Image(NewProduct(r), f.products))
  }

  ghost predicate SameButIds(f: Festival, g: Festival) { exists r :: Corresponds(f, g, r) }

  /** Exported and imported again, the event is the same but for its ids. */
  ghost predicate ComesBack(f: Festival, newId: nat -> Id) { SameButIds(f, Import(Export(f), newId)) }

  predicate TargetOk(f: Festival, target: Option<Id>) { target.Some? ==> StationIndex(f.stations, target.value).Some? }

  predicate CategoryCarried(f: Festival, c: Category) { c.deposit == 0 && c.isActive && TargetOk(f, c.target) }

  predicate ProductCarried(f: Festival, p: Product) {
    && p.availability == AVAILABLE && p.deposit == 0 && TargetOk(f, p.target)
    && exists c :: 0 <= c < |f.categories| && f.categories[c].id == p.category
  }

  /** A draft without confirmations, no floor plans and no printers, no deposits, nothing switched off or
      sold out, and only the event's own categories and stations. */
  ghost predicate Carried(f: Festival) {
    && f.progress == NotStarted
    && (forall i :: 0 <= i < |f.areas| ==> f.areas[i].floorPlan.None?)
    && (forall i :: 0 <= i < |f.stations| ==> f.stations[i].printer.None?)
    && (forall i :: 0 <= i < |f.categories| ==> CategoryCarried(f, f.categories[i]))
    && (forall i :: 0 <= i < |f.products| ==> ProductCarried(f, f.products[i]))
  }

  // ---- Grouping the products by category loses none ----

  function Parts(products: seq<Product>, categories: seq<Category>): seq<seq<Product>> {
    seq(|categories|, c requires 0 <= c < |categories| => Rows.Of(CategoryOf, products, categories[c].id))
  }

  function Segments(f: Festival): seq<seq<Product>> { Parts(f.products, f.categories) }

  function Grouped(products: seq<Product>, categories: seq<Category>): seq<Product> {
    if categories == [] then [] else Rows.Of(CategoryOf, products, categories[0].id) + Grouped(products, categories[1..])
  }

  lemma {:induction false} GroupedIsFlat(products: seq<Product>, categories: seq<Category>)
    ensures Grouped(products, categories) == Flat(Parts(products, categories))
    decreases |categories|
  {
    if categories != [] {
      GroupedIsFlat(products, categories[1..]);
      assert Parts(products, categories)[1..] == Parts(products, categories[1..]);
    }
  }

  ghost predicate Known(categories: seq<Category>, id: Id) { exists c :: 0 <= c < |categories| && categories[c].id == id }

  lemma KnownUnfolds(categories: seq<Category>, id: Id)
    requires categories != []
    ensures Known(categories, id) <==> categories[0].id == id || Known(categories[1..], id)
  {
    if c :| 0 < c < |categories| && categories[c].id == id { assert categories[1..][c - 1].id == id; }
    if c :| 0 <= c < |categories[1..]| && categories[1..][c].id == id { assert categories[c + 1].id == id; }
  }

  lemma {:induction false} GroupedCounts(products: seq<Product>, categories: seq<Category>, x: Product)
    requires forall i, j :: 0 <= i < j < |categories| ==> categories[i].id != categories[j].id
    ensures multiset(Grouped(products, categories))[x] == if Known(categories, x.category) then multiset(products)[x] else 0
    decreases |categories|
  {
    if categories != [] {
      var first := Rows.Of(CategoryOf, products, categories[0].id);
      Rows.Counts(CategoryOf, products, categories[0].id);
      assert multiset(first)[x] == if x.category == categories[0].id then multiset(products)[x] else 0;
      GroupedCounts(products, categories[1..], x);
      KnownUnfolds(categories, x.category);
      if x.category == categories[0].id { assert !Known(categories[1..], x.category); }
    }
  }

  lemma SegmentsAreProducts(f: Festival)
    requires OwnIds(f) && forall i :: 0 <= i < |f.products| ==> Known(f.categories, f.products[i].category)
    ensures multiset(Flat(Segments(f))) == multiset(f.products)
  {
    GroupedIsFlat(f.products, f.categories);
    var x, y := multiset(Flat(Segments(f))), multiset(f.products);
    forall p: Product ensures x[p] == y[p] {
      GroupedCounts(f.products, f.categories, p);
      if p in f.products { assert Known(f.categories, p.category); } else { assert y[p] == 0; }
    }
    Rows.EqualCounts(x, y);
  }

  // ---- The renaming that an import performs ----

  function FreshIds(f: Festival, newId: nat -> Id): Renaming
    requires OwnIds(f)
  {
    Renaming(map i | 0 <= i < |f.stations| :: f.stations[i].id := newId(i),
             map i | 0 <= i < |f.categories| :: f.categories[i].id := newId(i))
  }

  lemma FreshIdsRename(f: Festival, newId: nat -> Id)
    requires OwnIds(f) && Carried(f) && Injective(newId)
    ensures Renames(FreshIds(f, newId), f)
  {
    var r := FreshIds(f, newId);
    forall i | 0 <= i < |f.products| ensures f.products[i].category in r.categories && TargetIn(r.stations, f.products[i].target) {
      assert ProductCarried(f, f.products[i]);
    }
    forall i | 0 <= i < |f.categories| ensures TargetIn(r.stations, f.categories[i].target) {
      assert CategoryCarried(f, f.categories[i]);
    }
  }

  /** What a station reference of the document leads to. */
  lemma ImportedTarget(f: Festival, newId: nat -> Id, target: Option<Id>) returns (n: nat)
    ensures var id := StationIdFor(Export(f), newId, StationRefOf(f.stations, target));
            && (id.Some? <==> target.Some? && TargetOk(f, target))
            && (id.Some? ==> n < |f.stations| && id.value == newId(n) && f.stations[n].id == target.value)
  {
    n := 0;
    var r := StationRefOf(f.stations, target);
    if r.Some? {
      var refs := Sorting.Image(RefOfStation, Export(f).stations);
      n := StationIndex(f.stations, target.value).value;
      assert refs[n] == RefOfStation(Export(f).stations[n]) == StationRef(n);
      var i := IndexOfRef(refs, r.value).value;
      assert refs[i] == RefOfStation(Export(f).stations[i]) == StationRef(i);
    }
  }

  lemma TargetIsRenamed(f: Festival, newId: nat -> Id, target: Option<Id>)
    requires OwnIds(f) && TargetOk(f, target)
    ensures StationIdFor(Export(f), newId, StationRefOf(f.stations, target)) == NewTarget(FreshIds(f, newId).stations, target)
  {
    var n := ImportedTarget(f, newId, target);
  }

  lemma SegmentRowIsCarried(f: Festival, c: nat, p: nat)
    requires Carried(f) && c < |f.categories| && p < |Segment(f, c)|
    ensures ProductCarried(f, Segment(f, c)[p]) && Segment(f, c)[p].category == f.categories[c].id
  {
    Rows.Members(CategoryOf, f.products, f.categories[c].id);
    assert Segment(f, c)[p] in f.products;
  }

  lemma CategoryIsRenamed(f: Festival, newId: nat -> Id, c: nat)
    requires OwnIds(f) && c < |f.categories|
    ensures NewId(FreshIds(f, newId).categories, f.categories[c].id) == newId(c)
  {
  }

  lemma ProductIsRenamed(f: Festival, newId: nat -> Id, c: nat, p: nat)
    requires OwnIds(f) && Carried(f) && c < |f.categories| && p < |Segment(f, c)|
    ensures ImportProduct(Export(f), newId, ExportProduct(f, c, p, Segment(f, c)[p])) == NewProduct(FreshIds(f, newId))(Segment(f, c)[p])
  {
    SegmentRowIsCarried(f, c, p);
    RenamedRow(f, newId, c, p, Segment(f, c)[p]);
  }

  lemma RenamedRow(f: Festival, newId: nat -> Id, c: nat, p: nat, row: Product)
    requires OwnIds(f) && c < |f.categories| && row.category == f.categories[c].id
    requires row.availability == AVAILABLE && row.deposit == 0 && TargetOk(f, row.target)
    ensures ImportProduct(Export(f), newId, ExportProduct(f, c, p, row)) == NewProduct(FreshIds(f, newId))(row)
  {
    TargetIsRenamed(f, newId, row.target);
    CategoryIsRenamed(f, newId, c);
    OwnCategoryIds(f, newId, c);
  }

  lemma ProductsAreRenamed(f: Festival, newId: nat -> Id)
    requires OwnIds(f) && Carried(f)
    ensures ImportedProducts(Export(f), newId) == Sorting.Image(NewProduct(FreshIds(f, newId)), Flat(Segments(f)))
  {
    var importer, rename := Importer(Export(f), newId), NewProduct(FreshIds(f, newId));
    ImageOfFlat(importer, ExportSegments(f));
    ImageOfFlat(rename, Segments(f));
    var imported, renamed := Images(importer, ExportSegments(f)), Images(rename, Segments(f));
    forall c | 0 <= c < |f.categories| ensures imported[c] == renamed[c] {
      forall p | 0 <= p < |Segment(f, c)| ensures imported[c][p] == renamed[c][p] { ProductIsRenamed(f, newId, c, p); }
    }
    assert imported == renamed;
  }

  lemma ImagesAreRearranged(f: Product -> Product, a: seq<Product>, b: seq<Product>)
    requires multiset(a) == multiset(b)
    ensures multiset(Sorting.Image(f, a)) == multiset(Sorting.Image(f, b))
  {
    var id := (p: Product) => p;
    assert Sorting.Image(id, a) == a && Sorting.Image(id, b) == b;
    Sorting.ImagesMoveTogether(id, f, a, b);
  }

  lemma CarriedComesBack(f: Festival, newId: nat -> Id)
    requires OwnIds(f) && Injective(newId) && Carried(f)
    ensures Corresponds(f, Import(Export(f), newId), FreshIds(f, newId))
  {
    var g, r := Import(Export(f), newId), FreshIds(f, newId);
    FreshIdsRename(f, newId);
    AreasComeBack(f.areas);
    NoFallback(f);
    forall i | 0 <= i < |f.categories|
      ensures g.categories[i] == f.categories[i].(id := NewId(r.categories, f.categories[i].id), target := NewTarget(r.stations, f.categories[i].target))
    {
      assert CategoryCarried(f, f.categories[i]);
      TargetIsRenamed(f, newId, f.categories[i].target);
    }
    forall i | 0 <= i < |f.products| ensures Known(f.categories, f.products[i].category) { assert ProductCarried(f, f.products[i]); }
    SegmentsAreProducts(f);
    ProductsAreRenamed(f, newId);
    ImagesAreRearranged(NewProduct(r), Flat(Segments(f)), f.products);
  }

  lemma ProductCameBack(f: Festival, newId: nat -> Id, r: Renaming, i: nat)
    requires Corresponds(f, Import(Export(f), newId), r) && i < |f.products|
    ensures ProductCarried(f, f.products[i])
  {
    var doc, g, p := Export(f), Import(Export(f), newId), f.products[i];
    NoFallback(f);
    var q := NewProduct(r)(p);
    assert Sorting.Image(NewProduct(r), f.products)[i] == q;
    assert q in multiset(g.products);
    var j :| 0 <= j < |g.products| && g.products[j] == q;
    assert q == ImportProduct(doc, newId, doc.products[j]);
    var c, k := ExportedProduct(f, j);
    OwnCategoryIds(f, newId, c);
    assert g.categories[c].id == newId(c);
    assert r.categories[p.category] == r.categories[f.categories[c].id];
    var n := ImportedTarget(f, newId, Segment(f, c)[k].target);
    if p.target.Some? {
      assert g.stations[n].id == newId(n);
      assert r.stations[p.target.value] == r.stations[f.stations[n].id];
    }
  }

  lemma CategoryCameBack(f: Festival, newId: nat -> Id, r: Renaming, i: nat)
    requires Corresponds(f, Import(Export(f), newId), r) && i < |f.categories|
    ensures CategoryCarried(f, f.categories[i])
  {
    NoFallback(f);
    var g := Import(Export(f), newId);
    assert g.categories[i] == ImportedCategories(Export(f), newId)[i];
    var n := ImportedTarget(f, newId, f.categories[i].target);
  }

  lemma PlacesAndStationsCameBack(f: Festival, newId: nat -> Id, r: Renaming)
    requires Corresponds(f, Import(Export(f), newId), r)
    ensures f.progress == NotStarted
    ensures forall i :: 0 <= i < |f.areas| ==> f.areas[i].floorPlan.None?
    ensures forall i :: 0 <= i < |f.stations| ==> f.stations[i].printer.None?
  {
    var g := Import(Export(f), newId);
    forall i | 0 <= i < |f.areas| ensures f.areas[i].floorPlan.None? {
      assert g.areas[i] == NewArea(Export(f).areas[i]);
    }
    forall i | 0 <= i < |f.stations| ensures f.stations[i].printer.None? {
      assert g.stations[i].printer.None?;
    }
  }

  lemma AreasComeBack(areas: seq<Area>)
    requires forall i :: 0 <= i < |areas| ==> areas[i].floorPlan.None?
    ensures Sorting.Image(NewArea, Sorting.Image(PlaceOf, areas)) == areas
  {
    var back := Sorting.Image(NewArea, Sorting.Image(PlaceOf, areas));
    forall i | 0 <= i < |areas| ensures back[i] == areas[i] {
      assert Sorting.Image(PlaceOf, areas)[i] == PlaceOf(areas[i]);
    }
  }

  /** The event itself survives export and import, up to new ids, exactly when it is a draft without
      confirmations, no area has a floor plan and no station a printer, every product is available, there
      are no deposits, no category is switched off, and products and categories refer to the event's own
      categories and stations. */
  lemma EventRoundTrip(f: Festival, newId: nat -> Id)
    requires OwnIds(f) && Injective(newId)
    ensures ComesBack(f, newId) <==> Carried(f)
  {
    if Carried(f) { CarriedComesBack(f, newId); }
    if ComesBack(f, newId) {
      var r :| Corresponds(f, Import(Export(f), newId), r);
      PlacesAndStationsCameBack(f, newId, r);
      forall i | 0 <= i < |f.categories| ensures CategoryCarried(f, f.categories[i]) { CategoryCameBack(f, newId, r, i); }
      forall i | 0 <= i < |f.products| ensures ProductCarried(f, f.products[i]) { ProductCameBack(f, newId, r, i); }
    }
  }

  const Ball := Festival(Header("Ball", None, None, None, None, "Europe/Vienna"), NotStarted, [], [], [], [])
  const WithPrinter := Ball.(stations := [Station(0, Look("Bar", None, None, 0, true), Some(7))])
  const WithFloorPlan := Ball.(areas := [Area(Place("Hall", 0), Some("{}"))])

  /** An event created in the ordinary way names version 1.0 of the disclaimer from the start. */
  const AsCreated := Ball.(progress := NotStarted.(rksvDisclaimerVersion := Some("1.0")))

  lemma BallIsCarried()
    ensures OwnIds(Ball) && OwnIds(WithPrinter) && OwnIds(WithFloorPlan) && OwnIds(AsCreated)
    ensures Carried(Ball) && !Carried(WithPrinter) && !Carried(WithFloorPlan) && !Carried(AsCreated)
  {
    assert WithPrinter.stations[0].printer.Some? && WithFloorPlan.areas[0].floorPlan.Some?;
  }

  /** Inputs that do not come back. */
  lemma LostOnTheWay(newId: nat -> Id)
    requires Injective(newId)
    ensures ComesBack(Ball, newId) && !ComesBack(WithPrinter, newId) && !ComesBack(WithFloorPlan, newId) && !ComesBack(AsCreated, newId)
  {
    BallIsCarried();
    EventRoundTrip(Ball, newId);
    EventRoundTrip(WithPrinter, newId);
    EventRoundTrip(WithFloorPlan, newId);
    EventRoundTrip(AsCreated, newId);
  }
}
