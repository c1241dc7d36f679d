/** Which configuration documents pass, in plain terms, and which of those the database still refuses. */
module ConfigLaws {
  import opened Common
  import opened ConfigTransfer
  import Sorting

  // ---- The limits ----

  /** Something but white space, in at most 500 characters. */
  ghost predicate Text(s: string) { |s| <= 500 && exists i :: 0 <= i < |s| && !IsSpace(s[i]) }

  ghost predicate Perhaps(s: Option<string>) { s.None? || Text(s.value) }

  ghost predicate Number(n: int) { -2147483648 <= n && n <= 2147483647 }

  lemma {:induction false} LeftTrimmed(s: string)
    ensures TrimLeft(s) != "" <==> exists i :: 0 <= i < |s| && !IsSpace(s[i])
    ensures TrimLeft(s) != "" ==> !IsSpace(TrimLeft(s)[0])
    decreases |s|
  {
    if s != [] && IsSpace(s[0]) {
      LeftTrimmed(s[1..]);
      if i :| 0 <= i < |s| && !IsSpace(s[i]) { assert s[1..][i - 1] == s[i]; }
      if i :| 0 <= i < |s[1..]| && !IsSpace(s[1..][i]) { assert !IsSpace(s[i + 1]); }
    }
  }

  lemma {:induction false} RightTrimmed(s: string)
    requires s != "" && !IsSpace(s[0])
    ensures TrimRight(s) != ""
    decreases |s|
  {
    if IsSpace(s[|s| - 1]) { RightTrimmed(s[..|s| - 1]); }
  }

  lemma TextIsOk(s: string)
    ensures TextOk(s) <==> Text(s)
    ensures Trim(s) != "" <==> exists i :: 0 <= i < |s| && !IsSpace(s[i])
  {
    LeftTrimmed(s);
    if TrimLeft(s) != "" { RightTrimmed(TrimLeft(s)); }
  }

  lemma PerhapsIsOk(s: Option<string>)
    ensures OptTextOk(s) <==> Perhaps(s)
  {
    if s.Some? { TextIsOk(s.value); }
  }

  ghost predicate OptionPasses(o: Choice) { Text(o.name) && -1_000_000 <= o.priceEffect <= 1_000_000 && Number(o.sortOrder) }

  /** Required means at least one answer; a single choice takes one at most; a price or tiles need exactly one. */
  ghost predicate GroupPasses(g: Group) {
    && Text(g.name) && 0 <= g.sortOrder && Number(g.sortOrder) && 0 <= g.minSelect && Number(g.minSelect) && |g.options| <= 1000
    && (match g.maxSelect case None => !g.single case Some(max) => 1 <= max && Number(max) && g.minSelect <= max && (g.single ==> max == 1))
    && (if g.minSelect == 0 then !g.isRequired else g.isRequired)
    && (g.absolute || g.quickSaleTiles ==> g.single && g.minSelect == 1)
    && forall i :: 0 <= i < |g.options| ==> OptionPasses(g.options[i]) && (g.absolute ==> g.options[i].priceEffect >= 0)
  }

  ghost predicate ArticlePasses(a: Article) {
    && Text(a.name) && Perhaps(a.shortName) && Perhaps(a.description) && Perhaps(a.color) && Perhaps(a.imageUrl)
    && 0 <= a.price && Number(a.price) && 0 <= a.taxRate && a.taxRate <= 10000 && Number(a.sortOrder) && |a.groups| <= 1000
    && (forall i :: 0 <= i < |a.groups| ==> GroupPasses(a.groups[i]))
    && (forall i, j :: 0 <= i < |a.groups| && 0 <= j < |a.groups| && a.groups[i].absolute && a.groups[j].absolute ==> i == j)
    && (forall i, j :: 0 <= i < |a.groups| && 0 <= j < |a.groups| && a.groups[i].quickSaleTiles && a.groups[j].quickSaleTiles ==> i == j)
  }

  lemma GroupPassesExactly(g: Group)
    ensures GroupOk(g) <==> GroupPasses(g)
  {
    TextIsOk(g.name);
    forall i | 0 <= i < |g.options| ensures ChoiceOk(g.options[i]) <==> OptionPasses(g.options[i]) { TextIsOk(g.options[i].name); }
  }

  lemma ArticlePassesExactly(a: Article)
    ensures ArticleOk(a) <==> ArticlePasses(a)
  {
    TextIsOk(a.name);
    PerhapsIsOk(a.shortName);
    PerhapsIsOk(a.description);
    PerhapsIsOk(a.color);
    PerhapsIsOk(a.imageUrl);
    forall i | 0 <= i < |a.groups| ensures GroupOk(a.groups[i]) <==> GroupPasses(a.groups[i]) { GroupPassesExactly(a.groups[i]); }
  }

  /** A row's own reference, trimmed; the generated ones are their own. */
  ghost predicate Bears(own: Ref, r: Ref) { if own.OtherRef? then r == OtherRef(Trim(own.text)) else r == own }

  ghost predicate RefPasses(r: Ref) { r.OtherRef? ==> Text(r.text) }

  ghost predicate Leads(doc: Document, station: Option<Ref>) {
    station.Some? ==> exists i :: 0 <= i < |doc.stations| && Bears(doc.stations[i].ref, station.value)
  }

  ghost predicate LeadsToCategory(doc: Document, category: Option<Ref>) {
    category.Some? ==> exists i :: 0 <= i < |doc.categories| && Bears(doc.categories[i].ref, category.value)
  }

  ghost predicate HeaderPasses(h: Header) {
    && Text(h.name) && Perhaps(h.organizer) && Perhaps(h.location) && Text(h.timezone)
    && !(h.start.Some? && h.end.Some? && h.end.value < h.start.value)
  }

  ghost predicate StationPasses(s: StationDoc) {
    Text(s.look.name) && Perhaps(s.look.shortName) && Perhaps(s.look.color) && Number(s.look.sortOrder) && RefPasses(s.ref)
  }

  ghost predicate CategoryPasses(doc: Document, c: CategoryDoc) {
    Text(c.name) && Number(c.sortOrder) && RefPasses(c.ref) && Leads(doc, c.stationRef)
  }

  ghost predicate ProductPasses(doc: Document, p: ProductDoc) {
    ArticlePasses(p.article) && RefPasses(p.ref) && LeadsToCategory(doc, p.categoryRef) && Leads(doc, p.stationRef)
  }

  /** Lists of at most a thousand rows within their limits, every reference borne by one row at most and led to by others only. */
  ghost predicate Passes(doc: Document) {
    && HeaderPasses(doc.header)
    && |doc.areas| <= 1000 && |doc.stations| <= 1000 && |doc.categories| <= 1000 && |doc.products| <= 1000
    && (forall i :: 0 <= i < |doc.areas| ==> Text(doc.areas[i].name) && Number(doc.areas[i].sortOrder))
    && (forall i :: 0 <= i < |doc.stations| ==> StationPasses(doc.stations[i]))
    && (forall i :: 0 <= i < |doc.categories| ==> CategoryPasses(doc, doc.categories[i]))
    && (forall i :: 0 <= i < |doc.products| ==> ProductPasses(doc, doc.products[i]))
    && (forall i, j, r :: 0 <= i < j < |doc.stations| && Bears(doc.stations[i].ref, r) ==> !Bears(doc.stations[j].ref, r))
    && (forall i, j, r :: 0 <= i < j < |doc.categories| && Bears(doc.categories[i].ref, r) ==> !Bears(doc.categories[j].ref, r))
    && (forall i, j, r :: 0 <= i < j < |doc.products| && Bears(doc.products[i].ref, r) ==> !Bears(doc.products[j].ref, r))
  }

  lemma BornRef(own: Ref, r: Ref)
    ensures CleanRef(own) == r <==> Bears(own, r)
    ensures RefOk(own) <==> RefPasses(own)
  {
    if own.OtherRef? { TextIsOk(own.text); }
  }

  lemma StationsPass(doc: Document)
    ensures StationsOk(doc)
            <==> |doc.stations| <= 1000 && (forall i :: 0 <= i < |doc.stations| ==> StationPasses(doc.stations[i]))
                 && forall i, j, r :: 0 <= i < j < |doc.stations| && Bears(doc.stations[i].ref, r) ==> !Bears(doc.stations[j].ref, r)
  {
    forall i | 0 <= i < |doc.stations| ensures LookOk(doc.stations[i].look) && RefOk(doc.stations[i].ref) <==> StationPasses(doc.stations[i]) {
      var s := doc.stations[i];
      TextIsOk(s.look.name);
      PerhapsIsOk(s.look.shortName);
      PerhapsIsOk(s.look.color);
      BornRef(s.ref, s.ref);
    }
    forall i, j | 0 <= i < j < |doc.stations|
      ensures CleanRef(doc.stations[i].ref) != CleanRef(doc.stations[j].ref)
              <==> forall r :: Bears(doc.stations[i].ref, r) ==> !Bears(doc.stations[j].ref, r)
    {
      ApartRefs(doc.stations[i].ref, doc.stations[j].ref);
    }
  }

  lemma ApartRefs(a: Ref, b: Ref)
    ensures CleanRef(a) != CleanRef(b) <==> forall r :: Bears(a, r) ==> !Bears(b, r)
  {
    BornRef(a, CleanRef(a));
    BornRef(b, CleanRef(a));
    forall r ensures Bears(a, r) ==> r == CleanRef(a) { BornRef(a, r); }
  }

  lemma LeadsExactly(doc: Document, r: Ref)
    ensures KnownStation(doc, r) <==> Leads(doc, Some(r))
    ensures KnownCategory(doc, r) <==> LeadsToCategory(doc, Some(r))
  {
    forall i | 0 <= i < |doc.stations| ensures CleanRef(doc.stations[i].ref) == r <==> Bears(doc.stations[i].ref, r) { BornRef(doc.stations[i].ref, r); }
    forall i | 0 <= i < |doc.categories| ensures CleanRef(doc.categories[i].ref) == r <==> Bears(doc.categories[i].ref, r) { BornRef(doc.categories[i].ref, r); }
  }

  lemma CategoriesPass(doc: Document)
    ensures CategoriesOk(doc)
            <==> |doc.categories| <= 1000 && (forall i :: 0 <= i < |doc.categories| ==> CategoryPasses(doc, doc.categories[i]))
                 && forall i, j, r :: 0 <= i < j < |doc.categories| && Bears(doc.categories[i].ref, r) ==> !Bears(doc.categories[j].ref, r)
  {
    forall i | 0 <= i < |doc.categories|
      ensures TextOk(doc.categories[i].name) && Int32(doc.categories[i].sortOrder) && RefOk(doc.categories[i].ref)
              && (doc.categories[i].stationRef.Some? ==> KnownStation(doc, doc.categories[i].stationRef.value))
              <==> CategoryPasses(doc, doc.categories[i])
    {
      var c := doc.categories[i];
      TextIsOk(c.name);
      BornRef(c.ref, c.ref);
      if c.stationRef.Some? { LeadsExactly(doc, c.stationRef.value); }
    }
    forall i, j | 0 <= i < j < |doc.categories|
      ensures CleanRef(doc.categories[i].ref) != CleanRef(doc.categories[j].ref)
              <==> forall r :: Bears(doc.categories[i].ref, r) ==> !Bears(doc.categories[j].ref, r)
    {
      ApartRefs(doc.categories[i].ref, doc.categories[j].ref);
    }
  }

  lemma ProductsPass(doc: Document)
    ensures ProductsOk(doc)
            <==> |doc.products| <= 1000 && (forall i :: 0 <= i < |doc.products| ==> ProductPasses(doc, doc.products[i]))
                 && forall i, j, r :: 0 <= i < j < |doc.products| && Bears(doc.products[i].ref, r) ==> !Bears(doc.products[j].ref, r)
  {
    forall i | 0 <= i < |doc.products| ensures ProductDocOk(doc, doc.products[i]) <==> ProductPasses(doc, doc.products[i]) {
      var p := doc.products[i];
      ArticlePassesExactly(p.article);
      BornRef(p.ref, p.ref);
      if p.categoryRef.Some? { LeadsExactly(doc, p.categoryRef.value); }
      if p.stationRef.Some? { LeadsExactly(doc, p.stationRef.value); }
    }
    forall i, j | 0 <= i < j < |doc.products|
      ensures CleanRef(doc.products[i].ref) != CleanRef(doc.products[j].ref)
              <==> forall r :: Bears(doc.products[i].ref, r) ==> !Bears(doc.products[j].ref, r)
    {
      ApartRefs(doc.products[i].ref, doc.products[j].ref);
    }
  }

  lemma HeaderAndAreasPass(doc: Document)
    ensures HeaderOk(doc.header) <==> HeaderPasses(doc.header)
    ensures AreasOk(doc.areas) <==> |doc.areas| <= 1000 && forall i :: 0 <= i < |doc.areas| ==> Text(doc.areas[i].name) && Number(doc.areas[i].sortOrder)
  {
    TextIsOk(doc.header.name);
    TextIsOk(doc.header.timezone);
    PerhapsIsOk(doc.header.organizer);
    PerhapsIsOk(doc.header.location);
    forall i | 0 <= i < |doc.areas| ensures TextOk(doc.areas[i].name) <==> Text(doc.areas[i].name) { TextIsOk(doc.areas[i].name); }
  }

  /** The check takes exactly the documents within these limits. */
  lemma DocumentPassesExactly(doc: Document)
    ensures ValidateImport(doc).Some? <==> Passes(doc)
  {
    HeaderAndAreasPass(doc);
    StationsPass(doc);
    CategoriesPass(doc);
    ProductsPass(doc);
  }

  // ---- What the check returns ----

  ghost predicate Blank(s: string) { forall k :: 0 <= k < |s| ==> IsSpace(s[k]) }

  /** A text without the white space around it. */
  ghost predicate Cut(s: string, t: string) {
    && (exists a, b :: Blank(a) && Blank(b) && s == a + t + b)
    && (t != "" ==> !IsSpace(t[0]) && !IsSpace(t[|t| - 1]))
  }

  ghost predicate CutPerhaps(s: Option<string>, t: Option<string>) { if s.None? then t.None? else t.Some? && Cut(s.value, t.value) }

  lemma BlankMore(c: char, a: string)
    requires IsSpace(c) && Blank(a)
    ensures Blank([c] + a)
  {
  }

  lemma {:induction false} LeftCut(s: string) returns (a: string)
    ensures Blank(a) && s == a + TrimLeft(s)
    decreases |s|
  {
    a := [];
    if s != [] && IsSpace(s[0]) {
      var rest := LeftCut(s[1..]);
      a := [s[0]] + rest;
      BlankMore(s[0], rest);
      assert s == [s[0]] + (rest + TrimLeft(s[1..])) == a + TrimLeft(s);
    }
  }

  lemma {:induction false} RightCut(s: string) returns (b: string)
    ensures Blank(b) && s == TrimRight(s) + b && (TrimRight(s) != "" ==> !IsSpace(TrimRight(s)[|TrimRight(s)| - 1]))
    decreases |s|
  {
    if s != [] && IsSpace(s[|s| - 1]) {
      var rest := RightCut(s[..|s| - 1]);
      b := rest + [s[|s| - 1]];
      assert s == s[..|s| - 1] + [s[|s| - 1]];
    } else {
      b := [];
    }
  }

  lemma TrimCuts(s: string)
    ensures Cut(s, Trim(s))
  {
    var a := LeftCut(s);
    var b := RightCut(TrimLeft(s));
    assert s == a + Trim(s) + b;
    LeftTrimmed(s);
    RightKeepsFirst(TrimLeft(s));
  }

  lemma TrimCutsPerhaps(s: Option<string>)
    ensures CutPerhaps(s, TrimOpt(s))
  {
    if s.Some? { TrimCuts(s.value); }
  }

  ghost predicate CutGroup(g: Group, h: Group) {
    && h == g.(name := h.name, options := h.options) && Cut(g.name, h.name) && |h.options| == |g.options|
    && forall i :: 0 <= i < |g.options| ==> h.options[i] == g.options[i].(name := h.options[i].name) && Cut(g.options[i].name, h.options[i].name)
  }

  ghost predicate CutArticle(a: Article, b: Article) {
    && b == a.(name := b.name, shortName := b.shortName, description := b.description, color := b.color, imageUrl := b.imageUrl, groups := b.groups)
    && Cut(a.name, b.name) && CutPerhaps(a.shortName, b.shortName) && CutPerhaps(a.description, b.description)
    && CutPerhaps(a.color, b.color) && CutPerhaps(a.imageUrl, b.imageUrl)
    && |b.groups| == |a.groups| && forall i :: 0 <= i < |a.groups| ==> CutGroup(a.groups[i], b.groups[i])
  }

  ghost predicate CutHeader(h: Header, k: Header) {
    && k == h.(name := k.name, organizer := k.organizer, location := k.location, timezone := k.timezone)
    && Cut(h.name, k.name) && CutPerhaps(h.organizer, k.organizer) && CutPerhaps(h.location, k.location) && Cut(h.timezone, k.timezone)
  }

  ghost predicate CutLook(l: Look, m: Look) {
    && m == l.(name := m.name, shortName := m.shortName, color := m.color)
    && Cut(l.name, m.name) && CutPerhaps(l.shortName, m.shortName) && CutPerhaps(l.color, m.color)
  }

  lemma CleanGroupCuts(g: Group)
    ensures CutGroup(g, CleanGroup(g))
  {
    TrimCuts(g.name);
    var h := CleanGroup(g);
    forall i | 0 <= i < |g.options| ensures h.options[i] == g.options[i].(name := h.options[i].name) && Cut(g.options[i].name, h.options[i].name) {
      assert h.options[i] == CleanChoice(g.options[i]);
      TrimCuts(g.options[i].name);
    }
  }

  lemma CleanArticleCuts(a: Article)
    ensures CutArticle(a, CleanArticle(a))
  {
    TrimCuts(a.name);
    TrimCutsPerhaps(a.shortName);
    TrimCutsPerhaps(a.description);
    TrimCutsPerhaps(a.color);
    TrimCutsPerhaps(a.imageUrl);
    var b := CleanArticle(a);
    forall i | 0 <= i < |a.groups| ensures CutGroup(a.groups[i], b.groups[i]) {
      assert b.groups[i] == CleanGroup(a.groups[i]);
      CleanGroupCuts(a.groups[i]);
    }
  }

  lemma CleanLookCuts(l: Look)
    ensures CutLook(l, CleanLook(l))
  {
    TrimCuts(l.name);
    TrimCutsPerhaps(l.shortName);
    TrimCutsPerhaps(l.color);
  }

  lemma CleanHeaderCuts(h: Header)
    ensures CutHeader(h, CleanHeader(h))
  {
    TrimCuts(h.name);
    TrimCuts(h.timezone);
    TrimCutsPerhaps(h.organizer);
    TrimCutsPerhaps(h.location);
  }

  /** The check returns the document with the white space around its texts cut off; references of rows to others stay as they stand. */
  lemma CheckedIsCut(doc: Document)
    requires ValidateImport(doc).Some?
    ensures var d := ValidateImport(doc).value;
            && CutHeader(doc.header, d.header)
            && |d.areas| == |doc.areas| && |d.stations| == |doc.stations| && |d.categories| == |doc.categories| && |d.products| == |doc.products|
            && (forall i :: 0 <= i < |doc.areas| ==> d.areas[i].sortOrder == doc.areas[i].sortOrder && Cut(doc.areas[i].name, d.areas[i].name))
            && (forall i :: 0 <= i < |doc.stations| ==> Bears(doc.stations[i].ref, d.stations[i].ref) && CutLook(doc.stations[i].look, d.stations[i].look))
            && (forall i :: 0 <= i < |doc.categories| ==> CutCategory(doc.categories[i], d.categories[i]))
            && (forall i :: 0 <= i < |doc.products| ==> CutProduct(doc.products[i], d.products[i]))
  {
    var d := Clean(doc);
    CleanHeaderCuts(doc.header);
    forall i | 0 <= i < |doc.areas| ensures d.areas[i].sortOrder == doc.areas[i].sortOrder && Cut(doc.areas[i].name, d.areas[i].name) {
      assert d.areas[i] == CleanArea(doc.areas[i]);
      TrimCuts(doc.areas[i].name);
    }
    forall i | 0 <= i < |doc.stations| ensures Bears(doc.stations[i].ref, d.stations[i].ref) && CutLook(doc.stations[i].look, d.stations[i].look) {
      assert d.stations[i] == CleanStation(doc.stations[i]);
      BornRef(doc.stations[i].ref, d.stations[i].ref);
      CleanLookCuts(doc.stations[i].look);
    }
    forall i | 0 <= i < |doc.categories| ensures CutCategory(doc.categories[i], d.categories[i]) {
      assert d.categories[i] == CleanCategory(doc.categories[i]);
      BornRef(doc.categories[i].ref, d.categories[i].ref);
      TrimCuts(doc.categories[i].name);
    }
    forall i | 0 <= i < |doc.products| ensures CutProduct(doc.products[i], d.products[i]) {
      assert d.products[i] == CleanProduct(doc.products[i]);
      BornRef(doc.products[i].ref, d.products[i].ref);
      CleanArticleCuts(doc.products[i].article);
    }
  }

  ghost predicate CutCategory(c: CategoryDoc, d: CategoryDoc) {
    Bears(c.ref, d.ref) && Cut(c.name, d.name) && d.sortOrder == c.sortOrder && d.stationRef == c.stationRef
  }

  ghost predicate CutProduct(p: ProductDoc, q: ProductDoc) {
    && Bears(p.ref, q.ref) && CutArticle(p.article, q.article)
    && q.categoryRef == p.categoryRef && q.stationRef == p.stationRef && q.availability == p.availability
  }

  // ---- What the database refuses nevertheless ----

  ghost predicate SortsForward(a: Article) {
    forall g, o :: 0 <= g < |a.groups| && 0 <= o < |a.groups[g].options| ==> a.groups[g].options[o].sortOrder >= 0
  }

  lemma {:induction false} LargestSortOrder(cs: seq<CategoryDoc>)
    ensures MaxSortOrder(cs) >= -1 && forall i :: 0 <= i < |cs| ==> cs[i].sortOrder <= MaxSortOrder(cs)
    ensures MaxSortOrder(cs) > -1 ==> exists i :: 0 <= i < |cs| && cs[i].sortOrder == MaxSortOrder(cs)
    decreases |cs|
  {
    if cs != [] {
      var front := cs[..|cs| - 1];
      LargestSortOrder(front);
      forall i | 0 <= i < |front| ensures cs[i].sortOrder <= MaxSortOrder(cs) { assert front[i] == cs[i]; }
      if MaxSortOrder(cs) > -1 && cs[|cs| - 1].sortOrder <= MaxSortOrder(front) {
        var i :| 0 <= i < |front| && front[i].sortOrder == MaxSortOrder(front);
        assert cs[i].sortOrder == MaxSortOrder(cs);
      }
    }
  }

  lemma TrimTwice(s: string)
    requires TextOk(s)
    ensures Trim(Trim(s)) != ""
  {
    LeftTrimmed(s);
    RightTrimmed(TrimLeft(s));
    RightKeepsFirst(TrimLeft(s));
    assert !IsSpace(Trim(s)[0]);
    TextIsOk(Trim(s));
  }

  lemma {:induction false} RightKeepsFirst(s: string)
    ensures TrimRight(s) != "" ==> s != "" && TrimRight(s)[0] == s[0]
    decreases |s|
  {
    if s != [] && IsSpace(s[|s| - 1]) { RightKeepsFirst(s[..|s| - 1]); }
  }

  lemma CheckedGroupRow(g: Group)
    requires GroupOk(g)
    ensures GroupRowOk(CleanGroup(g)) <==> forall o :: 0 <= o < |g.options| ==> g.options[o].sortOrder >= 0
  {
    TrimTwice(g.name);
    var row := CleanGroup(g);
    forall o | 0 <= o < |g.options| ensures OptionRowOk(row.options[o]) <==> g.options[o].sortOrder >= 0 {
      assert row.options[o] == CleanChoice(g.options[o]) && ChoiceOk(g.options[o]);
      TrimTwice(g.options[o].name);
    }
  }

  lemma CheckedArticleRows(a: Article)
    requires ArticleOk(a)
    ensures ArticleRowsOk(CleanArticle(a)) <==> SortsForward(a)
  {
    var groups := CleanArticle(a).groups;
    forall g | 0 <= g < |a.groups|
      ensures GroupRowOk(groups[g]) <==> forall o :: 0 <= o < |a.groups[g].options| ==> a.groups[g].options[o].sortOrder >= 0
      ensures groups[g].absolute == a.groups[g].absolute && groups[g].quickSaleTiles == a.groups[g].quickSaleTiles
    {
      assert groups[g] == CleanGroup(a.groups[g]);
      CheckedGroupRow(a.groups[g]);
    }
  }

  /** Whether a product of the document has no category. */
  predicate Homeless(doc: Document) { exists i :: 0 <= i < |doc.products| && doc.products[i].categoryRef.None? }

  lemma SameCategories(doc: Document, i: nat)
    requires i < |doc.categories|
    ensures |Clean(doc).categories| == |doc.categories| && Clean(doc).categories[i].sortOrder == doc.categories[i].sortOrder
    ensures Clean(doc).categories[i].name == Trim(doc.categories[i].name)
  {
    assert Clean(doc).categories[i] == CleanCategory(doc.categories[i]);
  }

  lemma SameHomeless(doc: Document)
    ensures NeedsFallback(Clean(doc)) <==> Homeless(doc)
  {
    forall i | 0 <= i < |doc.products| ensures Clean(doc).products[i].categoryRef == doc.products[i].categoryRef {
      assert Clean(doc).products[i] == CleanProduct(doc.products[i]);
    }
    if Homeless(doc) {
      var i :| 0 <= i < |doc.products| && doc.products[i].categoryRef.None?;
      assert Clean(doc).products[i].categoryRef.None?;
    }
  }

  lemma FallbackFits(doc: Document)
    requires CategoriesOk(doc)
    ensures Int32(MaxSortOrder(Clean(doc).categories) + 1) <==> forall i :: 0 <= i < |doc.categories| ==> doc.categories[i].sortOrder < 2147483647
  {
    var cs := Clean(doc).categories;
    LargestSortOrder(cs);
    forall i | 0 <= i < |doc.categories| ensures cs[i].sortOrder == doc.categories[i].sortOrder { SameCategories(doc, i); }
    if MaxSortOrder(cs) > -1 {
      var i :| 0 <= i < |cs| && cs[i].sortOrder == MaxSortOrder(cs);
      assert doc.categories[i].sortOrder == MaxSortOrder(cs);
    }
  }

  /** The check repeats the conditions of the tables so that no document fails on them, but two: what passed is refused by
      the database exactly if an option sorts before zero, or a fallback category would have to sort after 2147483647. */
  lemma CheckedDocumentsAreStorableExactly(doc: Document)
    requires ValidateImport(doc).Some?
    ensures RowsOk(ValidateImport(doc).value)
            <==> (forall i :: 0 <= i < |doc.products| ==> SortsForward(doc.products[i].article))
                 && (Homeless(doc) ==> forall i :: 0 <= i < |doc.categories| ==> doc.categories[i].sortOrder < 2147483647)
  {
    SameHomeless(doc);
    FallbackFits(doc);
    forall i | 0 <= i < |doc.products| ensures ArticleRowsOk(Clean(doc).products[i].article) <==> SortsForward(doc.products[i].article) {
      assert Clean(doc).products[i] == CleanProduct(doc.products[i]) && ProductDocOk(doc, doc.products[i]);
      CheckedArticleRows(doc.products[i].article);
    }
  }

  const White := Choice("White", 0, true, -1)
  const Bread := Group("Bread", false, false, 0, None, false, false, 0, [White])
  const Soup := Article("Soup", None, None, 500, 1000, None, 0, None, [Bread])
  const SoupKitchen :=
    Document(Header("Fest", None, None, None, None, "UTC"), [], [], [CategoryDoc(CategoryRef(0), "Food", 0, None)],
             [ProductDoc(ProductRef(0, 0), Some(CategoryRef(0)), None, Soup, AVAILABLE)])

  lemma SoupPasses()
    ensures ArticlePasses(Soup)
  {
    assert !IsSpace(White.name[0]) && !IsSpace(Bread.name[0]) && !IsSpace(Soup.name[0]);
    assert OptionPasses(Bread.options[0]);
    assert GroupPasses(Soup.groups[0]);
  }

  /** A document that passes and that the database refuses. */
  lemma CheckedDocumentsCanBeRefused()
    ensures ValidateImport(SoupKitchen).Some? && !RowsOk(ValidateImport(SoupKitchen).value)
  {
    var doc := SoupKitchen;
    SoupPasses();
    assert !IsSpace(doc.header.name[0]) && !IsSpace(doc.header.timezone[0]) && !IsSpace(doc.categories[0].name[0]);
    assert Bears(doc.categories[0].ref, CategoryRef(0));
    assert ProductPasses(doc, doc.products[0]) && CategoryPasses(doc, doc.categories[0]);
    DocumentPassesExactly(doc);
    CheckedDocumentsAreStorableExactly(doc);
    assert doc.products[0].article.groups[0].options[0].sortOrder == -1;
  }

  // ---- The fallback category ----

  /** The fallback category sorts right after all others; it bears a name of its own exactly unless both of its names are taken. */
  lemma FallbackStandsApart(doc: Document, newId: nat -> Id)
    ensures var f := FallbackCategory(doc, newId);
            && (forall i :: 0 <= i < |doc.categories| ==> doc.categories[i].sortOrder < f.sortOrder) && f.sortOrder >= 0
            && (f.sortOrder > 0 ==> exists i :: 0 <= i < |doc.categories| && doc.categories[i].sortOrder == f.sortOrder - 1)
            && ((exists i :: 0 <= i < |doc.categories| && doc.categories[i].name == f.name)
                <==> HasCategory(doc, "Sonstige Artikel") && HasCategory(doc, "Sonstige Artikel (ohne Kategorie)"))
            && (!HasCategory(doc, "Sonstige Artikel") ==> f.name == "Sonstige Artikel")
            && f.id == newId(|doc.categories|) && f.target.None? && f.deposit == 0 && f.isActive
  {
    LargestSortOrder(doc.categories);
  }

  predicate HasCategory(doc: Document, name: string) { exists i :: 0 <= i < |doc.categories| && doc.categories[i].name == name }
}
