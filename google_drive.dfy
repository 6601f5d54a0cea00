/** The game catalogue service of src/lib/googleDrive.ts: the stored record shapes, the
    composition of a catalogue query from a filter, the client-side search and price
    sort over the fetched page, game creation, build linking, the mock file upload
    and the download-URL scheme.

    The document store is not modelled as a database: a catalogue read is a function
    `fetch` from the composed query to the page the store answers (`None` when the
    store fails); game and build collections are values passed in and returned. */
module GoogleDrive {
  import opened Common

  // ---------------------------------------------------------------------------
  // Record shapes

  datatype Status = Draft | Published | Rejected

  function StatusName(s: Status): string
  {
    match s
    case Draft => "draft"
    case Published => "published"
    case Rejected => "rejected"
  }

  /** One uploaded platform binary (`GameBuild`). Timestamps are clock readings. */
  datatype GameBuild = GameBuild(
    id: Option<string>,
    gameId: string,
    fileName: string,
    fileSize: int,
    driveFileId: string,
    downloadUrl: string,
    platform: string,
    version: string,
    uploadedAt: int,
    creatorId: string)

  /** One catalogue entry (`GameData`). Prices and ratings are only compared, never computed with. */
  datatype GameData = GameData(
    id: Option<string>,
    title: string,
    developer: string,
    developerId: string,
    shortDescription: string,
    fullDescription: string,
    genre: string,
    platforms: seq<string>,
    price: real,
    isFree: bool,
    coverImageUrl: string,
    screenshots: seq<string>,
    tags: seq<string>,
    status: Status,
    createdAt: int,
    updatedAt: int,
    rating: real,
    downloadCount: int,
    builds: seq<GameBuild>)

  /** A document of the `games` collection: the store's id and the stored fields. */
  datatype GameDoc = GameDoc(docId: string, data: GameData)

  /** A document of the `builds` collection. */
  datatype BuildDoc = BuildDoc(docId: string, data: GameBuild)

  /** The part of a browser `File` the service reads. */
  datatype FileInfo = FileInfo(name: string, size: int, mimeType: string)

  /** `{ id: doc.id, ...doc.data() }`: the spread comes last, so a stored `id` field wins. */
  function GameRecord(d: GameDoc): (g: GameData)
    ensures g.id.Some?
    ensures d.data.id.None? ==> g.id == Some(d.docId)
    ensures d.data.id.Some? ==> g.id == d.data.id
    ensures g.(id := d.data.id) == d.data
  {
    d.data.(id := if d.data.id.Some? then d.data.id else Some(d.docId))
  }

  function BuildRecord(d: BuildDoc): (b: GameBuild)
    ensures b.id.Some?
    ensures d.data.id.None? ==> b.id == Some(d.docId)
    ensures d.data.id.Some? ==> b.id == d.data.id
    ensures b.(id := d.data.id) == d.data
  {
    d.data.(id := if d.data.id.Some? then d.data.id else Some(d.docId))
  }

  // ---------------------------------------------------------------------------
  // Queries against the document store

  datatype Field =
    | StatusField | GenreField | PlatformsField | IsFreeField
    | CreatedAtField | DownloadCountField | RatingField | PriceField

  datatype Value = Text(text: string) | Flag(flag: bool) | Number(number: real) | List(items: seq<Value>) | Null

  datatype Predicate = Equals(field: Field, value: Value) | ArrayContains(field: Field, value: Value)

  datatype Direction = Asc | Desc

  /** `query(collection(db, 'games'), where…, orderBy(…), startAfter(…)?, limit(…))` */
  datatype Query = Query(
    where: seq<Predicate>,
    orderField: Field,
    direction: Direction,
    startAfter: Option<GameDoc>,
    limit: int)

  /** The value a stored game holds in a field; no stored field is ever `null`. */
  function FieldValue(g: GameData, f: Field): Value
  {
    match f
    case StatusField => Text(StatusName(g.status))
    case GenreField => Text(g.genre)
    case PlatformsField => List(seq(|g.platforms|, i requires 0 <= i < |g.platforms| => Text(g.platforms[i])))
    case IsFreeField => Flag(g.isFree)
    case CreatedAtField => Number(g.createdAt as real)
    case DownloadCountField => Number(g.downloadCount as real)
    case RatingField => Number(g.rating)
    case PriceField => Number(g.price)
  }

  /** What a `where` clause means for a stored game. */
  predicate Satisfies(g: GameData, p: Predicate)
  {
    match p
    case Equals(f, v) => FieldValue(g, f) == v
    case ArrayContains(f, v) => FieldValue(g, f).List? && v in FieldValue(g, f).items
  }

  /** A page the store may answer to `q`: at most `limit` documents, each meeting every clause. */
  ghost predicate Answers(q: Query, docs: seq<GameDoc>)
  {
    |docs| <= q.limit &&
    forall d, p :: d in docs && p in q.where ==> Satisfies(d.data, p)
  }

  /** A store that answers every query it does not fail on with a page meeting the query. */
  ghost predicate Conforms(fetch: Query -> Option<seq<GameDoc>>)
  {
    forall q :: fetch(q).Some? ==> Answers(q, fetch(q).value)
  }

  // ---------------------------------------------------------------------------
  // The filter argument of getGames and the query it composes

  datatype SortBy = Newest | Popular | ByRating | PriceLow | PriceHigh

  /** `filters.isFree`: absent (`undefined`), `null`, or a boolean. */
  datatype FreeArg = FreeUndefined | FreeNull | FreeIs(free: bool)

  /** The optional `filters` object. Absent and empty strings are both falsy, so both are "";
      an absent or zero `limitCount` is 0. */
  datatype GamesFilter = GamesFilter(
    genre: string,
    platform: string,
    isFree: FreeArg,
    search: string,
    sortBy: Option<SortBy>,
    lastDoc: Option<GameDoc>,
    limitCount: nat)

  const PublishedOnly := Equals(StatusField, Text("published"))
  const DefaultPageSize := 12

  function FreeValue(a: FreeArg): Value
  {
    match a
    case FreeIs(b) => Flag(b)
    case _ => Null
  }

  predicate IsPriceSort(sortBy: Option<SortBy>)
  {
    sortBy == Some(PriceLow) || sortBy == Some(PriceHigh)
  }

  /** A `where` clause added only when its condition holds. */
  function Clause(present: bool, p: Predicate): (r: seq<Predicate>)
    ensures forall x :: x in r <==> present && x == p
  {
    if present then [p] else []
  }

  /** The `where` clauses of `getGames`: published always, then genre, platform and isFree. */
  function WhereFor(f: GamesFilter): (w: seq<Predicate>)
    ensures |w| >= 1 && w[0] == PublishedOnly
    ensures forall p :: p in w ==> p.field in {StatusField, GenreField, PlatformsField, IsFreeField}
    ensures Equals(GenreField, Text(f.genre)) in w <==> f.genre != ""
    ensures forall p :: p in w && p.field == GenreField ==> p == Equals(GenreField, Text(f.genre))
    ensures ArrayContains(PlatformsField, Text(f.platform)) in w <==> f.platform != ""
    ensures forall p :: p in w && p.field == PlatformsField ==> p == ArrayContains(PlatformsField, Text(f.platform))
    ensures forall p :: p in w && p.field == IsFreeField ==> p == Equals(IsFreeField, FreeValue(f.isFree))
    ensures Equals(IsFreeField, FreeValue(f.isFree)) in w <==> !f.isFree.FreeUndefined?
  {
    var w := [PublishedOnly]
      + Clause(f.genre != "", Equals(GenreField, Text(f.genre)))
      + Clause(f.platform != "", ArrayContains(PlatformsField, Text(f.platform)))
      + Clause(!f.isFree.FreeUndefined?, Equals(IsFreeField, FreeValue(f.isFree)));
    WhereMembers(f, w);
    w
  }

  /** The clauses present: published always, each of the others exactly when its condition holds. */
  lemma WhereMembers(f: GamesFilter, w: seq<Predicate>)
    requires w == [PublishedOnly]
      + Clause(f.genre != "", Equals(GenreField, Text(f.genre)))
      + Clause(f.platform != "", ArrayContains(PlatformsField, Text(f.platform)))
      + Clause(!f.isFree.FreeUndefined?, Equals(IsFreeField, FreeValue(f.isFree)))
    ensures forall p :: p in w <==>
      p == PublishedOnly ||
      (f.genre != "" && p == Equals(GenreField, Text(f.genre))) ||
      (f.platform != "" && p == ArrayContains(PlatformsField, Text(f.platform))) ||
      (!f.isFree.FreeUndefined? && p == Equals(IsFreeField, FreeValue(f.isFree)))
  {
  }

  /** The `orderBy` clause for a sort choice; anything else orders by creation, newest first. */
  function OrderFor(sortBy: Option<SortBy>): (o: (Field, Direction))
    ensures o.0 == PriceField <==> IsPriceSort(sortBy)
    ensures o.1 == Asc <==> sortBy == Some(PriceLow)
    ensures o.0 == CreatedAtField <==> sortBy == None || sortBy == Some(Newest)
    ensures o.0 == DownloadCountField <==> sortBy == Some(Popular)
    ensures o.0 == RatingField <==> sortBy == Some(ByRating)
  {
    match sortBy
    case Some(Popular) => (DownloadCountField, Desc)
    case Some(ByRating) => (RatingField, Desc)
    case Some(PriceLow) => (PriceField, Asc)
    case Some(PriceHigh) => (PriceField, Desc)
    case _ => (CreatedAtField, Desc)
  }

  /** The query `getGames` sends for filter `f`. */
  function QueryFor(f: GamesFilter): (q: Query)
    ensures |q.where| >= 1 && q.where[0] == PublishedOnly
    ensures forall p :: p in q.where ==> p.field in {StatusField, GenreField, PlatformsField, IsFreeField}
    ensures Equals(GenreField, Text(f.genre)) in q.where <==> f.genre != ""
    ensures forall p :: p in q.where && p.field == GenreField ==> p == Equals(GenreField, Text(f.genre))
    ensures ArrayContains(PlatformsField, Text(f.platform)) in q.where <==> f.platform != ""
    ensures forall p :: p in q.where && p.field == PlatformsField ==> p == ArrayContains(PlatformsField, Text(f.platform))
    ensures forall p :: p in q.where && p.field == IsFreeField ==> p == Equals(IsFreeField, FreeValue(f.isFree))
    ensures Equals(IsFreeField, FreeValue(f.isFree)) in q.where <==> !f.isFree.FreeUndefined?
    ensures q.orderField == PriceField <==> IsPriceSort(f.sortBy)
    ensures q.direction == Asc <==> f.sortBy == Some(PriceLow)
    ensures q.orderField == CreatedAtField <==> f.sortBy == None || f.sortBy == Some(Newest)
    ensures q.orderField == DownloadCountField <==> f.sortBy == Some(Popular)
    ensures q.orderField == RatingField <==> f.sortBy == Some(ByRating)
    ensures q.startAfter == f.lastDoc
    ensures q.limit == if f.limitCount != 0 then f.limitCount else DefaultPageSize
  {
    var order := OrderFor(f.sortBy);
    Query(WhereFor(f), order.0, order.1, f.lastDoc, if f.limitCount != 0 then f.limitCount else DefaultPageSize)
  }

  // ---------------------------------------------------------------------------
  // Client-side post-processing of a fetched page

  /** The search predicate of `getGames`; `term` is already lower-cased. */
  predicate MatchesSearch(g: GameData, term: string)
  {
    Contains(Lower(g.title), term) ||
    Contains(Lower(g.developer), term) ||
    exists t | t in g.tags :: Contains(Lower(t), term)
  }

  /** `games.filter(game => MatchesSearch(game, term))` */
  function SearchFilter(games: seq<GameData>, term: string): (r: seq<GameData>)
    ensures IsSubsequence(r, games)
    ensures forall g :: g in r ==> MatchesSearch(g, term)
    ensures forall g :: multiset(r)[g] == if MatchesSearch(g, term) then multiset(games)[g] else 0
  {
    if games == [] then []
    else
      var rest := SearchFilter(games[1..], term);
      assert games == [games[0]] + games[1..];
      if MatchesSearch(games[0], term) then [games[0]] + rest else rest
  }

  /** `{ id: doc.id, ...doc.data() }` for every document of the page, in order. */
  function Records(docs: seq<GameDoc>): (r: seq<GameData>)
    ensures |r| == |docs|
    ensures forall i :: 0 <= i < |docs| ==> r[i] == GameRecord(docs[i])
  {
    seq(|docs|, i requires 0 <= i < |docs| => GameRecord(docs[i]))
  }

  /** The cursor `getGames` returns: the last document of the page, `null` for an empty page. */
  function LastOf(docs: seq<GameDoc>): (r: Option<GameDoc>)
    ensures r.None? <==> docs == []
    ensures r.Some? ==> r.value in docs && r.value == docs[|docs| - 1]
  {
    if docs == [] then None else Some(docs[|docs| - 1])
  }

  /** The records that survive the search filter (all of them when the search is empty). */
  function Searched(f: GamesFilter, docs: seq<GameDoc>): seq<GameData>
  {
    if f.search != "" then SearchFilter(Records(docs), Lower(f.search)) else Records(docs)
  }

  /** `x` may precede `y` in a price-sorted page: the comparator `a.price - b.price`
      (or `b.price - a.price`) is not positive. */
  predicate InOrder(x: GameData, y: GameData, ascending: bool)
  {
    if ascending then x.price <= y.price else y.price <= x.price
  }

  predicate SortedByPrice(s: seq<GameData>, ascending: bool)
  {
    forall i, j :: 0 <= i < j < |s| ==> InOrder(s[i], s[j], ascending)
  }

  /** The games of `s` priced exactly `p`, in their order in `s`. */
  function WithPrice(s: seq<GameData>, p: real): (r: seq<GameData>)
    ensures |r| <= |s|
  {
    if s == [] then [] else (if s[0].price == p then [s[0]] else []) + WithPrice(s[1..], p)
  }

  lemma {:induction false} WithPriceConcat(x: seq<GameData>, y: seq<GameData>, p: real)
    ensures WithPrice(x + y, p) == WithPrice(x, p) + WithPrice(y, p)
  {
    if x != [] {
      assert (x + y)[1..] == x[1..] + y;
      WithPriceConcat(x[1..], y, p);
    } else {
      assert [] + y == y;
    }
  }

  /** Exchanging two neighbours of different prices keeps the games of price `p` in order. */
  lemma SwapKeepsPriceGroup(pre: seq<GameData>, x: GameData, y: GameData, post: seq<GameData>, p: real)
    requires x.price != y.price
    ensures WithPrice(pre + [y, x] + post, p) == WithPrice(pre + [x, y] + post, p)
  {
    WithPriceConcat(pre + [x, y], post, p);
    WithPriceConcat(pre, [x, y], p);
    WithPriceConcat(pre + [y, x], post, p);
    WithPriceConcat(pre, [y, x], p);
    assert [x, y][1..] == [y] && [y, x][1..] == [x];
  }

  /** `s` and `t` list the games of every price in the same order. */
  ghost predicate SamePriceGroups(s: seq<GameData>, t: seq<GameData>)
  {
    forall p :: WithPrice(s, p) == WithPrice(t, p)
  }

  lemma SamePriceGroupsTrans(r: seq<GameData>, s: seq<GameData>, t: seq<GameData>)
    requires SamePriceGroups(r, s) && SamePriceGroups(s, t)
    ensures SamePriceGroups(r, t)
  {
  }

  /** Exchanging two neighbours of different prices keeps every price's games in order. */
  lemma SwapKeepsPriceGroups(s: seq<GameData>, j: int)
    requires 0 < j < |s| && s[j - 1].price != s[j].price
    ensures SamePriceGroups(s[j - 1 := s[j]][j := s[j - 1]], s)
  {
    var pre, post := s[..j - 1], s[j + 1..];
    var t := s[j - 1 := s[j]][j := s[j - 1]];
    assert s == pre + [s[j - 1], s[j]] + post;
    assert t == pre + [s[j], s[j - 1]] + post;
    forall p
      ensures WithPrice(t, p) == WithPrice(s, p)
    {
      SwapKeepsPriceGroup(pre, s[j - 1], s[j], post, p);
    }
  }

  datatype GamesPage = GamesPage(games: seq<GameData>, lastDoc: Option<GameDoc>)

  /** What `getGames` may return for the fetched documents `docs`: the last fetched document as
      cursor, and the searched records, re-sorted by price for the two price orders; the sort
      is stable, so games of equal price keep their order. */
  ghost predicate ValidPage(f: GamesFilter, docs: seq<GameDoc>, page: GamesPage)
  {
    page.lastDoc == LastOf(docs) &&
    if IsPriceSort(f.sortBy) then
      multiset(page.games) == multiset(Searched(f, docs)) &&
      SortedByPrice(page.games, f.sortBy == Some(PriceLow)) &&
      forall p :: WithPrice(page.games, p) == WithPrice(Searched(f, docs), p)
    else
      page.games == Searched(f, docs)
  }

  const LoadGamesError := "Ошибка загрузки игр"

  /** `s[..i + 1]` is ordered once the element at `j` is left out. */
  predicate OrderedBut(s: seq<GameData>, i: int, j: int, ascending: bool)
    requires i < |s|
  {
    forall p, q :: 0 <= p < q <= i && p != j && q != j ==> InOrder(s[p], s[q], ascending)
  }

  /** The element at `j` is in order with every later element up to `i`. */
  predicate BelowRest(s: seq<GameData>, i: int, j: int, ascending: bool)
    requires 0 <= j <= i < |s|
  {
    forall q :: j < q <= i ==> InOrder(s[j], s[q], ascending)
  }

  /** Sinking the out-of-order element at `j` one place down keeps the sort's invariant. */
  lemma SinkStep(s: seq<GameData>, t: seq<GameData>, i: int, j: int, ascending: bool)
    requires 0 < j <= i < |s| == |t|
    requires OrderedBut(s, i, j, ascending) && BelowRest(s, i, j, ascending)
    requires !InOrder(s[j - 1], s[j], ascending)
    requires t[j - 1] == s[j] && t[j] == s[j - 1]
    requires forall k :: 0 <= k < |s| && k != j - 1 && k != j ==> t[k] == s[k]
    ensures OrderedBut(t, i, j - 1, ascending) && BelowRest(t, i, j - 1, ascending)
  {
  }

  /** One pass of the insertion sort: sinks `a[i]` into the sorted prefix `a[..i]`. */
  method SinkLast(a: array<GameData>, i: int, ascending: bool)
    requires 0 <= i < a.Length
    requires forall p, q :: 0 <= p < q < i ==> InOrder(a[p], a[q], ascending)
    modifies a
    ensures forall p, q :: 0 <= p < q <= i ==> InOrder(a[p], a[q], ascending)
    ensures multiset(a[..]) == multiset(old(a[..]))
    ensures SamePriceGroups(a[..], old(a[..]))
  {
    var j := i;
    while j > 0 && !InOrder(a[j - 1], a[j], ascending)
      invariant 0 <= j <= i
      invariant OrderedBut(a[..], i, j, ascending) && BelowRest(a[..], i, j, ascending)
      invariant multiset(a[..]) == multiset(old(a[..]))
      invariant SamePriceGroups(a[..], old(a[..]))
    {
      ghost var before := a[..];
      SwapDown(a, j);
      SinkStep(before, a[..], i, j, ascending);
      SamePriceGroupsTrans(a[..], before, old(a[..]));
      j := j - 1;
    }
  }

  /** Exchanges `a[j - 1]` and `a[j]`, two games of different prices. */
  method SwapDown(a: array<GameData>, j: int)
    requires 0 < j < a.Length && a[j - 1].price != a[j].price
    modifies a
    ensures a[j - 1] == old(a[j]) && a[j] == old(a[j - 1])
    ensures forall k :: 0 <= k < a.Length && k != j - 1 && k != j ==> a[k] == old(a[k])
    ensures multiset(a[..]) == multiset(old(a[..]))
    ensures SamePriceGroups(a[..], old(a[..]))
  {
    SwapKeepsPriceGroups(a[..], j);
    a[j - 1], a[j] := a[j], a[j - 1];
    assert a[..] == old(a[..])[j - 1 := old(a[j])][j := old(a[j - 1])];
  }

  /** Insertion sort by price, in place; the strict test keeps equal prices in input order,
      as JavaScript's stable `Array.prototype.sort` does. */
  method SortByPrice(a: array<GameData>, ascending: bool)
    modifies a
    ensures SortedByPrice(a[..], ascending)
    ensures multiset(a[..]) == multiset(old(a[..]))
    ensures forall p :: WithPrice(a[..], p) == WithPrice(old(a[..]), p)
  {
    var i := 0;
    while i < a.Length
      invariant 0 <= i <= a.Length
      invariant forall p, q :: 0 <= p < q < i ==> InOrder(a[p], a[q], ascending)
      invariant multiset(a[..]) == multiset(old(a[..]))
      invariant SamePriceGroups(a[..], old(a[..]))
    {
      ghost var before := a[..];
      SinkLast(a, i, ascending);
      SamePriceGroupsTrans(a[..], before, old(a[..]));
      i := i + 1;
    }
  }

  /** The first half of `getGames`: the `where`, `orderBy`, `startAfter` and `limit`
      clauses added one after the other. */
  method ComposeQuery(f: GamesFilter) returns (q: Query)
    ensures q == QueryFor(f)
  {
    var where := [PublishedOnly];
    if f.genre != "" {
      where := where + [Equals(GenreField, Text(f.genre))];
    }
    assert where == [PublishedOnly] + Clause(f.genre != "", Equals(GenreField, Text(f.genre)));
    if f.platform != "" {
      where := where + [ArrayContains(PlatformsField, Text(f.platform))];
    }
    if !f.isFree.FreeUndefined? {
      where := where + [Equals(IsFreeField, FreeValue(f.isFree))];
    }
    assert where == WhereFor(f);
    var field, direction;
    match f.sortBy {
      case Some(Newest) => field, direction := CreatedAtField, Desc;
      case Some(Popular) => field, direction := DownloadCountField, Desc;
      case Some(ByRating) => field, direction := RatingField, Desc;
      case Some(PriceLow) => field, direction := PriceField, Asc;
      case Some(PriceHigh) => field, direction := PriceField, Desc;
      case None => field, direction := CreatedAtField, Desc;
    }
    assert (field, direction) == OrderFor(f.sortBy);
    var after: Option<GameDoc> := None;
    if f.lastDoc.Some? {
      after := f.lastDoc;
    }
    q := Query(where, field, direction, after, if f.limitCount != 0 then f.limitCount else DefaultPageSize);
  }

  /** The `forEach` over the snapshot: one record per document, the last one as cursor. */
  method CopyDocs(docs: seq<GameDoc>) returns (games: seq<GameData>, lastDoc: Option<GameDoc>)
    ensures games == Records(docs) && lastDoc == LastOf(docs)
  {
    games := [];
    lastDoc := None;
    var i := 0;
    while i < |docs|
      invariant 0 <= i <= |docs|
      invariant games == Records(docs[..i])
      invariant lastDoc == LastOf(docs[..i])
    {
      games := games + [GameRecord(docs[i])];
      lastDoc := Some(docs[i]);
      i := i + 1;
    }
    assert docs[..i] == docs;
  }

  /** The second half of `getGames`: copy the documents out while tracking the cursor, apply
      the search filter and, for the price orders, re-sort by price. */
  method ProcessPage(f: GamesFilter, docs: seq<GameDoc>) returns (page: GamesPage)
    ensures ValidPage(f, docs, page)
  {
    var games, lastDoc := CopyDocs(docs);
    var filtered := games;
    if f.search != "" {
      filtered := SearchFilter(games, Lower(f.search));
    }
    if f.sortBy == Some(PriceLow) || f.sortBy == Some(PriceHigh) {
      var a := new GameData[|filtered|](k requires 0 <= k < |filtered| => filtered[k]);
      assert a[..] == filtered;
      SortByPrice(a, f.sortBy == Some(PriceLow));
      filtered := a[..];
    }
    page := GamesPage(filtered, lastDoc);
  }

  /** `GamesService.getGames`: one fetch of the composed query; a failed fetch is reported
      with the catalogue error message. */
  method GetGames(f: GamesFilter, fetch: Query -> Option<seq<GameDoc>>) returns (r: Result<GamesPage, string>)
    ensures fetch(QueryFor(f)).None? ==> r == Err(LoadGamesError)
    ensures fetch(QueryFor(f)).Some? ==> r.Ok? && ValidPage(f, fetch(QueryFor(f)).value, r.value)
  {
    var q := ComposeQuery(f);
    var snapshot := fetch(q);
    if snapshot.None? {
      return Err(LoadGamesError);
    }
    var page := ProcessPage(f, snapshot.value);
    return Ok(page);
  }

  // ---------------------------------------------------------------------------
  // Properties of a returned page

  /** Every game of a valid page is the record of one of the fetched documents. */
  lemma PageFromDocs(f: GamesFilter, docs: seq<GameDoc>, page: GamesPage, g: GameData) returns (k: nat)
    requires ValidPage(f, docs, page)
    requires g in page.games
    ensures k < |docs| && GameRecord(docs[k]) == g
  {
    var found := Searched(f, docs);
    assert multiset(page.games) == multiset(found) by {
      if !IsPriceSort(f.sortBy) { assert page.games == found; }
    }
    assert g in multiset(found);
    assert g in found;
    SearchedFromRecords(f, docs, g);
    var recs := Records(docs);
    k :| 0 <= k < |docs| && recs[k] == g;
  }

  /** A record whose stored fields meet every clause of the query meets the filter. */
  lemma RecordMeetsFilter(f: GamesFilter, d: GameDoc)
    requires forall p :: p in QueryFor(f).where ==> Satisfies(d.data, p)
    ensures GameRecord(d).status == Published
    ensures f.genre != "" ==> GameRecord(d).genre == f.genre
    ensures f.platform != "" ==> f.platform in GameRecord(d).platforms
    ensures f.isFree.FreeIs? ==> GameRecord(d).isFree == f.isFree.free
    ensures f.isFree != FreeNull
  {
    var q := QueryFor(f);
    var g := d.data;
    assert PublishedOnly in q.where;
    assert StatusName(g.status) == "published";
    if f.platform != "" {
      var p := ArrayContains(PlatformsField, Text(f.platform));
      assert Satisfies(g, p);
      var items := FieldValue(g, PlatformsField).items;
      var j :| 0 <= j < |items| && items[j] == Text(f.platform);
      assert g.platforms[j] == f.platform;
    }
    if !f.isFree.FreeUndefined? {
      assert Satisfies(g, Equals(IsFreeField, FreeValue(f.isFree)));
    }
  }

  /** Against a conforming store every returned game is published and meets the genre,
      platform and isFree clauses; a `null` isFree filter is met by no stored game, so its
      page is empty; the page is no longer than the query's limit. */
  lemma PageMeetsQuery(f: GamesFilter, docs: seq<GameDoc>, page: GamesPage, g: GameData)
    requires Answers(QueryFor(f), docs)
    requires ValidPage(f, docs, page)
    requires g in page.games
    ensures g.status == Published
    ensures f.genre != "" ==> g.genre == f.genre
    ensures f.platform != "" ==> f.platform in g.platforms
    ensures f.isFree.FreeIs? ==> g.isFree == f.isFree.free
    ensures f.isFree != FreeNull
  {
    var k := PageFromDocs(f, docs, page, g);
    assert docs[k] in docs;
    RecordMeetsFilter(f, docs[k]);
  }

  /** A valid page is never longer than the fetched page, hence than the query's limit. */
  lemma PageWithinLimit(f: GamesFilter, docs: seq<GameDoc>, page: GamesPage)
    requires Answers(QueryFor(f), docs)
    requires ValidPage(f, docs, page)
    ensures |page.games| <= |docs| <= QueryFor(f).limit
  {
    var found := Searched(f, docs);
    assert multiset(page.games) == multiset(found) by {
      if !IsPriceSort(f.sortBy) { assert page.games == found; }
    }
    assert |page.games| == |multiset(found)|;
    SearchedLength(f, docs);
  }

  lemma SearchedFromRecords(f: GamesFilter, docs: seq<GameDoc>, g: GameData)
    requires g in Searched(f, docs)
    ensures g in Records(docs)
  {
    if f.search != "" {
      var recs := Records(docs);
      assert multiset(SearchFilter(recs, Lower(f.search)))[g] > 0;
    }
  }

  lemma SearchedLength(f: GamesFilter, docs: seq<GameDoc>)
    ensures |Searched(f, docs)| <= |docs|
  {
    if f.search != "" {
      SubsequenceLength(SearchFilter(Records(docs), Lower(f.search)), Records(docs));
    }
  }

  lemma {:induction false} SubsequenceLength<T>(r: seq<T>, s: seq<T>)
    requires IsSubsequence(r, s)
    ensures |r| <= |s|
    decreases |s|
  {
    if r != [] {
      if r[0] == s[0] && IsSubsequence(r[1..], s[1..]) {
        SubsequenceLength(r[1..], s[1..]);
      } else {
        SubsequenceLength(r, s[1..]);
      }
    }
  }

  /** With an empty search and no price order the page is exactly the fetched records, in order. */
  lemma EmptySearchKeepsPage(f: GamesFilter, docs: seq<GameDoc>, page: GamesPage)
    requires f.search == "" && !IsPriceSort(f.sortBy)
    requires ValidPage(f, docs, page)
    ensures page.games == Records(docs)
  {
  }

  // ---------------------------------------------------------------------------
  // createGame, addBuildToGame, uploadFile, getDownloadUrl

  /** The fields `createGame` stores: the caller's record, without an id, with its own
      timestamps, rating 0, downloadCount 0 and no builds, whatever the caller passed. */
  function CreatedRecord(g: GameData, now: int): (r: GameData)
    ensures r.id == None && r.rating == 0.0 && r.downloadCount == 0 && r.builds == []
    ensures r.createdAt == now && r.updatedAt == now
    ensures r.(id := g.id, createdAt := g.createdAt, updatedAt := g.updatedAt, rating := g.rating,
               downloadCount := g.downloadCount, builds := g.builds) == g
  {
    g.(id := None, createdAt := now, updatedAt := now, rating := 0.0, downloadCount := 0, builds := [])
  }

  /** `createGame`: adds one document under the fresh id the store assigns. */
  function CreateGame(games: map<string, GameData>, newId: string, g: GameData, now: int): (r: map<string, GameData>)
    requires newId !in games
    ensures r.Keys == games.Keys + {newId}
    ensures r[newId] == CreatedRecord(g, now)
    ensures forall id :: id in games ==> r[id] == games[id]
  {
    games[newId := CreatedRecord(g, now)]
  }

  /** The builds the query `where('gameId', '==', gameId)` returns, as records, in store order. */
  function BuildsFor(builds: seq<BuildDoc>, gameId: string): (r: seq<GameBuild>)
    ensures |r| <= |builds|
    ensures forall b :: b in r ==> b.gameId == gameId
    ensures forall d :: d in builds && d.data.gameId == gameId ==> BuildRecord(d) in r
    ensures forall b :: b in r ==> exists d :: d in builds && d.data.gameId == gameId && b == BuildRecord(d)
  {
    if builds == [] then []
    else
      var rest := BuildsFor(builds[1..], gameId);
      assert forall d :: d in builds ==> d == builds[0] || d in builds[1..];
      assert forall d :: d in builds[1..] ==> d in builds;
      if builds[0].data.gameId == gameId then [BuildRecord(builds[0])] + rest else rest
  }

  /** Storing one more build document extends the list of its own game by that build, in
      store order, and leaves every other game's list as it was. With `BuildsFor([], id) == []`
      this pins down the list exactly. */
  lemma {:induction false} BuildsForAppend(builds: seq<BuildDoc>, d: BuildDoc, gameId: string)
    ensures BuildsFor(builds + [d], gameId) ==
            BuildsFor(builds, gameId) + (if d.data.gameId == gameId then [BuildRecord(d)] else [])
  {
    if builds != [] {
      assert (builds + [d])[1..] == builds[1..] + [d];
      BuildsForAppend(builds[1..], d, gameId);
    } else {
      assert ([] + [d])[1..] == [];
    }
  }

  const AddBuildError := "Ошибка добавления билда к игре"

  /** `addBuildToGame`: re-reads every build of the game and stores that list on the game.
      The `buildId` argument is never read, so the result does not depend on it. Updating a
      game that does not exist fails. */
  method AddBuildToGame(games: map<string, GameData>, builds: seq<BuildDoc>, gameId: string, buildId: string, now: int)
    returns (r: Result<map<string, GameData>, string>)
    ensures gameId !in games ==> r == Err(AddBuildError)
    ensures gameId in games ==> r.Ok? && r.value.Keys == games.Keys
    ensures gameId in games ==>
      r.value[gameId] == games[gameId].(builds := BuildsFor(builds, gameId), updatedAt := now)
    ensures r.Ok? ==> forall id :: id in games && id != gameId ==> r.value[id] == games[id]
  {
    var list: seq<GameBuild> := [];
    var i := |builds|;
    while i > 0
      invariant 0 <= i <= |builds|
      invariant list == BuildsFor(builds[i..], gameId)
    {
      i := i - 1;
      assert builds[i..][1..] == builds[i + 1..];
      if builds[i].data.gameId == gameId {
        list := [BuildRecord(builds[i])] + list;
      }
    }
    assert builds[0..] == builds;
    if gameId !in games {
      return Err(AddBuildError);
    }
    return Ok(games[gameId := games[gameId].(builds := list, updatedAt := now)]);
  }

  /** The download URL `uploadFile` records for a mock Drive file id. */
  function DriveFileUrl(fileId: string): string
  {
    "https://drive.google.com/file/d/" + fileId + "/download"
  }

  /** `uploadFile` (demo mode): stores a build document under the given game id with the mock
      file id, version "1.0.0" and an empty creatorId, and returns the new document's id. */
  function UploadFile(builds: seq<BuildDoc>, docId: string, mockFileId: string, file: FileInfo,
                      gameId: string, platform: string, now: int): (r: seq<BuildDoc>)
    requires forall d :: d in builds ==> d.docId != docId
    ensures |r| == |builds| + 1 && r[..|builds|] == builds
    ensures r[|builds|].docId == docId
    ensures r[|builds|].data.gameId == gameId && r[|builds|].data.platform == platform
    ensures r[|builds|].data.fileName == file.name && r[|builds|].data.fileSize == file.size
    ensures r[|builds|].data.driveFileId == mockFileId && r[|builds|].data.downloadUrl == DriveFileUrl(mockFileId)
    ensures r[|builds|].data.id == None && r[|builds|].data.version == "1.0.0"
    ensures r[|builds|].data.uploadedAt == now && r[|builds|].data.creatorId == ""
  {
    builds + [BuildDoc(docId, GameBuild(None, gameId, file.name, file.size, mockFileId,
                                        DriveFileUrl(mockFileId), platform, "1.0.0", now, ""))]
  }

  const DownloadUrlPrefix := "https://drive.google.com/uc?export=download&id="

  /** `getDownloadUrl` */
  function GetDownloadUrl(fileId: string): (url: string)
    ensures FileIdOf(url) == Some(fileId)
  {
    var u := DownloadUrlPrefix + fileId;
    assert u[..|DownloadUrlPrefix|] == DownloadUrlPrefix && u[|DownloadUrlPrefix|..] == fileId;
    u
  }

  /** Reads the file id back out of a URL of the `getDownloadUrl` form. */
  function FileIdOf(url: string): Option<string>
  {
    if |DownloadUrlPrefix| <= |url| && url[..|DownloadUrlPrefix|] == DownloadUrlPrefix
    then Some(url[|DownloadUrlPrefix|..])
    else None
  }

  /** The URL determines the file id: reading it back gives the id, so distinct ids give distinct URLs. */
  lemma DownloadUrlRoundTrip(fileId: string, other: string)
    ensures FileIdOf(GetDownloadUrl(fileId)) == Some(fileId)
    ensures GetDownloadUrl(fileId) == GetDownloadUrl(other) ==> fileId == other
  {
    var u := GetDownloadUrl(fileId);
    assert u[..|DownloadUrlPrefix|] == DownloadUrlPrefix;
    assert u[|DownloadUrlPrefix|..] == fileId;
    var v := GetDownloadUrl(other);
    assert v[|DownloadUrlPrefix|..] == other;
  }
}
