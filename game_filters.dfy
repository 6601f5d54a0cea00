/** The catalogue filter panel of src/components/GameFilters.tsx. Every operation builds a new
    filter record and hands it to the page; the panel itself keeps no catalogue state. */
module GameFilters {
  import opened Common
  import opened GoogleDrive

  /** The filter record (`GameFilters`). `isFree` is `null` (None) or a boolean. */
  datatype Filters = Filters(
    search: string,
    genre: string,
    platform: string,
    priceMin: real,
    priceMax: real,
    isFree: Option<bool>,
    rating: real,
    sortBy: SortBy,
    tags: seq<string>)

  /** The record the panel and the page start from and reset to. */
  const DefaultFilters := Filters("", "", "", 0.0, 5000.0, None, 0.0, Newest, [])

  // ---------------------------------------------------------------------------
  // Single-field updates

  datatype Key = SearchKey | GenreKey | PlatformKey | PriceMinKey | PriceMaxKey | IsFreeKey | RatingKey | SortByKey | TagsKey

  /** A value of one of the record's field types. */
  datatype Entry = Str(s: string) | Num(n: real) | FreeFlag(free: Option<bool>) | Order(order: SortBy) | TagList(tags: seq<string>)

  /** The value has the type of the field (`GameFilters[K]`). */
  predicate FitsKey(k: Key, v: Entry)
  {
    match k
    case SearchKey => v.Str?
    case GenreKey => v.Str?
    case PlatformKey => v.Str?
    case PriceMinKey => v.Num?
    case PriceMaxKey => v.Num?
    case IsFreeKey => v.FreeFlag?
    case RatingKey => v.Num?
    case SortByKey => v.Order?
    case TagsKey => v.TagList?
  }

  /** `filters[key]` */
  function Get(f: Filters, k: Key): (v: Entry)
    ensures FitsKey(k, v)
  {
    match k
    case SearchKey => Str(f.search)
    case GenreKey => Str(f.genre)
    case PlatformKey => Str(f.platform)
    case PriceMinKey => Num(f.priceMin)
    case PriceMaxKey => Num(f.priceMax)
    case IsFreeKey => FreeFlag(f.isFree)
    case RatingKey => Num(f.rating)
    case SortByKey => Order(f.sortBy)
    case TagsKey => TagList(f.tags)
  }

  /** Two records that agree at every key are the same record. */
  lemma FiltersByKeys(a: Filters, b: Filters)
    requires forall k :: Get(a, k) == Get(b, k)
    ensures a == b
  {
    assert Get(a, SearchKey) == Get(b, SearchKey);
    assert Get(a, GenreKey) == Get(b, GenreKey);
    assert Get(a, PlatformKey) == Get(b, PlatformKey);
    assert Get(a, PriceMinKey) == Get(b, PriceMinKey);
    assert Get(a, PriceMaxKey) == Get(b, PriceMaxKey);
    assert Get(a, IsFreeKey) == Get(b, IsFreeKey);
    assert Get(a, RatingKey) == Get(b, RatingKey);
    assert Get(a, SortByKey) == Get(b, SortByKey);
    assert Get(a, TagsKey) == Get(b, TagsKey);
  }

  /** `updateFilter(key, value)`: `{ ...filters, [key]: value }`. */
  function UpdateFilter(f: Filters, k: Key, v: Entry): (r: Filters)
    requires FitsKey(k, v)
    ensures Get(r, k) == v
    ensures forall other :: other != k ==> Get(r, other) == Get(f, other)
  {
    match k
    case SearchKey => f.(search := v.s)
    case GenreKey => f.(genre := v.s)
    case PlatformKey => f.(platform := v.s)
    case PriceMinKey => f.(priceMin := v.n)
    case PriceMaxKey => f.(priceMax := v.n)
    case IsFreeKey => f.(isFree := v.free)
    case RatingKey => f.(rating := v.n)
    case SortByKey => f.(sortBy := v.order)
    case TagsKey => f.(tags := v.tags)
  }

  /** Writing back the value a field already holds changes nothing. */
  lemma UpdateWithSameValue(f: Filters, k: Key)
    ensures UpdateFilter(f, k, Get(f, k)) == f
  {
    var r := UpdateFilter(f, k, Get(f, k));
    FiltersByKeys(r, f);
  }

  // ---------------------------------------------------------------------------
  // Tags

  /** `addTag(tag)`: appends a non-empty tag that is not already selected; no trimming. */
  function AddTag(f: Filters, tag: string): (r: Filters)
    ensures r == f.(tags := r.tags)
    ensures NoDuplicates(f.tags) ==> NoDuplicates(r.tags)
    ensures forall t :: t in r.tags <==> t in f.tags || (t == tag && tag != "")
    ensures r.tags == f.tags || r.tags == f.tags + [tag]
  {
    if tag != "" && tag !in f.tags then UpdateFilter(f, TagsKey, TagList(f.tags + [tag])) else f
  }

  /** `removeTag(tag)`: drops every occurrence and keeps the other tags in order. */
  function RemoveTag(f: Filters, tag: string): (r: Filters)
    ensures r == f.(tags := r.tags)
    ensures forall t :: t in r.tags <==> t in f.tags && t != tag
    ensures forall t :: multiset(r.tags)[t] == if t == tag then 0 else multiset(f.tags)[t]
    ensures IsSubsequence(r.tags, f.tags)
    ensures NoDuplicates(f.tags) ==> NoDuplicates(r.tags)
  {
    RemoveAllOrder(f.tags, tag);
    UpdateFilter(f, TagsKey, TagList(RemoveAll(f.tags, tag)))
  }

  /** A popular-tag button: deselects the tag when selected, selects it otherwise. */
  function ToggleTag(f: Filters, tag: string): (r: Filters)
    ensures tag != "" ==> (tag in r.tags <==> tag !in f.tags)
    ensures r == f.(tags := r.tags)
  {
    if tag in f.tags then RemoveTag(f, tag) else AddTag(f, tag)
  }

  /** Adding a new tag and removing it again restores the list. */
  lemma {:induction false} RemoveAfterAdd(f: Filters, tag: string)
    requires tag !in f.tags
    ensures RemoveTag(AddTag(f, tag), tag) == f
  {
    RemoveAllAbsent(f.tags, tag);
    if tag != "" {
      RemoveAllAppend(f.tags, tag);
    }
  }

  lemma {:induction false} RemoveAllAbsent(s: seq<string>, x: string)
    requires x !in s
    ensures RemoveAll(s, x) == s
  {
    if s != [] {
      assert s[0] != x && x !in s[1..];
      RemoveAllAbsent(s[1..], x);
    }
  }

  lemma {:induction false} RemoveAllAppend(s: seq<string>, x: string)
    ensures RemoveAll(s + [x], x) == RemoveAll(s, x)
  {
    if s == [] {
      assert RemoveAll([x], x) == RemoveAll([x][1..], x);
    } else {
      assert (s + [x])[1..] == s[1..] + [x];
      RemoveAllAppend(s[1..], x);
    }
  }

  // ---------------------------------------------------------------------------
  // Reset, activity and the badge

  /** `clearAllFilters` hands over exactly the default record. */
  function ClearAll(f: Filters): (r: Filters)
    ensures r == DefaultFilters
    ensures !HasActiveFilters(r)
  {
    DefaultFilters
  }

  /** `hasActiveFilters`. The sort order is not a filter. */
  predicate HasActiveFilters(f: Filters)
  {
    f.search != "" || f.genre != "" || f.platform != "" || f.isFree.Some? ||
    f.rating > 0.0 || |f.tags| > 0 || f.priceMin > 0.0 || f.priceMax < 5000.0
  }

  /** The panel's sliders keep price and rating in these ranges. */
  predicate InSliderRange(f: Filters)
  {
    0.0 <= f.priceMin && f.priceMax <= 5000.0 && 0.0 <= f.rating
  }

  /** Within the slider ranges, no filter is active exactly when the record is the default up
      to its sort order. */
  lemma InactiveMeansDefault(f: Filters)
    requires InSliderRange(f)
    ensures !HasActiveFilters(f) <==> f.(sortBy := Newest) == DefaultFilters
  {
    if !HasActiveFilters(f) {
      assert f.tags == [];
    }
  }

  /** The label of the rating badge (`${rating}+★`); only its being non-empty matters here. */
  const RatingBadge := "+★"
  const FreeBadge := "Бесплатные"

  /** The badge entries before `.filter(Boolean)`. */
  function BadgeEntries(f: Filters): seq<string>
  {
    [f.genre, f.platform, if f.isFree == Some(true) then FreeBadge else "",
     if f.rating > 0.0 then RatingBadge else ""] + f.tags
  }

  /** `xs.filter(Boolean).length` for strings. */
  function CountNonEmpty(xs: seq<string>): (n: nat)
    ensures n <= |xs|
  {
    if xs == [] then 0 else (if xs[0] != "" then 1 else 0) + CountNonEmpty(xs[1..])
  }

  lemma {:induction false} CountNonEmptyAppend(a: seq<string>, b: seq<string>)
    ensures CountNonEmpty(a + b) == CountNonEmpty(a) + CountNonEmpty(b)
  {
    if a == [] {
      assert a + b == b;
    } else {
      assert (a + b)[1..] == a[1..] + b;
      CountNonEmptyAppend(a[1..], b);
    }
  }

  lemma {:induction false} CountAllNonEmpty(xs: seq<string>)
    requires forall x :: x in xs ==> x != ""
    ensures CountNonEmpty(xs) == |xs|
  {
    if xs != [] {
      assert xs[0] in xs;
      assert forall x :: x in xs[1..] ==> x in xs;
      CountAllNonEmpty(xs[1..]);
    }
  }

  function Indicator(b: bool): nat
  {
    if b then 1 else 0
  }

  /** The number on the filter badge. */
  function BadgeCount(f: Filters): (n: nat)
  {
    CountNonEmpty(BadgeEntries(f))
  }

  /** The badge counts a non-empty genre, a non-empty platform, a true free flag, a positive
      rating and every non-empty tag. Search text, a false free flag and the price range are
      not counted. */
  lemma BadgeCountClosedForm(f: Filters)
    ensures BadgeCount(f) ==
      Indicator(f.genre != "") + Indicator(f.platform != "") + Indicator(f.isFree == Some(true)) +
      Indicator(f.rating > 0.0) + CountNonEmpty(f.tags)
    ensures (forall t :: t in f.tags ==> t != "") ==>
      BadgeCount(f) == Indicator(f.genre != "") + Indicator(f.platform != "") +
                       Indicator(f.isFree == Some(true)) + Indicator(f.rating > 0.0) + |f.tags|
  {
    var head := [f.genre, f.platform, if f.isFree == Some(true) then FreeBadge else "",
                 if f.rating > 0.0 then RatingBadge else ""];
    CountNonEmptyAppend(head, f.tags);
    var h1, h2, h3 := head[1..], head[1..][1..], head[1..][1..][1..];
    assert CountNonEmpty(head) == Indicator(f.genre != "") + CountNonEmpty(h1);
    assert CountNonEmpty(h1) == Indicator(f.platform != "") + CountNonEmpty(h2);
    assert CountNonEmpty(h2) == Indicator(f.isFree == Some(true)) + CountNonEmpty(h3);
    assert h3[1..] == [];
    assert CountNonEmpty(h3) == Indicator(f.rating > 0.0);
    if forall t :: t in f.tags ==> t != "" {
      CountAllNonEmpty(f.tags);
    }
  }

  /** A counted badge entry is an active filter; the converse fails, so the badge can show 0
      while the panel reports active filters (for example, with only a search term). */
  lemma BadgeImpliesActive(f: Filters)
    ensures BadgeCount(f) > 0 ==> HasActiveFilters(f)
    ensures BadgeCount(DefaultFilters.(search := "x")) == 0 && HasActiveFilters(DefaultFilters.(search := "x"))
  {
    BadgeCountClosedForm(f);
    BadgeCountClosedForm(DefaultFilters.(search := "x"));
    if BadgeCount(f) > 0 && |f.tags| == 0 {
      assert CountNonEmpty(f.tags) == 0;
    }
  }

  // ---------------------------------------------------------------------------
  // Buttons and selects

  /** The free quick button: a true flag becomes `null`, anything else becomes true. */
  function ToggleFree(f: Filters): (r: Filters)
    ensures r == f.(isFree := r.isFree)
    ensures f.isFree == Some(true) ==> r.isFree == None
    ensures f.isFree != Some(true) ==> r.isFree == Some(true)
  {
    UpdateFilter(f, IsFreeKey, FreeFlag(if f.isFree == Some(true) then None else Some(true)))
  }

  /** From an unset or true flag, two presses restore the flag; a false flag, which the
      panel never sets, is lost. */
  lemma ToggleFreeTwice(f: Filters)
    ensures f.isFree != Some(false) ==> ToggleFree(ToggleFree(f)) == f
    ensures f.isFree == Some(false) ==> ToggleFree(ToggleFree(f)).isFree == None
  {
    match f.isFree {
      case None =>
      case Some(b) =>
        if b { assert f.isFree == Some(true); } else { assert f.isFree == Some(false); }
    }
  }

  const AllGenres := "Все жанры"
  const AllPlatforms := "Все платформы"

  /** The genre select: the "all genres" entry stores "", anything else is stored verbatim. */
  function SelectGenre(f: Filters, choice: string): (r: Filters)
    ensures r == f.(genre := r.genre)
    ensures r.genre != AllGenres
    ensures choice != AllGenres ==> r.genre == choice
    ensures choice == AllGenres ==> r.genre == ""
  {
    UpdateFilter(f, GenreKey, Str(if choice == AllGenres then "" else choice))
  }

  /** The platform select, with the "all platforms" entry. */
  function SelectPlatform(f: Filters, choice: string): (r: Filters)
    ensures r == f.(platform := r.platform)
    ensures r.platform != AllPlatforms
    ensures choice != AllPlatforms ==> r.platform == choice
    ensures choice == AllPlatforms ==> r.platform == ""
  {
    UpdateFilter(f, PlatformKey, Str(if choice == AllPlatforms then "" else choice))
  }

  // ---------------------------------------------------------------------------
  // The price slider

  /** The price slider's handler as written: both updates start from the same record, and the
      page keeps the second, so the new minimum is lost. */
  function PriceSliderAsWritten(f: Filters, min: real, max: real): (r: Filters)
    ensures r == f.(priceMax := max)
  {
    var first := UpdateFilter(f, PriceMinKey, Num(min));
    var second := UpdateFilter(f, PriceMaxKey, Num(max));
    assert first != second || min == f.priceMin;
    second
  }

  /** Dragging the lower thumb from the default record leaves the minimum at 0. */
  lemma PriceSliderLosesMinimum()
    ensures PriceSliderAsWritten(DefaultFilters, 100.0, 5000.0).priceMin == 0.0
    ensures PriceSliderAsWritten(DefaultFilters, 100.0, 5000.0) == DefaultFilters
  {
  }

  /** The evidently intended handler: both thumbs are stored. */
  function PriceSlider(f: Filters, min: real, max: real): (r: Filters)
    ensures r == f.(priceMin := min, priceMax := max)
  {
    UpdateFilter(UpdateFilter(f, PriceMinKey, Num(min)), PriceMaxKey, Num(max))
  }

  /** Storing a range inside the slider's bounds keeps the record in range, and a range narrower
      than 0..5000 makes the filters active. */
  lemma PriceSliderActivates(f: Filters, min: real, max: real)
    requires InSliderRange(f) && 0.0 <= min <= max <= 5000.0
    ensures InSliderRange(PriceSlider(f, min, max))
    ensures (min > 0.0 || max < 5000.0) ==> HasActiveFilters(PriceSlider(f, min, max))
  {
  }
}
