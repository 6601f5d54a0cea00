/** The catalogue card of src/components/SimpleGameCard.tsx: whether the cover image is used,
    the gradient drawn instead (two hues from a hash of the title), the platform badges cut
    to two plus a "+k" counter, and the free badge. */
module SimpleGameCard {
  import opened Common

  // ---------------------------------------------------------------------------
  // The cover image

  const DefaultPlaceholder := "/api/placeholder/300/400"

  /** `hasValidImage`: a non-empty image that is not a placeholder and has not failed to load. */
  predicate HasValidImage(image: string, imageError: bool)
  {
    image != "" && image != DefaultPlaceholder && !Contains(image, "placeholder") && !imageError
  }

  /** The default placeholder also contains the word, so its own test never decides. */
  lemma DefaultPlaceholderContainsWord()
    ensures Contains(DefaultPlaceholder, "placeholder")
    ensures forall image, e :: HasValidImage(image, e) <==>
      image != "" && !Contains(image, "placeholder") && !e
  {
    assert OccursAt(DefaultPlaceholder, "placeholder", 5);
  }

  // ---------------------------------------------------------------------------
  // JavaScript numbers used by the hash

  const Two31: int := 0x8000_0000
  const Two32: int := 0x1_0000_0000

  /** ECMAScript `ToInt32` of an integral number: wrap to 32 bits, read as two's complement. */
  function ToInt32(x: int): (r: int)
    ensures -Two31 <= r < Two31
    ensures (x - r) % Two32 == 0
    ensures -Two31 <= x < Two31 ==> r == x
  {
    var m := x % Two32;
    if m >= Two31 then m - Two32 else m
  }

  /** `h << 5`: the int32 of `h` shifted, wrapped back to int32. */
  function ShiftLeft5(h: int): (r: int)
    ensures -Two31 <= r < Two31
    ensures (h * 32 - r) % Two32 == 0
  {
    var v := ToInt32(h);
    var r := ToInt32(v * 32);
    WrapsCompose(h - v, v * 32 - r);
    assert h * 32 - r == (h - v) * 32 + (v * 32 - r);
    r
  }

  /** Scaling one multiple of 2^32 and adding another gives a multiple of 2^32. */
  lemma WrapsCompose(a: int, b: int)
    requires a % Two32 == 0 && b % Two32 == 0
    ensures (a * 32 + b) % Two32 == 0
  {
    var qa, qb := a / Two32, b / Two32;
    assert a == Two32 * qa && b == Two32 * qb;
    assert a * 32 + b == Two32 * (qa * 32 + qb);
  }

  /** A UTF-16 code unit, as `charCodeAt` returns it. */
  type CodeUnit = x: int | 0 <= x < 0x1_0000

  /** The UTF-16 encoding of a string: a character above the basic plane becomes a surrogate pair. */
  function Utf16(s: string): (units: seq<CodeUnit>)
    ensures |s| <= |units| <= 2 * |s|
    ensures (forall i :: 0 <= i < |s| ==> s[i] as int < 0x1_0000) ==>
      |units| == |s| && forall i :: 0 <= i < |s| ==> units[i] == s[i] as int
  {
    if s == [] then [] else CharUnits(s[0]) + Utf16(s[1..])
  }

  /** The code units of one character: itself in the basic plane, otherwise a surrogate pair. */
  function CharUnits(ch: char): seq<CodeUnit>
  {
    var c := ch as int;
    if c < 0x1_0000 then [c]
    else [0xD800 + (c - 0x1_0000) / 0x400, 0xDC00 + (c - 0x1_0000) % 0x400]
  }

  /** The encoding of a concatenation is the concatenation of the encodings. */
  lemma {:induction false} Utf16Append(a: string, b: string)
    ensures Utf16(a + b) == Utf16(a) + Utf16(b)
  {
    if a != [] {
      assert (a + b)[0] == a[0] && (a + b)[1..] == a[1..] + b;
      Utf16Append(a[1..], b);
    } else {
      assert a + b == b;
    }
  }

  /** A character above the basic plane becomes a high surrogate followed by a low surrogate,
      and the pair decodes back to the character. */
  lemma SurrogatePair(c: char)
    requires c as int >= 0x1_0000
    ensures |Utf16([c])| == 2
    ensures 0xD800 <= Utf16([c])[0] < 0xDC00 <= Utf16([c])[1] < 0xE000
    ensures 0x1_0000 + (Utf16([c])[0] as int - 0xD800) * 0x400 + (Utf16([c])[1] as int - 0xDC00) == c as int
  {
    assert [c][1..] == [];
  }

  /** One turn of the loop: `hash = code + ((hash << 5) - hash)`. The sum and difference are
      taken on numbers, not wrapped. */
  function HashStep(h: int, code: CodeUnit): int
  {
    code + (ShiftLeft5(h) - h)
  }

  /** The hash of a sequence of code units, folded from the left starting at 0. */
  function HashOf(units: seq<CodeUnit>): int
  {
    if units == [] then 0 else HashStep(HashOf(units[..|units| - 1]), units[|units| - 1])
  }

  /** Each character moves the hash by less than 2^31 + 2^16, so titles shorter than 2^21
      code units keep it below 2^53, where the number arithmetic is exact. */
  lemma {:induction false} HashBound(units: seq<CodeUnit>)
    ensures -|units| * (Two31 + 0x1_0000) <= HashOf(units) <= |units| * (Two31 + 0x1_0000)
  {
    if units != [] {
      HashBound(units[..|units| - 1]);
    }
  }

  // ---------------------------------------------------------------------------
  // The gradient

  /** The two hues of `generateGradient` (the CSS text around them is not modelled). */
  datatype Gradient = Gradient(hue1: int, hue2: int)

  function Abs(x: int): nat
  {
    if x < 0 then -x else x
  }

  /** The hues for a hash value: `|hash| % 360` and the hue 60 degrees further round. */
  function HuesOf(hash: int): (g: Gradient)
    ensures 0 <= g.hue1 < 360 && 0 <= g.hue2 < 360
    ensures g.hue2 == if g.hue1 < 300 then g.hue1 + 60 else g.hue1 - 300
    ensures Abs(hash) % 360 == g.hue1
  {
    var hue1 := Abs(hash) % 360;
    Gradient(hue1, (hue1 + 60) % 360)
  }

  /** The gradient of a title as a function of its text. */
  function GradientOf(title: string): Gradient
  {
    HuesOf(HashOf(Utf16(title)))
  }

  /** An untitled game is drawn from red to yellow. */
  lemma EmptyTitleGradient()
    ensures GradientOf("") == Gradient(0, 60)
  {
  }

  /** `generateGradient`: the loop over the title's code units, then the two hues. */
  method GenerateGradient(title: string) returns (g: Gradient)
    ensures g == GradientOf(title)
    ensures 0 <= g.hue1 < 360 && 0 <= g.hue2 < 360
  {
    var units := Utf16(title);
    var hash := 0;
    var i := 0;
    while i < |units|
      invariant 0 <= i <= |units|
      invariant hash == HashOf(units[..i])
    {
      assert units[..i + 1][..i] == units[..i];
      var shifted := ToInt32(ToInt32(hash) * 32);
      hash := units[i] + (shifted - hash);
      i := i + 1;
    }
    assert units[..i] == units;
    var hue1 := if hash < 0 then (-hash) % 360 else hash % 360;
    g := Gradient(hue1, (hue1 + 60) % 360);
  }

  // ---------------------------------------------------------------------------
  // Badges

  datatype Badge = PlatformBadge(platform: string) | MoreBadge(count: nat)

  /** `platforms.slice(0, 2)` as badges, then `+k` for the rest when there are more than two. */
  function PlatformBadges(platforms: seq<string>): (r: seq<Badge>)
    ensures |r| == if |platforms| <= 2 then |platforms| else 3
    ensures forall i :: 0 <= i < |r| && i < 2 ==> r[i] == PlatformBadge(platforms[i])
    ensures |platforms| > 2 ==> r[2] == MoreBadge(|platforms| - 2)
  {
    var shown := if |platforms| <= 2 then platforms else platforms[..2];
    seq(|shown|, i requires 0 <= i < |shown| => PlatformBadge(shown[i])) +
      (if |platforms| > 2 then [MoreBadge(|platforms| - 2)] else [])
  }

  /** How many platforms a row of badges stands for. */
  function Represented(badges: seq<Badge>): nat
  {
    if badges == [] then 0
    else Represented(badges[..|badges| - 1]) +
         match badges[|badges| - 1] { case PlatformBadge(_) => 1 case MoreBadge(k) => k }
  }

  /** The badges always account for every platform. */
  lemma BadgesAccountForAll(platforms: seq<string>)
    ensures Represented(PlatformBadges(platforms)) == |platforms|
  {
    var r := PlatformBadges(platforms);
    if |r| >= 1 {
      assert r[..1][..0] == [];
      assert Represented(r[..1]) == 1;
    }
    if |r| >= 2 {
      assert r[..2][..1] == r[..1];
      assert Represented(r[..2]) == 2;
    }
    if |platforms| > 2 {
      assert r[..3] == r;
      assert r[..3][..2] == r[..2];
    } else if |r| == 2 {
      assert r[..2] == r;
    } else if |r| == 1 {
      assert r[..1] == r;
    }
  }

  const FreeLabel := "Бесплатно"

  /** The free badge; a card whose `isFree` is not given counts as not free. */
  function FreeBadge(isFree: Option<bool>): (b: Option<string>)
    ensures b.Some? <==> isFree == Some(true)
    ensures b.Some? ==> b.value == FreeLabel
  {
    if isFree == Some(true) then Some(FreeLabel) else None
  }

  // ---------------------------------------------------------------------------
  // The card

  datatype Cover = Picture(src: string) | Fallback(gradient: Gradient)

  class Card {
    const title: string
    const image: string
    var imageError: bool
    var imageLoaded: bool

    constructor (title: string, image: string)
      ensures this.title == title && this.image == image && !imageError && !imageLoaded
    {
      this.title := title;
      this.image := image;
      imageError := false;
      imageLoaded := false;
    }

    /** The cover drawn: the picture while it is valid, the title's gradient otherwise. */
    function CoverShown(): (c: Cover)
      reads this
      ensures c.Picture? <==> HasValidImage(image, imageError)
      ensures c.Picture? ==> c.src == image
      ensures c.Fallback? ==> c.gradient == GradientOf(title)
    {
      if HasValidImage(image, imageError) then Picture(image) else Fallback(GradientOf(title))
    }

    /** `handleImageError`: from now on the gradient is drawn. */
    method HandleImageError()
      modifies this
      ensures imageError && imageLoaded == old(imageLoaded)
      ensures CoverShown() == Fallback(GradientOf(title))
    {
      imageError := true;
    }

    /** `handleImageLoad` */
    method HandleImageLoad()
      modifies this
      ensures imageLoaded && imageError == old(imageError)
      ensures CoverShown() == old(CoverShown())
    {
      imageLoaded := true;
    }
  }
}
