/** src/utils/TextureRenderer.ts: the size of one atlas page and the
    geometry of the blits that draw each sprite into it.  Pixels are not
    modelled: the page buffer is the ordered list of blits drawn into it,
    each a destination rectangle of the page and the rectangle of the
    sprite image it samples. */
module TextureRendering {
  import opened Wrappers
  import opened Geometry

  /** `{x, y, w, h}` of a placed frame or of a sprite's source rectangle. */
  datatype Frame = Frame(x: int, y: int, w: nat, h: nat)

  datatype Size = Size(w: nat, h: nat)

  /** One `TextureRendererData` entry: where the packer put the sprite and
      which part of its source image is drawn. */
  datatype Item = Item(
    frame: Frame,
    rotated: bool,
    spriteSourceSize: Frame,
    sourceSize: Size,
    skipRender: bool)

  /** The options `getSize` and `renderItem` read.  An absent number reads
      as 0, as `options.width || 0` does. */
  datatype RenderOptions = RenderOptions(
    width: Option<nat>,
    height: Option<nat>,
    fixedSize: bool,
    powerOfTwo: bool,
    padding: Option<nat>,
    extrude: Option<nat>)

  datatype PageSize = PageSize(width: nat, height: nat)

  /** One call of `buffer.blit`: the page rectangle written and the
      rectangle of the (rotated) sprite image it is sampled from. */
  datatype Blit = Blit(dest: Rect, sample: Rect)

  function OrZero(v: Option<nat>): nat {
    v.GetOr(0)
  }

  // ---------------------------------------------------------------------
  // getSize

  /** Right edge of an item as placed: a rotated frame occupies h columns. */
  function PlacedRight(item: Item): int {
    item.frame.x + (if item.rotated then item.frame.h else item.frame.w)
  }

  function PlacedBottom(item: Item): int {
    item.frame.y + (if item.rotated then item.frame.w else item.frame.h)
  }

  /** The running maximum of `getSize`'s loop, which starts at 0. */
  function MaxRight(items: seq<Item>): nat {
    if |items| == 0 then 0
    else
      var m := MaxRight(items[..|items| - 1]);
      var w := PlacedRight(items[|items| - 1]);
      if w > m then w else m
  }

  function MaxBottom(items: seq<Item>): nat {
    if |items| == 0 then 0
    else
      var m := MaxBottom(items[..|items| - 1]);
      var h := PlacedBottom(items[|items| - 1]);
      if h > m then h else m
  }

  lemma {:induction false} MaxRightIsMax(items: seq<Item>)
    ensures forall k :: 0 <= k < |items| ==> PlacedRight(items[k]) <= MaxRight(items)
    ensures MaxRight(items) == 0 || exists k :: 0 <= k < |items| && PlacedRight(items[k]) == MaxRight(items)
  {
    if |items| > 0 {
      var init := items[..|items| - 1];
      MaxRightIsMax(init);
      assert forall k :: 0 <= k < |init| ==> init[k] == items[k];
    }
  }

  lemma {:induction false} MaxBottomIsMax(items: seq<Item>)
    ensures forall k :: 0 <= k < |items| ==> PlacedBottom(items[k]) <= MaxBottom(items)
    ensures MaxBottom(items) == 0 || exists k :: 0 <= k < |items| && PlacedBottom(items[k]) == MaxBottom(items)
  {
    if |items| > 0 {
      var init := items[..|items| - 1];
      MaxBottomIsMax(init);
      assert forall k :: 0 <= k < |init| ==> init[k] == items[k];
    }
  }

  predicate IsPow2(n: nat) {
    n == 1 || (n >= 2 && n % 2 == 0 && IsPow2(n / 2))
  }

  /** The integer meaning of the `Math.log2`/`Math.round`/`Math.pow`
      rounding: the smallest power of two not below `n`, and 0 for 0. */
  function CeilPow2(n: nat): (r: nat)
    ensures n == 0 ==> r == 0
    ensures n >= 1 ==> IsPow2(r) && n <= r && (r == 1 || r / 2 < n)
  {
    if n <= 1 then n else 2 * CeilPow2((n + 1) / 2)
  }

  /** Of two powers of two, the one below twice the other is not above it. */
  lemma {:induction false} Pow2Order(a: nat, b: nat)
    requires IsPow2(a) && IsPow2(b) && a < 2 * b
    ensures a <= b
  {
    if b >= 2 && a >= 2 {
      Pow2Order(a / 2, b / 2);
    }
  }

  /** Rounding up never shrinks a side, stays below twice it, and gives
      the least power of two that is at least the side. */
  lemma CeilPow2IsLeast(n: nat, p: nat)
    requires n >= 1
    requires IsPow2(p) && p >= n
    ensures n <= CeilPow2(n) < 2 * n
    ensures CeilPow2(n) <= p
  {
    var r := CeilPow2(n);
    if r >= 2 {
      Pow2Order(r, p);
    }
  }

  /** Page size before power-of-two rounding. */
  function TightSize(data: seq<Item>, options: RenderOptions): PageSize {
    if options.fixedSize then
      PageSize(OrZero(options.width), OrZero(options.height))
    else
      var margin := OrZero(options.padding) + OrZero(options.extrude);
      PageSize(MaxRight(data) + margin, MaxBottom(data) + margin)
  }

  function SizeOf(data: seq<Item>, options: RenderOptions): PageSize {
    var t := TightSize(data, options);
    if options.powerOfTwo then PageSize(CeilPow2(t.width), CeilPow2(t.height)) else t
  }

  /** `TextureRenderer.getSize`. */
  method GetSize(data: seq<Item>, options: RenderOptions) returns (size: PageSize)
    ensures size == SizeOf(data, options)
  {
    var width: nat := OrZero(options.width);
    var height: nat := OrZero(options.height);
    var padding := OrZero(options.padding);
    var extrude := OrZero(options.extrude);

    if !options.fixedSize {
      width := 0;
      height := 0;
      for i := 0 to |data|
        invariant width == MaxRight(data[..i])
        invariant height == MaxBottom(data[..i])
      {
        var item := data[i];
        var w := item.frame.x + item.frame.w;
        var h := item.frame.y + item.frame.h;
        if item.rotated {
          w := item.frame.x + item.frame.h;
          h := item.frame.y + item.frame.w;
        }
        if w > width {
          width := w;
        }
        if h > height {
          height := h;
        }
        assert data[..i + 1][..i] == data[..i];
      }
      assert data[..|data|] == data;
      width := width + padding + extrude;
      height := height + padding + extrude;
    }

    if options.powerOfTwo {
      width := CeilPow2(width);
      height := CeilPow2(height);
    }
    size := PageSize(width, height);
  }

  /** Without `fixedSize` every placed item, plus the padding and extrude
      margins, ends inside the page; before rounding, each side is exactly
      the margin plus the farthest edge (or the margin alone, for no item
      reaching past 0). */
  lemma SizeBoundsEveryItem(data: seq<Item>, options: RenderOptions)
    requires !options.fixedSize
    ensures var s := SizeOf(data, options);
      var margin := OrZero(options.padding) + OrZero(options.extrude);
      forall k :: 0 <= k < |data| ==>
        PlacedRight(data[k]) + margin <= s.width && PlacedBottom(data[k]) + margin <= s.height
    ensures var t := TightSize(data, options);
      var margin := OrZero(options.padding) + OrZero(options.extrude);
      && (t.width == margin || exists k :: 0 <= k < |data| && PlacedRight(data[k]) + margin == t.width)
      && (t.height == margin || exists k :: 0 <= k < |data| && PlacedBottom(data[k]) + margin == t.height)
  {
    MaxRightIsMax(data);
    MaxBottomIsMax(data);
    var t := TightSize(data, options);
    if options.powerOfTwo {
      if t.width >= 1 {
        CeilPow2IsLeast(t.width, CeilPow2(t.width));
      }
      if t.height >= 1 {
        CeilPow2IsLeast(t.height, CeilPow2(t.height));
      }
    }
  }

  /** With no items and no fixed size, each side is the margin alone
      (then rounded when `powerOfTwo` is set). */
  lemma EmptyPageIsMargin(options: RenderOptions)
    requires !options.fixedSize
    ensures var margin := OrZero(options.padding) + OrZero(options.extrude);
      TightSize([], options) == PageSize(margin, margin)
  {
  }

  /** A fixed-size page keeps the configured size (0 when absent) unless
      it is rounded to a power of two. */
  lemma FixedSizeKeepsOptions(data: seq<Item>, options: RenderOptions)
    requires options.fixedSize && !options.powerOfTwo
    ensures SizeOf(data, options) == PageSize(OrZero(options.width), OrZero(options.height))
  {
  }

  /** With `powerOfTwo`, each side of at least 1 is the least power of two
      not below its unrounded value, and less than twice that value. */
  lemma PowerOfTwoRounding(data: seq<Item>, options: RenderOptions)
    requires options.powerOfTwo
    ensures var t, s := TightSize(data, options), SizeOf(data, options);
      && (t.width >= 1 ==> IsPow2(s.width) && t.width <= s.width < 2 * t.width)
      && (t.height >= 1 ==> IsPow2(s.height) && t.height <= s.height < 2 * t.height)
      && (forall p: nat :: IsPow2(p) && p >= t.width >= 1 ==> s.width <= p)
      && (forall p: nat :: IsPow2(p) && p >= t.height >= 1 ==> s.height <= p)
  {
    var t := TightSize(data, options);
    forall p: nat | IsPow2(p) && p >= t.width >= 1 ensures CeilPow2(t.width) <= p {
      CeilPow2IsLeast(t.width, p);
    }
    forall p: nat | IsPow2(p) && p >= t.height >= 1 ensures CeilPow2(t.height) <= p {
      CeilPow2IsLeast(t.height, p);
    }
    if t.width >= 1 {
      CeilPow2IsLeast(t.width, CeilPow2(t.width));
    }
    if t.height >= 1 {
      CeilPow2IsLeast(t.height, CeilPow2(t.height));
    }
  }

  // ---------------------------------------------------------------------
  // renderItem

  /** The locals `sx, sy, sw, sh, ow, oh` of `renderItem` after the
      rotation step: the sampled rectangle and the size of the image
      it is sampled from. */
  datatype Orientation = Orientation(sx: int, sy: int, sw: nat, sh: nat, ow: nat, oh: nat)

  /** Unrotated, the sprite's source rectangle is sampled from an image of
      the source size.  Rotated by 90 degrees clockwise, the image's sides
      swap, the sampled rectangle's sides swap, its top edge is the
      sprite's left offset and the gap to its right is the sprite's top
      offset. */
  function Orient(item: Item): (r: Orientation)
    ensures var sss, ss := item.spriteSourceSize, item.sourceSize;
      && (!item.rotated ==> SampledRect(r) == Rect(sss.x, sss.y, sss.w, sss.h) && (r.ow, r.oh) == (ss.w, ss.h))
      && (item.rotated ==>
            && (r.sw, r.sh) == (sss.h, sss.w) && (r.ow, r.oh) == (ss.h, ss.w)
            && r.sy == sss.x && r.ow - (r.sx + r.sw) == sss.y)
  {
    var sss, ss := item.spriteSourceSize, item.sourceSize;
    if item.rotated then
      Orientation(ss.h - sss.h - sss.y, sss.x, sss.h, sss.w, ss.h, ss.w)
    else
      Orientation(sss.x, sss.y, sss.w, sss.h, ss.w, ss.h)
  }

  function SampledRect(o: Orientation): Rect {
    Rect(o.sx, o.sy, o.sw, o.sh)
  }

  function ImageBounds(o: Orientation): Rect {
    Rect(0, 0, o.ow, o.oh)
  }

  /** The 90-degree remapping keeps the area and maps a sub-rectangle
      inside the source bounds to one inside the rotated bounds, and back. */
  lemma RotationKeepsInside(item: Item)
    ensures var o, sss := Orient(item), item.spriteSourceSize;
      && o.sw * o.sh == sss.w * sss.h
      && o.ow * o.oh == item.sourceSize.w * item.sourceSize.h
      && (StaticHitTest(SampledRect(o), ImageBounds(o))
          <==> StaticHitTest(Rect(sss.x, sss.y, sss.w, sss.h), Rect(0, 0, item.sourceSize.w, item.sourceSize.h)))
  {
  }

  /** The eight extrusion blits, in the order `renderItem` issues them:
      four corners, then the left, right, top and bottom strips. */
  function ExtrusionBlits(o: Orientation, dx: int, dy: int, e: nat): seq<Blit> {
    [ Blit(Rect(dx - e, dy - e, e, e), Rect(0, 0, 1, 1)),
      Blit(Rect(dx + o.sw, dy - e, e, e), Rect(o.ow - 1, 0, 1, 1)),
      Blit(Rect(dx - e, dy + o.sh, e, e), Rect(0, o.oh - 1, 1, 1)),
      Blit(Rect(dx + o.sw, dy + o.sh, e, e), Rect(o.ow - 1, o.oh - 1, 1, 1)),
      Blit(Rect(dx - e, dy, e, o.sh), Rect(0, o.sy, 1, o.sh)),
      Blit(Rect(dx + o.sw, dy, e, o.sh), Rect(o.ow - 1, o.sy, 1, o.sh)),
      Blit(Rect(dx, dy - e, o.sw, e), Rect(o.sx, 0, o.sw, 1)),
      Blit(Rect(dx, dy + o.sh, o.sw, e), Rect(o.sx, o.oh - 1, o.sw, 1)) ]
  }

  function InteriorBlit(item: Item): Blit {
    var o := Orient(item);
    Blit(Rect(item.frame.x, item.frame.y, o.sw, o.sh), SampledRect(o))
  }

  /** The blits `renderItem` draws for one item with extrude `e`. */
  function ItemBlits(item: Item, e: nat): seq<Blit> {
    if item.skipRender then []
    else
      (if e > 0 then ExtrusionBlits(Orient(item), item.frame.x, item.frame.y, e) else [])
      + [InteriorBlit(item)]
  }

  /** The block an extruded item covers: the interior grown by `e` on
      every side. */
  function ExtrudedBlock(item: Item, e: nat): Rect {
    var o := Orient(item);
    Rect(item.frame.x - e, item.frame.y - e, o.sw + 2 * e, o.sh + 2 * e)
  }

  /** A skipped item draws nothing; otherwise the interior is drawn last,
      after eight extrusion blits when `e > 0` and alone when `e == 0`. */
  lemma ItemBlitsShape(item: Item, e: nat)
    ensures item.skipRender ==> ItemBlits(item, e) == []
    ensures !item.skipRender ==>
      && |ItemBlits(item, e)| == (if e > 0 then 9 else 1)
      && ItemBlits(item, e)[|ItemBlits(item, e)| - 1] == InteriorBlit(item)
  {
  }

  /** With `e > 0` the nine destination rectangles tile the extruded block:
      each lies inside it, no two share a pixel, and every pixel of the
      block is drawn by one of them. */
  lemma ExtrusionTilesBlock(item: Item, e: nat)
    requires !item.skipRender && e > 0
    ensures var bs, block := ItemBlits(item, e), ExtrudedBlock(item, e);
      && |bs| == 9
      && (forall k :: 0 <= k < 9 ==> StaticHitTest(bs[k].dest, block))
      && (forall i, j :: 0 <= i < j < 9 ==> Disjoint(bs[i].dest, bs[j].dest))
      && (forall px, py :: Covers(block, px, py) ==> exists k :: 0 <= k < 9 && Covers(bs[k].dest, px, py))
  {
    var bs, block := ItemBlits(item, e), ExtrudedBlock(item, e);
    var o, dx, dy := Orient(item), item.frame.x, item.frame.y;
    forall px, py | Covers(block, px, py)
      ensures exists k :: 0 <= k < 9 && Covers(bs[k].dest, px, py)
    {
      var col := if px < dx then 0 else if px < dx + o.sw then 1 else 2;
      var row := if py < dy then 0 else if py < dy + o.sh then 1 else 2;
      var k := [[0, 6, 1], [4, 8, 5], [2, 7, 3]][row][col];
      assert Covers(bs[k].dest, px, py);
    }
  }

  /** Extrusion samples the full image's outer rows and columns (column 0
      or `ow - 1`, row 0 or `oh - 1`), not the edges of the trimmed
      rectangle; every sample lies inside the image when the sprite's
      source rectangle lies inside its source size. */
  lemma ExtrusionSamplesImageEdges(item: Item, e: nat)
    requires !item.skipRender && e > 0
    ensures var bs, o := ItemBlits(item, e), Orient(item);
      forall k :: 0 <= k < 8 ==>
        (bs[k].sample.x == 0 || bs[k].sample.x == o.ow - 1) ||
        (bs[k].sample.y == 0 || bs[k].sample.y == o.oh - 1)
    ensures var sss, ss := item.spriteSourceSize, item.sourceSize;
      StaticHitTest(Rect(sss.x, sss.y, sss.w, sss.h), Rect(0, 0, ss.w, ss.h)) && ss.w >= 1 && ss.h >= 1 ==>
        forall k :: 0 <= k < 9 ==> StaticHitTest(ItemBlits(item, e)[k].sample, ImageBounds(Orient(item)))
  {
    RotationKeepsInside(item);
  }

  // ---------------------------------------------------------------------
  // render: the whole page

  function PageBlits(data: seq<Item>, e: nat): seq<Blit> {
    if |data| == 0 then [] else PageBlits(data[..|data| - 1], e) + ItemBlits(data[|data| - 1], e)
  }

  /** The frame the packer placed has the size of the sprite's source
      rectangle (as the packing step produces it). */
  predicate FrameMatchesSprite(item: Item) {
    item.frame.w == item.spriteSourceSize.w && item.frame.h == item.spriteSourceSize.h
  }

  lemma {:induction false} PageBlitsFromItems(data: seq<Item>, e: nat, b: Blit)
    requires b in PageBlits(data, e)
    ensures exists k :: 0 <= k < |data| && b in ItemBlits(data[k], e)
  {
    var n := |data|;
    if b !in ItemBlits(data[n - 1], e) {
      PageBlitsFromItems(data[..n - 1], e, b);
      var k :| 0 <= k < n - 1 && b in ItemBlits(data[..n - 1][k], e);
      assert data[..n - 1][k] == data[k];
    }
  }

  /** Every blit of one item ends at most `e` past the item's placed
      right and bottom edges. */
  lemma ItemBlitsEndNearFrame(item: Item, e: nat)
    requires FrameMatchesSprite(item)
    ensures forall b :: b in ItemBlits(item, e) ==>
      b.dest.x + b.dest.width <= PlacedRight(item) + e && b.dest.y + b.dest.height <= PlacedBottom(item) + e
  {
  }

  /** Without `fixedSize`, every blit of every item, extrusion included,
      ends within the page on the right and at the bottom. */
  lemma BlitsEndWithinPage(data: seq<Item>, options: RenderOptions)
    requires !options.fixedSize
    requires forall k :: 0 <= k < |data| ==> FrameMatchesSprite(data[k])
    ensures var s := SizeOf(data, options);
      forall b :: b in PageBlits(data, OrZero(options.extrude)) ==>
        b.dest.x + b.dest.width <= s.width && b.dest.y + b.dest.height <= s.height
  {
    var e := OrZero(options.extrude);
    var s := SizeOf(data, options);
    SizeBoundsEveryItem(data, options);
    forall b | b in PageBlits(data, e)
      ensures b.dest.x + b.dest.width <= s.width && b.dest.y + b.dest.height <= s.height
    {
      PageBlitsFromItems(data, e, b);
      var k :| 0 <= k < |data| && b in ItemBlits(data[k], e);
      ItemBlitsEndNearFrame(data[k], e);
      assert PlacedRight(data[k]) + e <= s.width && PlacedBottom(data[k]) + e <= s.height;
    }
  }

  /** A page is a texture of `width` x `height` whose buffer has received
      the blits of its items, in item order. */
  class TextureRenderer {
    var width: nat
    var height: nat
    var data: seq<Item>
    var blits: seq<Blit>

    constructor(data: seq<Item>, options: RenderOptions)
      ensures this.data == data
      ensures PageSize(width, height) == SizeOf(data, options)
      ensures blits == PageBlits(data, OrZero(options.extrude))
    {
      this.data := data;
      width := 0;
      height := 0;
      blits := [];
      new;
      Render(data, options);
    }

    /** `render`: size the page, then draw every item in order. */
    method Render(data: seq<Item>, options: RenderOptions)
      modifies this`width, this`height, this`blits
      ensures PageSize(width, height) == SizeOf(data, options)
      ensures blits == PageBlits(data, OrZero(options.extrude))
    {
      var size := GetSize(data, options);
      width := size.width;
      height := size.height;
      blits := [];
      for i := 0 to |data|
        invariant PageSize(width, height) == size
        invariant blits == PageBlits(data[..i], OrZero(options.extrude))
      {
        RenderItem(data[i], options);
        assert data[..i + 1][..i] == data[..i];
      }
      assert data[..|data|] == data;
    }

    /** `renderItem`: remap through the rotation, draw the extrusion
        border when `extrude` is set, then the interior. */
    method RenderItem(item: Item, options: RenderOptions)
      modifies this`blits
      ensures blits == old(blits) + ItemBlits(item, OrZero(options.extrude))
    {
      if !item.skipRender {
        var dx: int, dy: int := item.frame.x, item.frame.y;
        var sx: int, sy: int := item.spriteSourceSize.x, item.spriteSourceSize.y;
        var sw: nat, sh: nat := item.spriteSourceSize.w, item.spriteSourceSize.h;
        var ow: int, oh: int := item.sourceSize.w, item.sourceSize.h;

        if item.rotated {
          sx := item.sourceSize.h - item.spriteSourceSize.h - item.spriteSourceSize.y;
          sy := item.spriteSourceSize.x;
          sw := item.spriteSourceSize.h;
          sh := item.spriteSourceSize.w;
          ow := item.sourceSize.h;
          oh := item.sourceSize.w;
        }

        ghost var o := Orient(item);
        assert o == Orientation(sx, sy, sw, sh, ow, oh);
        ghost var before := blits;
        var e := OrZero(options.extrude);
        if e > 0 {
          // corners
          blits := blits + [Blit(Rect(dx - e, dy - e, e, e), Rect(0, 0, 1, 1))];
          blits := blits + [Blit(Rect(dx + sw, dy - e, e, e), Rect(ow - 1, 0, 1, 1))];
          blits := blits + [Blit(Rect(dx - e, dy + sh, e, e), Rect(0, oh - 1, 1, 1))];
          blits := blits + [Blit(Rect(dx + sw, dy + sh, e, e), Rect(ow - 1, oh - 1, 1, 1))];
          // borders
          blits := blits + [Blit(Rect(dx - e, dy, e, sh), Rect(0, sy, 1, sh))];
          blits := blits + [Blit(Rect(dx + sw, dy, e, sh), Rect(ow - 1, sy, 1, sh))];
          blits := blits + [Blit(Rect(dx, dy - e, sw, e), Rect(sx, 0, sw, 1))];
          blits := blits + [Blit(Rect(dx, dy + sh, sw, e), Rect(sx, oh - 1, sw, 1))];
          assert blits == before + ExtrusionBlits(o, dx, dy, e);
        }

        blits := blits + [Blit(Rect(dx, dy, sw, sh), Rect(sx, sy, sw, sh))];
      }
    }
  }
}
