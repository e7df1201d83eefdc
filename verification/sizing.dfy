/** Density-aware sizing in `init`: the canvas backing store is the layout
    size times the device pixel ratio, a matching scale is applied to the
    context, and the display size is pinned through `style.width` and
    `style.height`. The ratio is a natural number, 0 standing for an absent
    or zero (falsy) `devicePixelRatio`. */
module Sizing {
  import opened Results
  import opened Render
  import opened Css

  /** The canvas after `init`: backing-store size, the context scale (None
      when `scale` is never called) and the two style strings. */
  datatype Surface = Surface(
    backingWidth: nat,
    backingHeight: nat,
    scale: Option<nat>,
    styleWidth: string,
    styleHeight: string)

  /** The density branch, given the style strings that were assigned. */
  function Configure(w: nat, h: nat, ratio: nat, styleWidth: string, styleHeight: string): (r: Surface)
    ensures ratio != 0 ==> r.backingWidth == w * ratio && r.backingHeight == h * ratio && r.scale == Some(ratio)
    ensures ratio == 0 ==> r.backingWidth == w && r.backingHeight == h && r.scale == None
    ensures r.styleWidth == styleWidth && r.styleHeight == styleHeight
  {
    if ratio != 0 then Surface(w * ratio, h * ratio, Some(ratio), styleWidth, styleHeight)
    else Surface(w, h, None, styleWidth, styleHeight)
  }

  /** The style assignment as written: the template appends `px` to the
      computed width, which already ends in `px`. */
  function StyleAsWritten(computed: string): string {
    computed + "px"
  }

  /** `init` as written, for a layout of `w` by `h` pixels. */
  function InitAsWritten(w: nat, h: nat, ratio: nat): (r: Surface)
    ensures r.styleWidth == Decimal(w) + "pxpx" && r.styleHeight == Decimal(h) + "pxpx"
    ensures r.backingWidth == Init(w, h, ratio).backingWidth && r.backingHeight == Init(w, h, ratio).backingHeight
    ensures r.scale == Init(w, h, ratio).scale
  {
    assert PxLength(w) + "px" == Decimal(w) + "pxpx";
    assert PxLength(h) + "px" == Decimal(h) + "pxpx";
    Configure(w, h, ratio, StyleAsWritten(PxLength(w)), StyleAsWritten(PxLength(h)))
  }

  /** `init` with the style strings it evidently means to assign: the layout
      size in pixels. The display size stays `w` by `h` whatever the ratio. */
  function Init(w: nat, h: nat, ratio: nat): (r: Surface)
    ensures ParsePxLength(r.styleWidth) == Some(w) && ParsePxLength(r.styleHeight) == Some(h)
    ensures ratio != 0 ==> r.backingWidth == w * ratio && r.backingHeight == h * ratio && r.scale == Some(ratio)
    ensures ratio == 0 ==> r.backingWidth == w && r.backingHeight == h && r.scale == None
  {
    PxLengthRoundTrip(w);
    PxLengthRoundTrip(h);
    Configure(w, h, ratio, PxLength(w), PxLength(h))
  }

  /** As written, the style strings are `"<w>pxpx"`, which is not a length:
      the assignment is rejected and the display size is not pinned. */
  lemma StyleAsWrittenRejected(w: nat, h: nat, ratio: nat)
    ensures ParsePxLength(InitAsWritten(w, h, ratio).styleWidth) == None
    ensures ParsePxLength(InitAsWritten(w, h, ratio).styleHeight) == None
  {
    DoubledUnitRejected(w);
    DoubledUnitRejected(h);
  }

  /** A concrete instance: a 300-pixel-wide canvas gets `"300pxpx"`. */
  lemma StyleAsWrittenExample()
    ensures InitAsWritten(300, 150, 2).styleWidth == "300pxpx"
  {
    assert Decimal(300) == "300";
  }

  /** Where a logical point lands in the backing store once the context's
      scale is applied. */
  function DevicePoint(s: Surface, p: Point): Point {
    match s.scale
    case Some(d) => Point(p.x * d, p.y * d)
    case None => p
  }

  predicate InRect(p: Point, w: int, h: int) {
    0 <= p.x < w && 0 <= p.y < h
  }

  lemma ScaledBounds(x: int, w: nat, d: nat)
    requires d > 0
    ensures 0 <= x < w <==> 0 <= x * d < w * d
  {
    if x < 0 {
      assert x * d <= x;
    } else if x >= w {
      assert x * d >= w * d;
    } else {
      assert x * d < w * d;
    }
  }

  /** Whatever the ratio, the scale maps the logical canvas exactly onto the
      backing store: a point is on the canvas iff the pixel it is drawn at
      is inside the backing store. Callers draw in logical coordinates. */
  lemma DevicePointCoversBacking(w: nat, h: nat, ratio: nat, p: Point)
    ensures InRect(p, w, h) <==>
            InRect(DevicePoint(Init(w, h, ratio), p), Init(w, h, ratio).backingWidth, Init(w, h, ratio).backingHeight)
  {
    if ratio != 0 {
      ScaledBounds(p.x, w, ratio);
      ScaledBounds(p.y, h, ratio);
    }
  }
}
