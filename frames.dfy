/**
  The frame compositor of the ship-layout renderer: the nine-slice room frame,
  the two-part door frame with its stretched header, and the decoration that
  puts the door frame into the room frame.
*/
module Frames {
  import opened Wrappers
  import opened Sprites

  /** `from_left`: the width of the left and top border parts (12 for a 25 pixel tile). */
  function FromLeft(t: nat): nat {
    t / 2
  }

  /** `from_right`: the width of the right and bottom border parts (13 for a 25 pixel tile). */
  function FromRight(t: nat): nat {
    t - t / 2
  }

  /** The eight fragments cut out of the frame template. */
  datatype FramePieces = FramePieces(
    upperLeft: Sprite, upperRight: Sprite, bottomLeft: Sprite, bottomRight: Sprite,
    topCenter: Sprite, bottomCenter: Sprite, leftCenter: Sprite, rightCenter: Sprite)

  function CutPieces(tpl: Sprite, t: nat): (p: FramePieces)
    ensures p.upperLeft.width == FromLeft(t) && p.upperLeft.height == FromLeft(t)
    ensures p.upperRight.width == FromRight(t) && p.upperRight.height == FromLeft(t)
    ensures p.bottomLeft.width == FromLeft(t) && p.bottomLeft.height == FromRight(t)
    ensures p.bottomRight.width == FromRight(t) && p.bottomRight.height == FromRight(t)
    ensures p.topCenter.width == t && p.topCenter.height == FromLeft(t)
    ensures p.bottomCenter.width == t && p.bottomCenter.height == FromRight(t)
    ensures p.leftCenter.width == FromLeft(t) && p.leftCenter.height == t
    ensures p.rightCenter.width == FromRight(t) && p.rightCenter.height == t
  {
    var fl, fr := FromLeft(t), FromRight(t);
    var w, h := tpl.width, tpl.height;
    FramePieces(
      Crop(tpl, Box(0, 0, fl, fl)),
      Crop(tpl, Box(w - fr, 0, w, fl)),
      Crop(tpl, Box(0, h - fr, fl, h)),
      Crop(tpl, Box(w - fr, h - fr, w, h)),
      Crop(tpl, Box(fl + 1, 0, fl + 1 + t, fl)),
      Crop(tpl, Box(fl + 1, h - fr, fl + 1 + t, h)),
      Crop(tpl, Box(0, fl + 1, fl, fl + 1 + t)),
      Crop(tpl, Box(w - fr, fl + 1, w, fl + 1 + t)))
  }

  /** The four corners, pasted in the order upper left, upper right, bottom left, bottom right. */
  function CornerLayers(p: FramePieces, w: int, h: int, t: nat): seq<Layer> {
    var fl := FromLeft(t);
    [ Pasted(p.upperLeft, 0, 0, true),
      Pasted(p.upperRight, w - fl - 1, 0, true),
      Pasted(p.bottomLeft, 0, h - fl - 1, true),
      Pasted(p.bottomRight, w - fl - 1, h - fl - 1, true) ]
  }

  /** The first `m` iterations of the `for x` loop: a top and a bottom strip each. */
  function HorizontalStrips(p: FramePieces, h: int, t: nat, m: nat): (ls: seq<Layer>)
    ensures |ls| == 2 * m
    decreases m
  {
    if m == 0 then []
    else
      var x := FromLeft(t) + (m - 1) * t;
      HorizontalStrips(p, h, t, m - 1) + [Pasted(p.topCenter, x, 0, true), Pasted(p.bottomCenter, x, h - FromRight(t), true)]
  }

  /** The first `m` iterations of the `for y` loop: a left and a right strip each, pasted without a mask. */
  function VerticalStrips(p: FramePieces, w: int, t: nat, m: nat): (ls: seq<Layer>)
    ensures |ls| == 2 * m
    decreases m
  {
    if m == 0 then []
    else
      var y := FromLeft(t) + (m - 1) * t;
      VerticalStrips(p, w, t, m - 1) + [Pasted(p.leftCenter, 0, y, false), Pasted(p.rightCenter, w - FromRight(t), y, false)]
  }

  /** `len(range(1, n))`. */
  function StripCount(n: nat): nat {
    if n == 0 then 0 else n - 1
  }

  /** The room frame of a `roomW` x `roomH` tile room stitched from the template. */
  function FrameSprite(tpl: Sprite, roomW: nat, roomH: nat, t: nat): Sprite {
    Stitched(CutPieces(tpl, t), roomW, roomH, t)
  }

  /** The frame of a `roomW` x `roomH` tile room stitched from already cut pieces. */
  function Stitched(p: FramePieces, roomW: nat, roomH: nat, t: nat): Sprite {
    var w, h := roomW * t, roomH * t;
    Sprite(w, h, Blank, CornerLayers(p, w, h, t) + HorizontalStrips(p, h, t, StripCount(roomW)) + VerticalStrips(p, w, t, StripCount(roomH)))
  }

  /** The sizes `CutPieces` gives the eight pieces. */
  predicate PieceSizes(p: FramePieces, t: nat) {
    && p.upperLeft.width == FromLeft(t) && p.upperLeft.height == FromLeft(t)
    && p.upperRight.width == FromRight(t) && p.upperRight.height == FromLeft(t)
    && p.bottomLeft.width == FromLeft(t) && p.bottomLeft.height == FromRight(t)
    && p.bottomRight.width == FromRight(t) && p.bottomRight.height == FromRight(t)
    && p.topCenter.width == t && p.topCenter.height == FromLeft(t)
    && p.bottomCenter.width == t && p.bottomCenter.height == FromRight(t)
    && p.leftCenter.width == FromLeft(t) && p.leftCenter.height == t
    && p.rightCenter.width == FromRight(t) && p.rightCenter.height == t
  }

  /** `make_room_frame_sprite`: the canvas is `create_empty_room_sprite`, taken to be `roomW*t` by `roomH*t`. */
  method MakeRoomFrameSprite(store: Store, frameId: SpriteId, roomW: nat, roomH: nat, t: nat) returns (r: Result<Sprite, Error>)
    ensures r.Ok? <==> frameId in store.sizes
    ensures r.Err? ==> r.error == AssetNotFound(frameId)
    ensures r.Ok? ==> r.value == FrameSprite(Load(store, frameId).value, roomW, roomH, t)
  {
    var loaded := Load(store, frameId);
    if loaded.Err? {
      return Err(loaded.error);
    }
    var tpl := loaded.value;
    var result := NewSprite(roomW * t, roomH * t);
    var fromLeft := t / 2;
    var p := CutPieces(tpl, t);

    result := Paste(result, p.upperLeft, 0, 0, true);
    result := Paste(result, p.upperRight, result.width - fromLeft - 1, 0, true);
    result := Paste(result, p.bottomLeft, 0, result.height - fromLeft - 1, true);
    result := Paste(result, p.bottomRight, result.width - fromLeft - 1, result.height - fromLeft - 1, true);
    assert result.layers == CornerLayers(p, roomW * t, roomH * t, t);
    var withRows := PasteRowStrips(result, p, roomW, t);
    var framed := PasteColumnStrips(withRows, p, roomH, t);
    return Ok(framed);
  }

  /** The `for x` loop: a top and a bottom strip for every inner column. */
  method PasteRowStrips(s: Sprite, p: FramePieces, roomW: nat, t: nat) returns (r: Sprite)
    ensures r.width == s.width && r.height == s.height && r.origin == s.origin
    ensures r.layers == s.layers + HorizontalStrips(p, s.height, t, StripCount(roomW))
  {
    var fromLeft := t / 2;
    var fromRight := t - fromLeft;
    r := s;
    var x := 1;
    while x < roomW
      invariant 1 <= x <= (if roomW == 0 then 1 else roomW)
      invariant r.width == s.width && r.height == s.height && r.origin == s.origin
      invariant r.layers == s.layers + HorizontalStrips(p, s.height, t, x - 1)
    {
      r := Paste(r, p.topCenter, fromLeft + (x - 1) * t, 0, true);
      r := Paste(r, p.bottomCenter, fromLeft + (x - 1) * t, r.height - fromRight, true);
      x := x + 1;
    }
  }

  /** The `for y` loop: a left and a right strip for every inner row. */
  method PasteColumnStrips(s: Sprite, p: FramePieces, roomH: nat, t: nat) returns (r: Sprite)
    ensures r.width == s.width && r.height == s.height && r.origin == s.origin
    ensures r.layers == s.layers + VerticalStrips(p, s.width, t, StripCount(roomH))
  {
    var fromLeft := t / 2;
    var fromRight := t - fromLeft;
    r := s;
    var y := 1;
    while y < roomH
      invariant 1 <= y <= (if roomH == 0 then 1 else roomH)
      invariant r.width == s.width && r.height == s.height && r.origin == s.origin
      invariant r.layers == s.layers + VerticalStrips(p, s.width, t, y - 1)
    {
      r := Paste(r, p.leftCenter, 0, fromLeft + (y - 1) * t, false);
      r := Paste(r, p.rightCenter, r.width - fromRight, fromLeft + (y - 1) * t, false);
      y := y + 1;
    }
  }

  lemma {:induction false} HorizontalStripAt(p: FramePieces, h: int, t: nat, m: nat, k: nat)
    requires k < m
    ensures HorizontalStrips(p, h, t, m)[2 * k] == Pasted(p.topCenter, FromLeft(t) + k * t, 0, true)
    ensures HorizontalStrips(p, h, t, m)[2 * k + 1] == Pasted(p.bottomCenter, FromLeft(t) + k * t, h - FromRight(t), true)
    decreases m
  {
    if k < m - 1 {
      HorizontalStripAt(p, h, t, m - 1, k);
    }
  }

  lemma {:induction false} VerticalStripAt(p: FramePieces, w: int, t: nat, m: nat, k: nat)
    requires k < m
    ensures VerticalStrips(p, w, t, m)[2 * k] == Pasted(p.leftCenter, 0, FromLeft(t) + k * t, false)
    ensures VerticalStrips(p, w, t, m)[2 * k + 1] == Pasted(p.rightCenter, w - FromRight(t), FromLeft(t) + k * t, false)
    decreases m
  {
    if k < m - 1 {
      VerticalStripAt(p, w, t, m - 1, k);
    }
  }

  /** The `j`-th top strip of a stitched frame (the first paste of the `j`-th `for x` iteration). */
  function TopStrip(s: Sprite, j: nat): Layer
    requires 4 + 2 * j < |s.layers|
  {
    s.layers[4 + 2 * j]
  }

  /** The `j`-th bottom strip of a stitched frame. */
  function BottomStrip(s: Sprite, j: nat): Layer
    requires 5 + 2 * j < |s.layers|
  {
    s.layers[5 + 2 * j]
  }

  /** The `j`-th left strip of a stitched frame with `m` top strips. */
  function LeftStrip(s: Sprite, m: nat, j: nat): Layer
    requires 4 + 2 * m + 2 * j < |s.layers|
  {
    s.layers[4 + 2 * m + 2 * j]
  }

  /** The `j`-th right strip of a stitched frame with `m` top strips. */
  function RightStrip(s: Sprite, m: nat, j: nat): Layer
    requires 5 + 2 * m + 2 * j < |s.layers|
  {
    s.layers[5 + 2 * m + 2 * j]
  }

  /** A stitched frame of a room of at least one tile: its size, its layer count and its corners. */
  lemma FrameShape(p: FramePieces, roomW: nat, roomH: nat, t: nat)
    requires roomW >= 1 && roomH >= 1
    ensures var s := Stitched(p, roomW, roomH, t);
      && s.width == roomW * t && s.height == roomH * t
      && |s.layers| == 4 + 2 * (roomW - 1) + 2 * (roomH - 1)
      && s.layers[..4] == CornerLayers(p, s.width, s.height, t)
  {
    var s := Stitched(p, roomW, roomH, t);
    var w, h := roomW * t, roomH * t;
    assert s.layers == CornerLayers(p, w, h, t) + HorizontalStrips(p, h, t, roomW - 1) + VerticalStrips(p, w, t, roomH - 1);
  }

  /** Indexing into the middle part of a three-part sequence. */
  lemma MiddleAt(ls: seq<Layer>, before: seq<Layer>, middle: seq<Layer>, after: seq<Layer>, k: nat)
    requires ls == before + middle + after && k < |middle|
    ensures ls[|before| + k] == middle[k]
  {
  }

  /** The top and bottom strip of the `j`-th `for x` iteration. */
  lemma FrameHorizontalStripAt(p: FramePieces, roomW: nat, roomH: nat, t: nat, j: nat)
    requires roomW >= 1 && roomH >= 1 && j < roomW - 1
    ensures var s := Stitched(p, roomW, roomH, t);
      && 5 + 2 * j < |s.layers|
      && TopStrip(s, j) == Pasted(p.topCenter, FromLeft(t) + j * t, 0, true)
      && BottomStrip(s, j) == Pasted(p.bottomCenter, FromLeft(t) + j * t, s.height - FromRight(t), true)
  {
    var s := Stitched(p, roomW, roomH, t);
    var w, h := roomW * t, roomH * t;
    var corners, horizontal, vertical := CornerLayers(p, w, h, t), HorizontalStrips(p, h, t, roomW - 1), VerticalStrips(p, w, t, roomH - 1);
    assert s.layers == corners + horizontal + vertical;
    HorizontalStripAt(p, h, t, roomW - 1, j);
    MiddleAt(s.layers, corners, horizontal, vertical, 2 * j);
    MiddleAt(s.layers, corners, horizontal, vertical, 2 * j + 1);
  }

  /** The left and right strip of the `j`-th `for y` iteration. */
  lemma FrameVerticalStripAt(p: FramePieces, roomW: nat, roomH: nat, t: nat, j: nat)
    requires roomW >= 1 && roomH >= 1 && j < roomH - 1
    ensures var s := Stitched(p, roomW, roomH, t);
      && 5 + 2 * (roomW - 1) + 2 * j < |s.layers|
      && LeftStrip(s, roomW - 1, j) == Pasted(p.leftCenter, 0, FromLeft(t) + j * t, false)
      && RightStrip(s, roomW - 1, j) == Pasted(p.rightCenter, s.width - FromRight(t), FromLeft(t) + j * t, false)
  {
    var s := Stitched(p, roomW, roomH, t);
    var w, h := roomW * t, roomH * t;
    var before, vertical := CornerLayers(p, w, h, t) + HorizontalStrips(p, h, t, roomW - 1), VerticalStrips(p, w, t, roomH - 1);
    assert s.layers == before + vertical + [];
    VerticalStripAt(p, w, t, roomH - 1, j);
    MiddleAt(s.layers, before, vertical, [], 2 * j);
    MiddleAt(s.layers, before, vertical, [], 2 * j + 1);
  }

  /** The `j`-th iteration of the `for x` loop puts a top strip and a bottom strip at `fl + j*t`. */
  lemma FrameHorizontalStrips(p: FramePieces, roomW: nat, roomH: nat, t: nat)
    requires roomW >= 1 && roomH >= 1
    ensures var s := Stitched(p, roomW, roomH, t);
      && |s.layers| == 4 + 2 * (roomW - 1) + 2 * (roomH - 1)
      && forall j :: 0 <= j < roomW - 1 ==>
           && TopStrip(s, j) == Pasted(p.topCenter, FromLeft(t) + j * t, 0, true)
           && BottomStrip(s, j) == Pasted(p.bottomCenter, FromLeft(t) + j * t, s.height - FromRight(t), true)
  {
    var s := Stitched(p, roomW, roomH, t);
    FrameShape(p, roomW, roomH, t);
    forall j | 0 <= j < roomW - 1
      ensures TopStrip(s, j) == Pasted(p.topCenter, FromLeft(t) + j * t, 0, true)
      ensures BottomStrip(s, j) == Pasted(p.bottomCenter, FromLeft(t) + j * t, s.height - FromRight(t), true)
    {
      FrameHorizontalStripAt(p, roomW, roomH, t, j);
    }
  }

  /** The `j`-th iteration of the `for y` loop puts a left strip and a right strip at `fl + j*t`. */
  lemma FrameVerticalStrips(p: FramePieces, roomW: nat, roomH: nat, t: nat)
    requires roomW >= 1 && roomH >= 1
    ensures var s := Stitched(p, roomW, roomH, t);
      && |s.layers| == 4 + 2 * (roomW - 1) + 2 * (roomH - 1)
      && forall j :: 0 <= j < roomH - 1 ==>
           && LeftStrip(s, roomW - 1, j) == Pasted(p.leftCenter, 0, FromLeft(t) + j * t, false)
           && RightStrip(s, roomW - 1, j) == Pasted(p.rightCenter, s.width - FromRight(t), FromLeft(t) + j * t, false)
  {
    var s := Stitched(p, roomW, roomH, t);
    FrameShape(p, roomW, roomH, t);
    forall j | 0 <= j < roomH - 1
      ensures LeftStrip(s, roomW - 1, j) == Pasted(p.leftCenter, 0, FromLeft(t) + j * t, false)
      ensures RightStrip(s, roomW - 1, j) == Pasted(p.rightCenter, s.width - FromRight(t), FromLeft(t) + j * t, false)
    {
      FrameVerticalStripAt(p, roomW, roomH, t, j);
    }
  }

  /**
    Where every piece of a stitched frame with `m` top strips and `n` side strips
    lands: the corners first, then a top and a bottom strip `t` pixels apart
    starting `fl` pixels in, then a left and a right strip likewise.
  */
  predicate FrameLayout(s: Sprite, p: FramePieces, m: nat, n: nat, t: nat) {
    && s.width == (m + 1) * t && s.height == (n + 1) * t
    && |s.layers| == 4 + 2 * m + 2 * n
    && s.layers[..4] == CornerLayers(p, s.width, s.height, t)
    && (forall j :: 0 <= j < m ==>
         && TopStrip(s, j) == Pasted(p.topCenter, FromLeft(t) + j * t, 0, true)
         && BottomStrip(s, j) == Pasted(p.bottomCenter, FromLeft(t) + j * t, s.height - FromRight(t), true))
    && (forall j :: 0 <= j < n ==>
         && LeftStrip(s, m, j) == Pasted(p.leftCenter, 0, FromLeft(t) + j * t, false)
         && RightStrip(s, m, j) == Pasted(p.rightCenter, s.width - FromRight(t), FromLeft(t) + j * t, false))
  }

  lemma FrameSpriteLayout(p: FramePieces, roomW: nat, roomH: nat, t: nat)
    requires roomW >= 1 && roomH >= 1
    ensures FrameLayout(Stitched(p, roomW, roomH, t), p, roomW - 1, roomH - 1, t)
  {
    FrameShape(p, roomW, roomH, t);
    FrameHorizontalStrips(p, roomW, roomH, t);
    FrameVerticalStrips(p, roomW, roomH, t);
  }

  /** Upper-left corner, the `m` top strips, upper-right corner. */
  function TopEdge(s: Sprite, m: nat): seq<Layer>
    requires |s.layers| >= 4 + 2 * m
  {
    [s.layers[0]] + seq(m, j requires 0 <= j < m => TopStrip(s, j)) + [s.layers[1]]
  }

  /** Bottom-left corner, the `m` bottom strips, bottom-right corner. */
  function BottomEdge(s: Sprite, m: nat): seq<Layer>
    requires |s.layers| >= 4 + 2 * m
  {
    [s.layers[2]] + seq(m, j requires 0 <= j < m => BottomStrip(s, j)) + [s.layers[3]]
  }

  /** Upper-left corner, the `n` left strips, bottom-left corner. */
  function LeftEdge(s: Sprite, m: nat, n: nat): seq<Layer>
    requires |s.layers| >= 4 + 2 * m + 2 * n
  {
    [s.layers[0]] + seq(n, j requires 0 <= j < n => LeftStrip(s, m, j)) + [s.layers[2]]
  }

  /** Upper-right corner, the `n` right strips, bottom-right corner. */
  function RightEdge(s: Sprite, m: nat, n: nat): seq<Layer>
    requires |s.layers| >= 4 + 2 * m + 2 * n
  {
    [s.layers[1]] + seq(n, j requires 0 <= j < n => RightStrip(s, m, j)) + [s.layers[3]]
  }

  function XSpans(ls: seq<Layer>): seq<(int, int)> {
    seq(|ls|, i requires 0 <= i < |ls| => XSpan(ls[i]))
  }

  function YSpans(ls: seq<Layer>): seq<(int, int)> {
    seq(|ls|, i requires 0 <= i < |ls| => YSpan(ls[i]))
  }

  /** Every piece is a paste whose top is the canvas top. */
  predicate HangsFromTop(ls: seq<Layer>) {
    forall i :: 0 <= i < |ls| ==> ls[i].Pasted? && ls[i].y == 0
  }

  /** Every piece is a paste whose bottom is the canvas bottom `h`. */
  predicate RestsOnBottom(ls: seq<Layer>, h: int) {
    forall i :: 0 <= i < |ls| ==> ls[i].Pasted? && ls[i].y + ls[i].piece.height == h
  }

  /** Every piece is a paste whose left side is the canvas's left side. */
  predicate AgainstLeft(ls: seq<Layer>) {
    forall i :: 0 <= i < |ls| ==> ls[i].Pasted? && ls[i].x == 0
  }

  /** Every piece is a paste whose right side is the canvas's right side `w`. */
  predicate AgainstRight(ls: seq<Layer>, w: int) {
    forall i :: 0 <= i < |ls| ==> ls[i].Pasted? && ls[i].x + ls[i].piece.width == w
  }

  lemma OddTileHalves(t: nat)
    requires t % 2 == 1
    ensures FromRight(t) == FromLeft(t) + 1
  {
  }

  /** Strips placed every `t` pixels from `fl` abut, and `n` full tiles end at `n*t`. */
  lemma StripArithmetic(fl: int, n: nat, t: nat)
    ensures forall k :: fl + k * t + t == fl + (k + 1) * t
    ensures n >= 1 ==> (n - 1) * t + t == n * t
  {
  }

  /**
    Pieces placed one after another: `first` at 0, then `count` pieces of size `t`
    starting `fl` pixels in, then `last` at `total - fl - 1`.
  */
  predicate StripRow(sp: seq<(int, int)>, count: nat, fl: int, t: nat, total: int) {
    && |sp| == count + 2
    && sp[0] == (0, fl)
    && (forall j :: 1 <= j <= count ==> sp[j] == (fl + (j - 1) * t, fl + (j - 1) * t + t))
    && sp[count + 1] == (total - fl - 1, total)
  }

  /** With an odd tile, `fl + (fl + 1) == t`, so the row closes exactly at `(count + 1) * t`. */
  lemma {:induction false} StripRowTiles(sp: seq<(int, int)>, count: nat, fl: int, t: nat, total: int)
    requires t % 2 == 1 && fl == FromLeft(t) && total == (count + 1) * t
    requires StripRow(sp, count, fl, t, total)
    ensures Tiles(sp, 0, total)
  {
    StripArithmetic(fl, count + 1, t);
    forall i | 0 <= i < |sp| - 1
      ensures sp[i].1 == sp[i + 1].0
    {
      if 0 < i {
        assert fl + (i - 1) * t + t == fl + i * t;
      }
    }
  }

  lemma {:induction false} LayoutTopEdge(s: Sprite, p: FramePieces, m: nat, n: nat, t: nat)
    requires t % 2 == 1 && PieceSizes(p, t) && FrameLayout(s, p, m, n, t)
    ensures Tiles(XSpans(TopEdge(s, m)), 0, s.width) && HangsFromTop(TopEdge(s, m))
  {
    OddTileHalves(t);
    var fl := FromLeft(t);
    var e := TopEdge(s, m);
    assert e[0] == s.layers[..4][0] == Pasted(p.upperLeft, 0, 0, true);
    assert e[m + 1] == s.layers[..4][1] == Pasted(p.upperRight, s.width - fl - 1, 0, true);
    forall j | 1 <= j <= m
      ensures e[j] == Pasted(p.topCenter, fl + (j - 1) * t, 0, true)
    {
      assert e[j] == TopStrip(s, j - 1);
    }
    var sp := XSpans(e);
    assert StripRow(sp, m, fl, t, s.width);
    StripRowTiles(sp, m, fl, t, s.width);
  }

  lemma {:induction false} LayoutBottomEdge(s: Sprite, p: FramePieces, m: nat, n: nat, t: nat)
    requires t % 2 == 1 && PieceSizes(p, t) && FrameLayout(s, p, m, n, t)
    ensures Tiles(XSpans(BottomEdge(s, m)), 0, s.width) && RestsOnBottom(BottomEdge(s, m), s.height)
  {
    OddTileHalves(t);
    var fl, fr := FromLeft(t), FromRight(t);
    var e := BottomEdge(s, m);
    assert e[0] == s.layers[..4][2] == Pasted(p.bottomLeft, 0, s.height - fl - 1, true);
    assert e[m + 1] == s.layers[..4][3] == Pasted(p.bottomRight, s.width - fl - 1, s.height - fl - 1, true);
    forall j | 1 <= j <= m
      ensures e[j] == Pasted(p.bottomCenter, fl + (j - 1) * t, s.height - fr, true)
    {
      assert e[j] == BottomStrip(s, j - 1);
    }
    var sp := XSpans(e);
    assert StripRow(sp, m, fl, t, s.width);
    StripRowTiles(sp, m, fl, t, s.width);
  }

  lemma {:induction false} LayoutLeftEdge(s: Sprite, p: FramePieces, m: nat, n: nat, t: nat)
    requires t % 2 == 1 && PieceSizes(p, t) && FrameLayout(s, p, m, n, t)
    ensures Tiles(YSpans(LeftEdge(s, m, n)), 0, s.height) && AgainstLeft(LeftEdge(s, m, n))
  {
    OddTileHalves(t);
    var fl := FromLeft(t);
    var e := LeftEdge(s, m, n);
    assert e[0] == s.layers[..4][0] == Pasted(p.upperLeft, 0, 0, true);
    assert e[n + 1] == s.layers[..4][2] == Pasted(p.bottomLeft, 0, s.height - fl - 1, true);
    forall j | 1 <= j <= n
      ensures e[j] == Pasted(p.leftCenter, 0, fl + (j - 1) * t, false)
    {
      assert e[j] == LeftStrip(s, m, j - 1);
    }
    var sp := YSpans(e);
    assert StripRow(sp, n, fl, t, s.height);
    StripRowTiles(sp, n, fl, t, s.height);
  }

  lemma {:induction false} LayoutRightEdge(s: Sprite, p: FramePieces, m: nat, n: nat, t: nat)
    requires t % 2 == 1 && PieceSizes(p, t) && FrameLayout(s, p, m, n, t)
    ensures Tiles(YSpans(RightEdge(s, m, n)), 0, s.height) && AgainstRight(RightEdge(s, m, n), s.width)
  {
    OddTileHalves(t);
    var fl, fr := FromLeft(t), FromRight(t);
    var e := RightEdge(s, m, n);
    assert e[0] == s.layers[..4][1] == Pasted(p.upperRight, s.width - fl - 1, 0, true);
    assert e[n + 1] == s.layers[..4][3] == Pasted(p.bottomRight, s.width - fl - 1, s.height - fl - 1, true);
    forall j | 1 <= j <= n
      ensures e[j] == Pasted(p.rightCenter, s.width - fr, fl + (j - 1) * t, false)
    {
      assert e[j] == RightStrip(s, m, j - 1);
    }
    var sp := YSpans(e);
    assert StripRow(sp, n, fl, t, s.height);
    StripRowTiles(sp, n, fl, t, s.height);
  }

  /**
    Each edge of a frame with `m` top strips and `n` side strips is covered
    exactly, without gap or overlap, by its two corners and the strips between
    them, and every piece of an edge lies against that edge's border.
  */
  predicate EdgesTile(s: Sprite, m: nat, n: nat)
    requires |s.layers| == 4 + 2 * m + 2 * n
  {
    && Tiles(XSpans(TopEdge(s, m)), 0, s.width) && HangsFromTop(TopEdge(s, m))
    && Tiles(XSpans(BottomEdge(s, m)), 0, s.width) && RestsOnBottom(BottomEdge(s, m), s.height)
    && Tiles(YSpans(LeftEdge(s, m, n)), 0, s.height) && AgainstLeft(LeftEdge(s, m, n))
    && Tiles(YSpans(RightEdge(s, m, n)), 0, s.height) && AgainstRight(RightEdge(s, m, n), s.width)
  }

  lemma StitchedEdgesTile(p: FramePieces, roomW: nat, roomH: nat, t: nat)
    requires t % 2 == 1 && roomW >= 1 && roomH >= 1 && PieceSizes(p, t)
    ensures var s := Stitched(p, roomW, roomH, t);
      |s.layers| == 4 + 2 * (roomW - 1) + 2 * (roomH - 1) && EdgesTile(s, roomW - 1, roomH - 1)
  {
    var s := Stitched(p, roomW, roomH, t);
    FrameSpriteLayout(p, roomW, roomH, t);
    LayoutTopEdge(s, p, roomW - 1, roomH - 1, t);
    LayoutBottomEdge(s, p, roomW - 1, roomH - 1, t);
    LayoutLeftEdge(s, p, roomW - 1, roomH - 1, t);
    LayoutRightEdge(s, p, roomW - 1, roomH - 1, t);
  }

  /**
    With an odd tile size, each edge of the stitched frame of a room of at least
    one tile is covered exactly, without gap or overlap, by its two corners and the
    strips between them, and every piece of an edge lies against that edge's border.
  */
  lemma FrameEdgesTile(tpl: Sprite, roomW: nat, roomH: nat, t: nat)
    requires t % 2 == 1 && roomW >= 1 && roomH >= 1
    ensures var s := FrameSprite(tpl, roomW, roomH, t);
      var m, n := roomW - 1, roomH - 1;
      && |s.layers| == 4 + 2 * m + 2 * n
      && Tiles(XSpans(TopEdge(s, m)), 0, s.width) && HangsFromTop(TopEdge(s, m))
      && Tiles(XSpans(BottomEdge(s, m)), 0, s.width) && RestsOnBottom(BottomEdge(s, m), s.height)
      && Tiles(YSpans(LeftEdge(s, m, n)), 0, s.height) && AgainstLeft(LeftEdge(s, m, n))
      && Tiles(YSpans(RightEdge(s, m, n)), 0, s.height) && AgainstRight(RightEdge(s, m, n), s.width)
  {
    var p := CutPieces(tpl, t);
    assert PieceSizes(p, t);
    StitchedEdgesTile(p, roomW, roomH, t);
  }

  /** The two door-frame halves on a canvas two pixels narrower than both together: the right half at x = 2, then the left half over it. */
  function DoorFrameBase(left: Sprite, right: Sprite): (r: Sprite)
    requires left.width + right.width >= 2
    ensures r.width == left.width + right.width - 2 && r.height == left.height
    ensures r.layers == [Pasted(right, 2, 0, true), Pasted(left, 0, 0, true)]
  {
    Paste(Paste(NewSprite(left.width + right.width - 2, left.height), right, 2, 0, true), left, 0, 0, true)
  }

  /**
    `fit_door_frame_to_room_height`: the first pixel row of the door frame is
    stretched into a header `(roomH - 2)` tiles tall and the door frame itself
    is put, unscaled, under it.
  */
  function FitDoorFrameToRoomHeight(door: Sprite, roomH: nat, t: nat): (r: Sprite)
    requires roomH > 2
    ensures r.width == door.width && r.height == door.height + (roomH - 2) * t
    ensures |r.layers| == 2 && r.layers[1] == Pasted(door, 0, r.height - door.height, true)
    ensures r.layers[0].Pasted? && !r.layers[0].masked && r.layers[0].piece.width == door.width
    ensures Tiles(YSpans(r.layers), 0, r.height) && AgainstLeft(r.layers)
  {
    var firstRow := Crop(door, Box(0, 0, door.width, 1));
    var topPart := Resize(firstRow, door.width, (roomH - 2) * t);
    var result := NewSprite(door.width, door.height + topPart.height);
    var result := Paste(result, topPart, 0, 0, false);
    Paste(result, door, 0, topPart.height, true)
  }

  /** `make_door_frame_sprite`, without writing the result to the disk cache. */
  function DoorFrame(store: Store, leftId: SpriteId, rightId: SpriteId, roomH: nat, t: nat): (r: Result<Sprite, Error>)
    ensures r.Ok? <==> leftId in store.sizes && rightId in store.sizes && store.sizes[leftId].0 + store.sizes[rightId].0 >= 2
    ensures leftId !in store.sizes ==> r == Err(AssetNotFound(leftId))
    ensures leftId in store.sizes && rightId !in store.sizes ==> r == Err(AssetNotFound(rightId))
    ensures r.Ok? ==> r.value.width == store.sizes[leftId].0 + store.sizes[rightId].0 - 2
    ensures r.Ok? ==> r.value.height == store.sizes[leftId].1 + (if roomH > 2 then (roomH - 2) * t else 0)
  {
    var left :- Load(store, leftId);
    var right :- Load(store, rightId);
    if left.width + right.width < 2 then Err(GeometryError)
    else
      var base := DoorFrameBase(left, right);
      if roomH > 2 then Ok(FitDoorFrameToRoomHeight(base, roomH, t)) else Ok(base)
  }

  /**
    The horizontal extents of the two halves: the left half covers [0, lw), the
    right half [2, 2 + rw). They reach the right side of the canvas only when the
    left half is at most 4 pixels wide or the right half at most 2.
  */
  lemma DoorFrameHalvesCover(left: Sprite, right: Sprite)
    requires left.width + right.width >= 2
    ensures var r := DoorFrameBase(left, right);
      && XSpan(r.layers[1]) == (0, left.width)
      && XSpan(r.layers[0]) == (2, 2 + right.width)
      && (left.width <= 4 || right.width <= 2 <==> (left.width >= r.width || 2 + right.width >= r.width))
  {
  }

  /** The room frame `make_room_decoration_sprite` starts from: the template itself for a 3 x 2 room, else a stitched one. */
  function RoomFrame(store: Store, frameId: SpriteId, roomW: nat, roomH: nat, t: nat): (r: Result<Sprite, Error>)
    ensures r.Ok? <==> frameId in store.sizes
    ensures r.Ok? && roomW == 3 && roomH == 2 ==> r.value.origin == Loaded(frameId)
    ensures r.Ok? && !(roomW == 3 && roomH == 2) ==> r.value.width == roomW * t && r.value.height == roomH * t
    ensures r.Err? ==> r.error == AssetNotFound(frameId)
    ensures roomW == 3 && roomH == 2 ==> r == Load(store, frameId)
    ensures r.Ok? && !(roomW == 3 && roomH == 2) ==> r.value == FrameSprite(Load(store, frameId).value, roomW, roomH, t)
  {
    var tpl :- Load(store, frameId);
    if roomW == 3 && roomH == 2 then Ok(tpl) else Ok(FrameSprite(tpl, roomW, roomH, t))
  }

  /** The door frame one pixel in from the left and one pixel above the bottom of the frame, with the frame pasted over it. */
  function Decorate(frame: Sprite, door: Sprite): (r: Sprite)
    ensures r.width == frame.width && r.height == frame.height
    ensures |r.layers| == |frame.layers| + 2 && r.layers[..|frame.layers|] == frame.layers
    ensures var d := r.layers[|frame.layers|];
      d.Pasted? && d.piece == door && d.masked && d.x == 1 && d.y + door.height == r.height - 1
    ensures r.layers[|frame.layers| + 1] == Pasted(frame, 0, 0, true)
  {
    var deco := Paste(frame, door, 1, frame.height - door.height - 1, true);
    Paste(deco, frame, 0, 0, true)
  }

  /** `make_room_decoration_sprite`, both disk caches missing. */
  function RoomDecoration(store: Store, frameId: SpriteId, leftId: SpriteId, rightId: SpriteId, roomW: nat, roomH: nat, t: nat): (r: Result<Sprite, Error>)
    ensures r.Ok? <==> frameId in store.sizes && DoorFrame(store, leftId, rightId, roomH, t).Ok?
    ensures frameId !in store.sizes ==> r == Err(AssetNotFound(frameId))
    ensures frameId in store.sizes && DoorFrame(store, leftId, rightId, roomH, t).Err? ==> r == Err(DoorFrame(store, leftId, rightId, roomH, t).error)
    ensures r.Ok? ==> r.value == Decorate(RoomFrame(store, frameId, roomW, roomH, t).value, DoorFrame(store, leftId, rightId, roomH, t).value)
  {
    var frame :- RoomFrame(store, frameId, roomW, roomH, t);
    var door :- DoorFrame(store, leftId, rightId, roomH, t);
    Ok(Decorate(frame, door))
  }

  method MakeRoomDecorationSprite(store: Store, frameId: SpriteId, leftId: SpriteId, rightId: SpriteId, roomW: nat, roomH: nat, t: nat)
    returns (r: Result<Sprite, Error>)
    ensures r == RoomDecoration(store, frameId, leftId, rightId, roomW, roomH, t)
    ensures r.Ok? <==> frameId in store.sizes && DoorFrame(store, leftId, rightId, roomH, t).Ok?
  {
    var frame: Sprite;
    if roomW == 3 && roomH == 2 {
      var loaded := Load(store, frameId);
      if loaded.Err? {
        return Err(loaded.error);
      }
      frame := loaded.value;
      assert frame == RoomFrame(store, frameId, roomW, roomH, t).value;
    } else {
      var made := MakeRoomFrameSprite(store, frameId, roomW, roomH, t);
      if made.Err? {
        return Err(made.error);
      }
      frame := made.value;
      assert frame == RoomFrame(store, frameId, roomW, roomH, t).value;
    }
    assert RoomFrame(store, frameId, roomW, roomH, t) == Ok(frame);
    var door := DoorFrame(store, leftId, rightId, roomH, t);
    if door.Err? {
      return Err(door.error);
    }
    var deco := Paste(frame, door.value, 1, frame.height - door.value.height - 1, true);
    deco := Paste(deco, frame, 0, 0, true);
    return Ok(deco);
  }
}
