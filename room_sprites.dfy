/**
  One room's tile image: the base sprite, and for rooms with a decoration the
  recoloured decoration, the logo, the power bars and the short name.
*/
module RoomSprites {
  import opened Wrappers
  import opened Sprites

  /** `sprites.POWER_BAR_WIDTH`, `POWER_BAR_HEIGHT`, `POWER_BAR_SPACING` and `POWER_BAR_Y_START`. */
  datatype PowerBarConfig = PowerBarConfig(width: int, height: int, spacing: int, yStart: int)

  /** The part of a room design the room renderer reads; absent optional fields are `None`. */
  datatype RoomDesign = RoomDesign(
    columns: nat,
    rows: nat,
    imageSpriteId: SpriteId,
    constructionSpriteId: SpriteId,
    logoSpriteId: Option<SpriteId>,
    maxSystemPower: Option<int>,
    maxPowerGenerated: Option<int>,
    shortName: Option<string>)

  /** The distance between the left sides of two neighbouring bars. */
  function BarStep(cfg: PowerBarConfig): int {
    cfg.width + cfg.spacing - 1
  }

  /** The `k`-th bar (from the right) on a sprite `spriteWidth` pixels wide, as a closed form. */
  function PowerBarBox(spriteWidth: int, k: nat, cfg: PowerBarConfig): Box {
    var left := spriteWidth - cfg.width - 1 - k * BarStep(cfg);
    Box(left, cfg.yStart, left + cfg.width - 2, cfg.yStart + cfg.height - 1)
  }

  /** The first `n` bars, rightmost first. */
  function PowerBars(spriteWidth: int, n: nat, cfg: PowerBarConfig): (bars: seq<Layer>)
    ensures |bars| == n
  {
    seq(n, k requires 0 <= k < n => Filled(PowerBarBox(spriteWidth, k, cfg)))
  }

  /** `range(count)` is empty for a negative count. */
  function BarCount(count: int): nat {
    if count < 0 then 0 else count
  }

  /** `draw_power_bars`: walks `power_bar_x_start` leftwards one bar at a time. */
  method DrawPowerBars(s: Sprite, count: int, cfg: PowerBarConfig) returns (r: Sprite)
    ensures r.width == s.width && r.height == s.height && r.origin == s.origin
    ensures r.layers == s.layers + PowerBars(s.width, BarCount(count), cfg)
  {
    var xStart := s.width - cfg.width - 1;
    var yEnd := cfg.yStart + cfg.height - 1;
    r := s;
    var i := 0;
    while i < count
      invariant 0 <= i <= BarCount(count)
      invariant xStart == s.width - cfg.width - 1 - i * BarStep(cfg)
      invariant r == s.(layers := s.layers + PowerBars(s.width, i, cfg))
    {
      var xEnd := xStart + cfg.width - 2;
      assert Box(xStart, cfg.yStart, xEnd, yEnd) == PowerBarBox(s.width, i, cfg);
      assert PowerBars(s.width, i + 1, cfg) == PowerBars(s.width, i, cfg) + [Filled(PowerBarBox(s.width, i, cfg))];
      r := DrawFilled(r, Box(xStart, cfg.yStart, xEnd, yEnd));
      xStart := xStart - (cfg.width + cfg.spacing - 1);
      i := i + 1;
    }
  }

  /**
    The bar layout: `n` bars, the first starting `POWER_BAR_WIDTH + 1` pixels in
    from the right, each `POWER_BAR_WIDTH - 2` pixels past its start, all on the
    same rows, each the same step left of the one before; with a positive step
    the left sides strictly decrease.
  */
  lemma PowerBarsLayout(spriteWidth: int, n: nat, cfg: PowerBarConfig)
    ensures |PowerBars(spriteWidth, n, cfg)| == n
    ensures n > 0 ==> PowerBars(spriteWidth, n, cfg)[0].box.left == spriteWidth - cfg.width - 1
    ensures forall k :: 0 <= k < n ==>
      && PowerBars(spriteWidth, n, cfg)[k].Filled?
      && PowerBars(spriteWidth, n, cfg)[k].box.right == PowerBars(spriteWidth, n, cfg)[k].box.left + cfg.width - 2
      && PowerBars(spriteWidth, n, cfg)[k].box.top == cfg.yStart
      && PowerBars(spriteWidth, n, cfg)[k].box.bottom == cfg.yStart + cfg.height - 1
    ensures forall k :: 0 <= k < n - 1 ==>
      PowerBars(spriteWidth, n, cfg)[k + 1].box.left == PowerBars(spriteWidth, n, cfg)[k].box.left - BarStep(cfg)
    ensures BarStep(cfg) > 0 ==> forall k, l :: 0 <= k < l < n ==>
      PowerBars(spriteWidth, n, cfg)[l].box.left < PowerBars(spriteWidth, n, cfg)[k].box.left
  {
    var bars := PowerBars(spriteWidth, n, cfg);
    forall k | 0 <= k < n - 1
      ensures bars[k + 1].box.left == bars[k].box.left - BarStep(cfg)
    {
      assert (k + 1) * BarStep(cfg) == k * BarStep(cfg) + BarStep(cfg);
    }
    if BarStep(cfg) > 0 {
      forall k, l | 0 <= k < l < n
        ensures bars[l].box.left < bars[k].box.left
      {
        MulStrictlyMonotone(k, l, BarStep(cfg));
      }
    }
  }

  lemma MulStrictlyMonotone(k: nat, l: nat, c: int)
    requires k < l && c > 0
    ensures k * c < l * c
  {
  }

  /** `n = 0` draws nothing, and a negative count draws nothing either. */
  lemma NoPowerNoBars(s: Sprite, count: int, cfg: PowerBarConfig)
    requires count <= 0
    ensures PowerBars(s.width, BarCount(count), cfg) == []
  {
  }

  /**
    The number of bars: `MaxSystemPower` when it is present, otherwise
    `MaxPowerGenerated`; a value of 0 means no bars (`int(...) or None`).
  */
  function PowerBarsCount(maxSystemPower: Option<int>, maxPowerGenerated: Option<int>): (r: Option<int>)
    ensures r.Some? ==> r.value != 0
    ensures maxSystemPower.Some? ==> r == (if maxSystemPower.value == 0 then None else maxSystemPower)
    ensures maxSystemPower.None? ==> r == (if maxPowerGenerated.None? || maxPowerGenerated.value == 0 then None else maxPowerGenerated)
  {
    match maxSystemPower
    case Some(p) => if p != 0 then Some(p) else None
    case None =>
      match maxPowerGenerated
      case Some(g) => if g != 0 then Some(g) else None
      case None => None
  }

  /** The room's sprite id: a construction sprite while upgrading, the design's own image when decorated, else the race override if any. */
  function ChooseRoomSpriteId(designId: string, design: RoomDesign, underConstruction: bool, decorated: bool, overrides: map<string, SpriteId>): (id: SpriteId)
    ensures underConstruction ==> id == design.constructionSpriteId
    ensures !underConstruction && decorated ==> id == design.imageSpriteId
    ensures !underConstruction && !decorated ==> id == (if designId in overrides then overrides[designId] else design.imageSpriteId)
  {
    if underConstruction then design.constructionSpriteId
    else if decorated then design.imageSpriteId
    else if designId in overrides then overrides[designId]
    else design.imageSpriteId
  }

  /** The sprite `create_room_sprite` returns. */
  function RoomSprite(store: Store, spriteId: SpriteId, decoration: Option<Sprite>, design: RoomDesign, tint: Tint, cfg: PowerBarConfig): Result<Sprite, Error> {
    var base :- Load(store, spriteId);
    match decoration
    case None => Ok(Enhance(base, tint))
    case Some(deco) =>
      var withDeco := Paste(base, Enhance(deco, tint), 0, 0, true);
      var withLogo :- WithLogo(store, withDeco, design.logoSpriteId);
      var bars := PowerBarsCount(design.maxSystemPower, design.maxPowerGenerated);
      var withBars := if bars.Some? then withLogo.(layers := withLogo.layers + PowerBars(withLogo.width, BarCount(bars.value), cfg)) else withLogo;
      Ok(if design.shortName.Some? then DrawText(withBars, 12, 0, design.shortName.value) else withBars)
  }

  /** The logo, when the design names one, pasted with its own mask at (1, 2). */
  function WithLogo(store: Store, s: Sprite, logoId: Option<SpriteId>): (r: Result<Sprite, Error>)
    ensures logoId.None? ==> r == Ok(s)
    ensures logoId.Some? ==> (r.Ok? <==> logoId.value in store.sizes)
    ensures logoId.Some? && r.Ok? ==> r.value == Paste(s, Load(store, logoId.value).value, 1, 2, true)
  {
    match logoId
    case None => Ok(s)
    case Some(id) =>
      var logo :- Load(store, id);
      Ok(Paste(s, logo, 1, 2, true))
  }

  /** `create_room_sprite`. */
  method CreateRoomSprite(store: Store, spriteId: SpriteId, decoration: Option<Sprite>, design: RoomDesign, tint: Tint, cfg: PowerBarConfig)
    returns (r: Result<Sprite, Error>)
    ensures r == RoomSprite(store, spriteId, decoration, design, tint, cfg)
  {
    var loaded := Load(store, spriteId);
    if loaded.Err? {
      return Err(loaded.error);
    }
    var result := loaded.value;
    if decoration.None? {
      result := Enhance(result, tint);
      return Ok(result);
    }
    var deco := Enhance(decoration.value, tint);
    result := Paste(result, deco, 0, 0, true);
    if design.logoSpriteId.Some? {
      var logo := Load(store, design.logoSpriteId.value);
      if logo.Err? {
        return Err(logo.error);
      }
      result := Paste(result, logo.value, 1, 2, true);
    }
    var bars := PowerBarsCount(design.maxSystemPower, design.maxPowerGenerated);
    if bars.Some? {
      result := DrawPowerBars(result, bars.value, cfg);
    }
    if design.shortName.Some? {
      result := DrawText(result, 12, 0, design.shortName.value);
    }
    return Ok(result);
  }

  /** Without a decoration the room is the recoloured base sprite and nothing else: no logo, no bars, no name. */
  lemma UndecoratedRoomIsEnhancedBase(store: Store, spriteId: SpriteId, design: RoomDesign, tint: Tint, cfg: PowerBarConfig)
    ensures var r := RoomSprite(store, spriteId, None, design, tint, cfg);
      && (r.Ok? <==> spriteId in store.sizes)
      && (r.Ok? ==> r.value == Enhance(Load(store, spriteId).value, tint) && r.value.layers == [])
  {
  }

  /**
    With a decoration, the base sprite keeps its own colours and carries, in
    order: the recoloured decoration at (0, 0), the logo at (1, 2) exactly when
    the design has one, the power bars, and the short name at (12, 0) exactly
    when the design has one.
  */
  lemma DecoratedRoomLayers(store: Store, spriteId: SpriteId, deco: Sprite, design: RoomDesign, tint: Tint, cfg: PowerBarConfig)
    requires RoomSprite(store, spriteId, Some(deco), design, tint, cfg).Ok?
    ensures var s := RoomSprite(store, spriteId, Some(deco), design, tint, cfg).value;
      var base := Load(store, spriteId).value;
      var bars := PowerBarsCount(design.maxSystemPower, design.maxPowerGenerated);
      && s.origin == Loaded(spriteId) && s.width == base.width && s.height == base.height
      && s.layers ==
           [Pasted(Enhance(deco, tint), 0, 0, true)]
           + (if design.logoSpriteId.Some? then [Pasted(Load(store, design.logoSpriteId.value).value, 1, 2, true)] else [])
           + PowerBars(base.width, if bars.Some? then BarCount(bars.value) else 0, cfg)
           + (if design.shortName.Some? then [Label(12, 0, design.shortName.value)] else [])
  {
  }
}
