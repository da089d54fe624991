/**
  The ship-layout renderer: the recoloured interior with its grid overlay, and
  one tile per room pasted at the room's grid position, with the two in-memory
  caches the room loop keeps.
*/
module Layout {
  import opened Wrappers
  import opened Strings
  import opened Sprites
  import opened Frames
  import opened RoomSprites
  import opened Grid

  /** The part of a ship design the renderer reads. */
  datatype ShipDesign = ShipDesign(
    rows: nat,
    columns: nat,
    mask: string,
    interiorSpriteId: SpriteId,
    roomFrameSpriteId: SpriteId,
    doorFrameLeftSpriteId: SpriteId,
    doorFrameRightSpriteId: SpriteId)

  /** One room of a user's ship. */
  datatype RoomInstance = RoomInstance(designId: string, column: int, row: int, status: Option<string>)

  /** A user's ship: its owner, its colour adjustment and its rooms in the order the game lists them. */
  datatype UserShip = UserShip(userId: string, tint: Tint, rooms: seq<RoomInstance>)

  /** What the renderer looks things up in: the sprite store, the room-design catalogue, the race overrides of room sprites, and the tile and power-bar constants. */
  datatype Assets = Assets(
    store: Store,
    roomDesigns: map<string, RoomDesign>,
    overrides: map<string, SpriteId>,
    t: nat,
    bars: PowerBarConfig)

  /** `room_under_construction`. */
  function UnderConstruction(room: RoomInstance): bool {
    room.status == Some("Upgrading")
  }

  /** The room-sprite cache key `(design id, under-construction flag)`. */
  function RoomKey(room: RoomInstance): (string, bool) {
    (room.designId, UnderConstruction(room))
  }

  /** The decoration of a room of a given design: none for a 1 x 1 room. */
  function RoomDecorationFor(a: Assets, d: ShipDesign, design: RoomDesign): Result<Option<Sprite>, Error> {
    if design.columns == 1 && design.rows == 1 then Ok(None)
    else
      var deco :- RoomDecoration(a.store, d.roomFrameSpriteId, d.doorFrameLeftSpriteId, d.doorFrameRightSpriteId, design.columns, design.rows, a.t);
      Ok(Some(deco))
  }

  /** A 1 x 1 room has no decoration; any other room has the decoration of its size, failing exactly when that does. */
  lemma RoomDecorationForCases(a: Assets, d: ShipDesign, design: RoomDesign)
    ensures design.columns == 1 && design.rows == 1 ==> RoomDecorationFor(a, d, design) == Ok(None)
    ensures !(design.columns == 1 && design.rows == 1) ==>
      var r := RoomDecorationFor(a, d, design);
      && (r.Ok? <==> d.roomFrameSpriteId in a.store.sizes && DoorFrame(a.store, d.doorFrameLeftSpriteId, d.doorFrameRightSpriteId, design.rows, a.t).Ok?)
      && (r.Ok? ==> r.value == Some(RoomDecoration(a.store, d.roomFrameSpriteId, d.doorFrameLeftSpriteId, d.doorFrameRightSpriteId, design.columns, design.rows, a.t).value))
      && (r.Err? ==> r.error == RoomDecoration(a.store, d.roomFrameSpriteId, d.doorFrameLeftSpriteId, d.doorFrameRightSpriteId, design.columns, design.rows, a.t).error)
  {
  }

  /** The tile of a room of design `designId`, built from scratch. */
  function RoomTile(a: Assets, d: ShipDesign, tint: Tint, designId: string, underConstruction: bool): Result<Sprite, Error> {
    if designId !in a.roomDesigns then Err(DesignNotFound(designId))
    else
      var design := a.roomDesigns[designId];
      var deco :- RoomDecorationFor(a, d, design);
      var spriteId := ChooseRoomSpriteId(designId, design, underConstruction, deco.Some?, a.overrides);
      RoomSprite(a.store, spriteId, deco, design, tint, a.bars)
  }

  /**
    An unknown design is `DesignNotFound`; a decoration that cannot be built
    aborts the tile; otherwise the tile is the room sprite of the chosen
    sprite id, carrying the room's decoration.
  */
  lemma RoomTileCases(a: Assets, d: ShipDesign, tint: Tint, designId: string, underConstruction: bool)
    ensures designId !in a.roomDesigns ==> RoomTile(a, d, tint, designId, underConstruction) == Err(DesignNotFound(designId))
    ensures designId in a.roomDesigns && RoomDecorationFor(a, d, a.roomDesigns[designId]).Err? ==>
      RoomTile(a, d, tint, designId, underConstruction) == Err(RoomDecorationFor(a, d, a.roomDesigns[designId]).error)
    ensures designId in a.roomDesigns && RoomDecorationFor(a, d, a.roomDesigns[designId]).Ok? ==>
      var design, deco := a.roomDesigns[designId], RoomDecorationFor(a, d, a.roomDesigns[designId]).value;
      RoomTile(a, d, tint, designId, underConstruction)
        == RoomSprite(a.store, ChooseRoomSpriteId(designId, design, underConstruction, deco.Some?, a.overrides), deco, design, tint, a.bars)
  {
  }

  /** The canvas with the tiles of `rooms` pasted in order at their grid positions; the first room that cannot be built aborts. */
  function PlaceRooms(a: Assets, d: ShipDesign, tint: Tint, canvas: Sprite, rooms: seq<RoomInstance>): Result<Sprite, Error>
    decreases |rooms|
  {
    if |rooms| == 0 then Ok(canvas)
    else
      var last := rooms[|rooms| - 1];
      var placed :- PlaceRooms(a, d, tint, canvas, rooms[..|rooms| - 1]);
      var tile :- RoomTile(a, d, tint, last.designId, UnderConstruction(last));
      Ok(Paste(placed, tile, last.column * a.t, last.row * a.t, false))
  }

  /** The recoloured interior with the grid overlay pasted on it. */
  function Interior(a: Assets, d: ShipDesign, tint: Tint): Result<Sprite, Error> {
    var loaded :- Load(a.store, d.interiorSpriteId);
    var interior := Enhance(loaded, tint);
    var grid :- GridOverlay(d.mask, d.rows, d.columns, interior.width, interior.height, a.t);
    Ok(Paste(interior, grid, 0, 0, true))
  }

  /** The layout image and the name it is saved under. */
  function ShipLayout(a: Assets, d: ShipDesign, prefix: string, ship: UserShip): Result<(Sprite, string), Error> {
    var interior :- Interior(a, d, ship.tint);
    var layout :- PlaceRooms(a, d, ship.tint, interior, ship.rooms);
    Ok((layout, LayoutFileName(prefix, ship.userId)))
  }

  /** `f'{file_name_prefix}_{user_id}_layout'`. */
  function LayoutFileName(prefix: string, userId: string): (name: string)
    ensures |name| == |prefix| + |userId| + 8
    ensures name[..|prefix|] == prefix && name[|prefix|] == '_' && name[|prefix| + 1..|name| - 7] == userId && name[|name| - 7..] == "_layout"
  {
    prefix + "_" + userId + "_layout"
  }

  // The decoration cache is a dictionary of dictionaries built with
  // `setdefault`; its keys are sprite ids at the first three levels and room
  // sizes at the fourth.

  datatype CacheKey = Id(id: SpriteId) | Size(columns: int, rows: int)

  datatype Nest = Leaf(sprite: Sprite) | Dict(entries: map<CacheKey, Nest>)

  predicate SizeLevel(m: map<CacheKey, Nest>) {
    forall k :: k in m ==> k.Size? && m[k].Leaf?
  }

  predicate RightLevel(m: map<CacheKey, Nest>) {
    forall k :: k in m ==> k.Id? && m[k].Dict? && SizeLevel(m[k].entries)
  }

  predicate LeftLevel(m: map<CacheKey, Nest>) {
    forall k :: k in m ==> k.Id? && m[k].Dict? && RightLevel(m[k].entries)
  }

  /** The shape the writes give the cache: frame id, left door id, right door id, room size, sprite. */
  predicate WellShaped(cache: map<CacheKey, Nest>) {
    forall k :: k in cache ==> k.Id? && cache[k].Dict? && LeftLevel(cache[k].entries)
  }

  /** `m.setdefault(k, {})`, read back. */
  function SubDict(m: map<CacheKey, Nest>, k: CacheKey): map<CacheKey, Nest> {
    if k in m && m[k].Dict? then m[k].entries else map[]
  }

  /** `cache.get(frame, {}).get(left, {}).get(size)`: the read at src/pss_user.py:184. */
  function DecorationLookup(cache: map<CacheKey, Nest>, frame: SpriteId, left: SpriteId, size: CacheKey): Option<Sprite> {
    var byLeft := SubDict(SubDict(cache, Id(frame)), Id(left));
    if size in byLeft && byLeft[size].Leaf? then Some(byLeft[size].sprite) else None
  }

  /** `cache.setdefault(frame, {}).setdefault(left, {}).setdefault(right, {})[size] = s`: the write at src/pss_user.py:189. */
  function DecorationStore(cache: map<CacheKey, Nest>, frame: SpriteId, left: SpriteId, right: SpriteId, size: CacheKey, s: Sprite): map<CacheKey, Nest> {
    var m1 := SubDict(cache, Id(frame));
    var m2 := SubDict(m1, Id(left));
    var m3 := SubDict(m2, Id(right));
    cache[Id(frame) := Dict(m1[Id(left) := Dict(m2[Id(right) := Dict(m3[size := Leaf(s)])])])]
  }

  /** The entry one level deeper than the read looks, where the write puts it. */
  function DecorationAt(cache: map<CacheKey, Nest>, frame: SpriteId, left: SpriteId, right: SpriteId, size: CacheKey): Option<Sprite> {
    var byRight := SubDict(SubDict(SubDict(cache, Id(frame)), Id(left)), Id(right));
    if size in byRight && byRight[size].Leaf? then Some(byRight[size].sprite) else None
  }

  /** A cache filled only by the write keeps its shape. */
  lemma DecorationStoreKeepsShape(cache: map<CacheKey, Nest>, frame: SpriteId, left: SpriteId, right: SpriteId, columns: int, rows: int, s: Sprite)
    requires WellShaped(cache)
    ensures WellShaped(DecorationStore(cache, frame, left, right, Size(columns, rows), s))
  {
    var m1 := SubDict(cache, Id(frame));
    var m2 := SubDict(m1, Id(left));
    var m3 := SubDict(m2, Id(right));
    assert SizeLevel(m3[Size(columns, rows) := Leaf(s)]);
    assert RightLevel(m2[Id(right) := Dict(m3[Size(columns, rows) := Leaf(s)])]);
    assert LeftLevel(m1[Id(left) := Dict(m2[Id(right) := Dict(m3[Size(columns, rows) := Leaf(s)])])]);
  }

  /** The read looks for a size among right door ids, where there are none: it never finds anything. */
  lemma DecorationLookupNeverHits(cache: map<CacheKey, Nest>, frame: SpriteId, left: SpriteId, columns: int, rows: int)
    requires WellShaped(cache)
    ensures DecorationLookup(cache, frame, left, Size(columns, rows)) == None
  {
    var m1 := SubDict(cache, Id(frame));
    assert LeftLevel(m1);
    var m2 := SubDict(m1, Id(left));
    assert RightLevel(m2);
  }

  /** What was written is there, one level below where it is read. */
  lemma DecorationStoreThenAt(cache: map<CacheKey, Nest>, frame: SpriteId, left: SpriteId, right: SpriteId, columns: int, rows: int, s: Sprite)
    ensures DecorationAt(DecorationStore(cache, frame, left, right, Size(columns, rows), s), frame, left, right, Size(columns, rows)) == Some(s)
  {
  }

  /** Every cached room tile is the tile its key builds. */
  predicate RoomCacheSound(a: Assets, d: ShipDesign, tint: Tint, cache: map<string, map<bool, Sprite>>) {
    forall id, flag :: id in cache && flag in cache[id] ==> RoomTile(a, d, tint, id, flag) == Ok(cache[id][flag])
  }

  predicate Cached(cache: map<string, map<bool, Sprite>>, key: (string, bool)) {
    key.0 in cache && key.1 in cache[key.0]
  }

  /** The room cache after `rooms_sprites_cache.setdefault(id, {})[flag] = tile`. */
  function CacheRoom(cache: map<string, map<bool, Sprite>>, id: string, flag: bool, tile: Sprite): map<string, map<bool, Sprite>> {
    var byFlag := if id in cache then cache[id] else map[];
    cache[id := byFlag[flag := tile]]
  }

  lemma CacheRoomSound(a: Assets, d: ShipDesign, tint: Tint, cache: map<string, map<bool, Sprite>>, id: string, flag: bool, tile: Sprite)
    requires RoomCacheSound(a, d, tint, cache) && RoomTile(a, d, tint, id, flag) == Ok(tile)
    ensures RoomCacheSound(a, d, tint, CacheRoom(cache, id, flag, tile))
    ensures forall k :: Cached(CacheRoom(cache, id, flag, tile), k) <==> Cached(cache, k) || k == (id, flag)
  {
  }

  predicate Distinct<T(==)>(xs: seq<T>) {
    forall i, j :: 0 <= i < j < |xs| ==> xs[i] != xs[j]
  }

  /** Once a prefix of the rooms fails, the whole placement fails with the same error. */
  lemma {:induction false} PlaceRoomsAbort(a: Assets, d: ShipDesign, tint: Tint, canvas: Sprite, rooms: seq<RoomInstance>, i: nat)
    requires i <= |rooms| && PlaceRooms(a, d, tint, canvas, rooms[..i]).Err?
    ensures PlaceRooms(a, d, tint, canvas, rooms) == PlaceRooms(a, d, tint, canvas, rooms[..i])
    decreases |rooms| - i
  {
    if i < |rooms| {
      assert rooms[..i + 1][..i] == rooms[..i];
      PlaceRoomsAbort(a, d, tint, canvas, rooms, i + 1);
    } else {
      assert rooms[..i] == rooms;
    }
  }

  /** A room tile built from scratch; the decoration cache is consulted first and filled after a miss. */
  method BuildRoomTile(a: Assets, d: ShipDesign, tint: Tint, designId: string, flag: bool, decoCache: map<CacheKey, Nest>)
    returns (r: Result<Sprite, Error>, decoCache': map<CacheKey, Nest>)
    requires WellShaped(decoCache)
    ensures r == RoomTile(a, d, tint, designId, flag)
    ensures WellShaped(decoCache')
  {
    decoCache' := decoCache;
    if designId !in a.roomDesigns {
      return Err(DesignNotFound(designId)), decoCache';
    }
    var design := a.roomDesigns[designId];
    var deco: Option<Sprite>;
    if design.columns == 1 && design.rows == 1 {
      deco := None;
    } else {
      var size := Size(design.columns, design.rows);
      var hit := DecorationLookup(decoCache, d.roomFrameSpriteId, d.doorFrameLeftSpriteId, size);
      DecorationLookupNeverHits(decoCache, d.roomFrameSpriteId, d.doorFrameLeftSpriteId, design.columns, design.rows);
      if hit.Some? {
        deco := hit;
      } else {
        var made := MakeRoomDecorationSprite(a.store, d.roomFrameSpriteId, d.doorFrameLeftSpriteId, d.doorFrameRightSpriteId, design.columns, design.rows, a.t);
        if made.Err? {
          return Err(made.error), decoCache';
        }
        DecorationStoreKeepsShape(decoCache, d.roomFrameSpriteId, d.doorFrameLeftSpriteId, d.doorFrameRightSpriteId, design.columns, design.rows, made.value);
        decoCache' := DecorationStore(decoCache, d.roomFrameSpriteId, d.doorFrameLeftSpriteId, d.doorFrameRightSpriteId, size, made.value);
        deco := Some(made.value);
      }
    }
    assert RoomDecorationFor(a, d, design) == Ok(deco);
    var spriteId := ChooseRoomSpriteId(designId, design, flag, deco.Some?, a.overrides);
    r := CreateRoomSprite(a.store, spriteId, deco, design, tint, a.bars);
  }

  /** One iteration's tile: from the room cache when its key was built before, otherwise built and cached. */
  method CachedRoomTile(a: Assets, d: ShipDesign, tint: Tint, room: RoomInstance, roomCache: map<string, map<bool, Sprite>>, decoCache: map<CacheKey, Nest>)
    returns (r: Result<Sprite, Error>, roomCache': map<string, map<bool, Sprite>>, decoCache': map<CacheKey, Nest>, built: bool)
    requires RoomCacheSound(a, d, tint, roomCache) && WellShaped(decoCache)
    ensures r == RoomTile(a, d, tint, room.designId, UnderConstruction(room))
    ensures RoomCacheSound(a, d, tint, roomCache') && WellShaped(decoCache')
    ensures built <==> !Cached(roomCache, RoomKey(room))
    ensures r.Ok? ==> forall k :: Cached(roomCache', k) <==> Cached(roomCache, k) || k == RoomKey(room)
  {
    var flag := UnderConstruction(room);
    roomCache', decoCache' := roomCache, decoCache;
    if room.designId in roomCache && flag in roomCache[room.designId] {
      return Ok(roomCache[room.designId][flag]), roomCache', decoCache', false;
    }
    r, decoCache' := BuildRoomTile(a, d, tint, room.designId, flag, decoCache);
    built := true;
    if r.Ok? {
      CacheRoomSound(a, d, tint, roomCache, room.designId, flag, r.value);
      roomCache' := CacheRoom(roomCache, room.designId, flag, r.value);
    }
  }

  /** The builds so far: no key twice, exactly the cached keys, and exactly the keys of the first `i` rooms. */
  ghost predicate BuildsSoFar(builds: seq<(string, bool)>, roomCache: map<string, map<bool, Sprite>>, rooms: seq<RoomInstance>, i: nat)
    requires i <= |rooms|
  {
    && Distinct(builds)
    && (forall k :: k in builds <==> Cached(roomCache, k))
    && (forall k :: k in builds ==> exists j :: 0 <= j < i && RoomKey(rooms[j]) == k)
    && (forall j :: 0 <= j < i ==> RoomKey(rooms[j]) in builds)
  }

  /** One more room keeps the bookkeeping, whether its tile came from the cache or was built. */
  lemma BuildsStep(builds: seq<(string, bool)>, roomCache: map<string, map<bool, Sprite>>, roomCache': map<string, map<bool, Sprite>>,
                   rooms: seq<RoomInstance>, i: nat, built: bool)
    requires i < |rooms| && BuildsSoFar(builds, roomCache, rooms, i)
    requires built <==> !Cached(roomCache, RoomKey(rooms[i]))
    requires forall k :: Cached(roomCache', k) <==> Cached(roomCache, k) || k == RoomKey(rooms[i])
    ensures BuildsSoFar(if built then builds + [RoomKey(rooms[i])] else builds, roomCache', rooms, i + 1)
  {
    var b' := if built then builds + [RoomKey(rooms[i])] else builds;
    forall k | k in b'
      ensures exists j :: 0 <= j < i + 1 && RoomKey(rooms[j]) == k
    {
      if k !in builds {
        assert RoomKey(rooms[i]) == k;
      }
    }
  }

  /**
    The room loop of `__get_ship_layout`: the canvas gets every room's tile in
    order; `builds` lists the room keys whose tile was built, each at most
    once, and for a complete run they are exactly the keys of the rooms.
  */
  method PlaceRoomTiles(a: Assets, d: ShipDesign, tint: Tint, canvas: Sprite, rooms: seq<RoomInstance>)
    returns (r: Result<Sprite, Error>, ghost builds: seq<(string, bool)>)
    ensures r == PlaceRooms(a, d, tint, canvas, rooms)
    ensures Distinct(builds)
    ensures forall k :: k in builds ==> exists j :: 0 <= j < |rooms| && RoomKey(rooms[j]) == k
    ensures r.Ok? ==> forall j :: 0 <= j < |rooms| ==> RoomKey(rooms[j]) in builds
  {
    builds := [];
    var interior := canvas;
    var roomCache: map<string, map<bool, Sprite>> := map[];
    var decoCache: map<CacheKey, Nest> := map[];
    var i := 0;
    while i < |rooms|
      invariant 0 <= i <= |rooms|
      invariant PlaceRooms(a, d, tint, canvas, rooms[..i]) == Ok(interior)
      invariant RoomCacheSound(a, d, tint, roomCache) && WellShaped(decoCache)
      invariant BuildsSoFar(builds, roomCache, rooms, i)
    {
      var room := rooms[i];
      assert rooms[..i + 1][..i] == rooms[..i] && rooms[..i + 1][i] == room;
      var tile, roomCache', built;
      tile, roomCache', decoCache, built := CachedRoomTile(a, d, tint, room, roomCache, decoCache);
      if tile.Err? {
        PlaceRoomsAbort(a, d, tint, canvas, rooms, i + 1);
        return Err(tile.error), builds;
      }
      BuildsStep(builds, roomCache, roomCache', rooms, i, built);
      if built {
        builds := builds + [RoomKey(room)];
      }
      roomCache := roomCache';
      interior := Paste(interior, tile.value, room.column * a.t, room.row * a.t, false);
      i := i + 1;
    }
    assert rooms[..|rooms|] == rooms;
    return Ok(interior), builds;
  }

  /** `__get_ship_layout`, both disk caches missing: the image and its name are `ShipLayout`, and every room key is built at most once. */
  method RenderShipLayout(a: Assets, d: ShipDesign, prefix: string, ship: UserShip)
    returns (r: Result<(Sprite, string), Error>, ghost builds: seq<(string, bool)>)
    ensures r == ShipLayout(a, d, prefix, ship)
    ensures Distinct(builds)
    ensures forall k :: k in builds ==> exists j :: 0 <= j < |ship.rooms| && RoomKey(ship.rooms[j]) == k
    ensures r.Ok? ==> forall j :: 0 <= j < |ship.rooms| ==> RoomKey(ship.rooms[j]) in builds
  {
    builds := [];
    var loaded := Load(a.store, d.interiorSpriteId);
    if loaded.Err? {
      return Err(loaded.error), builds;
    }
    var interior := Enhance(loaded.value, ship.tint);
    var grid := RasteriseGrid(d.mask, d.rows, d.columns, interior.width, interior.height, a.t);
    if grid.Err? {
      return Err(grid.error), builds;
    }
    interior := Paste(interior, grid.value, 0, 0, true);
    assert Interior(a, d, ship.tint) == Ok(interior);
    var placed;
    placed, builds := PlaceRoomTiles(a, d, ship.tint, interior, ship.rooms);
    if placed.Err? {
      return Err(placed.error), builds;
    }
    return Ok((placed.value, LayoutFileName(prefix, ship.userId))), builds;
  }
}
