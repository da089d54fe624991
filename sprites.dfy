/**
  Images at the level of geometry. A sprite is its size, where its own pixels come
  from, and the ordered list of things pasted or drawn onto it. Pixel colours,
  alpha blending, resampling and colour enhancement are not interpreted: they
  are recorded by name so that two images are equal exactly when they were built
  the same way.
*/
module Sprites {
  import opened Wrappers

  type SpriteId = string

  /** A PIL box (left, upper, right, lower). `crop` reads it half-open; `rectangle` draws it inclusive. */
  datatype Box = Box(left: int, top: int, right: int, bottom: int)

  /** Brightness, hue and saturation handed to the colour enhancer; never inspected here. */
  datatype Tint = Tint(brightness: real, hue: real, saturation: real)

  /** Where a sprite's own pixels come from. */
  datatype Origin =
    | Loaded(id: SpriteId)
    | Blank
    | CropOf(src: Sprite, box: Box)
    | ResizeOf(src: Sprite)
    | EnhanceOf(src: Sprite, tint: Tint)

  /** One paste or drawing call on an image. `masked` is whether the paste used the piece as its own alpha mask. */
  datatype Layer =
    | Pasted(piece: Sprite, x: int, y: int, masked: bool)
    | Outline(box: Box)
    | Filled(box: Box)
    | Label(lx: int, ly: int, text: string)

  datatype Sprite = Sprite(width: nat, height: nat, origin: Origin, layers: seq<Layer>)

  datatype Error =
    | AssetNotFound(id: SpriteId)
    | DesignNotFound(designId: string)
    | GeometryError
    | InvalidLiteral(c: char)

  /** The sprite store: the size of every base asset it holds. */
  datatype Store = Store(sizes: map<SpriteId, (nat, nat)>)

  /** `sprites.load_sprite(id)`. */
  function Load(store: Store, id: SpriteId): (r: Result<Sprite, Error>)
    ensures r.Ok? <==> id in store.sizes
    ensures r.Ok? ==> r.value.origin == Loaded(id) && r.value.layers == []
    ensures r.Ok? ==> (r.value.width, r.value.height) == store.sizes[id]
  {
    if id in store.sizes then Ok(Sprite(store.sizes[id].0, store.sizes[id].1, Loaded(id), [])) else Err(AssetNotFound(id))
  }

  /** `sprites.create_empty_sprite(w, h)`: a transparent image. */
  function NewSprite(w: nat, h: nat): Sprite {
    Sprite(w, h, Blank, [])
  }

  /** `image.crop(box)`. */
  function Crop(s: Sprite, b: Box): Sprite
    requires b.left <= b.right && b.top <= b.bottom
  {
    Sprite(b.right - b.left, b.bottom - b.top, CropOf(s, b), [])
  }

  /** `image.resize((w, h))`. */
  function Resize(s: Sprite, w: nat, h: nat): Sprite {
    Sprite(w, h, ResizeOf(s), [])
  }

  /** `sprites.enhance_sprite(image, ...)`: a recoloured copy of the same size. */
  function Enhance(s: Sprite, tint: Tint): Sprite {
    Sprite(s.width, s.height, EnhanceOf(s, tint), [])
  }

  /** `dst.paste(piece, (x, y)[, mask])`. */
  function Paste(dst: Sprite, piece: Sprite, x: int, y: int, masked: bool): Sprite {
    dst.(layers := dst.layers + [Pasted(piece, x, y, masked)])
  }

  /** `ImageDraw.rectangle(box, outline=...)`. */
  function DrawOutline(dst: Sprite, b: Box): Sprite {
    dst.(layers := dst.layers + [Outline(b)])
  }

  /** `ImageDraw.rectangle(box, fill, outline)` with equal fill and outline. */
  function DrawFilled(dst: Sprite, b: Box): Sprite {
    dst.(layers := dst.layers + [Filled(b)])
  }

  /** `ImageDraw.text((x, y), text, ...)`. */
  function DrawText(dst: Sprite, x: int, y: int, text: string): Sprite {
    dst.(layers := dst.layers + [Label(x, y, text)])
  }

  /** The horizontal span [x, x + width) a paste covers (empty for a drawing call). */
  function XSpan(l: Layer): (int, int) {
    if l.Pasted? then (l.x, l.x + l.piece.width) else (0, 0)
  }

  /** The vertical span [y, y + height) a paste covers (empty for a drawing call). */
  function YSpan(l: Layer): (int, int) {
    if l.Pasted? then (l.y, l.y + l.piece.height) else (0, 0)
  }

  /** The spans follow one another without gap or overlap from `lo` to `hi`. */
  predicate Tiles(spans: seq<(int, int)>, lo: int, hi: int) {
    && |spans| >= 1
    && spans[0].0 == lo
    && spans[|spans| - 1].1 == hi
    && forall i :: 0 <= i < |spans| - 1 ==> spans[i].1 == spans[i + 1].0
  }
}
