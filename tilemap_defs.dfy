/**
 * Tile gid flag bits of the 2D tile map (the Tiled TMX format's "Tile Flipping"
 * bits): the top four bits of a 32-bit gid carry the flips, the rest is the gid.
 */
module TileMapDefs {
  type u32 = bv32

  const FLIP_HORIZONTAL: u32 := 0x8000_0000
  const FLIP_VERTICAL: u32 := 0x4000_0000
  const FLIP_DIAGONAL: u32 := 0x2000_0000
  const FLIP_RESERVED: u32 := 0x1000_0000
  const FLIP_ALL: u32 := FLIP_HORIZONTAL | FLIP_VERTICAL | FLIP_DIAGONAL | FLIP_RESERVED

  /** `v` has exactly one bit set, bit `k`. */
  predicate SingleBit(v: u32, k: nat)
    requires k < 32
  {
    v == (1 as u32) << k
  }

  lemma FlipMasks()
    ensures SingleBit(FLIP_HORIZONTAL, 31) && SingleBit(FLIP_VERTICAL, 30)
    ensures SingleBit(FLIP_DIAGONAL, 29) && SingleBit(FLIP_RESERVED, 28)
    ensures FLIP_ALL == 0xf000_0000
  {
  }

  /** The tile's gid with the four flag bits cleared. */
  function GetGid(gid: u32): (r: u32)
    ensures r < 0x1000_0000 && r | (gid & FLIP_ALL) == gid
  {
    FlipMasks();
    gid & !FLIP_ALL
  }

  function GetFlipX(gid: u32): (r: bool)
    ensures r <==> (gid >> 31) & 1 == 1
  {
    gid & FLIP_HORIZONTAL != 0
  }

  function GetFlipY(gid: u32): (r: bool)
    ensures r <==> (gid >> 30) & 1 == 1
  {
    gid & FLIP_VERTICAL != 0
  }

  function GetSwapXY(gid: u32): (r: bool)
    ensures r <==> (gid >> 29) & 1 == 1
  {
    gid & FLIP_DIAGONAL != 0
  }

  /** Rebuilds a gid from its parts: the inverse of the accessors above. */
  function Compose(baseGid: u32, flipX: bool, flipY: bool, swapXY: bool, reserved: bool): u32
    requires baseGid < 0x1000_0000
  {
    baseGid
      | (if flipX then FLIP_HORIZONTAL else 0)
      | (if flipY then FLIP_VERTICAL else 0)
      | (if swapXY then FLIP_DIAGONAL else 0)
      | (if reserved then FLIP_RESERVED else 0)
  }

  lemma ComposeDecompose(baseGid: u32, flipX: bool, flipY: bool, swapXY: bool, reserved: bool)
    requires baseGid < 0x1000_0000
    ensures var g := Compose(baseGid, flipX, flipY, swapXY, reserved);
      GetGid(g) == baseGid && GetFlipX(g) == flipX && GetFlipY(g) == flipY
      && GetSwapXY(g) == swapXY && (g & FLIP_RESERVED != 0) == reserved
  {
  }

  /** A tile of a tile layer; only its gid is modelled. */
  datatype Tile2D = Tile2D(gid: u32)
  {
    function Gid(): (r: u32)
      ensures r < 0x1000_0000 && r | (gid & FLIP_ALL) == gid
    {
      GetGid(gid)
    }
    function FlipX(): (r: bool) ensures r <==> (gid >> 31) & 1 == 1 { GetFlipX(gid) }
    function FlipY(): (r: bool) ensures r <==> (gid >> 30) & 1 == 1 { GetFlipY(gid) }
    function SwapXY(): (r: bool) ensures r <==> (gid >> 29) & 1 == 1 { GetSwapXY(gid) }
  }

  /** A tile object of an object group; its gid defaults to 0. */
  datatype TileMapObject2D = TileMapObject2D(gid: u32)
  {
    static function Default(): (o: TileMapObject2D)
      ensures o.TileGid() == 0 && !o.TileFlipX() && !o.TileFlipY() && !o.TileSwapXY()
    {
      TileMapObject2D(0)
    }

    /** The object's gid read as a tile's: the accessors are `Tile2D`'s. */
    function Tile(): Tile2D { Tile2D(gid) }
    function TileGid(): u32 { Tile().Gid() }
    function TileFlipX(): bool { Tile().FlipX() }
    function TileFlipY(): bool { Tile().FlipY() }
    function TileSwapXY(): bool { Tile().SwapXY() }
  }
}
