// ui/gui/pages/worlds/map2.go: the map is a grid of images of 256 by 256 pixels, into which chunks of 16 by 16 are
// drawn.

module TileCanvas {
  import opened Common

  datatype Point = Point(x: int, y: int)

  type Pixel = bv32

  const TRANSPARENT: Pixel := 0

  const TILE_SIZE: int := 256

  // The image of a chunk, row by row.
  type ChunkImage = s: seq<Pixel> | |s| == 256 witness seq(256, _ => TRANSPARENT)

  datatype MapTile = MapTile(pos: Point, img: ChunkImage)

  // ---- where a chunk goes ----

  // One coordinate of chunkPosToTilePos: the tile, and the offset in it.
  function TileCoord(c: int): (r: (int, int))
    ensures r.0 * 256 + r.1 == c * 16 && 0 <= r.1 <= 240
  {
    var block := c * 16;
    var tile, offset := Quo(block, TILE_SIZE), Rem(block, TILE_SIZE);
    assert block == TILE_SIZE * tile + offset && offset % 16 == 0;
    if block < 0 && offset != 0 then (tile - 1, offset + TILE_SIZE) else (tile, offset)
  }

  function ChunkPosToTilePos(cp: Point): (Point, Point) {
    var (tx, ox) := TileCoord(cp.x);
    var (ty, oy) := TileCoord(cp.y);
    (Point(tx, ty), Point(ox, oy))
  }

  // ---- an unbounded canvas ----

  // The chunk and the tile a pixel of the canvas lies in, and where.
  function ChunkAt(p: Point): Point { Point(p.x / 16, p.y / 16) }

  function TileAt(p: Point): Point { Point(p.x / TILE_SIZE, p.y / TILE_SIZE) }

  function Global(tile: Point, x: int, y: int): Point {
    Point(tile.x * TILE_SIZE + x, tile.y * TILE_SIZE + y)
  }

  // What was drawn last at a pixel.
  function Drawn(history: seq<MapTile>, p: Point): Option<Pixel> {
    if history == [] then None else
      var last := history[|history| - 1];
      if last.pos == ChunkAt(p) then Some(last.img[(p.y % 16) * 16 + p.x % 16]) else Drawn(history[..|history| - 1], p)
  }

  function Shown(history: seq<MapTile>, p: Point): Pixel {
    var d := Drawn(history, p);
    if d.Some? then d.value else TRANSPARENT
  }

  function Touched(history: seq<MapTile>): set<Point> {
    set i | 0 <= i < |history| :: ChunkPosToTilePos(history[i].pos).0
  }

  lemma CoordInSquare(c: int, x: int)
    requires 0 <= x < TILE_SIZE
    ensures var (t, o) := TileCoord(c);
            && ((t * TILE_SIZE + x) / 16 == c <==> o <= x < o + 16)
            && ((t * TILE_SIZE + x) / 16 == c ==> (t * TILE_SIZE + x) % 16 == x - o)
  {
    var (t, o) := TileCoord(c);
    var g := t * TILE_SIZE + x;
    assert g - c * 16 == x - o;
  }

  // A pixel of a tile is in the square drawn for a chunk if and only if it belongs to the chunk: negative or not, a
  // chunk lies wholly in its tile, and nothing is drawn over a neighbour.
  lemma SquareIsChunk(cp: Point, x: int, y: int)
    requires 0 <= x < TILE_SIZE && 0 <= y < TILE_SIZE
    ensures var (tile, offset) := ChunkPosToTilePos(cp);
            && (ChunkAt(Global(tile, x, y)) == cp <==> offset.x <= x < offset.x + 16 && offset.y <= y < offset.y + 16)
            && (ChunkAt(Global(tile, x, y)) == cp ==>
                  Global(tile, x, y).x % 16 == x - offset.x && Global(tile, x, y).y % 16 == y - offset.y)
  {
    CoordInSquare(cp.x, x);
    CoordInSquare(cp.y, y);
  }

  lemma TileOfCoord(x: int)
    ensures TileCoord(x / 16).0 == x / TILE_SIZE
  {
    var (t, o) := TileCoord(x / 16);
    assert t * TILE_SIZE + o == x / 16 * 16 && 0 <= o <= TILE_SIZE - 16;
    assert 0 <= x - t * TILE_SIZE < TILE_SIZE;
  }

  // The tile of a chunk is the tile of its pixels.
  lemma TileOfChunk(p: Point)
    ensures ChunkPosToTilePos(ChunkAt(p)).0 == TileAt(p)
  {
    TileOfCoord(p.x);
    TileOfCoord(p.y);
  }

  lemma TouchedStep(history: seq<MapTile>, last: MapTile)
    ensures Touched(history + [last]) == Touched(history) + {ChunkPosToTilePos(last.pos).0}
  {
    var h := history + [last];
    assert h[|history|] == last && forall i :: 0 <= i < |history| ==> h[i] == history[i];
    hide ChunkPosToTilePos;
    assert Touched(h) <= Touched(history) + {ChunkPosToTilePos(last.pos).0};
    assert Touched(history) + {ChunkPosToTilePos(last.pos).0} <= Touched(h);
  }

  // Only pixels of tiles that were touched have been drawn.
  lemma {:induction false} DrawnIsTouched(history: seq<MapTile>, p: Point)
    ensures Drawn(history, p).Some? ==> TileAt(p) in Touched(history)
  {
    if history != [] {
      var before, last := history[..|history| - 1], history[|history| - 1];
      TouchedStep(before, last);
      assert before + [last] == history;
      if last.pos == ChunkAt(p) {
        TileOfChunk(p);
      } else {
        DrawnIsTouched(before, p);
      }
    }
  }

  // A pixel shows the last image that was added for its chunk.
  lemma {:induction false} LastImageShown(history: seq<MapTile>, i: nat, p: Point)
    requires i < |history| && history[i].pos == ChunkAt(p)
    requires forall j :: i < j < |history| ==> history[j].pos != ChunkAt(p)
    ensures Shown(history, p) == history[i].img[(p.y % 16) * 16 + p.x % 16]
  {
    if i < |history| - 1 {
      LastImageShown(history[..|history| - 1], i, p);
    }
  }

  // A pixel for whose chunk there was no image is transparent black.
  lemma {:induction false} NeverDrawn(history: seq<MapTile>, p: Point)
    requires forall j :: 0 <= j < |history| ==> history[j].pos != ChunkAt(p)
    ensures Shown(history, p) == 0
  {
    if history != [] { NeverDrawn(history[..|history| - 1], p); }
  }

  lemma TileOfGlobal(t: Point, x: int, y: int)
    requires 0 <= x < TILE_SIZE && 0 <= y < TILE_SIZE
    ensures TileAt(Global(t, x, y)) == t
  {
  }

  // One more chunk changes the pixels of its square, in its tile, and no others.
  lemma ShownStep(history: seq<MapTile>, last: MapTile, t: Point, x: int, y: int)
    requires 0 <= x < TILE_SIZE && 0 <= y < TILE_SIZE
    ensures var (tile, o) := ChunkPosToTilePos(last.pos);
            && 0 <= o.x <= TILE_SIZE - 16 && 0 <= o.y <= TILE_SIZE - 16
            && Shown(history + [last], Global(t, x, y)) ==
               if t == tile && o.x <= x < o.x + 16 && o.y <= y < o.y + 16 then last.img[(y - o.y) * 16 + (x - o.x)]
               else Shown(history, Global(t, x, y))
  {
    var p := Global(t, x, y);
    var h := history + [last];
    assert h[..|h| - 1] == history && h[|h| - 1] == last;
    SquareIsChunk(last.pos, x, y);
    TileOfGlobal(t, x, y);
    TileOfChunk(p);
    hide ChunkPosToTilePos, Global, ChunkAt, TileAt;
  }

  // A tile that was not touched is transparent.
  lemma Untouched(history: seq<MapTile>, t: Point, x: int, y: int)
    requires 0 <= x < TILE_SIZE && 0 <= y < TILE_SIZE && t !in Touched(history)
    ensures Shown(history, Global(t, x, y)) == TRANSPARENT
  {
    DrawnIsTouched(history, Global(t, x, y));
    TileOfGlobal(t, x, y);
  }

  // ---- the object ----

  lemma InTile(cp: Point)
    ensures var o := ChunkPosToTilePos(cp).1; 0 <= o.x <= TILE_SIZE - 16 && 0 <= o.y <= TILE_SIZE - 16
  {
  }

  class Map2 {
    var tileImages: map<Point, array2<Pixel>>
    var imageOps: map<Point, array2<Pixel>>   // an image op refers to the image
    ghost var history: seq<MapTile>           // since the last reset

    ghost predicate Sized()
      reads this`tileImages
    {
      && (forall t :: t in tileImages ==> tileImages[t].Length0 == TILE_SIZE && tileImages[t].Length1 == TILE_SIZE)
      && (forall s, t :: s in tileImages && t in tileImages && s != t ==> tileImages[s] != tileImages[t])
    }

    // The tiles show the canvas.
    ghost predicate Shows()
      requires Sized()
      reads this`tileImages, this`history, tileImages.Values
    {
      forall t, x, y :: t in tileImages && 0 <= x < TILE_SIZE && 0 <= y < TILE_SIZE ==>
        tileImages[t][x, y] == Shown(history, Global(t, x, y))
    }

    ghost predicate Valid()
      reads this`tileImages, this`history, tileImages.Values
    {
      Sized() && Shows() && tileImages.Keys == Touched(history)
    }

    constructor ()
      ensures Valid() && history == [] && imageOps == tileImages
    {
      tileImages, imageOps, history := map[], map[], [];
    }

    // draw.Draw of a chunk into a tile: the square is inside the tile.
    static method Draw(img: array2<Pixel>, offset: Point, src: ChunkImage)
      requires img.Length0 == TILE_SIZE && img.Length1 == TILE_SIZE
      requires 0 <= offset.x <= TILE_SIZE - 16 && 0 <= offset.y <= TILE_SIZE - 16
      modifies img
      ensures forall x, y :: 0 <= x < TILE_SIZE && 0 <= y < TILE_SIZE ==>
                img[x, y] == if offset.x <= x < offset.x + 16 && offset.y <= y < offset.y + 16
                             then src[(y - offset.y) * 16 + (x - offset.x)] else old(img[x, y])
    {
      forall x, y | offset.x <= x < offset.x + 16 && offset.y <= y < offset.y + 16 {
        img[x, y] := src[(y - offset.y) * 16 + (x - offset.x)];
      }
    }

    // The image of a tile, a new one if need be (lines 158-162).
    method TileImage(tilePos: Point) returns (tileImg: array2<Pixel>)
      requires Valid()
      modifies this`tileImages
      ensures Sized() && Shows() && tileImages.Keys == Touched(history) + {tilePos}
      ensures tilePos in tileImages && tileImages[tilePos] == tileImg
              && (tileImg in old(tileImages.Values) || fresh(tileImg))
      ensures tileImages == old(tileImages)[tilePos := tileImg]
      ensures tilePos in old(tileImages) ==> tileImg == old(tileImages[tilePos])
    {
      if tilePos in tileImages {
        tileImg := tileImages[tilePos];
      } else {
        tileImg := new Pixel[TILE_SIZE, TILE_SIZE]((_, _) => TRANSPARENT);
        tileImages := tileImages[tilePos := tileImg];
        forall x, y | 0 <= x < TILE_SIZE && 0 <= y < TILE_SIZE
          ensures tileImages[tilePos][x, y] == Shown(history, Global(tilePos, x, y))
        {
          Untouched(history, tilePos, x, y);
        }
        hide Shown, Global, Touched;
      }
    }

    // One turn of the first loop of AddTiles.
    method AddTile(mapTile: MapTile) returns (tilePos: Point)
      requires Valid()
      modifies this`tileImages, this`history, tileImages.Values
      ensures Valid() && history == old(history) + [mapTile] && tilePos in tileImages
      ensures fresh(tileImages.Values - old(tileImages.Values))
      ensures forall t :: t in old(tileImages) ==> t in tileImages && tileImages[t] == old(tileImages[t])
      ensures tileImages.Keys == old(tileImages).Keys + {tilePos}
    {
      hide Shown, Global, Touched, ChunkPosToTilePos;
      var (pos, posInTile) := ChunkPosToTilePos(mapTile.pos);
      tilePos := pos;
      var tileImg := TileImage(tilePos);
      assert fresh(tileImages.Values - old(tileImages.Values));
      TouchedStep(history, mapTile);
      forall t, x, y | 0 <= x < TILE_SIZE && 0 <= y < TILE_SIZE
        ensures Shown(history + [mapTile], Global(t, x, y)) ==
                if t == tilePos && posInTile.x <= x < posInTile.x + 16 && posInTile.y <= y < posInTile.y + 16
                then mapTile.img[(y - posInTile.y) * 16 + (x - posInTile.x)] else Shown(history, Global(t, x, y))
      {
        ShownStep(history, mapTile, t, x, y);
      }
      InTile(mapTile.pos);
      Draw(tileImg, posInTile, mapTile.img);
      history := history + [mapTile];
    }

    // Lines 169-173.
    method MakeOps(updatedTiles: seq<Point>)
      requires forall t :: t in imageOps ==> t in tileImages && imageOps[t] == tileImages[t]
      requires forall t :: t in updatedTiles ==> t in tileImages
      requires forall t :: t in tileImages && t !in imageOps ==> t in updatedTiles
      modifies this`imageOps
      ensures imageOps == tileImages
    {
      for j := 0 to |updatedTiles|
        invariant forall t :: t in imageOps ==> t in tileImages && imageOps[t] == tileImages[t]
        invariant forall t :: t in tileImages && t !in imageOps ==> t in updatedTiles[j..]
      {
        imageOps := imageOps[updatedTiles[j] := tileImages[updatedTiles[j]]];
      }
    }

    // The tiles that were drawn to get an image op of their image.
    method AddTiles(tiles: seq<MapTile>)
      requires Valid() && imageOps == tileImages
      modifies this, tileImages.Values
      ensures Valid() && imageOps == tileImages && history == old(history) + tiles
    {
      hide Shown, Touched, Global, Shows, Sized;
      var updatedTiles: seq<Point> := [];
      var i := 0;
      while i < |tiles|
        invariant 0 <= i <= |tiles| && Valid() && history == old(history) + tiles[..i]
        invariant fresh(tileImages.Values - old(tileImages.Values))
        invariant forall t :: t in imageOps ==> t in tileImages && imageOps[t] == tileImages[t]
        invariant forall t :: t in tileImages && t !in imageOps ==> t in updatedTiles
        invariant forall t :: t in updatedTiles ==> t in tileImages
      {
        var tilePos := AddTile(tiles[i]);
        updatedTiles := updatedTiles + [tilePos];
        i := i + 1;
        assert tiles[..i] == tiles[..i - 1] + [tiles[i - 1]];
      }
      assert tiles[..i] == tiles;
      MakeOps(updatedTiles);
    }

    method Reset()
      modifies this
      ensures Valid() && imageOps == tileImages && history == []
    {
      tileImages := map[];
      imageOps := map[];
      history := [];
    }
  }
}
