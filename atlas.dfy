/** The texture-atlas mapper: 1-indexed pixel rectangles of the 64x32 creeper
    skin become normalised UV rectangles (a Vector4 of u1, v1, u2, v2). */
module Atlas {

  /** Size of the creeper skin in pixels. */
  const Width: int := 64
  const Height: int := 32

  /** A pixel rectangle: columns x1..x2 and rows y1..y2, both inclusive and counted from 1. */
  datatype PixelRect = PixelRect(x1: int, y1: int, x2: int, y2: int)

  /** A UV rectangle, the four components of the Vector4 handed to the box primitive. */
  datatype UV = UV(u1: real, v1: real, u2: real, v2: real)

  /** The rectangle names at least one pixel and lies inside the atlas. */
  predicate InAtlas(p: PixelRect)
  {
    1 <= p.x1 <= p.x2 <= Width && 1 <= p.y1 <= p.y2 <= Height
  }

  /** Near (left or top) edge, in UV units, of pixel number c of a sheet n pixels long. */
  function TexelLo(c: int, n: int): real
    requires n > 0
  {
    (c - 1) as real / n as real
  }

  /** Far (right or bottom) edge, in UV units, of pixel number c of a sheet n pixels long. */
  function TexelHi(c: int, n: int): real
    requires n > 0
  {
    c as real / n as real
  }

  /** mapCreeperMaterial: the near edge is the near side of pixel x1 (so one is
      subtracted), the far edge is the far side of pixel x2 (nothing subtracted). */
  function MapCreeperMaterial(x1: int, y1: int, x2: int, y2: int): (r: UV)
    ensures r.u1 == TexelLo(x1, Width) && r.u2 == TexelHi(x2, Width)
    ensures r.v1 == TexelLo(y1, Height) && r.v2 == TexelHi(y2, Height)
    ensures r.u2 - r.u1 == (x2 - x1 + 1) as real / Width as real
    ensures r.v2 - r.v1 == (y2 - y1 + 1) as real / Height as real
  {
    UV((x1 - 1) as real / 64.0, (y1 - 1) as real / 32.0, x2 as real / 64.0, y2 as real / 32.0)
  }

  /** The mapper applied to a stored rectangle. */
  function MapRect(p: PixelRect): UV
  {
    MapCreeperMaterial(p.x1, p.y1, p.x2, p.y2)
  }

  /** Reads a UV rectangle back as the pixel rectangle it covers. */
  function PixelsOf(uv: UV): PixelRect
  {
    PixelRect((uv.u1 * 64.0).Floor + 1, (uv.v1 * 32.0).Floor + 1, (uv.u2 * 64.0).Floor, (uv.v2 * 32.0).Floor)
  }

  /** No pixel rectangle is lost or shifted by the mapper. */
  lemma RoundTrip(p: PixelRect)
    ensures PixelsOf(MapRect(p)) == p
  {
    var uv := MapRect(p);
    assert uv.u1 * 64.0 == (p.x1 - 1) as real;
    assert uv.v1 * 32.0 == (p.y1 - 1) as real;
    assert uv.u2 * 64.0 == p.x2 as real;
    assert uv.v2 * 32.0 == p.y2 as real;
  }

  /** The worked example: the head's back face. */
  lemma HeadBackExample()
    ensures MapCreeperMaterial(25, 17, 32, 24) == UV(0.375, 0.5, 0.5, 0.75)
  {
  }

  /** A rectangle inside the atlas maps into the unit square with positive extent. */
  lemma InUnitSquare(p: PixelRect)
    requires InAtlas(p)
    ensures var r := MapRect(p);
      0.0 <= r.u1 < r.u2 <= 1.0 && 0.0 <= r.v1 < r.v2 <= 1.0
  {
  }

  /** The UV rectangle covers pixel column c exactly when x1 <= c <= x2, and
      pixel row c exactly when y1 <= c <= y2: the half-open convention. */
  lemma CoversExactly(p: PixelRect, c: int)
    ensures var r := MapRect(p);
      (r.u1 <= TexelLo(c, Width) && TexelHi(c, Width) <= r.u2) <==> p.x1 <= c <= p.x2
    ensures var r := MapRect(p);
      (r.v1 <= TexelLo(c, Height) && TexelHi(c, Height) <= r.v2) <==> p.y1 <= c <= p.y2
  {
  }

  /** Two pixel rectangles share no pixel. */
  predicate PixelsDisjoint(p: PixelRect, q: PixelRect)
  {
    p.x2 < q.x1 || q.x2 < p.x1 || p.y2 < q.y1 || q.y2 < p.y1
  }

  /** Two UV rectangles have disjoint interiors. */
  predicate UVDisjoint(a: UV, b: UV)
  {
    a.u2 <= b.u1 || b.u2 <= a.u1 || a.v2 <= b.v1 || b.v2 <= a.v1
  }

  /** Regions that share no pixel never overlap in texture space, and conversely. */
  lemma DisjointIff(p: PixelRect, q: PixelRect)
    ensures PixelsDisjoint(p, q) <==> UVDisjoint(MapRect(p), MapRect(q))
  {
  }
}
