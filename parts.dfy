/** The per-part face tables: six pixel rectangles per textured box, in the
    face order the box primitive expects, and the UV arrays made from them. */
module Parts {
  import opened Atlas
  import opened Placement

  /** Face order of the box primitive's faceUV array. */
  datatype Face = Back | Front | Left | Right | Top | Bottom

  const FaceOrder: seq<Face> := [Back, Front, Left, Right, Top, Bottom]

  /** Six rectangles, all inside the atlas. */
  predicate WellFormedTable(t: seq<PixelRect>)
  {
    |t| == |FaceOrder| && forall i :: 0 <= i < |t| ==> InAtlas(t[i])
  }

  /** No two rectangles of the table share a pixel. */
  predicate PairwiseDisjoint(t: seq<PixelRect>)
  {
    forall i, j :: 0 <= i < j < |t| ==> PixelsDisjoint(t[i], t[j])
  }

  /** The head's faces: back, front, left, right, top, bottom. */
  function HeadFaces(): (t: seq<PixelRect>)
    ensures WellFormedTable(t) && PairwiseDisjoint(t)
    ensures forall i :: 0 <= i < |t| ==> 17 <= t[i].y1
  {
    [PixelRect(25, 17, 32, 24), PixelRect(9, 17, 16, 24), PixelRect(17, 17, 24, 24),
     PixelRect(1, 17, 8, 24), PixelRect(9, 25, 16, 32), PixelRect(17, 25, 24, 32)]
  }

  /** The body's faces. */
  function BodyFaces(): (t: seq<PixelRect>)
    ensures WellFormedTable(t) && PairwiseDisjoint(t)
    ensures forall i :: 0 <= i < |t| ==> 17 <= t[i].x1 && t[i].y2 <= 16
  {
    [PixelRect(33, 1, 40, 12), PixelRect(21, 1, 28, 12), PixelRect(29, 1, 32, 12),
     PixelRect(17, 1, 20, 12), PixelRect(21, 13, 28, 16), PixelRect(29, 13, 36, 16)]
  }

  /** The faces shared by the four feet. */
  function FootFaces(): (t: seq<PixelRect>)
    ensures WellFormedTable(t) && PairwiseDisjoint(t)
    ensures forall i :: 0 <= i < |t| ==> t[i].x2 <= 16 && t[i].y2 <= 16
  {
    [PixelRect(13, 7, 16, 12), PixelRect(5, 7, 8, 12), PixelRect(1, 7, 4, 12),
     PixelRect(9, 7, 12, 12), PixelRect(5, 13, 8, 16), PixelRect(9, 13, 12, 16)]
  }

  /** The faceUV array handed to the box primitive: the mapper applied face by face. */
  function FaceUVs(t: seq<PixelRect>): (uvs: seq<UV>)
    ensures |uvs| == |t|
    ensures forall i :: 0 <= i < |t| ==> uvs[i] == MapRect(t[i])
  {
    seq(|t|, i requires 0 <= i < |t| => MapRect(t[i]))
  }

  /** Every UV array of a well-formed table lies in the unit square, face by face. */
  lemma FaceUVsInUnitSquare(t: seq<PixelRect>)
    requires WellFormedTable(t)
    ensures forall i :: 0 <= i < |t| ==>
      var r := FaceUVs(t)[i];
      0.0 <= r.u1 < r.u2 <= 1.0 && 0.0 <= r.v1 < r.v2 <= 1.0
  {
    forall i | 0 <= i < |t|
      ensures var r := FaceUVs(t)[i];
        0.0 <= r.u1 < r.u2 <= 1.0 && 0.0 <= r.v1 < r.v2 <= 1.0
    {
      InUnitSquare(t[i]);
    }
  }

  /** All eighteen rectangles of the creeper, head then body then feet. */
  function AllFaces(): seq<PixelRect>
  {
    HeadFaces() + BodyFaces() + FootFaces()
  }

  /** No two faces of the creeper overlap in texture space. */
  lemma AtlasRegionsDisjoint()
    ensures forall i, j :: 0 <= i < j < |AllFaces()| ==>
      UVDisjoint(MapRect(AllFaces()[i]), MapRect(AllFaces()[j]))
  {
    var h, b, f := HeadFaces(), BodyFaces(), FootFaces();
    var all := AllFaces();
    forall i, j | 0 <= i < j < |all|
      ensures UVDisjoint(MapRect(all[i]), MapRect(all[j]))
    {
      if j < 6 {
        assert PixelsDisjoint(h[i], h[j]);
      } else if i < 6 && j < 12 {
        assert all[i] == h[i] && all[j] == b[j - 6];
      } else if i < 6 {
        assert all[i] == h[i] && all[j] == f[j - 12];
      } else if j < 12 {
        assert all[i] == b[i - 6] && all[j] == b[j - 6];
        assert PixelsDisjoint(b[i - 6], b[j - 6]);
      } else if i < 12 {
        assert all[i] == b[i - 6] && all[j] == f[j - 12];
      } else {
        assert all[i] == f[i - 12] && all[j] == f[j - 12];
        assert PixelsDisjoint(f[i - 12], f[j - 12]);
      }
      DisjointIff(all[i], all[j]);
    }
  }

  /** Number of pixel columns and rows a rectangle covers. */
  function PixelWidth(p: PixelRect): int { p.x2 - p.x1 + 1 }
  function PixelHeight(p: PixelRect): int { p.y2 - p.y1 + 1 }

  /** Horizontal and vertical extent of a face of a box of the given size, as
      the box primitive lays it out: back/front are width x height, left/right
      depth x height, top/bottom width x depth. */
  function FaceExtent(s: SizeTriple, face: Face): (real, real)
  {
    match face
    case Back | Front => (s.width, s.height)
    case Left | Right => (s.depth, s.height)
    case Top | Bottom => (s.width, s.depth)
  }

  /** One texel per model unit: every face's rectangle has the face's own size. */
  predicate OneTexelPerUnit(t: seq<PixelRect>, s: SizeTriple)
    requires |t| == |FaceOrder|
  {
    forall i :: 0 <= i < |t| ==>
      (PixelWidth(t[i]) as real, PixelHeight(t[i]) as real) == FaceExtent(s, FaceOrder[i])
  }

  /** Each table is drawn at one texel per unit of the part it textures. */
  lemma TablesMatchSizes()
    ensures OneTexelPerUnit(HeadFaces(), HeadSize)
    ensures OneTexelPerUnit(BodyFaces(), BodySize)
    ensures OneTexelPerUnit(FootFaces(), FootSize)
  {
  }
}
