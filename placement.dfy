/** Part placement: the vertical stacking of foot, body and head computed from
    the size triples, the canonical front-left foot, and the mirrored feet. */
module Placement {

  /** A box size as the source's [width, height, depth] arrays. */
  datatype SizeTriple = SizeTriple(width: real, height: real, depth: real)

  predicate Positive(s: SizeTriple)
  {
    s.width > 0.0 && s.height > 0.0 && s.depth > 0.0
  }

  const HeadSize: SizeTriple := SizeTriple(8.0, 8.0, 8.0)
  const BodySize: SizeTriple := SizeTriple(8.0, 12.0, 4.0)
  const FootSize: SizeTriple := SizeTriple(4.0, 6.0, 4.0)

  /** Centre heights of the three stacked parts. */
  function FootY(foot: SizeTriple): (y: real)
    ensures y - foot.height / 2.0 == 0.0
  {
    foot.height / 2.0
  }

  function BodyY(body: SizeTriple, foot: SizeTriple): (y: real)
    ensures y - body.height / 2.0 == foot.height
  {
    foot.height + body.height / 2.0
  }

  function HeadY(head: SizeTriple, body: SizeTriple, foot: SizeTriple): (y: real)
    ensures y - head.height / 2.0 == foot.height + body.height
  {
    foot.height + body.height + head.height / 2.0
  }

  /** Lateral offset of the canonical (front-left) foot, as authored. */
  function FootX(body: SizeTriple, foot: SizeTriple): (x: real)
    ensures x + foot.width / 2.0 == body.width - foot.width
  {
    body.width - foot.width - foot.width / 2.0
  }

  /** Depth offset of the canonical foot. */
  function FootZ(body: SizeTriple, foot: SizeTriple): (z: real)
    ensures z - foot.depth / 2.0 == body.depth / 2.0
  {
    body.depth / 2.0 + foot.depth / 2.0
  }

  // ---------------------------------------------------------------------------
  // A reference definition of stacking: a part's centre is the sum of the
  // heights below it plus half its own height.

  function Sum(s: seq<real>): real
  {
    if s == [] then 0.0 else s[0] + Sum(s[1..])
  }

  function StackCentre(heights: seq<real>, i: nat): real
    requires i < |heights|
  {
    Sum(heights[..i]) + heights[i] / 2.0
  }

  lemma {:induction false} SumSnoc(s: seq<real>, i: nat)
    requires i < |s|
    ensures Sum(s[..i + 1]) == Sum(s[..i]) + s[i]
  {
    if i > 0 {
      SumSnoc(s[1..], i - 1);
      assert s[..i + 1][1..] == s[1..][..i];
      assert s[..i][1..] == s[1..][..i - 1];
    } else {
      assert s[..1] == [s[0]];
      assert s[..1][1..] == [];
    }
  }

  /** In a stack, the top of part i is the bottom of part i + 1. */
  lemma StackTouches(heights: seq<real>, i: nat)
    requires i + 1 < |heights|
    ensures StackCentre(heights, i) + heights[i] / 2.0
         == StackCentre(heights, i + 1) - heights[i + 1] / 2.0
  {
    SumSnoc(heights, i);
  }

  /** With positive heights, the sum of any prefix is at least the sum of a shorter one. */
  lemma {:induction false} SumPrefixMonotone(s: seq<real>, i: nat, j: nat)
    requires i <= j <= |s|
    requires forall k :: 0 <= k < |s| ==> s[k] > 0.0
    ensures Sum(s[..i]) <= Sum(s[..j])
    ensures i < j ==> Sum(s[..i]) < Sum(s[..j])
  {
    if i < j {
      SumPrefixMonotone(s, i, j - 1);
      SumSnoc(s, j - 1);
    }
  }

  /** With positive heights, a lower part never reaches into a higher one. */
  lemma StackNoOverlap(heights: seq<real>, i: nat, j: nat)
    requires i < j < |heights|
    requires forall k :: 0 <= k < |heights| ==> heights[k] > 0.0
    ensures StackCentre(heights, i) + heights[i] / 2.0 <= StackCentre(heights, j) - heights[j] / 2.0
  {
    SumSnoc(heights, i);
    SumPrefixMonotone(heights, i + 1, j);
  }

  /** The source's three formulas are the reference stack of foot, body and head. */
  lemma FormulasAreStack(head: SizeTriple, body: SizeTriple, foot: SizeTriple)
    ensures var hs := [foot.height, body.height, head.height];
      FootY(foot) == StackCentre(hs, 0) &&
      BodyY(body, foot) == StackCentre(hs, 1) &&
      HeadY(head, body, foot) == StackCentre(hs, 2)
  {
    var hs := [foot.height, body.height, head.height];
    assert hs[..0] == [];
    SumSnoc(hs, 0);
    SumSnoc(hs, 1);
  }

  /** For any sizes the foot stands on the ground, the body on the foot and the
      head on the body: no gap and no overlap. */
  lemma Stacking(head: SizeTriple, body: SizeTriple, foot: SizeTriple)
    ensures FootY(foot) - foot.height / 2.0 == 0.0
    ensures BodyY(body, foot) - FootY(foot) == foot.height / 2.0 + body.height / 2.0
    ensures HeadY(head, body, foot) - BodyY(body, foot) == body.height / 2.0 + head.height / 2.0
  {
    var hs := [foot.height, body.height, head.height];
    FormulasAreStack(head, body, foot);
    StackTouches(hs, 0);
    StackTouches(hs, 1);
  }

  /** The canonical foot's back face is flush with the body's front face. */
  lemma FootFlushWithBody(body: SizeTriple, foot: SizeTriple)
    ensures FootZ(body, foot) - foot.depth / 2.0 == body.depth / 2.0
  {
  }

  /** Two intervals [a1, a2] and [b1, b2] share no interior point. */
  predicate IntervalsApart(a1: real, a2: real, b1: real, b2: real)
  {
    a2 <= b1 || b2 <= a1
  }

  /** The canonical foot lies wholly on the +x side of its lateral mirror image
      exactly when the body is at least two feet wide; the two feet do not
      overlap at all exactly when the body is at least two feet wide or at most
      one foot wide (then the feet have swapped sides). */
  lemma FeetApartIff(body: SizeTriple, foot: SizeTriple)
    ensures var x, w := FootX(body, foot), foot.width;
      (-x + w / 2.0 <= x - w / 2.0) <==> body.width >= 2.0 * foot.width
    ensures var x, w := FootX(body, foot), foot.width;
      var apart := IntervalsApart(x - w / 2.0, x + w / 2.0, -x - w / 2.0, -x + w / 2.0);
      apart <==> body.width >= 2.0 * foot.width || body.width <= foot.width
  {
  }

  /** The source's sizes stack the foot at 3, the body at 12 and the head at 22. */
  lemma CreeperHeights()
    ensures FootY(FootSize) == 3.0 && BodyY(BodySize, FootSize) == 12.0
    ensures HeadY(HeadSize, BodySize, FootSize) == 22.0
  {
  }

  /** The source's sizes put the front-left foot at x = 2, z = 4: its outer side
      flush with the body's side and its inner side meeting the mirrored foot at x = 0. */
  lemma CreeperFootOffsets()
    ensures FootX(BodySize, FootSize) == 2.0 && FootZ(BodySize, FootSize) == 4.0
    ensures FootX(BodySize, FootSize) + FootSize.width / 2.0 == BodySize.width / 2.0
    ensures FootX(BodySize, FootSize) - FootSize.width / 2.0 == 0.0
  {
  }

  // ---------------------------------------------------------------------------
  // Mirroring of the canonical foot.

  datatype Vec3 = Vec3(x: real, y: real, z: real)

  /** Reflection across the model's central vertical plane (the right side). */
  function MirrorX(p: Vec3): (q: Vec3)
    ensures q.y == p.y && q.z == p.z && q.x + p.x == 0.0
  {
    p.(x := -p.x)
  }

  /** Reflection across the model's front-back plane (the back side). */
  function MirrorZ(p: Vec3): (q: Vec3)
    ensures q.x == p.x && q.y == p.y && q.z + p.z == 0.0
  {
    p.(z := -p.z)
  }

  /** The four feet in the order left-front, right-front, left-back, right-back. */
  function FeetPositions(canonical: Vec3): (ps: seq<Vec3>)
    ensures |ps| == 4 && ps[0] == canonical
    ensures forall i :: 0 <= i < 4 ==> ps[i].y == canonical.y
    ensures ps[1].x == -canonical.x && ps[1].z == canonical.z
    ensures ps[2].x == canonical.x && ps[2].z == -canonical.z
    ensures ps[3].x == -canonical.x && ps[3].z == -canonical.z
  {
    [canonical, MirrorX(canonical), MirrorZ(canonical), MirrorX(MirrorZ(canonical))]
  }

  /** The feet are an exact mirror image of themselves across both planes:
      each reflection maps the set of feet onto itself. */
  lemma FeetSymmetric(canonical: Vec3)
    ensures var ps := FeetPositions(canonical);
      (forall i :: 0 <= i < 4 ==> MirrorX(ps[i]) in ps) &&
      (forall i :: 0 <= i < 4 ==> MirrorZ(ps[i]) in ps)
  {
    var ps := FeetPositions(canonical);
    assert MirrorX(ps[1]) == ps[0] && MirrorX(ps[3]) == ps[2];
    assert MirrorZ(ps[2]) == ps[0] && MirrorZ(ps[3]) == ps[1];
    assert MirrorZ(ps[1]) == ps[3];
  }
}
