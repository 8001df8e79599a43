# Creeper model assembly

A Dafny model of the model-assembly part of `createScene` in `src/App.tsx`.
That function builds a blocky "creeper" out of boxes and gives each box
texture coordinates from a 64x32 skin. It places the head, the body and four
feet from three size triples, and binds two keyframe tracks to the parts:
the head sways, and the feet swing in diagonal pairs.

The model has five modules:

- `Atlas` (`atlas.dfy`): `mapCreeperMaterial`. It maps a 1-indexed pixel rectangle
  of the skin to a UV rectangle, plus the facts about it: the round trip back
  to pixels, the unit-square range, exact pixel coverage, and disjointness
  carried from pixels to UVs.
- `Parts` (`parts.dfy`): the three six-face pixel tables in the box
  primitive's face order (back, front, left, right, top, bottom) and the
  faceUV arrays made from them.
- `Placement` (`placement.dfy`): the size triples and the position formulas,
  generalised to any sizes. It also has a reference definition of vertical
  stacking (the sum of the heights below plus half a part's own height) and
  the mirroring of the front-left foot.
- `Keyframes` (`keyframes.dfy`): the head and foot key lists and the playback
  windows. It also gives the meaning of a track, a piecewise-linear sample at
  any frame, and a cyclic playback cursor, which is what the engine does with
  a float animation in cycle mode.
- `CreeperScene` (`scene.dfy`): the imperative part. `Mesh`, `Animation` and
  `Scene` are classes whose fields are overwritten after construction, as in
  the source. `createInstance` copies the source position, and later
  assignments negate x, z or both. `CreateScene` performs the same steps in the
  same order. Its contract states each mesh's box, position, material source
  and instance source, each animation's target property, frame rate, loop mode
  and keys, and the five playbacks, all in terms of the pure definitions above.

Representation choices:

- Sizes, positions and UVs are `real`, so every division is exact.
- Rotations are integers in units of pi/6 (30 degrees). Sampled values are reals in the same unit.
- Frames are integers. Samples are taken at real frames.

Two worked values, as the code computes them:

- With sizes (8,8,8), (8,12,4) and (4,6,4), the formulas at `src/App.tsx:64-68` give
  footY = 3, bodyY = 6 + 12/2 = 12 and headY = 6 + 12 + 8/2 = 22.
  `Placement.CreeperHeights` proves 3, 12 and 22.
- Window [10,35] starts at frame 10 while window [0,25] starts at frame 0,
  so the feet played over [10,35] lead the other pair by ten frames:
  at every playback time they show the pose the other pair reaches ten frames later.
  `Keyframes.PhaseOffset` states this.

## Model

| member | source | states |
|---|---|---|
| `Atlas.MapCreeperMaterial` | src/App.tsx:50-54 | the near edges are the near sides of pixels x1, y1 (one subtracted) and the far edges the far sides of x2, y2; the UV extent is the number of pixels covered over 64 and 32 |
| `Atlas.RoundTrip` | src/App.tsx:50-54 | reading the UV rectangle back as pixels gives the original rectangle: the mapper loses and shifts nothing |
| `Atlas.HeadBackExample` | src/App.tsx:77 | (25,17,32,24) maps to (0.375, 0.5, 0.5, 0.75) |
| `Atlas.InUnitSquare` | src/App.tsx:49-54 | a rectangle with 1 <= x1 <= x2 <= 64 and 1 <= y1 <= y2 <= 32 maps into [0,1] with u1 < u2 and v1 < v2 |
| `Atlas.CoversExactly` | src/App.tsx:49-54 | the UV rectangle contains pixel column c if and only if x1 <= c <= x2 (and likewise for rows): the 1-indexed, inclusive convention of the doc comment |
| `Atlas.DisjointIff` | src/App.tsx:49-54 | two pixel rectangles share no pixel if and only if their UV rectangles have disjoint interiors |
| `Parts.HeadFaces` | src/App.tsx:75-88 | six head rectangles, all inside the atlas, pairwise disjoint, all in rows 17 and below |
| `Parts.BodyFaces` | src/App.tsx:119-132 | six body rectangles, all inside the atlas, pairwise disjoint, in columns 17 and right and rows 1-16 |
| `Parts.FootFaces` | src/App.tsx:143-156 | six foot rectangles, all inside the atlas, pairwise disjoint, in columns 1-16 and rows 1-16 |
| `Parts.FaceUVs` | src/App.tsx:75-88 | the faceUV array has one entry per table row, each the mapper applied to that row's rectangle |
| `Parts.FaceUVsInUnitSquare` | src/App.tsx:75-88 | every faceUV entry made from a well-formed table lies in the unit square with positive extent |
| `Parts.AtlasRegionsDisjoint` | src/App.tsx:75-156 | no two of the creeper's eighteen face regions overlap in texture space |
| `Parts.TablesMatchSizes` | src/App.tsx:57-156 | each face rectangle is exactly as many pixels wide and high as its face is in model units (width x height, depth x height, width x depth) |
| `Placement.SumSnoc` | src/App.tsx:64-68 | the reference stack's height sum grows by the next part's height |
| `Placement.StackTouches` | src/App.tsx:64-68 | in the reference stack the top of each part is the bottom of the next |
| `Placement.StackNoOverlap` | src/App.tsx:64-68 | with positive heights no lower part reaches into any higher part |
| `Placement.FormulasAreStack` | src/App.tsx:64-68 | footY, bodyY and headY are the reference stack of foot, body and head, for any sizes |
| `Placement.Stacking` | src/App.tsx:64-68 | for any sizes the foot's bottom is at 0, bodyY - footY = foot.h/2 + body.h/2 and headY - bodyY = body.h/2 + head.h/2 |
| `Placement.CreeperHeights` | src/App.tsx:57-68 | with the source's sizes footY = 3, bodyY = 12, headY = 22 |
| `Placement.FootFlushWithBody` | src/App.tsx:161 | the canonical foot's back face lies on the body's front face, for any sizes |
| `Placement.FootY` | src/App.tsx:64 | the foot's bottom face is at height 0: it stands on the ground |
| `Placement.BodyY` | src/App.tsx:66 | the body's bottom face is at the foot's height: it stands on the foot |
| `Placement.HeadY` | src/App.tsx:68 | the head's bottom face is at foot height plus body height: it sits on the body |
| `Placement.FootX` | src/App.tsx:160 | the canonical foot's outer side is one foot width short of the body width |
| `Placement.FootZ` | src/App.tsx:161 | the canonical foot's back face is at the body's half depth |
| `Placement.FeetApartIff` | src/App.tsx:160 | the canonical foot lies wholly on the +x side of its mirror image if and only if the body is at least two feet wide; the two feet do not overlap if and only if the body is at least two feet wide or at most one foot wide |
| `Placement.CreeperFootOffsets` | src/App.tsx:159-161 | with the source's sizes the front-left foot is at x = 8 - 4 - 2 = 2 and z = 2 + 2 = 4, its outer side on the body's side and its inner side at x = 0 |
| `Placement.MirrorX` | src/App.tsx:165-166 | the right side negates x and keeps y and z |
| `Placement.MirrorZ` | src/App.tsx:169-170 | the back side negates z and keeps x and y |
| `Placement.FeetPositions` | src/App.tsx:164-175 | four feet, front-left first; all share its height; right-front negates x, left-back negates z, right-back negates both |
| `Placement.FeetSymmetric` | src/App.tsx:164-175 | each of the two reflections maps the set of four feet onto itself |
| `Keyframes.HeadKeys` | src/App.tsx:102-110 | seven head keys with strictly increasing frames from (0, 0) to (105, 0) |
| `Keyframes.FootKeys` | src/App.tsx:185-193 | seven foot keys with strictly increasing frames from (0, 0) through (25, 0) to (50, 0); the keys in [25,50] are those in [0,25] shifted by 25 frames with equal values |
| `Keyframes.HeadWindowSpansTrack` | src/App.tsx:112 | the head plays [0,105], exactly the first and last key frames |
| `Keyframes.FootWindowsFitTrack` | src/App.tsx:198-201 | windows [0,25] and [10,35] are 25 frames long and lie inside the 50-frame track |
| `Keyframes.FindSegment` | src/App.tsx:185-193 | a frame between the first and last key lies between two neighbouring keys |
| `Keyframes.LerpEnds` | src/App.tsx:185-193 | interpolation reproduces the key values at the key frames |
| `Keyframes.LerpShift` | src/App.tsx:185-193 | interpolation is unchanged when both keys and the frame move by the same number of frames |
| `Keyframes.SampleSegment` | src/App.tsx:185-193 | on an increasing track a frame in segment i samples to the interpolation of keys i and i+1 |
| `Keyframes.SampleAtKey` | src/App.tsx:185-193 | on an increasing track sampling at a key's frame gives that key's value |
| `Keyframes.SampleShift` | src/App.tsx:185-193 | a track whose later keys repeat its earlier keys d frames later plays the same at f and f + d |
| `Keyframes.FootPeriodic` | src/App.tsx:185-193 | the foot track plays the same at f and f + 25 for f in [0,25] |
| `Keyframes.HeadLoopSeamless` | src/App.tsx:102-112 | the head track samples to the same value at both ends of its window, so cyclic looping does not jump |
| `Keyframes.FootLoopsSeamless` | src/App.tsx:185-201 | the foot track samples to the same value at both ends of each foot window, so cyclic looping does not jump |
| `Keyframes.Cursor` | src/App.tsx:198-201 | the frame a looping target plays always lies in [from, to) |
| `Keyframes.PhaseOffset` | src/App.tsx:198-201 | at every tick the feet on [10,35] show what the feet on [0,25] show ten ticks later: one shared track, two phases |
| `Keyframes.FootAtFrameTen` | src/App.tsx:187-188 | frame 10 lies on the swing from +30 to -30 degrees and samples to +10 degrees |
| `Keyframes.LerpBetween` | src/App.tsx:185-193 | interpolation between two keys stays between their values |
| `Keyframes.SampleBounded` | src/App.tsx:185-193 | a track never leaves the range of its key values |
| `Keyframes.RotationWithinThirtyDegrees` | src/App.tsx:102-193 | neither the head nor a foot ever turns more than 30 degrees either way |
| `Keyframes.HeadTurnLeft` | src/App.tsx:104-105 | between frames 15 and 30 the head turns linearly from 0 to +30 degrees |
| `Keyframes.HeadHoldLeft` | src/App.tsx:105-106 | between frames 30 and 45 the head holds +30 degrees |
| `Keyframes.HeadSwing` | src/App.tsx:106-107 | between frames 45 and 75 the head swings linearly from +30 to -30 degrees, through 0 at frame 60 |
| `Keyframes.HeadHoldRight` | src/App.tsx:107-108 | between frames 75 and 90 the head holds -30 degrees |
| `Keyframes.HeadTurnBack` | src/App.tsx:108-109 | between frames 90 and 105 the head turns linearly back from -30 degrees to 0 |
| `Keyframes.SampleAfterLast` | src/App.tsx:102-110 | on an increasing track, every frame at or after the last key samples to the last key's value |
| `Keyframes.HeadStillAtStart` | src/App.tsx:103-104 | the head's value is 0 at every frame up to 15 |
| `Keyframes.HeadStillAfterEnd` | src/App.tsx:109 | the head's value is 0 at every frame from 105 on |
| `Keyframes.HeadSwaySymmetric` | src/App.tsx:102-110 | for every real d, the head's value at 60 + d is the negation of its value at 60 - d: it turns as far one way as the other |
| `CreeperScene.Mesh.CreateBox` | src/App.tsx:71-90 | a new box has its own geometry and sits at the origin with no animations |
| `CreeperScene.Mesh.Instance` | src/App.tsx:165 | an instance shares its source's box and starts at its source's position |
| `CreeperScene.Mesh.CreateInstance` | src/App.tsx:165 | a fresh mesh with the same box, position and material as its source, no animations of its own |
| `CreeperScene.Animation.constructor` | src/App.tsx:95-101 | a new animation has the given property, frame rate and loop mode and no keys |
| `CreeperScene.Animation.SetKeys` | src/App.tsx:102 | the animation's key list becomes the given list |
| `CreeperScene.Scene.BeginAnimation` | src/App.tsx:112 | appends one playback with the target, the window [from, to] and the loop flag |
| `CreeperScene.CreateHead` | src/App.tsx:70-112 | the head box at (0, headY, 0) with the head track set on a fresh animation and played over [0,105] |
| `CreeperScene.CreateBody` | src/App.tsx:114-136 | the body box at (0, bodyY, 0) |
| `CreeperScene.CreateFeet` | src/App.tsx:138-175 | the front-left foot at (footX, footY, footZ); the other three are instances of it, share its box, and sit at its mirror images |
| `CreeperScene.AnimateFeet` | src/App.tsx:177-201 | one foot animation, bound to all four feet and left unchanged by the bindings; front-left and right-back play [0,25], right-front and left-back play [10,35]; positions are untouched |
| `CreeperScene.CreateScene` | src/App.tsx:10-208 | six distinct meshes placed by the formulas, the feet mirrored from the front-left foot, the two tracks set and shared, and the five playbacks in the source's order |

## Left out

- Engine plumbing: the camera, the light, and materials with their textures and nearest-neighbour sampling mode.
  Also the ground plane (`CreateGround`, 20x20), the engine, the render loop and the resize listener.
  These are calls into the 3D engine or into the browser. The model keeps only the data handed to them.
  Materials are reduced to a tag; the ground is represented only by the height 0 that the feet stand on.
- `src/components/Canvas.tsx` is not part of this model. It is a wrapper around a canvas element and has no logic.
- Floating point: the model uses exact reals. `Math.PI / 6` is the unit of rotation, not a float.
- Playback timing. The engine converts elapsed time to frames at 30 frames per second; the model counts frames directly.
  `Sample` and `Cursor` model the engine's linear interpolation and cyclic wrap-around. The engine's code for these is not part of this model.
- Atlas.MapCreeperMaterial: takes integer pixel coordinates. The source accepts any number, but every call passes integer literals.
- The `wrap: true` box option sets how the engine orients face textures. It is not represented.
