# Robot-arm hierarchy: a verified model of the transform engine

This project models the hierarchical transform engine behind the robot-arm
demo of the svelte-gltut tutorial in Dafny, and proves its properties.

## What is modelled

**The matrix stack.** The `MatrixStack` keeps a current 4x4 matrix and a
LIFO list of saved matrices.
- Every transform right-multiplies the current matrix: `current := current * M`.
- `push` saves the current matrix.
- `pop` restores the most recently saved matrix and removes it.
- `reset` restores it without removing it.

The project models two versions of the stack:
- the library's version in `src/lib/glutil/matrix-stack.ts` (module `Glutil`);
- the smaller copy that each hierarchy chapter declares for itself (module `ChapterStack`).

**The scene tree.** A node has:
- an optional origin;
- an ordered list of axis rotations;
- an optional size (a node with a size is drawn);
- ordered children.

The tree is a pure function of the arm's pose (module `Scene`, module `Arm`).

**Rendering.** Every renderer walks the tree in pre-order, depth first:
1. save the matrix;
2. translate to the node's origin;
3. apply the rotations in list order;
4. if the node has a size: push, scale, draw, pop;
5. render the children;
6. restore the matrix.

The model covers four renderers, and proves each against one reference
function, `Scene.Draws`:
- the stack-based `render` over plain `Node` records (`NodeInterface`);
- the by-value `render`, which threads the matrix through its recursion with no stack (`ByValue`);
- the `Node` class with its own `render` method (`NodeClass`);
- the hand-unrolled `draw` / `drawUpperArm` / `drawLowerArm` / `drawWrist` / `drawFingers` (`Unrolled`).

`Scene.Draws` is the list of model-to-camera matrices handed to the draw
call, in order.

**The pose adjusters.** `adjBase` .. `adjFingerOpen` step one joint angle (module `Joints`):
- the base and the wrist roll wrap with JavaScript's truncated `% 360`;
- every other joint is clamped into a fixed range.

**`mat3ToMat4`.** It embeds a 3x3 rotation into a 4x4 matrix (module `GlMatrix`).

### Conventions
- A `mat4` is a record of its four columns. `Matrix.Entry` gives the column-major flat index view (`4 * col + row`) that the source uses.
- Numbers are mathematical reals.
- `Math.PI`, `Math.cos`, `Math.sin`, `Math.sqrt` and gl-matrix's `mat4.rotate` are fields of a `MathLib` parameter. Nothing is assumed about them beyond what a lemma states in its `requires`.
- A draw call (`gl.uniformMatrix4fv` followed by `gl.drawElements`) is modelled as appending the current matrix to a `DrawCalls.Canvas`.

The code has sixteen nodes in the arm tree, nine of which carry a size. It
draws nine pieces, in this order:
1. left base;
2. right base;
3. upper arm;
4. lower arm;
5. wrist;
6. left finger;
7. left lower finger;
8. right finger;
9. right lower finger.

`Arm.ArmShape` proves sixteen nodes and nine draws for every pose.

Three of the four chapter files (`src/lib/chapters/06/hierarchy.ts`,
`src/lib/chapters/00/hierarchy-node-interface.ts` and
`src/lib/chapters/00/hierarchy-node-class.ts`) repeat the same `degToRad`
(lines 5-8), `clamp` (lines 10-18), 3x3 `rotateX` / `rotateY` / `rotateZ`
(lines 20-57) and `MatrixStack` class (from line 59).

`src/lib/chapters/00/hierarchy-stack.ts` has no `MatrixStack`. It has its own
`degToRad` (lines 4-7) and `clamp` (lines 9-17). Its 3x3 rotations are called
`rotX` / `rotY` / `rotZ` (lines 19-56). It adds the value-returning helpers
`rotateX` / `rotateY` / `rotateZ`, `scale` and `translate` (lines 58-86), which
take a `mat4` and return a new one multiplied on the right.

Each of these is modelled once:
- the stack in `ChapterStack`;
- `clamp` in `Joints`;
- `degToRad` and the 3x3 rotations in `Rotations`;
- the value-returning helpers of `hierarchy-stack.ts` in `Transforms`.

The table cites the copy in `src/lib/chapters/06/hierarchy.ts`, or in the
variant that uses the member.

## Model

| member | source | states |
|---|---|---|
| Matrix.TranslationLayout | src/lib/chapters/00/hierarchy-stack.ts:79-86 | the translation matrix is the identity with the offset in elements 12, 13, 14 |
| Matrix.ScalingLayout | src/lib/chapters/00/hierarchy-stack.ts:70-77 | the scaling matrix is the identity with the factors in elements 0, 5, 10 |
| Matrix.MulIdentity | src/lib/glutil/matrix-stack.ts:286-289 | `mat4.create()` (the identity) is neutral on both sides of a product |
| Matrix.ApplyMul | src/lib/glutil/matrix-stack.ts:15-16 | a product transforms a vector by its right factor first, then by its left one, so a right-multiplied transform acts before the ones already on the stack |
| Matrix.MulAssoc | src/lib/glutil/matrix-stack.ts:15-16 | matrix products associate, so a chain of right-multiplications equals one multiplication by the product of the chain |
| Matrix.TranslationMovesPoint | src/lib/chapters/00/hierarchy-stack.ts:79-86 | the translation matrix adds the offset to every point |
| Matrix.ScalingScalesPoint | src/lib/chapters/00/hierarchy-stack.ts:70-77 | the scaling matrix multiplies each coordinate of a point by its factor |
| Matrix.TranslationsCompose | src/lib/chapters/00/hierarchy-stack.ts:79-86 | two translations in a row are one translation by the sum of the offsets |
| GlMatrix.Mat3ToMat4Layout | src/lib/gl-matrix.ts:4-10 | entries 0-2, 4-6 and 8-10 are the 3x3 matrix's entries 0-2, 3-5 and 6-8; entries 3, 7, 11, 12, 13, 14 are 0 and entry 15 is 1 |
| GlMatrix.Mat3ToMat4Identity | src/lib/gl-matrix.ts:4-10 | the 3x3 identity becomes the 4x4 identity |
| GlMatrix.Mat3ToMat4FixesOrigin | src/lib/gl-matrix.ts:4-10 | an embedded 3x3 matrix keeps the origin where it is |
| Rotations.RotXLayout | src/lib/chapters/00/hierarchy-stack.ts:19-30 | `rotX` is the identity with elements 4 = cos, 7 = -sin, 5 = sin, 8 = cos |
| Rotations.RotYLayout | src/lib/chapters/00/hierarchy-stack.ts:32-43 | `rotY` is the identity with elements 0 = cos, 6 = sin, 2 = -sin, 8 = cos |
| Rotations.RotZLayout | src/lib/chapters/00/hierarchy-stack.ts:45-56 | `rotZ` is the identity with elements 0 = cos, 3 = -sin, 1 = sin, 4 = cos |
| Rotations.RotationsFixTheirAxis | src/lib/chapters/06/hierarchy.ts:20-57 | each rotation leaves the direction of its own axis unchanged, whatever the cosine and sine |
| Rotations.ZeroRotationIsIdentity | src/lib/chapters/06/hierarchy.ts:20-57 | a rotation by zero degrees is the identity when cos 0 = 1 and sin 0 = 0 |
| Rotations.RotationOrderMatters | src/lib/chapters/06/hierarchy.ts:20-57 | a turn about X and a turn about Y do not commute whenever neither sine is zero, for every such pair of angles |
| Transforms.TranslateMovesTheOrigin | src/lib/chapters/00/hierarchy-stack.ts:79-86 | `translate(m, o)` keeps the three axes of `m` and moves its origin to where `m` maps `o` |
| Transforms.ScaleByStretchesTheAxes | src/lib/chapters/00/hierarchy-stack.ts:70-77 | `scale(m, s)` stretches each axis of `m` by its factor and keeps the origin |
| Transforms.RotateXTurnsYAndZ | src/lib/chapters/00/hierarchy-stack.ts:58-60 | `rotateX(m, a)` keeps the x axis and the origin and turns the y and z axes by the angle |
| Transforms.RotateYTurnsZAndX | src/lib/chapters/00/hierarchy-stack.ts:62-64 | `rotateY(m, a)` keeps the y axis and the origin and turns the z and x axes by the angle |
| Transforms.RotateZTurnsXAndY | src/lib/chapters/00/hierarchy-stack.ts:66-68 | `rotateZ(m, a)` keeps the z axis and the origin and turns the x and y axes by the angle |
| Scene.DrawCount | src/lib/chapters/00/hierarchy-node-interface.ts:344-354 | rendering draws exactly once per node that has a size |
| Scene.DrawCountAll | src/lib/chapters/00/hierarchy-node-interface.ts:352-354 | rendering a list of children draws once per sized node among them |
| Scene.RotatedUnderParent | src/lib/chapters/00/hierarchy-node-interface.ts:338-342 | applying a list of rotations commutes with a parent matrix on the left |
| Scene.FrameUnderParent | src/lib/chapters/00/hierarchy-node-interface.ts:331-342 | a node's frame under `P * M` is `P` times its frame under `M` |
| Scene.DrawsUnderParent | src/lib/chapters/00/hierarchy-node-interface.ts:329-357 | rendering a subtree under `P * M` draws `P` times each matrix it draws under `M`, in the same order, so a subtree is drawn relative to its parent |
| Scene.DrawsAllUnderParent | src/lib/chapters/00/hierarchy-node-interface.ts:352-354 | the same for a list of children |
| Scene.BareRootDrawsChildren | src/lib/chapters/00/hierarchy-node-interface.ts:329-357 | a root with no origin, angles or size, rendered from the identity, draws exactly its children's matrices under the identity |
| Scene.AngleOrderMatters | src/lib/chapters/00/hierarchy-node-interface.ts:338-342 | the rotations are applied in list order: swapping an X entry and a Y entry changes the frame whenever neither sine is zero |
| Poses.WithJointAngle | src/lib/chapters/00/hierarchy-node-interface.ts:273-307 | setting one joint's angle gives it the new value and leaves the other joints and every rigid field alone |
| Joints.Clamp | src/lib/chapters/00/hierarchy-node-interface.ts:10-18 | for `lo <= hi` the result is in `[lo, hi]`; it is the value itself exactly when the value is in range, `lo` below the range and `hi` above it |
| Joints.Trunc | src/lib/chapters/00/hierarchy-node-interface.ts:275 | the integer part of a quotient, rounded toward zero |
| Joints.Rem360 | src/lib/chapters/00/hierarchy-node-interface.ts:273-277 | JavaScript's `a % 360`: strictly between -360 and 360, with the sign of `a`, equal to `a` when `a` already is within a turn, and differing from `a` by whole turns |
| Joints.AdjustOnlyTouchesItsJoint | src/lib/chapters/00/hierarchy-node-interface.ts:273-307 | an `adj*` changes only its own angle |
| Joints.AdjustClampsIntoRange | src/lib/chapters/00/hierarchy-node-interface.ts:279-307 | the clamped joints end in [-90, 0], [0, 146.25], [0, 90] and [9, 180] from any start, and saturate at the bound a step of 11.25 (9 for the fingers) would cross |
| Joints.AdjustWrapsWithinATurn | src/lib/chapters/00/hierarchy-node-interface.ts:273-301 | base and wrist roll end strictly within one turn, with the sign of the stepped angle |
| Joints.DefaultPoseInRange | src/lib/chapters/06/hierarchy.ts:120-141 | the initial field values are within every joint's range |
| Joints.AdjustPreservesInRange | src/lib/chapters/00/hierarchy-node-interface.ts:273-307 | every adjustment keeps a pose whose angles are in range in range |
| Joints.BaseWrapsAtFullTurn | src/lib/chapters/00/hierarchy-node-interface.ts:273-277 | stepping the base from 348.75 up, or from -348.75 down, gives exactly 0 |
| Joints.WrapKeepsSign | src/lib/chapters/00/hierarchy-node-interface.ts:273-277 | the remainder of a negative angle stays negative (`-366.25 % 360 == -6.25`), unlike a Euclidean remainder |
| Joints.BaseEightStepsFromMinus45 | src/lib/chapters/00/hierarchy-node-interface.ts:273-277 | eight presses of `adjBase(true)` from -45 degrees end at exactly 45 |
| Joints.UpperArmSixStepsFromMinus60 | src/lib/chapters/00/hierarchy-node-interface.ts:279-283 | six presses of `adjUpperArm(true)` from -60 degrees stop at the upper bound 0 |
| DrawCalls.Canvas.Draw | src/lib/chapters/06/hierarchy.ts:158-159 | a draw call records exactly the matrix uploaded, after the earlier ones |
| ChapterStack.MatrixStack.constructor | src/lib/chapters/06/hierarchy.ts:59-61 | a new stack holds the identity and no saved matrices |
| ChapterStack.MatrixStack.Top | src/lib/chapters/06/hierarchy.ts:63-65 | returns the current matrix and changes nothing |
| ChapterStack.MatrixStack.RotateX | src/lib/chapters/06/hierarchy.ts:67-69 | current := current * mat3ToMat4(rotateX(deg)); saved list untouched |
| ChapterStack.MatrixStack.RotateY | src/lib/chapters/06/hierarchy.ts:71-73 | current := current * mat3ToMat4(rotateY(deg)); saved list untouched |
| ChapterStack.MatrixStack.RotateZ | src/lib/chapters/06/hierarchy.ts:75-77 | current := current * mat3ToMat4(rotateZ(deg)); saved list untouched |
| ChapterStack.MatrixStack.Scale | src/lib/chapters/06/hierarchy.ts:79-86 | current := current * scaling matrix; saved list untouched |
| ChapterStack.MatrixStack.Translate | src/lib/chapters/06/hierarchy.ts:88-95 | current := current * translation matrix; saved list untouched |
| ChapterStack.MatrixStack.Push | src/lib/chapters/06/hierarchy.ts:97-99 | the saved list grows by the current matrix, which is unchanged |
| ChapterStack.MatrixStack.Pop | src/lib/chapters/06/hierarchy.ts:101-105 | needs a saved matrix; the current matrix becomes the last saved one, which leaves the list |
| Glutil.Normalize | src/lib/glutil/matrix-stack.ts:85 | a zero vector normalizes to zero |
| Glutil.MatrixStack.constructor | src/lib/glutil/matrix-stack.ts:30-38 | the current matrix is the given one, or the identity when none is given; the saved list is empty |
| Glutil.MatrixStack.Push | src/lib/glutil/matrix-stack.ts:41-43 | the saved list grows by the current matrix, which is unchanged |
| Glutil.MatrixStack.Pop | src/lib/glutil/matrix-stack.ts:46-50 | needs a saved matrix; the current matrix becomes the last saved one, which leaves the list |
| Glutil.MatrixStack.Reset | src/lib/glutil/matrix-stack.ts:54-58 | needs a saved matrix; the current matrix becomes the last saved one, and the list keeps its depth |
| Glutil.MatrixStack.Top | src/lib/glutil/matrix-stack.ts:61-63 | returns the current matrix and changes nothing |
| Glutil.MatrixStack.Rotate | src/lib/glutil/matrix-stack.ts:75-77 | current := current * the matrix `mat4.rotate` uses for the axis and the angle converted to radians; saved list untouched |
| Glutil.MatrixStack.RotateRadians | src/lib/glutil/matrix-stack.ts:80-100 | current := current * the axis-angle matrix written out for the normalized axis; saved list untouched |
| Glutil.MatrixStack.RotateX | src/lib/glutil/matrix-stack.ts:103-105 | `rotate` about (1, 0, 0) |
| Glutil.MatrixStack.RotateY | src/lib/glutil/matrix-stack.ts:108-110 | `rotate` about (0, 1, 0) |
| Glutil.MatrixStack.RotateZ | src/lib/glutil/matrix-stack.ts:113-115 | `rotate` about (0, 0, 1) |
| Glutil.MatrixStack.Scale | src/lib/glutil/matrix-stack.ts:129-131 | current := current * scaling matrix; saved list untouched |
| Glutil.MatrixStack.ScaleXYZ | src/lib/glutil/matrix-stack.ts:132-133 | the three-number overload is the vector overload |
| Glutil.MatrixStack.ScaleUniform | src/lib/glutil/matrix-stack.ts:134-135 | the one-number overload scales all three axes by it |
| Glutil.MatrixStack.Translate | src/lib/glutil/matrix-stack.ts:151-153 | current := current * translation matrix; saved list untouched |
| Glutil.MatrixStack.TranslateXYZ | src/lib/glutil/matrix-stack.ts:154-155 | the three-number overload is the vector overload |
| Glutil.MatrixStack.PixelPerfectOrtho | src/lib/glutil/matrix-stack.ts:254-262 | current := current * translation to the clip corner and depth middle * scaling by two over the size (y flipped and depth kept for a top-left origin) |
| Glutil.MatrixStack.ApplyMatrix | src/lib/glutil/matrix-stack.ts:271-273 | current := current * the given matrix; saved list untouched |
| Glutil.MatrixStack.SetMatrix | src/lib/glutil/matrix-stack.ts:282-284 | the given matrix becomes current; saved list untouched |
| Glutil.MatrixStack.SetIdentity | src/lib/glutil/matrix-stack.ts:287-289 | the identity becomes current; saved list untouched |
| Glutil.NormalizeKeepsUnitVector | src/lib/glutil/matrix-stack.ts:85 | a unit axis is its own normalization |
| Glutil.NormalizeGivesUnitLength | src/lib/glutil/matrix-stack.ts:85 | a non-zero axis normalizes to unit length |
| Glutil.AxisRotationAboutX | src/lib/glutil/matrix-stack.ts:80-100 | the axis-angle matrix about +X is the chapter's `mat3ToMat4(rotateX)` |
| Glutil.AxisRotationAboutY | src/lib/glutil/matrix-stack.ts:80-100 | the axis-angle matrix about +Y is the chapter's `mat3ToMat4(rotateY)` |
| Glutil.AxisRotationAboutZ | src/lib/glutil/matrix-stack.ts:80-100 | the axis-angle matrix about +Z is the chapter's `mat3ToMat4(rotateZ)` |
| Glutil.StackRotateXIsChapterRotateX | src/lib/glutil/matrix-stack.ts:103-105 | when `mat4.rotate` builds the matrix `rotateRadians` writes out, the library's `rotateX` right-multiplies by the same matrix as the chapter stacks' `rotateX` |
| Glutil.StackRotateYIsChapterRotateY | src/lib/glutil/matrix-stack.ts:108-110 | the same for `rotateY` |
| Glutil.StackRotateZIsChapterRotateZ | src/lib/glutil/matrix-stack.ts:113-115 | the same for `rotateZ` |
| Glutil.TranslateScalePoint | src/lib/glutil/matrix-stack.ts:254-262 | translating then scaling maps a point to its scaled coordinates plus the offset |
| Glutil.PixelOrthoMapsWindowToClip | src/lib/glutil/matrix-stack.ts:254-262 | the pixel-perfect matrix maps a point to its coordinates times the scale factors plus the offset (x to 2x/w - 1; y to 1 - 2y/h for a top-left origin, 2y/h - 1 otherwise) |
| Glutil.PixelOrthoCorners | src/lib/glutil/matrix-stack.ts:254-262 | the window's corners land on the corners of clip space |
| Arm.BoxDraws | src/lib/chapters/06/hierarchy.ts:154-161 | rendering a box node draws the one matrix of the unrolled push, translate, scale, draw, pop block |
| Arm.FrameOfOneRotation | src/lib/chapters/00/hierarchy-node-interface.ts:331-342 | the frame of a node with an origin and one rotation is translate-then-rotate |
| Arm.FingerTreeDraws | src/lib/chapters/06/hierarchy.ts:223-255 | a finger subtree draws the upper segment, then the lower segment moved along the finger and bent |
| Arm.CountsOfFinger | src/lib/chapters/00/hierarchy-node-interface.ts:190-244 | a finger has four nodes, two of them drawn |
| Arm.WristFrameIsFrame | src/lib/chapters/06/hierarchy.ts:295-298 | the wrist's frame is translate, roll about Z, then pitch about X |
| Arm.WristSplit | src/lib/chapters/06/hierarchy.ts:292-311 | the wrist subtree draws the wrist piece, then the left and the right finger, under the wrist frame |
| Arm.WristTreeDraws | src/lib/chapters/06/hierarchy.ts:292-311 | the wrist subtree draws exactly the five matrices of `drawWrist` |
| Arm.LowerArmSplit | src/lib/chapters/06/hierarchy.ts:313-332 | the lower-arm subtree draws its box, then the wrist subtree, under the lower-arm frame |
| Arm.LowerArmTreeDraws | src/lib/chapters/06/hierarchy.ts:313-332 | the lower-arm subtree draws exactly the six matrices of `drawLowerArm` |
| Arm.UpperArmSplit | src/lib/chapters/06/hierarchy.ts:334-352 | the upper-arm subtree draws its box, then the lower-arm subtree, under the shoulder frame |
| Arm.UpperArmTreeDraws | src/lib/chapters/06/hierarchy.ts:334-352 | the upper-arm subtree draws exactly the seven matrices of `drawUpperArm` |
| Arm.SceneSplit | src/lib/chapters/06/hierarchy.ts:150-174 | the whole tree draws the two base pieces, then the upper-arm subtree, under the base frame |
| Arm.ArmDrawOrder | src/lib/chapters/06/hierarchy.ts:143-178 | rendering `makeScene()` draws exactly the nine matrices of the unrolled `draw`, in its order |
| Arm.ArmShape | src/lib/chapters/00/hierarchy-node-interface.ts:149-254 | the arm tree has sixteen nodes, nine drawn, for every pose |
| Arm.ArmDrawsParts | src/lib/chapters/06/hierarchy.ts:143-178 | nine draws; the first five are the two base pieces, the upper arm, the lower arm and the wrist, each under the frame it hangs from |
| Arm.BasePartsAgree | src/lib/chapters/06/hierarchy.ts:150-171 | the base pieces depend only on the base position, angle and sizes |
| Arm.UpperArmPartAgrees | src/lib/chapters/06/hierarchy.ts:337-346 | the upper-arm piece depends only on the base and the shoulder angle and size |
| Arm.LowerArmPartAgrees | src/lib/chapters/06/hierarchy.ts:316-327 | the lower-arm piece depends only on the joints above it and its own fields |
| Arm.WristPartAgrees | src/lib/chapters/06/hierarchy.ts:295-306 | the wrist piece depends only on the joints above it and its own fields |
| Arm.JointMovesOnlyItsSubtree | src/lib/chapters/00/hierarchy-node-interface.ts:149-254 | turning any joint leaves every piece drawn before its subtree exactly as it was |
| NodeInterface.RotateAll | src/lib/chapters/00/hierarchy-node-interface.ts:338-342 | the angle loop right-multiplies by each rotation in list order and leaves the saved list alone |
| NodeInterface.Enter | src/lib/chapters/00/hierarchy-node-interface.ts:331-342 | push, then the optional translation and the rotations: the current matrix becomes the node's frame |
| NodeInterface.DrawScaled | src/lib/chapters/00/hierarchy-node-interface.ts:344-350 | draws the current matrix times the scaling, and restores the stack |
| NodeInterface.Render | src/lib/chapters/00/hierarchy-node-interface.ts:329-357 | appends exactly `Draws` of the node under the current matrix, and leaves the current matrix and the saved list as they were |
| NodeInterface.RenderChildren | src/lib/chapters/00/hierarchy-node-interface.ts:352-354 | renders the children in array order under the same frame; the stack is balanced |
| NodeInterface.Hierarchy.constructor | src/lib/chapters/00/hierarchy-node-interface.ts:145-147 | the initial pose, with the scene built from it |
| NodeInterface.Hierarchy.UpdateScene | src/lib/chapters/00/hierarchy-node-interface.ts:256-258 | the scene becomes `makeScene()` of the unchanged pose |
| NodeInterface.Hierarchy.Draw | src/lib/chapters/00/hierarchy-node-interface.ts:260-271 | draws the scene from the identity, nine matrices when the scene matches the pose |
| NodeInterface.Hierarchy.AdjBase | src/lib/chapters/00/hierarchy-node-interface.ts:273-277 | the base angle steps and wraps, and the scene is rebuilt |
| NodeInterface.Hierarchy.AdjUpperArm | src/lib/chapters/00/hierarchy-node-interface.ts:279-283 | the shoulder angle steps and is clamped into [-90, 0], and the scene is rebuilt |
| NodeInterface.Hierarchy.AdjLowerArm | src/lib/chapters/00/hierarchy-node-interface.ts:285-289 | the elbow angle steps and is clamped into [0, 146.25], and the scene is rebuilt |
| NodeInterface.Hierarchy.AdjWristPitch | src/lib/chapters/00/hierarchy-node-interface.ts:291-295 | the wrist pitch steps and is clamped into [0, 90], and the scene is rebuilt |
| NodeInterface.Hierarchy.AdjWristRoll | src/lib/chapters/00/hierarchy-node-interface.ts:297-301 | the wrist roll steps and wraps, and the scene is rebuilt |
| NodeInterface.Hierarchy.AdjFingerOpen | src/lib/chapters/00/hierarchy-node-interface.ts:303-307 | the finger angle steps by 9 and is clamped into [9, 180], and the scene is rebuilt |
| ByValue.Render | src/lib/chapters/00/hierarchy-stack.ts:331-353 | appends exactly `Draws` of the node under the given matrix; the children get the frame before the scale |
| ByValue.RenderChildren | src/lib/chapters/00/hierarchy-stack.ts:350-352 | renders the children in array order under the same matrix |
| ByValue.RenderersAgree | src/lib/chapters/00/hierarchy-stack.ts:331-353 | the by-value and the stack-based renderers draw the same matrices in the same order for every tree and every start matrix, and both equal `Draws` |
| ByValue.Hierarchy.constructor | src/lib/chapters/00/hierarchy-stack.ts:254-256 | the initial pose, with `scene(this)` |
| ByValue.Hierarchy.UpdateScene | src/lib/chapters/00/hierarchy-stack.ts:258-260 | the scene becomes `scene(this)` of the unchanged pose |
| ByValue.Hierarchy.Draw | src/lib/chapters/00/hierarchy-stack.ts:262-273 | draws the scene from the identity, nine matrices when the scene matches the pose |
| ByValue.Hierarchy.AdjBase | src/lib/chapters/00/hierarchy-stack.ts:275-279 | the base angle steps and wraps, and the scene is rebuilt |
| ByValue.Hierarchy.AdjUpperArm | src/lib/chapters/00/hierarchy-stack.ts:281-285 | the shoulder angle steps and is clamped, and the scene is rebuilt |
| ByValue.Hierarchy.AdjLowerArm | src/lib/chapters/00/hierarchy-stack.ts:287-291 | the elbow angle steps and is clamped, and the scene is rebuilt |
| ByValue.Hierarchy.AdjWristPitch | src/lib/chapters/00/hierarchy-stack.ts:293-297 | the wrist pitch steps and is clamped, and the scene is rebuilt |
| ByValue.Hierarchy.AdjWristRoll | src/lib/chapters/00/hierarchy-stack.ts:299-303 | the wrist roll steps and wraps, and the scene is rebuilt |
| ByValue.Hierarchy.AdjFingerOpen | src/lib/chapters/00/hierarchy-stack.ts:305-309 | the finger angle steps and is clamped, and the scene is rebuilt |
| NodeClass.Node.constructor | src/lib/chapters/00/hierarchy-node-class.ts:289-297 | a valid node over valid children, standing for the node value with their values as children, with a null parent |
| NodeClass.Node.Render | src/lib/chapters/00/hierarchy-node-class.ts:299-327 | appends exactly `Draws` of the node's value under the current matrix; the stack is balanced |
| NodeClass.Node.RenderChildren | src/lib/chapters/00/hierarchy-node-class.ts:322-324 | renders the child objects in array order; the stack is balanced |
| NodeClass.NewBox | src/lib/chapters/00/hierarchy-node-class.ts:149-221 | a valid leaf node whose value is the box |
| NodeClass.NewLowerFinger | src/lib/chapters/00/hierarchy-node-class.ts:149-221 | a valid node whose value is the lower finger subtree |
| NodeClass.NewFinger | src/lib/chapters/00/hierarchy-node-class.ts:149-221 | a valid node whose value is the finger subtree |
| NodeClass.NewWrist | src/lib/chapters/00/hierarchy-node-class.ts:149-221 | a valid node whose value is the wrist subtree |
| NodeClass.NewLowerArm | src/lib/chapters/00/hierarchy-node-class.ts:149-221 | a valid node whose value is the lower-arm subtree |
| NodeClass.NewUpperArm | src/lib/chapters/00/hierarchy-node-class.ts:149-221 | a valid node whose value is the upper-arm subtree |
| NodeClass.NewScene | src/lib/chapters/00/hierarchy-node-class.ts:149-221 | `makeScene()` builds a valid object tree whose value is the same tree as the other variants' |
| NodeClass.Hierarchy.constructor | src/lib/chapters/00/hierarchy-node-class.ts:145-147 | the initial pose, with a valid scene built from it |
| NodeClass.Hierarchy.UpdateScene | src/lib/chapters/00/hierarchy-node-class.ts:223-225 | a new valid scene for the unchanged pose |
| NodeClass.Hierarchy.Draw | src/lib/chapters/00/hierarchy-node-class.ts:227-238 | draws the tree of the pose from the identity: nine matrices |
| NodeClass.Hierarchy.AdjBase | src/lib/chapters/00/hierarchy-node-class.ts:240-244 | the base angle steps and wraps, and the scene is rebuilt |
| NodeClass.Hierarchy.AdjUpperArm | src/lib/chapters/00/hierarchy-node-class.ts:246-250 | the shoulder angle steps and is clamped, and the scene is rebuilt |
| NodeClass.Hierarchy.AdjLowerArm | src/lib/chapters/00/hierarchy-node-class.ts:252-256 | the elbow angle steps and is clamped, and the scene is rebuilt |
| NodeClass.Hierarchy.AdjWristPitch | src/lib/chapters/00/hierarchy-node-class.ts:258-262 | the wrist pitch steps and is clamped, and the scene is rebuilt |
| NodeClass.Hierarchy.AdjWristRoll | src/lib/chapters/00/hierarchy-node-class.ts:264-268 | the wrist roll steps and wraps, and the scene is rebuilt |
| NodeClass.Hierarchy.AdjFingerOpen | src/lib/chapters/00/hierarchy-node-class.ts:270-274 | the finger angle steps and is clamped, and the scene is rebuilt |
| Unrolled.DrawBox | src/lib/chapters/06/hierarchy.ts:154-161 | one piece block: draws current * translation * scaling and leaves the stack as it was |
| Unrolled.DrawScaled | src/lib/chapters/06/hierarchy.ts:300-306 | the wrist piece block: draws current * scaling and leaves the stack as it was |
| Unrolled.WristAppended | src/lib/chapters/06/hierarchy.ts:292-311 | the wrist piece followed by both fingers under the wrist frame is the wrist subtree's draws |
| Unrolled.Hierarchy.constructor | src/lib/chapters/06/hierarchy.ts:120-141 | the initial field values |
| Unrolled.Hierarchy.Draw | src/lib/chapters/06/hierarchy.ts:143-178 | appends exactly the draws of rendering `makeScene()` of the same pose from the identity |
| Unrolled.Hierarchy.DrawFinger | src/lib/chapters/06/hierarchy.ts:223-255 | one finger block draws the finger subtree's matrices and leaves the stack as it was |
| Unrolled.Hierarchy.DrawFingers | src/lib/chapters/06/hierarchy.ts:220-290 | the left finger, then the right one with both angles negated; the stack is balanced |
| Unrolled.Hierarchy.EnterWrist | src/lib/chapters/06/hierarchy.ts:295-298 | push, then the current matrix becomes the wrist frame |
| Unrolled.Hierarchy.DrawWrist | src/lib/chapters/06/hierarchy.ts:292-311 | appends exactly the wrist subtree's draws; the stack is balanced |
| Unrolled.Hierarchy.DrawLowerArm | src/lib/chapters/06/hierarchy.ts:313-332 | appends exactly the lower-arm subtree's draws; the stack is balanced |
| Unrolled.Hierarchy.DrawUpperArm | src/lib/chapters/06/hierarchy.ts:334-352 | appends exactly the upper-arm subtree's draws; the stack is balanced |
| Unrolled.Hierarchy.AdjBase | src/lib/chapters/06/hierarchy.ts:180-183 | the base angle steps and wraps with `% 360` |
| Unrolled.Hierarchy.AdjUpperArm | src/lib/chapters/06/hierarchy.ts:185-188 | the shoulder angle steps and is clamped into [-90, 0] |
| Unrolled.Hierarchy.AdjLowerArm | src/lib/chapters/06/hierarchy.ts:190-193 | the elbow angle steps and is clamped into [0, 146.25] |
| Unrolled.Hierarchy.AdjWristPitch | src/lib/chapters/06/hierarchy.ts:195-198 | the wrist pitch steps and is clamped into [0, 90] |
| Unrolled.Hierarchy.AdjWristRoll | src/lib/chapters/06/hierarchy.ts:200-203 | the wrist roll steps and wraps with `% 360` |
| Unrolled.Hierarchy.AdjFingerOpen | src/lib/chapters/06/hierarchy.ts:205-208 | the finger angle steps by 9 and is clamped into [9, 180] |

## Left out

- WebGL: `useProgram`, `bindVertexArray` and the uniform upload are not modelled. A draw call is modelled as recording its matrix on a `Canvas`.
- `writePose` and `print` write to the console, which is not modelled.
- `lookAt`, `perspective` and `orthographic` (src/lib/glutil/matrix-stack.ts:176-236) are not modelled. They wrap gl-matrix functions whose matrices this model does not define.
- Floating point: all arithmetic is on reals, so rounding is not modelled.
- `Math.cos`, `Math.sin`, `Math.sqrt`, `Math.PI` and `mat4.rotate` are fields of the `MathLib` parameter. Their numeric behaviour is not modelled.
- gl-matrix's `mat4.rotate` returns null for an axis shorter than its epsilon, which would make the current matrix null. That case is not modelled: `Glutil.MatrixStack.Rotate` always right-multiplies by the matrix `MathLib.axisRotation` returns.
- Glutil.MatrixStack.Rotate: converts degrees with `Rotations.DegToRad`, the chapter files' `angDeg * (Math.PI / 180)`. The library stack imports its `degToRad` from `src/lib/framework.ts`, which neither defines nor exports one; that the imported function computes the same value is assumed, not proved. `RotateX`, `RotateY`, `RotateZ` and the three `Glutil.StackRotate*IsChapterRotate*` equalities depend on this assumption.
- Glutil.StackRotateXIsChapterRotateX: holds only under the stated assumption that `mat4.rotate` builds the matrix `rotateRadians` writes out; that gl-matrix does so is not proved. The same applies to the Y and Z versions.
- Glutil.Normalize: a square root that returns 0 for a positive argument is treated as a zero vector. The real `vec3.normalize` would divide by it.
- The `scale` and `translate` overloads' `throw new Error('unreachable')` branches are not modelled. A type-correct call cannot reach them, so each overload is a method of its own.
- Glutil.MatrixStack.PixelPerfectOrtho: requires a non-zero size (and a non-empty depth range for a bottom-left origin). JavaScript would divide by zero there and produce infinities.
- Glutil.MatrixStack.Pop: requires a non-empty saved list, where the source asserts. The same holds for `Glutil.MatrixStack.Reset` and `ChapterStack.MatrixStack.Pop`.
- Aliasing of `mat4` objects is not modelled. The constructor and `setMatrix` store the caller's matrix without copying it. Every transform allocates a fresh matrix, so value semantics match the source whenever the caller does not mutate that matrix afterwards.
- A rotation entry is exactly one of `{ x }`, `{ y }` or `{ z }`, as its type says. An object carrying two keys, which the renderers' three `if`s would apply twice, is not modelled.
- Null or absent `angles` and `children` are modelled as the empty list, since every renderer reads them with `?? []`.
- NodeClass.Node.constructor: its default arguments (all `null`) are not modelled. Every call site passes the arguments it uses.
- NodeClass.NewScene: is not stated to return fresh objects. The builders promise a valid tree of the right value; they do not promise that no other object shares its nodes.
- The `Hierarchy` classes' WebGL arguments (`DrawArgs`) become the `MathLib` and `Canvas` parameters of `Draw`.
- Helper methods that the source writes inline: `DrawBox`, `DrawScaled`, `DrawFinger`, `EnterWrist`, `Enter` and `RotateAll`. Each names a block of the source that is otherwise written out inline. The `NodeClass` builders name the nested `new Node(...)` expressions of `makeScene`.
