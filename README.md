# three.ts WebGL2 core, modelled in Dafny

This project models the core of three.ts, a small TypeScript WebGL2 engine:

- the state-diffing `RenderingContext`;
- the versioned `Node` with its cached transforms, and the three tree visitors;
- CPU `Texture`s and their GPU counterpart `TexImage2D` with its pool updater;
- `Shader` compilation;
- the canvas-sized `CanvasFramebuffer`;
- the `Matrix3` functions;
- the `plane` primitive;
- the `BufferAccessor` factory.

The model proves properties of each.

The GPU is an abstract `Device` (WebGL.dfy). Each call the engine makes is appended to a ghost
call log. Calls whose answers the engine uses (`createTexture`, `createShader`, the compile
status, the info log) return arbitrary values. Constructors that can throw are static `New`
methods returning a `Result`, whose `Failure` carries the thrown message. Optional arguments are
Dafny default parameters, and `result = new Matrix3()` becomes a nullable `result`.

Files, one module per source file:

- Wrappers.dfy: `Option` and `Result`.
- WebGL.dfy: the device, its call log, the canvas, and the program and framebuffer handles.
- RenderingContexts.dfy
  - Each setter is specified by a transition function from (cached value, requested value) to
    the calls it issues.
  - Replaying the log through a `DriverState` gives what the driver has bound, as far as the
    calls reveal it.
  - `Mirrored` says the caches never contradict that. Every setter except the as-written
    viewport setter preserves it. Texture and shader construction preserve it too.
- Nodes.dfy
  - Transforms are terms (`Compose`, `Inverse`), because Matrix4 is not part of this model.
  - The caches are `Matrix4` objects, so aliasing (which object a getter returns) is
    observable.
  - The tree is an arena of links in which every parent precedes its children. Over it the
    visitors are functions returning the order of their callbacks.
- Textures.dfy, TexImage2Ds.dfy, Shaders.dfy, CanvasFramebuffers.dfy
  - The construction call sequences, described by functions of the device's answers.
  - Dispose methods that call the device at most once.
- Matrix3Functions.dfy
  - Matrices are values (`M3`, fields in column-major array order) over `real`.
  - The `Matrix3` class wraps a 9-element array.
  - The six functions write through it as the source does.
- Planes.dfy
  - The two loop nests of `plane` are proved equal to row-by-row specification functions.
  - Lemmas locate each vertex's position, normal and uv and each cell's indices in the flat
    buffers.
- BufferAccessors.dfy: the accessor record and `FromAttribute`.

Four places where the code evidently differs from its intent are modelled as written, with a
corrected variant beside each; see "## Findings".

## Model

| member | source | states |
|---|---|---|
| RenderingContexts.ProgramTransition | src/renderers/webgl2/RenderingContext.ts:39-48 | no call when the same reference is cached; otherwise exactly one useProgram, with the program's handle or null |
| RenderingContexts.FramebufferTransition | src/renderers/webgl2/RenderingContext.ts:54-62 | no call for the same reference; otherwise one bindFramebuffer(FRAMEBUFFER, handle or null) |
| RenderingContexts.ScissorTransition | src/renderers/webgl2/RenderingContext.ts:72-77 | compared by value: an equal box issues nothing, a different one exactly one scissor(x, y, width, height) |
| RenderingContexts.ViewportTransition | src/renderers/webgl2/RenderingContext.ts:84-89 | as written: a different viewport issues one scissor call (not viewport), an equal one nothing; defined as ScissorTransition over the viewport cache |
| RenderingContexts.ViewportTransitionCorrected | src/renderers/webgl2/RenderingContext.ts:84-89 | corrected: a different viewport issues exactly one viewport call |
| RenderingContexts.BlendTransition | src/renderers/webgl2/RenderingContext.ts:95-111 | a different blend state issues exactly three calls in order: enable or disable BLEND per `enabled`, blendEquation, blendFuncSeparate; an equal one none |
| RenderingContexts.DepthTestTransition | src/renderers/webgl2/RenderingContext.ts:117-127 | a different depth-test state issues enable or disable DEPTH_TEST, then depthFunc; an equal one none |
| RenderingContexts.ClearTransition | src/renderers/webgl2/RenderingContext.ts:133-140 | a different clear state issues clearColor, clearDepth, clearStencil; an equal one none |
| RenderingContexts.MaskTransition | src/renderers/webgl2/RenderingContext.ts:146-153 | a different mask state issues colorMask, depthMask, stencilMask; an equal one none |
| RenderingContexts.ProgramTransitionMirrors | src/renderers/webgl2/RenderingContext.ts:39-48 | after the calls the driver's program agrees with the new cache, and no other driver state changes |
| RenderingContexts.FramebufferTransitionMirrors | src/renderers/webgl2/RenderingContext.ts:54-62 | the driver's framebuffer agrees with the new cache, nothing else changes |
| RenderingContexts.ScissorTransitionMirrors | src/renderers/webgl2/RenderingContext.ts:72-77 | the driver's scissor agrees with the new cache, nothing else changes |
| RenderingContexts.ViewportTransitionEffect | src/renderers/webgl2/RenderingContext.ts:84-89 | as written the driver's viewport never changes, and its scissor becomes the requested box whenever the value differs |
| RenderingContexts.ViewportSetterBreaksScissorMirror | src/renderers/webgl2/RenderingContext.ts:86 | a viewport change different from the cached scissor leaves the scissor cache contradicting the driver |
| RenderingContexts.ViewportTransitionCorrectedMirrors | src/renderers/webgl2/RenderingContext.ts:84-89 | corrected: the driver's viewport agrees with the new cache, nothing else changes |
| RenderingContexts.BlendTransitionMirrors | src/renderers/webgl2/RenderingContext.ts:95-111 | blend enable, equation and factors agree with the new cache, nothing else changes |
| RenderingContexts.DepthTestTransitionMirrors | src/renderers/webgl2/RenderingContext.ts:117-127 | depth-test enable and function agree with the new cache, nothing else changes |
| RenderingContexts.ClearTransitionMirrors | src/renderers/webgl2/RenderingContext.ts:133-140 | clear colour, depth and stencil agree with the new cache, nothing else changes |
| RenderingContexts.MaskTransitionMirrors | src/renderers/webgl2/RenderingContext.ts:146-153 | colour, depth and stencil masks agree with the new cache, nothing else changes |
| RenderingContexts.RenderingContext.Of | src/renderers/webgl2/RenderingContext.ts:38-142 | the caches start at null (program, framebuffer) and at the default blocks; over a fresh device they mirror the driver |
| RenderingContexts.RenderingContext.New | src/renderers/webgl2/RenderingContext.ts:28-36 | fails with "webgl2 not supported" exactly when the canvas has no webgl2 context; otherwise a fresh context over that device, mirroring the driver when the device has had no calls yet |
| RenderingContexts.RenderingContext.SetProgram | src/renderers/webgl2/RenderingContext.ts:39-48 | the log grows by ProgramTransition, the cache holds the argument, and the mirror is kept |
| RenderingContexts.RenderingContext.SetFramebuffer | src/renderers/webgl2/RenderingContext.ts:54-62 | the log grows by FramebufferTransition, the cache holds the argument, the mirror is kept |
| RenderingContexts.RenderingContext.SetScissor | src/renderers/webgl2/RenderingContext.ts:72-77 | the log grows by ScissorTransition, the cache holds the argument, the mirror is kept |
| RenderingContexts.RenderingContext.SetViewport | src/renderers/webgl2/RenderingContext.ts:84-89 | as written: the log grows by ViewportTransition, only the viewport cache changes, the driver's viewport is untouched, the other caches stay mirrored, an equal value issues nothing |
| RenderingContexts.RenderingContext.SetViewportCorrected | src/renderers/webgl2/RenderingContext.ts:84-89 | corrected: the log grows by one viewport call when the value differs, and the whole mirror is kept |
| RenderingContexts.RenderingContext.SetBlendState | src/renderers/webgl2/RenderingContext.ts:95-111 | the log grows by BlendTransition, the cache holds the argument, the mirror is kept |
| RenderingContexts.RenderingContext.SetDepthTestState | src/renderers/webgl2/RenderingContext.ts:117-127 | the log grows by DepthTestTransition, the cache holds the argument, the mirror is kept |
| RenderingContexts.RenderingContext.SetClearState | src/renderers/webgl2/RenderingContext.ts:133-140 | the log grows by ClearTransition, the cache holds the argument, the mirror is kept |
| RenderingContexts.RenderingContext.SetMaskState | src/renderers/webgl2/RenderingContext.ts:146-153 | the log grows by MaskTransition, the cache holds the argument, the mirror is kept |
| Nodes.Node.constructor | src/nodes/Node.ts:16-38 | version 0, not disposed, empty name, position 0, rotation 0, scale 1, both stamps -1, two distinct fresh cache matrices |
| Nodes.Node.Dirty | src/nodes/Node.ts:40-42 | the version grows by one and the cache invariant holds, with both stamps now behind the version |
| Nodes.Node.Dispose | src/nodes/Node.ts:44-49 | afterwards disposed; the version grows by one on the first call only, which leaves the cache invariant holding; a second call keeps it if it held |
| Nodes.Node.LocalToParentTransform | src/nodes/Node.ts:51-57 | always returns the same Matrix4 object holding compose(position, rotation, scale); composes only when its stamp is behind the version |
| Nodes.Node.ParentToLocalTransform | src/nodes/Node.ts:58-64 | as written: refreshes the inverse cache but returns the forward matrix object, whose value is the forward transform |
| Nodes.Node.ParentToLocalTransformCorrected | src/nodes/Node.ts:58-64 | corrected: returns the inverse cache, holding the inverse of the node's transform |
| Nodes.ParentToLocalAsWrittenAliasesForward | src/nodes/Node.ts:58-64 | the as-written getter returns the forward cache object, not the inverse cache; a write into it replaces the forward transform while its stamp still says current, breaking the cache invariant |
| Nodes.TwoReadsComposeOnce | src/nodes/Node.ts:51-57 | two reads with no dirty() between them return the same object and compose at most once |
| Nodes.FirstReadComposes | src/nodes/Node.ts:51-57 | the first read of a new node composes exactly once |
| Nodes.RootLastVisitor | src/nodes/Node.ts:76-81 | visits the node first, then each parent in turn, ending at a root; every node visited is at most the start |
| Nodes.RootFirstIsReversedRootLast | src/nodes/Node.ts:76-88 | rootFirstVisitor visits exactly the reverse of rootLastVisitor's order |
| Nodes.DepthFirstSound | src/nodes/Node.ts:69-74 | every node the depth-first visit reaches lies in the start node's subtree |
| Nodes.DepthFirstComplete | src/nodes/Node.ts:69-74 | every node of the subtree is reached |
| Nodes.SiblingSubtreesDisjoint | src/nodes/Node.ts:69-74 | two different children of one parent have no descendant in common |
| Nodes.DepthFirstDistinct | src/nodes/Node.ts:69-74 | the depth-first visit calls back no node twice |
| Nodes.DepthFirstVisitsSubtreeOnce | src/nodes/Node.ts:69-74 | the callback sees each node of the subtree exactly once, nothing else, and the start node last |
| Textures.Texture.constructor | src/lib/textures/Texture.ts:21-40 | version 0, not disposed, empty name, the arguments (with the source's defaults) stored, size taken from the image |
| Textures.Texture.Copy | src/lib/textures/Texture.ts:42-52 | takes over name, image, wraps, filters, format, data type and anisotropy; uuid, version, disposed, size and generateMipmaps are unchanged |
| Textures.Texture.Dirty | src/lib/textures/Texture.ts:54-56 | the version grows by one |
| Textures.Texture.Dispose | src/lib/textures/Texture.ts:58-63 | afterwards disposed; the version grows by one on the first call only |
| Textures.DisposeTwiceIsDisposeOnce | src/lib/textures/Texture.ts:58-63 | disposing twice changes the version exactly as disposing once |
| TexImage2Ds.UploadCall | src/renderers/webgl2/TexImage2D.ts:67-92 | a byte image is uploaded from its bytes at offset 0, an image element from the element; the internal format is passed as both formats |
| TexImage2Ds.MipmapCalls | src/renderers/webgl2/TexImage2D.ts:94-96 | generateMipmap is called exactly when the parameters ask for it |
| TexImage2Ds.ParameterCallsValues | src/renderers/webgl2/TexImage2D.ts:98-102 | as written each of the four parameters is set exactly once on the target, WRAP_T to the value of wrapS |
| TexImage2Ds.ParameterCallsCorrectedValues | src/renderers/webgl2/TexImage2D.ts:98-102 | corrected: WRAP_T is set to wrapT; the other three as before |
| TexImage2Ds.ConstructionCallsShape | src/renderers/webgl2/TexImage2D.ts:55-102 | createTexture, bind, upload, the optional mipmap, then the parameters; after a failed createTexture nothing else |
| TexImage2Ds.ExactlyOneUpload | src/renderers/webgl2/TexImage2D.ts:66-92 | a successful construction uploads the image exactly once |
| TexImage2Ds.ConstructionCallsSetNoCachedState | src/renderers/webgl2/TexImage2D.ts:55-102 | none of the construction calls sets state the rendering context caches |
| TexImage2Ds.WrapTIsTakenFromWrapS | src/renderers/webgl2/TexImage2D.ts:99 | when wrapT differs from wrapS, the texture gets wrapS for WRAP_T and never its wrapT |
| TexImage2Ds.WrapTCorrected | src/renderers/webgl2/TexImage2D.ts:99 | with the correction WRAP_T receives exactly wrapT |
| TexImage2Ds.TexImage2D.Of | src/renderers/webgl2/TexImage2D.ts:44-54 | the constructor's arguments are stored, not disposed |
| TexImage2Ds.TexImage2D.IssueParameters | src/renderers/webgl2/TexImage2D.ts:98-102 | the log grows by the four texParameteri calls as written |
| TexImage2Ds.TexImage2D.IssueUpload | src/renderers/webgl2/TexImage2D.ts:67-92 | the log grows by the one upload call for the kind of image |
| TexImage2Ds.TexImage2D.IssueSetup | src/renderers/webgl2/TexImage2D.ts:66-102 | the log grows by bind, upload, optional mipmap and parameters |
| TexImage2Ds.TexImage2D.New | src/renderers/webgl2/TexImage2D.ts:44-105 | the log grows by the construction calls; fails with "createTexture failed" exactly when the device returns no texture; otherwise a fresh object holding the arguments; the context's mirror is kept |
| TexImage2Ds.TexImage2D.Dispose | src/renderers/webgl2/TexImage2D.ts:107-112 | deleteTexture on the first call only, so at most one delete over any sequence of calls; the context mirror is kept |
| TexImage2Ds.TexImage2DPoolUpdate | src/renderers/webgl2/TexImage2D.ts:115-125 | an existing TexImage2D is returned unchanged with no device call; otherwise the construction calls for the texture's image, and on success a new one holding TEXTURE_2D, level 0, RGBA, size (0, 0), UNSIGNED_BYTE and the default parameters; the context mirror is kept |
| Shaders.CompileErrorMessageCarriesLog | src/renderers/webgl2/Shader.ts:40-41 | the compile error message is the fixed prefix followed by the info log, or by "null" when the driver gives none |
| Shaders.CompileErrorMessageDeterminesLog | src/renderers/webgl2/Shader.ts:40-41 | two equal messages come from the same interpolated info log |
| Shaders.ConstructionCallsOrder | src/renderers/webgl2/Shader.ts:16-43 | createShader, shaderSource, compileShader, then the status query; the info log is asked for exactly when compilation failed; a failed shader is never deleted |
| Shaders.ConstructionCallsSetNoCachedState | src/renderers/webgl2/Shader.ts:16-43 | no construction call sets state the rendering context caches |
| Shaders.Shader.Of | src/renderers/webgl2/Shader.ts:16 | the arguments and the shader handle are stored, not disposed |
| Shaders.Shader.New | src/renderers/webgl2/Shader.ts:16-43 | the log grows by the construction calls; "createShader failed" when no shader is returned, "could not compile shader: " plus the log when compilation fails, success exactly otherwise; the mirror is kept |
| Shaders.Shader.Dispose | src/renderers/webgl2/Shader.ts:45-50 | deleteShader on the first call only; the context mirror is kept |
| CanvasFramebuffers.Round | src/renderers/webgl2/CanvasFramebuffer.ts:40-41 | `Math.round` gives the integer within half a unit, halves rounded up |
| CanvasFramebuffers.SyncedLength | src/renderers/webgl2/CanvasFramebuffer.ts:40-41 | the drawing-buffer length lies within half a pixel of the displayed length divided by the ratio |
| CanvasFramebuffers.RoundUnique | src/renderers/webgl2/CanvasFramebuffer.ts:40-41 | that integer is unique |
| CanvasFramebuffers.SyncedLengthUnitRatio | src/renderers/webgl2/CanvasFramebuffer.ts:16-41 | at the default ratio 1 the drawing buffer equals the displayed size |
| CanvasFramebuffers.SyncedLengthExact | src/renderers/webgl2/CanvasFramebuffer.ts:40-41 | a displayed length n·ratio gives n |
| CanvasFramebuffers.SyncedLengthMonotone | src/renderers/webgl2/CanvasFramebuffer.ts:40-41 | a wider display never gives a narrower drawing buffer |
| CanvasFramebuffers.CanvasFramebuffer.constructor | src/renderers/webgl2/CanvasFramebuffer.ts:15-21 | ratio 1, nothing delegated yet |
| CanvasFramebuffers.CanvasFramebuffer.SyncCanvas | src/renderers/webgl2/CanvasFramebuffer.ts:38-42 | canvas width and height become the rounded displayed sizes over the ratio |
| CanvasFramebuffers.CanvasFramebuffer.RenderDraw | src/renderers/webgl2/CanvasFramebuffer.ts:23-26 | syncs, then delegates once at the synced size, passing program, uniforms and vertex array through |
| CanvasFramebuffers.CanvasFramebuffer.RenderPass | src/renderers/webgl2/CanvasFramebuffer.ts:28-31 | syncs, then delegates once at the synced size, passing program and uniforms through |
| CanvasFramebuffers.CanvasFramebuffer.Render | src/renderers/webgl2/CanvasFramebuffer.ts:33-36 | syncs, then delegates once, `clear` defaulting to false |
| CanvasFramebuffers.SyncTwiceIsSyncOnce | src/renderers/webgl2/CanvasFramebuffer.ts:38-42 | a second sync with unchanged sizes and ratio changes nothing |
| CanvasFramebuffers.DefaultRatioDrawsAtDisplayedSize | src/renderers/webgl2/CanvasFramebuffer.ts:16-31 | with the default ratio a pass runs at the displayed size |
| Matrix3Functions.ConcatenationByDots | src/lib/math/Matrix3.Functions.ts:29-39 | each entry of the product is row i of a dotted with column j of b |
| Matrix3Functions.ConcatenationComposes | src/lib/math/Matrix3.Functions.ts:4-42 | applying a·b to a point is applying b, then a |
| Matrix3Functions.ConcatenationIdentity | src/lib/math/Matrix3.Functions.ts:4-42 | the identity is a unit on both sides |
| Matrix3Functions.ConcatenationAssociative | src/lib/math/Matrix3.Functions.ts:4-42 | (a·b)·c = a·(b·c) |
| Matrix3Functions.DeterminantLeibniz | src/lib/math/Matrix3.Functions.ts:57 | the determinant as written is the Leibniz formula over the entries |
| Matrix3Functions.DeterminantTriple | src/lib/math/Matrix3.Functions.ts:57 | the determinant is the triple product of the rows, and of the columns, in cyclic order |
| Matrix3Functions.Transpose | src/lib/math/Matrix3.Functions.ts:65-73 | the result swaps entries (i, j) and (j, i) and keeps the diagonal |
| Matrix3Functions.TransposeInvolution | src/lib/math/Matrix3.Functions.ts:60-76 | transposing twice gives the matrix back |
| Matrix3Functions.DeterminantTranspose | src/lib/math/Matrix3.Functions.ts:57-76 | transposing keeps the determinant |
| Matrix3Functions.TransposeRowsColumns | src/lib/math/Matrix3.Functions.ts:65-73 | the rows of the transpose are the columns, and vice versa |
| Matrix3Functions.TransposeConcatenation | src/lib/math/Matrix3.Functions.ts:4-76 | the transpose of a·b is transpose(b)·transpose(a) |
| Matrix3Functions.InverseDeterminantIsDeterminant | src/lib/math/Matrix3.Functions.ts:90-93 | the cofactor expansion the inverse computes is the determinant |
| Matrix3Functions.InverseOfColumns | src/lib/math/Matrix3.Functions.ts:104-114 | column j of the written entries is the cross product of the other two rows, scaled by detInv |
| Matrix3Functions.InverseOfRows | src/lib/math/Matrix3.Functions.ts:104-114 | row j of the written entries is the cross product of the other two columns, scaled by detInv |
| Matrix3Functions.InverseOfEntry | src/lib/math/Matrix3.Functions.ts:99-114 | with detInv = 1/det every entry of m·inverse and inverse·m is that of the identity |
| Matrix3Functions.InverseOfInverts | src/lib/math/Matrix3.Functions.ts:99-114 | the written entries form a two-sided inverse |
| Matrix3Functions.Inverse | src/lib/math/Matrix3.Functions.ts:78-117 | fails with "can not invert degenerate matrix" exactly when the determinant is 0; otherwise a two-sided inverse |
| Matrix3Functions.InverseUnique | src/lib/math/Matrix3.Functions.ts:78-117 | any right inverse of an invertible matrix is the one computed |
| Matrix3Functions.SetRowMajor | src/lib/math/Matrix3.Functions.ts:120 | `set` takes its nine arguments row by row |
| Matrix3Functions.SetColumnMajor | src/lib/math/Matrix3.Functions.ts:120 | reading the same nine arguments column by column gives the transpose |
| Matrix3Functions.TranslationProperties | src/lib/math/Matrix3.Functions.ts:119-121 | the translation has determinant 1 and moves (x, y, 1) by t |
| Matrix3Functions.ScaleProperties | src/lib/math/Matrix3.Functions.ts:130-132 | the scale has determinant s.x·s.y and scales (x, y, 1) per axis |
| Matrix3Functions.TranslationsCompose | src/lib/math/Matrix3.Functions.ts:119-121 | two translations compose to the translation by the sum |
| Matrix3Functions.Matrix3.Value | src/lib/math/Matrix3.Functions.ts:5-7 | the element array holds the matrix column by column |
| Matrix3Functions.Matrix3.constructor | src/lib/math/Matrix3.Functions.ts:4 | `new Matrix3()` holds the identity in a fresh array |
| Matrix3Functions.Matrix3.Set | src/lib/math/Matrix3.Functions.ts:120 | afterwards the matrix is SetRowMajor of the arguments |
| Matrix3Functions.Matrix3.Copy | src/lib/math/Matrix3.Functions.ts:62 | afterwards the matrix equals the source's old value |
| Matrix3Functions.ResultOrNew | src/lib/math/Matrix3.Functions.ts:4 | the given result object, or a fresh identity when none is given |
| Matrix3Functions.MakeMatrix3Concatenation | src/lib/math/Matrix3.Functions.ts:4-42 | the result holds the product of the old values of a and b |
| Matrix3Functions.Matrix3Determinant | src/lib/math/Matrix3.Functions.ts:44-58 | returns the determinant of the matrix |
| Matrix3Functions.MakeMatrix3Transpose | src/lib/math/Matrix3.Functions.ts:60-76 | the result holds the transpose of m's old value |
| Matrix3Functions.MakeMatrix3Inverse | src/lib/math/Matrix3.Functions.ts:78-117 | fails with "can not invert degenerate matrix", leaving the result untouched, exactly when the determinant is 0; otherwise the result holds the two-sided inverse |
| Matrix3Functions.MakeMatrix3Translation | src/lib/math/Matrix3.Functions.ts:119-121 | the result holds the translation by t |
| Matrix3Functions.MakeMatrix3Scale | src/lib/math/Matrix3.Functions.ts:130-132 | the result holds the scale by s |
| Planes.PositionsLength | src/lib/geometry/primitives/Plane.ts:33-46 | three position components per vertex of the rows listed |
| Planes.NormalsLength | src/lib/geometry/primitives/Plane.ts:33-46 | three normal components per vertex |
| Planes.UvsLength | src/lib/geometry/primitives/Plane.ts:33-46 | two uv components per vertex |
| Planes.IndicesLength | src/lib/geometry/primitives/Plane.ts:50-62 | six indices per cell |
| Planes.PositionsAt | src/lib/geometry/primitives/Plane.ts:34-39 | the vertex in column ix and row iy sits at 3·(iy·(gridX+1)+ix) and is (ix·w/gridX - w/2, -(iy·h/gridY - h/2), 0) |
| Planes.NormalsAt | src/lib/geometry/primitives/Plane.ts:41 | every vertex's normal is (0, 0, 1) |
| Planes.UvsAt | src/lib/geometry/primitives/Plane.ts:43-44 | the vertex in column ix and row iy has uv (ix/gridX, 1 - iy/gridY) |
| Planes.IndicesAt | src/lib/geometry/primitives/Plane.ts:50-60 | cell (ix, iy) is at 6·(iy·gridX+ix) and holds the triangles (a, b, d) and (b, c, d) of its corners |
| Planes.CellIndicesInRange | src/lib/geometry/primitives/Plane.ts:52-55 | every corner index of a cell names one of the (gridX+1)·(gridY+1) vertices |
| Planes.IndicesInRange | src/lib/geometry/primitives/Plane.ts:50-62 | every index in the buffer names a vertex |
| Planes.UvsInUnitSquare | src/lib/geometry/primitives/Plane.ts:43-44 | every uv component lies in [0, 1] |
| Planes.PositionFromUv | src/lib/geometry/primitives/Plane.ts:34-44 | a vertex's x and y are its u and v mapped onto the rectangle: (u - 1/2)·width and (v - 1/2)·height |
| Planes.VertexCoordinates | src/lib/geometry/primitives/Plane.ts:34-39 | the x and y the loop computes from the segment sizes give the vertex position |
| Planes.PlaneVertices | src/lib/geometry/primitives/Plane.ts:33-46 | the vertex loop nest produces exactly the position, normal and uv buffers, row by row |
| Planes.PlaneIndices | src/lib/geometry/primitives/Plane.ts:50-62 | the index loop nest produces exactly the index buffer, cell by cell |
| Planes.Plane | src/lib/geometry/primitives/Plane.ts:11-73 | the geometry has indices of item size 1 and exactly the attributes position (3), normal (3), uv (2), with one entry per vertex or cell, every index naming a vertex and every uv in [0, 1] |
| BufferAccessors.FromAttribute | src/lib/renderers/webgl2/buffers/BufferAccessor.ts:25-44 | the buffer gets the attribute's bytes and the explicit target or else the attribute's; never normalized; type, count and stride copied; byte offset twice the attribute's |
| BufferAccessors.FromAttributeCorrected | src/lib/renderers/webgl2/buffers/BufferAccessor.ts:25-44 | corrected: as above with the byte offset copied |
| BufferAccessors.ExplicitDefaultTarget | src/lib/renderers/webgl2/buffers/BufferAccessor.ts:32 | naming the attribute's own target explicitly changes nothing |
| BufferAccessors.ExplicitTargetOverrides | src/lib/renderers/webgl2/buffers/BufferAccessor.ts:32 | an explicit target acts as if the attribute carried it |
| BufferAccessors.CorrectedRoundTrip | src/lib/renderers/webgl2/buffers/BufferAccessor.ts:34-41 | the corrected accessor reads back exactly the attribute's data and layout |
| BufferAccessors.ByteOffsetDoubled | src/lib/renderers/webgl2/buffers/BufferAccessor.ts:40 | as written and corrected agree exactly when the offset is 0, and differ only in the offset |
| BufferAccessors.ByteOffsetCounterexample | src/lib/renderers/webgl2/buffers/BufferAccessor.ts:40 | an attribute 12 bytes into its buffer is read from byte 24 |

## Left out

- The device. WebGL is modelled only as the log of calls made and arbitrary answers to the
  calls whose results are used. Real GPU semantics, `canvas.getContext`, `HTMLImageElement`
  and `Uint8Array` conversions are not modelled.
- Floating point. Matrix, plane and canvas arithmetic is over `real`, so IEEE-754 rounding,
  Float32/Int32 array truncation, and the Infinity/NaN of division by zero are not modelled.
  Plane.Plane: takes whole segment counts of at least 1. The source's `Math.floor` of
  fractional counts and its division by a zero count are left out.
- `makeMatrix3RotationFromAngle` is not modelled, because it needs sin and cos.
- Matrix4, Quaternion, Box2 and the state blocks' `equals`/`clone`/`copy`, whose bodies are not
  part of this model. Transforms are terms of a free algebra that records how each was built, so
  two different terms may stand for the same matrix; and the blocks are values with structural
  equality. So a getter's copy cannot be modified through the cache, which makes
  the copy-returning getters of RenderingContext plain field reads.
- The default values of `new Box2()`, `new BlendState()`, `new DepthTestState()`,
  `new ClearState()`, `new MaskState()` and `new TexParameters()`. Their sources are not part of
  this model, so plausible WebGL defaults are chosen.
- The Matrix3 class itself (src/lib/math/Matrix3.ts) is not part of this model. Three of its
  behaviours are taken as the functions use them: `new Matrix3()` holds the identity, `set`
  takes its nine arguments row by row into column-major `elements`, and `copy` overwrites every
  element with the argument's.
- `generateUUID`, because it is random. The uuid is a constructor parameter that never changes.
- Pool, Framebuffer, NodeCollection, Buffer and Program, whose classes are not part of this
  model. Only the calls the modelled files make into them are represented:
  - the base Framebuffer's render methods, as a ghost record of delegations;
  - `new Buffer(context, arrayBuffer, target)`, as the value it is built from;
  - the node tree, as an arena of links with parents before children.
- Cyclic node links. The arena puts every parent before its children, so a node that is its
  own ancestor, or a child list that leads back to an ancestor, cannot be stated. On such links
  `rootLastVisitor`, `rootFirstVisitor` and `depthFirstVisitor` recurse without end; since
  NodeCollection, which builds the links, is not part of this model, whether they can arise is
  left open.
- BufferAccessors.FromAttribute: the `context` argument is dropped, because it is only passed to
  the Buffer constructor, which is not part of this model.
- CanvasFramebuffers.CanvasFramebuffer.SyncCanvas: requires a positive `devicePixelRatio`. The
  ratio starts at 1, and the Infinity or NaN a zero or negative ratio would give is outside the
  real-number model.
- Nodes.Node.Dirty: requires the node's stamps not to run ahead of its version. That always
  holds for nodes built by the constructor.
- The `localToWorld` and `worldToLocal` fields of Node, which the source declares but never
  uses.
- The examples and getting-started demos, which are application code over the core.

## Findings

| source | as written | input that shows it | evidently intended | confidence | as-written member | corrected member |
|---|---|---|---|---|---|---|
| src/renderers/webgl2/RenderingContext.ts:86 | the viewport setter calls `gl.scissor` | cached viewport (0,0,0,0), set viewport (0,0,800,600): the driver's scissor becomes (0,0,800,600) while the scissor cache still says (0,0,0,0), and the viewport is never set | `gl.viewport(v.x, v.y, v.width, v.height)` | not executed | RenderingContexts.ViewportSetterBreaksScissorMirror | RenderingContexts.ViewportTransitionCorrectedMirrors |
| src/nodes/Node.ts:63 | `parentToLocalTransform` returns `_localToParent` | any node: the getter returns the `_localToParent` object, so it holds the forward transform, and a caller writing into it (say with `copy`) overwrites the forward cache while its stamp still says current | return `_parentToLocal` | not executed | Nodes.ParentToLocalAsWrittenAliasesForward | Nodes.Node.ParentToLocalTransformCorrected |
| src/renderers/webgl2/TexImage2D.ts:99 | TEXTURE_WRAP_T is set from `texParameters.wrapS` | wrapS = ClampToEdge, wrapT = Repeat: WRAP_T is set to ClampToEdge | set it from `texParameters.wrapT` | not executed | TexImage2Ds.WrapTIsTakenFromWrapS | TexImage2Ds.WrapTCorrected |
| src/lib/renderers/webgl2/buffers/BufferAccessor.ts:40 | the accessor's byte offset is `byteOffset + byteOffset` | an attribute 12 bytes into its buffer is read from byte 24 | the attribute's `byteOffset` | not executed | BufferAccessors.ByteOffsetCounterexample | BufferAccessors.CorrectedRoundTrip |
