# Ducker renderer core, modelled in Dafny

Ducker is a 2D GPU renderer with a C ABI (`DuckerNative_*`). Under its OpenGL calls, one
`RendererState` holds several pieces of bookkeeping:

- a dense list of drawable objects, with an id-to-position index and an id counter;
- a shader table, where custom shader ids start at 100;
- two parallel container stacks, one of offsets and one of clip rectangles;
- a `needsSort` flag;
- the Material shadow presets.

Each frame, `DuckerNative_Render` does the following:

1. Sorts the objects into draw order, when a sort is due.
2. Makes a shadow copy of every elevated shape for each layer of its preset. The modelled frame uses the corrected copy of the first finding below, whose `borderWidth` uniform is 0; the program's copy keeps the object's (see "## Left out").
3. Groups those copies by blur radius and draws each group, smallest radius first, into a shadow buffer.
4. Blurs each group with a separable Gaussian kernel.
5. Draws the objects themselves.

Each draw (`RenderObjects`) builds one vertex buffer and then walks the list in batches. A batch is a run of neighbours that share shader, texture and scissor. Each object in a batch gets one draw call at a running vertex offset.

The objects are rectangles, rounded rectangles, circles, glyphs and lines. A line is either straight or a Catmull-Rom curve sampled twenty times per interval. Text is decoded from UTF-8 into font-atlas slots. The header-only `fast_vector` is the growable array all of this is stored in.

The project models this core as follows:

- **`types.dfy`**: the value types, and the "effective shader" rule.
- **`store.dfy`**: the object store as values — append, swap-with-last removal, and the index rebuild after sorting.
- **`renderer.dfy`**: `RendererState` as a class whose methods are the entry points. Its `Valid()` invariant ties the index to the list, keeps ids below the counter, keeps the two stacks equally deep, and keeps shader ids below the custom counter.
- **`clip.dfy`**: the container clip arithmetic.
- **`draw_order.dfy`**: the sort comparator, and an insertion sort proved against it.
- **`geometry.dfy`**: quad, glyph and line vertices, and line tessellation, triangle count and bounds.
- **`batching.dfy`**: the vertex buffer, and the batch walk with its runs and draws.
- **`shadows.dfy`**: the preset table, the shadow copy, the grouping by radius, and the blur kernel.
- **`upload.dfy`**: the uniform values a program holds when an object is drawn.
- **`matrices.dfy`**: the rotation and projection matrices as the shader reads them.
- **`utf8.dfy`**: the UTF-8 decoder and the glyph-slot mapping.
- **`fast_vector.dfy`**: `fast_vector` as a class over a sequence, with its recorded capacity and its real allocation size.
- **`wrappers.dfy`**: the `Option` type.

Floats are reals. `sqrt`, `exp`, `cos` and `sin` are passed in as a `Maths` record of functions, and are constrained only where a property needs it. The predicates that do so are `SqrtSound` (the square root of a non-negative number squares back to it) and `ExpPositive`.

## Model

| member | source | states |
|---|---|---|
| Types.Sub | source/headers/DuckerNative.h:37-39 | The difference added back to the subtrahend gives the minuend, componentwise |
| Types.EffectiveShader | DuckerNative.cpp:1024 | An object's own shader id wins when non-zero; otherwise the shader is a built-in id 1..5, and 5 for lines |
| Types.DefaultShaderIsOrdinalPlusOne | DuckerNative.cpp:1024 | For every kind, lines included, the default shader is the kind's enumerator value plus one, so the line special case changes nothing |
| Utf8.SequenceLength | DuckerNative.cpp:1941-1966 | A lead byte announces 1 to 4 bytes; ASCII and stray continuation bytes consume exactly one |
| Utf8.Utf8ToCodepoint | DuckerNative.cpp:1941-1966 | The cursor advances by exactly the announced length, the codepoint fits in 21 bits, and ASCII decodes to itself |
| Utf8.DecodeEncode | DuckerNative.cpp:1941-1966 | For every codepoint up to U+10FFFF, decoding its RFC 3629 encoding gives the codepoint back and consumes the whole sequence |
| Utf8.DecodeEncode2 | DuckerNative.cpp:1949-1952 | A two-byte sequence 110hhhhh 10llllll decodes to hi*64+lo and consumes two bytes |
| Utf8.DecodeEncode3 | DuckerNative.cpp:1954-1957 | A three-byte sequence decodes to the joined 4+6+6 bits and consumes three bytes |
| Utf8.DecodeEncode4 | DuckerNative.cpp:1959-1962 | A four-byte sequence decodes to the joined 3+6+6+6 bits and consumes four bytes |
| Utf8.ContinuationBytesNotValidated | DuckerNative.cpp:1949-1952 | A lead byte followed by a non-continuation byte ('A') is still joined into one codepoint |
| Utf8.OverlongFormAccepted | DuckerNative.cpp:1949-1952 | The overlong form C0 80 decodes to NUL, although RFC 3629 forbids that form |
| Utf8.InvalidLeadGivesReplacement | DuckerNative.cpp:1964-1965 | A stray continuation byte or a lead byte 0xF8..0xFF yields '?' and advances one byte |
| Utf8.GlyphIndex | DuckerNative.cpp:1988-1990 | A codepoint has a slot exactly when it is in 32..127 or U+0400..U+04FF, and every slot is below the 352-entry glyph table |
| Utf8.GlyphIndexOnto | DuckerNative.cpp:1988-1990 | Every one of the 352 slots is reached, and by the codepoint stored there |
| Utf8.GlyphIndexInjective | DuckerNative.cpp:1988-1990 | Two codepoints never share a slot |
| Utf8.TruncatedSequenceOverruns | DuckerNative.cpp:1983-1986 | A sequence cut short by the end of the string is not framed, and decoding it moves the cursor past the terminator, so the text loop next reads beyond the string |
| Utf8.GlyphIndicesFrom | DuckerNative.cpp:1984-1990 | The text walk yields at most one slot per byte, each a valid table slot |
| Utf8.DecodeGlyphIndices | DuckerNative.cpp:1983-1990 | The loop over a NUL-free, completely framed string collects exactly the slots of the glyphs it decodes, in order |
| Utf8.AsciiTextSlots | DuckerNative.cpp:1988-1990 | Printable ASCII text is framed and maps byte for byte to slots b-32 |
| Geometry.CornerOrdersCoverSquare | DuckerNative.cpp:882-1008 | The quad and glyph corner orders use only corners of the unit square and cover all four of them |
| Geometry.QuadVertices | DuckerNative.cpp:991-1008 | A quad is six vertices |
| Geometry.QuadVerticesCorners | DuckerNative.cpp:991-1008 | Vertex i sits at the corner of the bounds for quad-local corner i, with the matching corner of the uv rectangle read as (u1, v1, u2, v2) |
| Geometry.GlyphVertices | DuckerNative.cpp:882-906 | A glyph is six vertices |
| Geometry.GlyphVerticesCorners | DuckerNative.cpp:882-906 | Vertex i of a glyph sits at the stored corner v0..v3 for its quad-local corner, with the matching uv corner |
| Geometry.CurveKnots | DuckerNative.cpp:925-937 | Control points are kept as given; with none and a chord longer than 1e-6, exactly one middle knot is inserted between start and end |
| Geometry.SynthesisedMidpoint | DuckerNative.cpp:925-937 | The inserted knot is the chord midpoint moved by (-dy/4, dx/4), a quarter of the chord along its left normal |
| Geometry.CoincidentEndsKeepTwoKnots | DuckerNative.cpp:928-930 | With an exact square root, a curve whose ends coincide gets no inserted knot |
| Geometry.CatmullRomInterpolates | DuckerNative.cpp:945-953 | The spline passes through p1 at t=0 and through p2 at t=1 |
| Geometry.SampleEnds | DuckerNative.cpp:939-957 | The first sample of an interval is its left knot, and the last sample is its right knot |
| Geometry.SamplesUpTo | DuckerNative.cpp:939-957 | n intervals give 20n samples |
| Geometry.SamplesUpToAt | DuckerNative.cpp:939-957 | Sample k of interval i sits at position 20i+k |
| Geometry.CurveSamples | DuckerNative.cpp:939-957 | The tessellation has twenty points per interval between knots |
| Geometry.PathPoints | DuckerNative.cpp:916-963 | A drawn path has at least two points |
| Geometry.PathPointsShape | DuckerNative.cpp:916-963 | A straight path is the given points; a curved path has twenty points per knot interval; both end at `end` |
| Geometry.LastSampleIsEnd | DuckerNative.cpp:959-961 | Overwriting the last sample with `end` changes nothing, because the last sample already is `end` |
| Geometry.CurveRepeatsKnots | DuckerNative.cpp:939-957 | Where two intervals meet, the curve emits the shared knot twice in a row |
| Geometry.LineTriCount | DuckerNative.cpp:1733-1796 | Every line stores at least two triangles |
| Geometry.LineTriCountByMode | DuckerNative.cpp:1733-1796 | A straight line has 2(controls+1) triangles; a curved line over n knots has 2(20(n-1)-1) |
| Geometry.SegmentVertices | DuckerNative.cpp:966-990 | A segment shorter than 0.001 emits nothing; any other segment emits six vertices |
| Geometry.SegmentQuadIsRectangle | DuckerNative.cpp:966-990 | The segment quad is the segment shifted by plus and minus an offset perpendicular to it; with an exact square root, the offset is half the line width long |
| Geometry.PathVerticesUpTo | DuckerNative.cpp:966-990 | The first n segments emit at most six vertices each, and always a multiple of six |
| Geometry.PathVerticesCount | DuckerNative.cpp:966-990 | Every segment that is drawn contributes exactly six vertices |
| Geometry.DegenerateSegmentDropsQuad | DuckerNative.cpp:972-973 | One degenerate segment among the first n leaves fewer than n quads |
| Geometry.DrawnSegmentsAtMost | DuckerNative.cpp:966-990 | At most one quad per segment |
| Geometry.NoDegenerateSegments | DuckerNative.cpp:966-990 | With no degenerate segment, every segment emits its quad |
| Geometry.LineVerticesAtMost | DuckerNative.cpp:966-990 | A line never puts more than three vertices per stored triangle into the buffer |
| Geometry.LineVerticesMatchTriCount | DuckerNative.cpp:966-990 | With no degenerate segment, a line puts exactly triCount*3 vertices into the buffer |
| Geometry.CurvedLineHasPhantomSegment | DuckerNative.cpp:939-990 | A curved line with at least two intervals has a zero-length segment at a shared knot, so it puts fewer than triCount*3 vertices into the buffer, yet its draw asks for triCount*3 |
| Geometry.PointSegmentDegenerate | DuckerNative.cpp:970-973 | With an exact square root, a zero-length segment is skipped |
| Geometry.WidenAllTight | DuckerNative.cpp:1736-1741 | The running min/max enclose the start extent and every point seen, and each extreme is either the start value or a coordinate of some point |
| Geometry.LineBoundsTight | DuckerNative.cpp:1733-1798 | Every drawn path point lies inside the bounds shrunk by half the width, and each of the four shrunk edges is touched by a path point |
| Geometry.StraightLineBoundsExample | DuckerNative.cpp:1733-1798 | The line (0,0)->(10,0) of width 2 has bounds (-1,-1,12,2) and two triangles |
| Geometry.MeasureLine | DuckerNative.cpp:1720-1798 | The measuring loops of AddLine compute exactly the triangle count and the tight bounds specified above |
| Geometry.WidenEach | DuckerNative.cpp:1736-1741 | The min/max loop over a point list gives the extent of all the points |
| Geometry.SampleCurve | DuckerNative.cpp:1763-1788 | The nested sampling loop produces the curve's samples and their extent |
| Geometry.SampleInterval | DuckerNative.cpp:1770-1787 | The inner loop appends interval i's twenty samples and widens the extent by them |
| Geometry.WidenAllSnoc | DuckerNative.cpp:1784-1787 | Widening by one more point extends the extent of the earlier points |
| Matrices.RowMajorFixesPivot | DuckerNative.cpp:1194-1210 | Read as the C array is written, the rotation matrix leaves the pivot fixed |
| Matrices.RowMajorTurnsAboutPivot | DuckerNative.cpp:1194-1210 | Read as the C array is written, the matrix turns every point about the pivot by (cos, sin), keeping its distance to the pivot when cos²+sin²=1 |
| Matrices.ZeroRotationIsIdentity | DuckerNative.cpp:1194-1210 | At angle 0 the matrix is the identity in either reading, so the layout only shows for rotated objects |
| Matrices.UploadedRotationMovesPivot | DuckerNative.cpp:1194-1210 | As uploaded untransposed, a quarter turn about the pivot (1,0) sends the pivot to (0,-1,0,2) instead of leaving it fixed |
| Matrices.UploadedTransposeIsRowMajor | DuckerNative.cpp:1212-1229 | Uploading the transposed array makes the shader compute the product as the array reads on paper |
| Matrices.UploadedRotationTurnsAboutPivot | DuckerNative.cpp:1194-1229 | As uploaded, the corrected matrix (`UploadRotationMatrix`, the rotation with its translation in array row m[3], as the projection has it) fixes the pivot and turns every point about it by (cos, sin), keeping its distance when cos²+sin²=1 |
| Matrices.Projection | DuckerNative.cpp:1212-1229 | A matrix exists exactly when both screen sides are non-zero |
| Matrices.ProjectionMapsScreenToDevice | DuckerNative.cpp:1212-1229 | As uploaded, a pixel (x,y) maps to (2x/w-1, 1-2y/h): the top-left corner goes to (-1,1) and the bottom-right corner to (1,-1) |
| Clip.ChildOffset | DuckerNative.cpp:2255 | The pushed offset is the container's corner shifted by the inherited offset |
| Clip.ChildScissor | DuckerNative.cpp:2238-2253 | The pushed scissor never has a negative width or height |
| Clip.ContainerPushPop | DuckerNative.cpp:2231-2267 | Opening a container makes its corner plus the enclosing offset the current offset and its clipped rectangle the current scissor; closing it brings back the enclosing offset and scissor |
| Clip.ChildScissorIsIntersection | DuckerNative.cpp:2238-2253 | A point is in the pushed scissor if and only if it is in the shifted container rectangle and in the parent scissor (in the shifted rectangle alone at top level) |
| Clip.ChildScissorWithinParent | DuckerNative.cpp:2239-2253 | Nesting only ever shrinks the clip |
| Clip.NestedContainerExample | DuckerNative.cpp:2231-2258 | Container (0,0,100,100) then (50,50,100,100) clips to (50,50,50,50) |
| DrawOrder.DrawLessAsymmetric | DuckerNative.cpp:2280-2303 | The comparator is irreflexive and asymmetric |
| DrawOrder.DrawLessHasCycle | DuckerNative.cpp:2293-2300 | Two lines and a rectangle sharing depth, custom shader and texture form a three-cycle, because the line-only keys are skipped between a line and a rectangle; the comparator is not a strict weak order |
| DrawOrder.SortByDrawOrder | DuckerNative.cpp:2279-2303 | The sort returns a permutation of the objects in which no neighbours are out of order |
| DrawOrder.Insert | DuckerNative.cpp:2279-2303 | Inserting one object into an ordered list adds exactly that object and keeps neighbours in order |
| DrawOrder.InsertedAt | DuckerNative.cpp:2280-2303 | An object placed after a neighbour it does not precede, and before one it does precede, keeps neighbours in order |
| DrawOrder.SliceOrdered | DuckerNative.cpp:2280-2303 | Any slice of a list with its neighbours in order has its neighbours in order |
| DrawOrder.ConcatOrdered | DuckerNative.cpp:2280-2303 | Two lists with their neighbours in order, joined at an ordered seam, have their neighbours in order |
| DrawOrder.SortedKeysMonotone | DuckerNative.cpp:2280-2292 | After the sort, z-index never decreases through the whole list; within equal z-index the effective shader never decreases; within equal z-index and shader, the texture never decreases |
| ObjectStore.IndexedKeys | DuckerNative.cpp:1291-1303 | An index that agrees with the list has exactly the list's ids as keys, and no id occurs twice |
| ObjectStore.Stamped | DuckerNative.cpp:1325-1366 | The stored object is the caller's object with only its id and scissor set |
| ObjectStore.AddKeepsIndexed | DuckerNative.cpp:1325-1366 | Appending under the next id at the old length keeps the index exact and every id below the advanced counter |
| ObjectStore.IdsBelowSubset | DuckerNative.cpp:1803-1821 | Dropping objects keeps every remaining id below the counter |
| ObjectStore.SwapRemove | DuckerNative.cpp:1812-1818 | Removal shortens the list by one |
| ObjectStore.RemoveKeepsIndexed | DuckerNative.cpp:1803-1821 | Swap-with-last removal keeps the index exact, drops exactly the removed object from the multiset, and leaves every other id in the list |
| ObjectStore.RemovedIndexExact | DuckerNative.cpp:1812-1819 | After removal, the moved object's index entry points at its new slot, and the removed id is gone |
| ObjectStore.RemovedMultiset | DuckerNative.cpp:1812-1818 | Removal drops exactly one copy of the removed object and keeps every other object |
| ObjectStore.RemovedIds | DuckerNative.cpp:1803-1821 | The ids after removal are the ids before it, less the removed one |
| ObjectStore.RemoveById | DuckerNative.cpp:1803-1821 | The entry point's steps (move the last object, repoint its entry, pop, erase) produce the swap-removed list and index |
| ObjectStore.RemovalCanBreakOrder | DuckerNative.cpp:1812-1815 | Removing the first of three objects at depths 0, 1 and 2 moves depth 2 in front of depth 1, and nothing marks the list for sorting |
| ObjectStore.RebuildIndex | DuckerNative.cpp:2305-2307 | After the rebuild, every object's id maps to its position; entries for ids not in the list keep their old value |
| ObjectStore.PermutationKeepsIds | DuckerNative.cpp:2280-2307 | A permutation of an indexed list has the index's ids and no id twice |
| ObjectStore.RebuiltIsIndexed | DuckerNative.cpp:2305-2307 | Sorting and then rebuilding leaves the index exact again |
| Batching.ObjectVertexCount | DuckerNative.cpp:878-1008 | Hidden objects add nothing; quads and glyphs add six vertices; lines add at most three per stored triangle |
| Batching.BuildVertexBuffer | DuckerNative.cpp:875-1008 | The geometry loop's buffer is every visible object's vertices, appended in list order |
| Batching.BufferIsFlatten | DuckerNative.cpp:878-1008 | The buffer of the first n objects is their chunks laid end to end |
| Batching.BufferPrefix | DuckerNative.cpp:878-1008 | The buffer built from fewer objects is a prefix of the buffer built from more |
| Batching.PlanBatches | DuckerNative.cpp:1016-1111 | Runs are well formed, in order and disjoint; an object is in a run exactly when it is visible and its shader resolves to a non-zero program; there is one draw per such object, in list order, at the running offset, for 6 or triCount*3 vertices |
| Batching.SkipObject | DuckerNative.cpp:1019-1030 | An invisible object, or one whose shader does not resolve, opens no run |
| Batching.ScanBatch | DuckerNative.cpp:1045-1064 | A run extends over every following object that may join the first, and stops at the first one that may not |
| Batching.EmitDraws | DuckerNative.cpp:1066-1110 | One draw per visible object of the run, each at the offset the earlier draws reached |
| Batching.DrawListCovers | DuckerNative.cpp:1066-1110 | The draws cover every drawn object once, in order, at the running offset |
| Batching.AppendDraw | DuckerNative.cpp:1107-1108 | Issuing the next drawn object's draw extends the coverage to it |
| Batching.AppendRun | DuckerNative.cpp:1045-1110 | A well-formed run extends run coverage by exactly its objects |
| Batching.BufferOffsetGap | DuckerNative.cpp:1107-1108 | Where object n starts in the buffer is its draw offset plus the surplus of every earlier object |
| Batching.DrawReadsOwnVertices | DuckerNative.cpp:1107-1108 | While no object up to and including k puts more or fewer vertices into the buffer than its draw advances, the draw of k reads exactly k's own vertices |
| Batching.NoSurplusUpTo | DuckerNative.cpp:1107-1108 | With no surplus before n, the buffer offset and the draw offset agree at n |
| Batching.UnresolvedQuadHasSurplus | DuckerNative.cpp:1027-1030 | A visible quad whose shader does not resolve gets no draw, yet its six vertices stay in the buffer |
| Batching.SkippedObjectShiftsLaterDraws | DuckerNative.cpp:1016-1111 | After a skipped rectangle with shader 7, the next rectangle is drawn from offset 0 although its vertices start at 6 |
| Batching.CleanLineHasNoSurplus | DuckerNative.cpp:1107-1108 | A line with no degenerate segment, drawn with its count from AddLine, has draw offset and buffer in step |
| Batching.CurvedLineHasDeficit | DuckerNative.cpp:1107-1108 | A drawn curved line with at least two intervals asks for more vertices than it put into the buffer, so its draw and every later draw read other objects' vertices |
| Shadows.DefaultPresets | DuckerNative.cpp:1455-1481 | Elevations 0..5 have presets; elevation 0 has no layers; each other elevation has three layers |
| Shadows.PresetsFollowElevation | DuckerNative.cpp:1455-1481 | Every level has an umbra (0.20, non-positive spread), a penumbra (0.14) and an ambient layer (0.12) with positive blur; from level to level the penumbra drops further and the ambient layer blurs wider |
| Shadows.AddToLane | DuckerNative.cpp:2339-2352 | Exactly one float lane grows by the given amount; the kind, the length and every other lane stay |
| Shadows.ShadowCloneGeometry | DuckerNative.cpp:2321-2358 | The copy keeps the object's horizontal centre, sits yOffset lower, is 2·spread wider and taller, and is black at the layer's opacity; it is drawn by its kind's built-in program without texture or border over the whole screen, and keeps kind, depth, visibility, elevation and rotation |
| Shadows.ShadowCloneUniforms | DuckerNative.cpp:2332-2356 | The corrected copy's quadSize is its own size; a rounded rectangle's shape grows by 2·spread and its corner radius by spread; a circle's radius grows by spread; its borderWidth uniform is 0; no other uniform changes. The render loop's copy has the object's uniforms plus quadSize, keeps the object's borderWidth uniform, and differs from the corrected copy in that uniform alone |
| Shadows.LayerShadows | DuckerNative.cpp:2319-2360 | One corrected copy per preset layer |
| Shadows.LayerShadowsKeepKind | DuckerNative.cpp:2321-2358 | Every copy has the object's kind |
| Shadows.ShadowsAreShapes | DuckerNative.cpp:2312-2362 | Every copy made is a rectangle, rounded rectangle or circle |
| Shadows.GroupOfShapes | DuckerNative.cpp:2360 | A blur group of shapes holds shapes only |
| Shadows.NoCopiesWithAbsentRadius | DuckerNative.cpp:2360 | A radius that no copy has has an empty group |
| Shadows.AddToGroupKeepsGrouping | DuckerNative.cpp:2360 | Pushing a copy into its radius's entry keeps the map equal to the grouping of every copy made so far |
| Shadows.CollectShadows | DuckerNative.cpp:2312-2362 | The shadow loop's map has one entry per radius that occurs, holding exactly that radius's corrected copies in the order made |
| Shadows.LayerShadowsStep | DuckerNative.cpp:2319-2360 | One more layer adds one more corrected copy at the end |
| Shadows.AddLayerShadows | DuckerNative.cpp:2319-2360 | The layer loop groups one object's corrected copies on top of the copies made before |
| Shadows.ElevationOneMakesTwoGroups | DuckerNative.cpp:2312-2362 | A rounded rectangle at elevation 1 yields three corrected copies in two groups: radius 1 (umbra, penumbra) and radius 3 (ambient) |
| Shadows.HasLeast | DuckerNative.cpp:2365 | Every non-empty set of radii has a smallest one |
| Shadows.AscendingRadii | DuckerNative.cpp:2365-2371 | The groups are visited once each, smallest radius first |
| Shadows.HalfKernel | DuckerNative.cpp:1136-1137 | The half kernel lies in 1..15, and is the truncated radius where the clamp does not apply |
| Shadows.RawWeightsPositive | DuckerNative.cpp:1138-1145 | With exp positive and an exact square root, every raw tap weight is positive |
| Shadows.MirroredScaled | DuckerNative.cpp:1146 | Dividing every tap by c divides the mirrored total by c |
| Shadows.Normalised | DuckerNative.cpp:1146 | Normalisation keeps the number of taps |
| Shadows.GaussianWeights | DuckerNative.cpp:1136-1146 | The weight loops produce halfKernel+1 taps, each the density divided by the mirrored total |
| Shadows.NormalisedKernel | DuckerNative.cpp:1138-1146 | For positive taps, the normalised kernel satisfies w0 + 2·Σwi = 1, keeps every tap positive and keeps each tap proportional to its raw weight |
| Shadows.GaussianKernelNormalised | DuckerNative.cpp:1136-1146 | The kernel the blur uses satisfies w0 + 2·Σwi = 1, with every tap positive |
| Shadows.FillTaps | DuckerNative.cpp:1140-1145 | The first loop writes each tap's density and accumulates their mirrored total |
| Shadows.MirroredPrefix | DuckerNative.cpp:1140-1145 | The running total of the first n taps reads only those taps |
| Shadows.Normalise | DuckerNative.cpp:1146 | The second loop divides every tap by the total |
| Shadows.PlanBlur | DuckerNative.cpp:1121-1146 | A radius ≤ 0 is composited without blur; any other radius gets a separable pass with the clamped half kernel and the normalised weights |
| Upload.SyncedBorderUploadsFields | DuckerNative.cpp:1083-1105 | While the border uniforms mirror the border fields, the border drawn is the object's own |
| Upload.RoundedRectUploads | DuckerNative.cpp:1601-1654 | A new rounded rectangle uploads its own size, colour, texture flag, border, shape size and corner radius, and no line width |
| Upload.LineUploads | DuckerNative.cpp:1698-1801 | A new line uploads its width, its colour, no texture and a zero border |
| Upload.AsWrittenShadowKeepsBorder | DuckerNative.cpp:2356 | A bordered shape's shadow copy has a zero border field, yet still uploads the object's border width and colour from its map |
| Upload.ElevatedBorderedShadow | DuckerNative.cpp:2312-2360 | A bordered rounded rectangle at elevation 1 casts a shadow under the default presets; the umbra copy the loop makes uploads the object's border width, the corrected copy uploads 0, and the corrected copy heads the radius-1 group |
| Upload.BorderedShadowOccurs | DuckerNative.cpp:1601-1654 | A rounded rectangle built with border width 1 and raised to elevation 1 meets the conditions of the shadow-border lemmas: it is a visible shape with synced border uniforms |
| Upload.ShadowHasNoBorder | DuckerNative.cpp:2321-2358 | The corrected copy uploads a zero border width whatever the object carried; its quadSize is its grown size; it is black at the layer's opacity and untextured unless the object's map overrides those |
| Renderer.RectObjectIsDrawable | DuckerNative.cpp:1574-1599 | A new rectangle is visible and flat, is drawn by program 1, and has border uniforms matching its fields and no others |
| Renderer.RoundedRectObjectIsDrawable | DuckerNative.cpp:1601-1654 | A new rounded rectangle is drawn by program 2; its quadSize is its own size, its shape and corner uniforms hold the given values, its border is in sync, and its shadow copies can be made |
| Renderer.CircleObjectIsDrawable | DuckerNative.cpp:1656-1696 | A new circle is drawn by program 3, holds its radius, has its border in sync, and its shadow copies can be made |
| Renderer.LineObjectIsDrawable | DuckerNative.cpp:1698-1725 | A new line has no texture and no uniforms, is drawn by the line program, and its path runs start, controls, end |
| Renderer.StoredUniform | DuckerNative.cpp:2190-2211 | The stored payload has the given type and is 4, 8, 12, 16 or 4 bytes wide for float, vec2, vec3, vec4 and int, copied from the caller's data |
| Renderer.SettersKeepShape | DuckerNative.cpp:1823-1836 | The corner setter ignores every kind but rounded rectangles and changes only their corner radius; the border setter leaves fields and uniforms in sync and every other uniform as it was |
| Renderer.Patch | DuckerNative.cpp:1838-1866 | A setter on an unknown id leaves the list unchanged; on a known id it changes nothing but that object |
| Renderer.RenderObjects | DuckerNative.cpp:867-1115 | A pass uploads the buffer of every visible object and issues the runs and draws of the batch plan |
| Renderer.RenderShadows | DuckerNative.cpp:2312-2371 | There is one shadow pass per blur radius that occurs, in strictly ascending radius order; each pass draws exactly that radius's corrected copies and is blurred as planned for it |
| Renderer.RenderGroups | DuckerNative.cpp:2365-2371 | One pass per listed radius, in the listed order |
| Renderer.RenderGroup | DuckerNative.cpp:2366-2370 | A group is drawn into the shadow buffer, then blurred with its radius's kernel |
| Renderer.PassesInRadiusOrder | DuckerNative.cpp:2365-2371 | Visiting the map keys in ascending order yields exactly one pass per radius that occurs |
| Renderer.DrawFrame | DuckerNative.cpp:2312-2373 | The frame is the shadow passes over the corrected copies, then the main pass over the sorted list |
| Renderer.AddKeepsStoreValid | DuckerNative.cpp:1325-1366 | Storing under the next id and advancing the counter keeps the store invariant, and the id was never handed out before |
| Renderer.RemoveKeepsStoreValid | DuckerNative.cpp:1803-1821 | Removing a present id keeps the store invariant and takes out exactly that id |
| Renderer.EmptyStoreValid | DuckerNative.cpp:351-387 | The empty store with counter 1 is valid |
| Renderer.BuiltinShaders | DuckerNative.cpp:1401-1405 | The five built-in programs sit under ids 1..5, all below the custom counter 100 |
| Renderer.NewScissorShrinksInContainer | DuckerNative.cpp:1325-1366 | A point in the scissor an object gets inside a newly opened container lies in the scissor objects got before, and in the container's shifted rectangle |
| Renderer.PermutationKeepsReadiness | DuckerNative.cpp:2280-2303 | Sorting keeps every object's drawability requirements |
| Renderer.GroupsDrawable | DuckerNative.cpp:2312-2371 | Every blur group holds shapes only, so its vertices are defined |
| Renderer.RendererState.constructor | DuckerNative.cpp:351-387 | Before Initialize, the state is down, with no objects and no shaders |
| Renderer.RendererState.FindObject | DuckerNative.cpp:1291-1303 | An object is found exactly when the renderer is up and an object has the id, and the position found holds that id |
| Renderer.RendererState.Initialize | DuckerNative.cpp:1393-1485 | A second call changes nothing; a first call brings the state up with the five built-in programs, custom ids from 100, the Material presets, the projection for the size, and an empty store and empty stacks |
| Renderer.RendererState.Configure | DuckerNative.cpp:1393-1485 | Sets the built-in shaders, the presets, the size and the projection |
| Renderer.RendererState.ResetStore | DuckerNative.cpp:1393-1485 | Empties the store and both stacks, and restarts ids at 1 |
| Renderer.RendererState.Shutdown | DuckerNative.cpp:1498-1544 | Afterwards the state is down, with no objects and no shaders |
| Renderer.RendererState.Clear | DuckerNative.cpp:1546-1556 | Drops every object and both stacks, but never resets the id counter or the set of ids handed out, so later ids are new |
| Renderer.RendererState.SetScreenSize | DuckerNative.cpp:1558-1568 | When up, stores the size and its projection; otherwise changes nothing |
| Renderer.RendererState.AddObjectInternal | DuckerNative.cpp:1325-1366 | Returns 0 and changes nothing when down; otherwise appends the object under the next id with the current scissor, points the index at it, advances the counter and raises needsSort, with an id never handed out before |
| Renderer.RendererState.AddRect | DuckerNative.cpp:1574-1599 | Stores the rectangle that the builder describes, as AddObjectInternal does |
| Renderer.RendererState.AddRoundedRect | DuckerNative.cpp:1601-1654 | Stores the rounded rectangle that the builder describes |
| Renderer.RendererState.AddCircle | DuckerNative.cpp:1656-1696 | Stores the circle that the builder describes |
| Renderer.RendererState.AddLine | DuckerNative.cpp:1698-1801 | Stores the line with the triangle count and tight bounds of its path |
| Renderer.RendererState.RemoveObject | DuckerNative.cpp:1803-1821 | An unknown id changes nothing; otherwise the object is swap-removed, the index follows, exactly that id disappears, and needsSort is untouched |
| Renderer.RendererState.Replace | DuckerNative.cpp:1291-1303 | Replacing an object by one with the same id keeps the state valid |
| Renderer.RendererState.SetObjectRotation | DuckerNative.cpp:1838-1843 | Only the found object's rotation changes; an unknown id changes nothing; needsSort is untouched |
| Renderer.RendererState.SetObjectRotationOrigin | DuckerNative.cpp:1845-1850 | Only the found object's rotation origin changes |
| Renderer.RendererState.SetObjectRotationAndOrigin | DuckerNative.cpp:1852-1858 | Only the found object's rotation and origin change |
| Renderer.RendererState.SetObjectElevation | DuckerNative.cpp:1860-1866 | Only the found object's elevation changes, and finding it always raises needsSort |
| Renderer.RendererState.SetObjectCornerRadius | DuckerNative.cpp:1823-1836 | Only a found rounded rectangle's corner uniform changes |
| Renderer.RendererState.SetObjectShader | DuckerNative.cpp:2180-2188 | Only the found object's shader changes, and needsSort is raised exactly when the shader id actually changes |
| Renderer.RendererState.SetObjectUniform | DuckerNative.cpp:2190-2211 | Only the found object's named uniform changes, to the type-sized payload |
| Renderer.RendererState.SetObjectBorder | DuckerNative.cpp:2213-2229 | The found object's border fields and border uniforms change together |
| Renderer.RendererState.CreateShader | DuckerNative.cpp:2152-2166 | Returns 0 when down or when the compile failed; otherwise a fresh id ≥ 100, not used before, mapped to the program |
| Renderer.RendererState.DeleteShader | DuckerNative.cpp:2168-2178 | Ids below 100 are never deleted; a custom id is removed from the table |
| Renderer.RendererState.BeginContainer | DuckerNative.cpp:2231-2258 | Pushes the shifted corner and the clipped scissor onto both stacks, keeping them equally deep |
| Renderer.RendererState.EndContainer | DuckerNative.cpp:2260-2267 | Pops both stacks; does nothing when they are empty |
| Renderer.RendererState.Render | DuckerNative.cpp:2269-2375 | Nothing happens when down or empty; otherwise the objects are permuted, with neighbours in draw order when a sort was due, needsSort is cleared, the index stays exact, and the frame is the shadow passes and the main pass over the list |
| Renderer.RendererState.SortObjects | DuckerNative.cpp:2279-2310 | The sort is a permutation with neighbours in draw order, the rebuilt index is exact, and needsSort is cleared |
| FastVectors.FindItem | headers/fast_vector.h:54-63 | The position of the first element equal to the value, or the size when it is absent |
| FastVectors.RemoveFirstCounts | headers/fast_vector.h:511-545 | Removing the first occurrence drops exactly one copy when present, and changes nothing otherwise |
| FastVectors.CutAtFirst | headers/fast_vector.h:511-545 | Cutting out the element at the found position is removing the first occurrence |
| FastVectors.ShiftLeft | headers/fast_vector.h:520-540 | The shift loop moves the later elements one slot left, in order |
| FastVectors.Grown | headers/fast_vector.h:548-585 | A full buffer always grows to a larger capacity |
| FastVectors.FastVector.constructor | headers/fast_vector.h:85 | Empty, with capacity 0 |
| FastVectors.FastVector.Get | headers/fast_vector.h:288-358 | An in-range position gives one of the elements |
| FastVectors.FastVector.Front | headers/fast_vector.h:288-358 | A non-empty vector's first element |
| FastVectors.FastVector.Back | headers/fast_vector.h:288-358 | A non-empty vector's last element |
| FastVectors.FastVector.Reserve | headers/fast_vector.h:413-440 | Capacity never decreases, and becomes the request when that is larger; the elements stay |
| FastVectors.FastVector.PushBack | headers/fast_vector.h:548-585 | The value goes last and earlier elements stay; a full buffer first grows to twice its capacity plus one |
| FastVectors.FastVector.PopBack | headers/fast_vector.h:604-614 | Drops the last element, keeps the prefix and the capacity |
| FastVectors.FastVector.Clear | headers/fast_vector.h:476-484 | No elements, same capacity |
| FastVectors.FastVector.Resize | headers/fast_vector.h:617-640 | The size becomes count, the old prefix stays, the slots added hold the value `fill` stands for, and the capacity becomes count when count exceeds it |
| FastVectors.FastVector.Append | headers/fast_vector.h:487-508 | The values go to the end in order whichever branch is taken, and the capacity never decreases |
| FastVectors.FastVector.Erase | headers/fast_vector.h:511-545 | Removes the first occurrence only, shifting the rest left in order; answers whether there was one; absent values change nothing |
| FastVectors.FastVector.ShrinkToFitAsWritten | headers/fast_vector.h:449-471 | A non-empty vector with spare room gets an allocation of exactly its size, while the recorded capacity keeps the old value |
| FastVectors.FastVector.ShrinkToFit | headers/fast_vector.h:449-471 | The corrected shrink moves the recorded capacity along with the allocation, so the vector stays valid |
| FastVectors.ValidPushWritesInside | headers/fast_vector.h:548-585 | In every valid state, the slot push_back writes lies inside the allocation |
| FastVectors.StaleCapacityOverflows | headers/fast_vector.h:449-585 | After the shrink as written, one element in a buffer of three leaves capacity 3 over one slot, so the next push_back skips growing and writes past the allocation; the same happens for every size below the capacity |

## Left out

- OpenGL is not modelled: shader compilation and linking, framebuffers, VAO/VBO setup, texture binding and every `glUniform*`, `glScissor` and `glDrawArrays` call. Their effect is the `Pass`, `Run`, `Draw` and `BlurPass` records.
- The GLSL shader sources are not modelled, apart from the `projection * model * position` product of the vertex shader. They are GPU float arithmetic.
- Fonts and textures (`DuckerNative_LoadFont`, `DuckerNative_GetTextSize`, `DuckerNative_DeleteFont`, `DuckerNative_LoadTexture`, `DuckerNative_DeleteTexture`) are left out. They are file I/O and calls into stb_truetype and stb_image.
- The glyph quads `DuckerNative_DrawText` builds are left out, because their placement comes from `stbtt_GetPackedQuad`. Only its decoding walk and slot mapping are modelled.
- The global `state` pointer, the Android logging and the GLAD setup are left out. The pointer is the `live` flag of an explicit `RendererState`.
- `CreateShader` receives the compiled program handle as a parameter. Zero stands for a failed compile.
- Floats are reals. `sqrt`, `exp`, `cos` and `sin` are uninterpreted except where `SqrtSound` or `ExpPositive` is assumed. Rounding is not modelled, and the 1e-6 and 0.001 thresholds are compared exactly.
- `memcmp` on scissor rectangles is replaced by equality and a lexicographic order on (x, y, w, h). The two orders differ: on a little-endian machine `memcmp` puts 2.0f before 1.0f. `DrawOrder.DrawLessHasCycle` is stated for any three rectangles the order puts in increasing sequence, so its argument does not depend on which order it is. Such triples exist under both orders, for instance x = 0, 1 and 1.5. The other properties do not depend on which strict order is used.
- Renderer.RendererState.AddObjectInternal: the `uint32_t` id counter is unbounded, so its wrap-around after 2^32 objects is not modelled.
- Upload.UploadedUniforms: the `loc != -1` test is dropped, so every name counts as uploaded whether or not the program declares it. Payload bytes are float or int lanes, and their bit reinterpretation is not modelled.
- DrawOrder.SortByDrawOrder promises only that no two neighbours are out of order, not a total sort. The comparator is not a strict weak order (`DrawOrder.DrawLessHasCycle`), so `std::sort` makes no promise for it. The model's insertion sort is one permitted outcome. Neighbour order is enough for `SortedKeysMonotone`.
- Shadows.HalfKernel follows the code, which truncates 3·sigma (the cast at DuckerNative.cpp:1137, commented only as `3 sigma`).
- Renderer.RendererState.Render requires every visible glyph to carry its corner uniforms and every shadow caster to carry its shape uniforms. The source reads them without a check, so it would throw or read garbage otherwise.
- Shadows.ShadowCloneUniforms states the corrected copy's `borderWidth` uniform as 0. The program's copy (DuckerNative.cpp:2321, 2356) keeps the object's `borderWidth` uniform, which this lemma states separately for `Shadows.ShadowCloneAsWritten`.
- Shadows.LayerShadows builds the corrected copies. The program's copies keep the `borderWidth` uniform, so a bordered caster draws a ring into the shadow buffer (the first finding).
- Shadows.LayerShadowsStep is stated about the corrected copies, as `Shadows.LayerShadows` is.
- Shadows.AddLayerShadows pushes corrected copies, not the program's.
- Shadows.CollectShadows groups corrected copies, not the program's.
- Shadows.ElevationOneMakesTwoGroups names corrected copies in its groups.
- Renderer.RenderShadows draws corrected copies, so its passes show no border rings where the program draws them.
- Renderer.DrawFrame has shadow passes over corrected copies.
- Renderer.RendererState.Render produces a frame whose shadow passes draw corrected copies.
- Matrices.Projection is `None` when the width or the height is 0. The source divides by zero there and stores a matrix of non-finite floats, which reals cannot represent.
- FastVectors.FastVector.Resize takes a `fill` value the source's `resize(count)` does not have. For a trivial element type the source constructs nothing, so the slots added hold whatever the allocation held. `fill` stands for those unspecified values. The uniform payloads and the control points the core resizes are filled by a `memcpy` before anything reads them.
- Utf8.Utf8ToCodepoint requires every byte the lead byte announces to be present. The source reads them unconditionally, which `Utf8.TruncatedSequenceOverruns` shows running past the terminator.
- `fast_vector` memory management is left out: `malloc`/`realloc`, placement new, `memset`, the `is_trivial` branches, copy and move construction and assignment, and iterators. The class stores its elements as a sequence, so aliasing of its buffer is not modelled.
- The composite and blur passes of `ApplyGaussianBlurAndComposite` are left out beyond the kernel they use. They are GL draws.

## Findings

| source | as written | input that shows it | evidently intended | confidence | as-written member | corrected member |
|---|---|---|---|---|---|---|
| DuckerNative.cpp:2356 | The shadow copy zeroes the `borderWidth` field, but its uniform map keeps `borderWidth` and `borderColor`, which are uploaded after the field (lines 1083-1105) and win | A rounded rectangle with border width 1 and elevation 1: its copy uploads border width 1, so the shader draws a coloured ring into the shadow buffer | The shadow copy draws without a border | not executed | Upload.AsWrittenShadowKeepsBorder | Upload.ShadowHasNoBorder |
| headers/fast_vector.h:449-471 | `shrink_to_fit` reallocates to the current size but leaves `m_capacity` unchanged | One element in a buffer of capacity 3, then `shrink_to_fit` and `push_back`: push_back sees room and writes slot 1 of a one-slot allocation | `m_capacity` follows the new allocation | not executed | FastVectors.FastVector.ShrinkToFitAsWritten | FastVectors.FastVector.ShrinkToFit |
| DuckerNative.cpp:1194-1210 | `CreateRotationMatrix` puts the translation in the last array column, unlike `UpdateProjectionMatrix`; both are uploaded untransposed, so the shader sees the translation in its bottom row | A 90° turn about the pivot (1,0) sends the pivot to (0,-1,0,2) instead of (1,0,0,1) | The translation in array row m[3], as in the projection | not executed | Matrices.UploadedRotationMovesPivot | Matrices.UploadedRotationTurnsAboutPivot |
