# Instanced cube scene: verified bookkeeping model

This project models the integer and sequence bookkeeping of a Direct3D 11
demo that draws many textured cubes with instancing, culls them against
the camera frustum either on the host or in a compute shader, measures the
compute path with pipeline-statistics queries, and draws its point lights
as instanced UV spheres. It covers three parts of the program:

- **The scene** (`Window/scene.cpp`, class `Scene`) is modelled in module `Scenes`, with helpers in `Culling`, `QueryHarvest` and `Commands`. It covers:
  - the live cube count, a counter bounded by MAX_CUBE;
  - the light list, a stack bounded by MAX_LIGHT;
  - the host culling pass that rebuilds the visible-index list;
  - the upload of that list into the visible-instance buffer;
  - the reset of the indirect draw arguments before every culling dispatch;
  - the dispatch's group count;
  - the choice of the cube draw and the frame counter;
  - the harvesting of the statistics queries, in frame order.
- **The lights** (`Window/light.cpp`, class `Light`) are modelled in modules `Lights` and `SphereMesh`. They cover:
  - the random population of the light list;
  - the sphere's vertex and face counts;
  - the slot layout of the vertex array;
  - the index list of the top cap, middle bands and bottom cap;
  - releasing the light list;
  - the instanced sphere draw.
- **The start-up working directory** (`Window/main.cpp`) is modelled in module `WorkingDir`. If the current directory contains "x64", it is cut before the first occurrence and the application title is appended.

External interfaces (the device, the frustum test, the queries, rand) are modelled as values:
- The frustum test is an arbitrary predicate `inFrustum` on the instance index.
- GetData is a function `poll` from query slot to `NotReady` or `Ready(iaPrimitives)`.
- `rand()` results are a function `draws` from population step to the five values that step consumes.
- A device that fails to create an object is the boolean `deviceOk`.
- The dispatch and draw calls are returned as `Command` values carrying their integer operands.
- Uploaded buffers are fields holding what was uploaded.
- MAX_CUBE, MAX_QUERY and MAX_LIGHT are defined in a header that is not part of this model. They are positive parameters of the constructors.

With culling switched off, `Scene::Render` draws MAX_CUBE instances (`Window/scene.cpp:792`). That includes the slots beyond the live count, not only the live cubes. `Scenes.Scene.Render` states this behaviour as the code has it.

## Model

| member | source | states |
|---|---|---|
| Scenes.Scene.CreateNewCube | Window/scene.cpp:726-730 | the count grows by exactly one when below MAX_CUBE and is unchanged otherwise; nothing else changes and the count stays within [0, MAX_CUBE] |
| Scenes.Scene.DeleteCube | Window/scene.cpp:732-736 | the count shrinks by exactly one when positive and is unchanged otherwise; nothing else changes |
| Scenes.Scene.CreateNewLight | Window/scene.cpp:710-717 | when the list holds fewer than MAX_LIGHT lights, exactly one light, at (0,1,0) and white, is appended and the earlier entries are kept; otherwise the list is unchanged; the light's mesh buffers are untouched |
| Scenes.Scene.DeleteLight | Window/scene.cpp:719-724 | a non-empty list loses exactly its last entry, and the others are kept; an empty list stays empty |
| Scenes.Scene.CullOnHost | Window/scene.cpp:597-609 | the visible list is rebuilt as VisibleIndices of the live count, whatever it held before, and numShapes becomes (count, 0, 0, 0) |
| Scenes.Scene.UploadVisibleIndices | Window/scene.cpp:660-666 | the uploaded buffer has MAX_CUBE slots, and slot k holds (visible[k], 0, 0, 0) for every k below the visible count |
| Scenes.Scene.Frame | Window/scene.cpp:597-699 | the visible list holds exactly the live indices that pass the test, ascending, at most one per live cube; the host path uploads it; the commands issued are the reset indirect arguments followed by the dispatch of GroupCount(count) groups, whatever the previous frame did |
| Scenes.NewLight | Window/scene.cpp:713-715 | the light CreateNewLight appends: position (0, 1, 0), colour (1, 1, 1); Scenes.Scene.CreateNewLight states the append |
| Scenes.ResetArgs | Window/scene.cpp:686-692 | the reset record has 36 indices per instance, instance count 0 and every other field 0 |
| Scenes.Scene.ReadQueries | Window/scene.cpp:739-751 | the new last-completed frame and GPU cube count are exactly what Harvest computes from the old ones and the frame counter; no other field changes |
| Scenes.Scene.Render | Window/scene.cpp:780-800 | culling off draws MAX_CUBE instances; host culling draws as many instances as the visible list holds; compute culling issues the indirect draw under query slot curFrame % MAX_QUERY and advances the frame counter by exactly one, which no other path changes; queries are harvested afterwards on every path; when spheres are on, the light draw follows |
| Culling.VisibleIndices | Window/scene.cpp:597-604 | the recursive reference definition of the visible list that Scenes.Scene.CullOnHost's loop is proved equal to; its properties are Culling.VisibleMembership, VisibleIncreasing, VisibleBelow, VisibleLength and VisibleCharacterised |
| Culling.VisibleMembership | Window/scene.cpp:597-604 | an index is in the visible list if and only if it is below the live count and passes the frustum test |
| Culling.VisibleIncreasing | Window/scene.cpp:597-604 | the visible list is strictly increasing |
| Culling.VisibleBelow | Window/scene.cpp:597-604 | every visible index is below the live count |
| Culling.VisibleLength | Window/scene.cpp:597-604 | the visible list has at most one entry per live cube, and exactly one per live cube when all pass |
| Culling.IncreasingUnique | Window/scene.cpp:597-604 | two strictly increasing lists with the same elements are equal |
| Culling.VisibleCharacterised | Window/scene.cpp:597-604 | any strictly increasing list holding exactly the live indices that pass the test is the visible list |
| Culling.GroupCount | Window/scene.cpp:693 | groups * 64 >= count; (groups - 1) * 64 < count when count > 0; groups is 0 exactly when count is 0 |
| QueryHarvest.Harvest | Window/scene.cpp:741-750 | the recursive reference definition of the harvest that Scenes.Scene.ReadQueries' loop is proved equal to; its properties are QueryHarvest.HarvestBounds, HarvestedWereReady, HarvestStopsAtNotReady, HarvestCount and HarvestStopsAt |
| QueryHarvest.CubesReported | Window/scene.cpp:744 | the cube count one query reports, int(IAPrimitives / 12); QueryHarvest.Int32Of and Int32OfSmall give the conversion's properties |
| QueryHarvest.Int32Of | Window/scene.cpp:744 | the int conversion yields a 32-bit signed value congruent to its input modulo 2^32 |
| QueryHarvest.Int32OfSmall | Window/scene.cpp:744 | values below 2^31 convert unchanged |
| QueryHarvest.HarvestBounds | Window/scene.cpp:741-750 | harvesting never moves the last completed frame backwards or past the frame counter, and changes nothing when no frame is outstanding |
| QueryHarvest.HarvestedWereReady | Window/scene.cpp:741-746 | every frame harvested had a ready query in slot frame % MAX_QUERY |
| QueryHarvest.HarvestStopsAtNotReady | Window/scene.cpp:741-749 | harvesting that stops before the frame counter stops at a frame whose query was not ready |
| QueryHarvest.HarvestCount | Window/scene.cpp:743-745 | the GPU cube count is IAPrimitives / 12 of the last query harvested, and is unchanged when none was |
| QueryHarvest.HarvestStopsAt | Window/scene.cpp:741-750 | conversely, the stopping frame is the first frame from the old one that is either the frame counter or not ready |
| Lights.Offset | Window/light.cpp:10 | a random position coordinate is a whole number in [-5, 4] |
| Lights.Shade | Window/light.cpp:11 | a random colour channel lies in [0, 1) |
| Lights.RandomLight | Window/light.cpp:9-11 | a random light has whole coordinates in [-5, 4], full red, and green and blue in [0, 1) |
| Lights.FixedResolutionCounts | Window/light.cpp:14-18 | at 10 latitude and 10 longitude lines the sphere has 82 vertices and 160 faces |
| Lights.Light.Init | Window/light.cpp:4-222 | on success the list holds exactly MAX_LIGHT entries, entry i being light i of the random draws; the counts are the sphere's; the vertex buffer holds the poles at both ends and ring i, longitude j at slot i * LongLines + j + 1, every inner slot holding exactly one ring vertex; the index buffer holds the index list; on device failure the list and buffers are empty again |
| Lights.Light.BuildSphere | Window/light.cpp:14-97 | the counts are NumVertices and NumFaces; the vertex array holds the poles at both ends and ring i, longitude j at slot i * LongLines + j + 1, every inner slot holding exactly one ring vertex; the index list is SphereIndices, of length 3 * faces, and every index is below the vertex count |
| Lights.Light.Release | Window/light.cpp:225-235 | the light list and both buffers are empty afterwards; the counts are kept |
| Lights.Light.Render | Window/light.cpp:275 | one indexed instanced draw of 3 * faces indices, which is the whole index buffer, with as many instances as there are lights, at most MAX_LIGHT |
| SphereMesh.NumVertices | Window/light.cpp:17 | the vertex count, by rings (LatLines - 2 rings of LongLines plus two poles); SphereMesh.CountsMatchSource ties it to the source's product |
| SphereMesh.NumFaces | Window/light.cpp:18 | the face count, by bands plus the two fans; SphereMesh.CountsMatchSource ties it to the source's product and CountsByRings relates it to the vertex count |
| SphereMesh.RingSlot | Window/light.cpp:39-41 | the slot i * LongLines + j + 1 of ring i, longitude j; SphereMesh.RingSlotInjective and RingSlotBetweenPoles give its properties |
| SphereMesh.SphereIndices | Window/light.cpp:50-97 | the reference index list, top cap then the LatLines - 3 bands then bottom cap, that SphereMesh.BuildSphereIndices is proved to fill; SphereIndicesLength, SphereIndicesInRange and CapsTouchPoles give its properties |
| SphereMesh.TopCap | Window/light.cpp:53-62 | the first n triangles of the top fan, the last one closing back to vertex 1; TopCapLength, TopCapBelow and TopCapAtPole give its properties |
| SphereMesh.Bands | Window/light.cpp:64-86 | the first n middle bands of LongLines quads each, the last quad of a band wrapping to longitude 0; BandsLength and BandsBelow give its properties |
| SphereMesh.BottomCap | Window/light.cpp:88-97 | the first n triangles of the bottom fan; BottomCapLength, BottomCapBelow and BottomCapAtPole give its properties |
| SphereMesh.CountsMatchSource | Window/light.cpp:17-18 | the vertex count is (LatLines - 2) * LongLines + 2 and the face count is (LatLines - 3) * LongLines * 2 + LongLines * 2 |
| SphereMesh.CountsByRings | Window/light.cpp:17-18 | there are two faces per ring vertex, and at least LongLines + 2 vertices |
| SphereMesh.RingSlotInjective | Window/light.cpp:39-41 | distinct (ring, longitude) pairs are written to distinct slots |
| SphereMesh.RingSlotBetweenPoles | Window/light.cpp:39-41 | every ring slot lies strictly between the two pole slots |
| SphereMesh.RingSlotsFilled | Window/light.cpp:31-43 | if every slot between the poles holds the ring vertex of that slot, every ring vertex sits in its own slot |
| SphereMesh.LayoutSphereVertices | Window/light.cpp:23-47 | the array has NumVertices slots; the poles are at slot 0 and the last slot; ring i, longitude j is at slot i * LongLines + j + 1; every slot between the poles holds exactly one ring vertex, so the ring slots cover 1 .. NumVertices - 2, each once |
| SphereMesh.BuildSphereIndices | Window/light.cpp:50-97 | the index array, of NumFaces * 3 entries, ends up holding exactly SphereIndices, with no write outside it |
| SphereMesh.FillTopCap | Window/light.cpp:52-62 | the top-cap loop writes exactly LongLines triangles, the first 3 * LongLines entries |
| SphereMesh.FillBands | Window/light.cpp:64-86 | the band loops write exactly the LatLines - 3 bands after the entries already in place, keeping them |
| SphereMesh.FillBand | Window/light.cpp:65-85 | one band writes exactly 2 * LongLines triangles, closing the ring with the wrap-around quad |
| SphereMesh.FillBottomCap | Window/light.cpp:88-97 | the bottom-cap loop writes exactly LongLines triangles and ends exactly at the end of the array |
| SphereMesh.SphereIndicesLength | Window/light.cpp:50-97 | the index list has 3 * NumFaces entries: LongLines triangles in each cap and 2 * LongLines in every middle band |
| SphereMesh.SphereIndicesInRange | Window/light.cpp:53-97 | every generated index is below the vertex count |
| SphereMesh.CapsTouchPoles | Window/light.cpp:53-97 | every top-cap triangle starts at vertex 0, and every bottom-cap triangle starts at the last vertex |
| SphereMesh.TopCapLength | Window/light.cpp:53-62 | n top-cap triangles make 3 * n indices |
| SphereMesh.BandsLength | Window/light.cpp:64-86 | n bands make 6 * n * LongLines indices |
| SphereMesh.BandsBelow | Window/light.cpp:64-86 | the indices of the first n bands stay within the first n + 1 rings |
| SphereMesh.BottomCapBelow | Window/light.cpp:88-97 | bottom-cap indices are below the vertex count |
| WorkingDir.FindFrom | Window/main.cpp:34 | the result is the leftmost occurrence at or after the start position, or None when there is none |
| WorkingDir.Find | Window/main.cpp:34 | the result is the leftmost occurrence of the pattern, or None exactly when it does not occur |
| WorkingDir.RewriteWorkingDir | Window/main.cpp:31-40 | None, meaning no directory is set and the directory is left as it is, exactly when "x64" does not occur; otherwise the part before the first "x64" followed by the title |
| WorkingDir.RewriteShape | Window/main.cpp:34-38 | the new directory's length is the first occurrence's position plus the title length; it starts with the cut prefix and ends with the title |
| WorkingDir.KeptPrefixHasNoMarker | Window/main.cpp:34-37 | the kept prefix contains no "x64" |

## Left out

- Direct3D device work: buffer, shader, view and state creation; constant-buffer contents; UpdateSubresource, Map/Unmap; the draw and dispatch calls themselves. Only their integer operands are kept. If the device is not modelled, these calls have no semantics to verify.
- The copy of the compute shader's visible-instance output over the visible-instance buffer (`Window/scene.cpp:701`), made every frame on both paths. `visibleIndexBuffer` is what the host path uploaded. The compute shader is not part of this model, so that copy's contents are unknown.
- The compute culling shader and its atomic compaction. This is device-side concurrency in a shader that is not part of this model.
- Floating-point work is left out: world matrices, bounding-box transforms, frustum planes, the transparent quads' depth order, and the sphere's vertex positions. A vertex slot records only which vertex it holds.
- Lights.RandomLight: random colours and positions are reals. The rounding of the single-precision division by 255 is not modelled.
- The order in which the five rand() calls of one population step are evaluated. C++ leaves it open, so each draw is named after the component it ends up in.
- `Scene::Init`, `Scene::Release`, `Light::Frame` and the cube map. They are device set-up and per-frame constant uploads, with no integer bookkeeping beyond what is modelled.
- Scenes.Scene.constructor: the initial values of the live count and the flags are parameters. The frame counters and the GPU count start at 0. They are initialised in a header that is not part of this model.
- The frame counters are unbounded naturals. Their declared type is in a header that is not part of this model.
- Scenes.Scene.ReadQueries: `poll` holds for the whole call. A query becoming ready between two polls within one call is not modelled. Any GetData result other than S_OK counts as not ready.
- Lights.Light.Init: requires an empty light list. Scene::Init calls it once on a fresh light object. A device failure is one boolean; which object failed is not distinguished, since all of them are released either way.
- SphereMesh: the generators are proved for every size with LatLines >= 3 and LongLines >= 1, using unbounded integers. At the source's fixed 10 by 10, the 32-bit unsigned arithmetic cannot wrap. The light object holds the two sizes as constants fixed at 10 when it is made.
- WorkingDir.RewriteWorkingDir: the directory is the whole buffer GetCurrentDirectory filled, including the NUL padding after the path. The title is whatever LoadString returned; its truncation to MAX_LOADSTRING is not modelled. The Win32 calls that read and set the directory are not modelled.
- Camera, input, renderer, texture loading, the user interface and the window loop. None of these is bookkeeping of the instancing pipeline.
