# Vertex-animation and morph-target packing for Unreal and Spark AR, in Dafny

Three Blender add-ons from the `unreal_tools` repository are modelled here. Each one wraps a small data transformation in Blender plumbing:

- **Blender/vertex_animation.py** (Spark AR) bakes vertex animation textures. It:
  - samples the selected meshes on every frame of `range(start, end, step)`;
  - records each vertex's offset from frame 0 and its normal as RGBA pixels, one row per frame with the last frame first. Each component d is remapped by `(d + 1) * 0.5`, which lands in [0, 1] only for components in [-1, 1];
  - splits every value into the high and low byte of `int(x * 65535)`, giving two 8-bit images per stream;
  - gives the export mesh a UV layer whose u, `(i + 0.5) / V`, addresses vertex i's column.

  The operator first refuses disallowed modifier types, wrong scene units, more than 8192 vertices, and more than 8192 frames.
- **vertex_animation.py** (Unreal, the older add-on) samples every frame of `range(start, end + 1, step)`. It:
  - collects per vertex a `(dx, -dy, dz) * 100` offset and a y-flipped, remapped normal;
  - reverses the whole collection, so frames and the vertices within a frame both come out in reverse order;
  - writes the collection as RGBA values;
  - mirrors u, to `1 - (i + 0.5) / V`, so that the UV still finds the vertex.

  The operator only checks the units.
- **mesh_morpher.py** (Unreal morph targets):
  - takes the offsets of shape key 1 from the basis, and of shape key 2 or the object's pivot location;
  - packs them, by a fixed formula, into UV layers 1 to 3;
  - optionally packs shape key 1's normals, grouped into triples from a flat list, into vertex-colour layer 0.

The model is exact over `real`. Python's `int()` (truncation), `>> 8` and `& 0xFF` are written out. Frame samples and shape keys are inputs.

Modules:

- `Base`: Option, the flattening orders (`Concat`, `ConcatReversed`), `list.reverse()`, and the "add layers until there are enough" loop (`Pad`).
- `Geometry`: vectors, vertices, RGBA pixels, and Blender's flat `image.pixels` layout (`Flatten`).
- `Meshes`: UV and colour layers over fixed topology. Class `Mesh` has `uvLayers` and `colorLayers` fields that its methods update in place.
- `FrameRanges`: the scene's frame settings and Python's `range`.
- `VatBake`, `LegacyVat`, `MeshMorpher`: the three add-ons.

Every method that writes layers is proved against a function of the old layers:

- `ExportUVLayers` for `VatBake.CreateExportMeshObject`;
- `LegacyUVLayers` for `LegacyVat.PackUVs`;
- `MorphUVLayers` for `MeshMorpher.PackUVs`;
- `MorphColorLayers` for `MeshMorpher.PackVertexColors`.

Lemmas then state what those functions promise. Each UV that the add-on writes addresses the pixel that holds its vertex's data, and the packed UVs decode back to the shape-key offsets.

In the Spark AR add-on, offsets are remapped by `(d + 1) * 0.5` with no scale factor, nothing is clamped, and `FloatToBytes` keeps the 16-bit residue of the truncation. The Unreal add-on stores `(dx, -dy, dz) * 100` with no remap at all. Normals in the Spark AR add-on are not y-flipped, but the two older add-ons flip them.

## Model

| member | source | states |
|---|---|---|
| VatBake.FloatToBytes | Blender/vertex_animation.py:121-126 | both bytes lie in 0..255 for every input; `high*256 + low` is `int(x*65535)` mod 65536 (no clamp) |
| VatBake.FloatToBytesOnUnit | Blender/vertex_animation.py:121-126 | on [0,1], `high*256 + low` is floor(x*65535); 0 gives (0,0) and 1 gives (255,255) |
| VatBake.QuantizeRoundTrip | Blender/vertex_animation.py:121-126 | on [0,1] the 16-bit value over 65535 is at most x and less than 1/65535 below it |
| VatBake.WriteOutputImage | Blender/vertex_animation.py:129-137 | high and low lists have one entry per pixel; entry i is byte/255 of `float_to_bytes(pixel[i])` and lies in [0,1] |
| VatBake.ImageRoundTrip | Blender/vertex_animation.py:129-137 | recombining the two images as `(h*255*256 + l*255)/65535` recovers every [0,1] value to within 1/65535 |
| VatBake.GetVertexData | Blender/vertex_animation.py:90-104 | the offsets and normals lists are the flattened pixels of the frames' rows, last frame first |
| VatBake.AppendFrame | Blender/vertex_animation.py:96-101 | one frame appends `((dx+1)/2, (-dy+1)/2, (dz+1)/2, 1)` per vertex to the offsets and `((nx+1)/2, (ny+1)/2, (nz+1)/2, 1)` to the normals, in vertex order |
| VatBake.VertexDataAt | Blender/vertex_animation.py:92-101 | with F frames of V vertices, pixel k*V+v of both images comes from frame F-1-k, vertex v |
| VatBake.PixelsInUnit | Blender/vertex_animation.py:97-101 | an offset pixel lies in [0,1] when the displacement's components lie in [-1,1], and so does a normal pixel for a normal in [-1,1]; a displacement above 1 gives a channel above 1 |
| VatBake.VertexDataShape | Blender/vertex_animation.py:95-101 | both lists hold 4*V*F values and every fourth is 1 |
| VatBake.ReferenceRowIsNeutral | Blender/vertex_animation.py:92-99 | the last V offset pixels (frame 0 against itself) are (0.5, 0.5, 0.5, 1) |
| VatBake.ExportUVLayersSpec | Blender/vertex_animation.py:77-84 | at least two UV layers; existing layers other than 1 are kept; every loop on layer 1 gets ((vertex_index+0.5)/V, 128/255); loops sharing a vertex share the UV |
| VatBake.ExportUInside | Blender/vertex_animation.py:82-84 | every vertex's u lies strictly in (0,1), a one-vertex mesh included |
| VatBake.ExportUOrdered | Blender/vertex_animation.py:82-84 | for two vertices a < b, u lies strictly in (0,1) and strictly increases with the vertex index |
| VatBake.ExportUColumn | Blender/vertex_animation.py:82-84 | floor(u*V) is the vertex's own index |
| VatBake.ExportUVAddressesVertex | Blender/vertex_animation.py:82-84 | in every row k, the column that a vertex's u points into holds that vertex's offset and normal of frame F-1-k |
| VatBake.CreateExportMeshObject | Blender/vertex_animation.py:75-84 | the mesh's UV layers become `ExportUVLayers` of the old layers; colour layers are unchanged |
| VatBake.MeshObjects | Blender/vertex_animation.py:174 | an object is kept exactly when it is selected and is a mesh |
| VatBake.MeshObjectsMultiplicity | Blender/vertex_animation.py:174 | a mesh object is kept as often as it is selected, any other object not at all (multiset count per object) |
| VatBake.FirstDisallowedIn | Blender/vertex_animation.py:178-184 | None exactly when every modifier type of the object is on the allow-list; otherwise the type of the first modifier not on it, every earlier one being allowed |
| VatBake.FirstDisallowed | Blender/vertex_animation.py:177-184 | None exactly when every object's modifiers are on the allow-list; otherwise a disallowed type that some object has |
| VatBake.FirstDisallowedIsFirst | Blender/vertex_animation.py:177-184 | the type reported is what `FirstDisallowedIn` reports for some object, all of whose predecessors have only allowed modifiers: the first in object, then modifier, order |
| VatBake.TotalVertices | Blender/vertex_animation.py:175 | the definition of `sum(len(ob.data.vertices) for ob in objects)`; every object's vertex count is at most the sum |
| VatBake.TotalVerticesAppend | Blender/vertex_animation.py:175 | the sum over two lists of objects joined is the sum of the two sums |
| FrameRanges.Range | Blender/vertex_animation.py:108-110 | entry i is start + i*step; every entry is below stop; the next one would not be |
| VatBake.ExecuteGateAsWritten | Blender/vertex_animation.py:171-202 | proceeds exactly when modifiers are allowed, units are right, vertex_count <= 8192 and frame_count <= 8192, reporting (vertex_count, len(frame_range)); each cancel reason implies the earlier checks passed |
| VatBake.GateReportsFirstDisallowed | Blender/vertex_animation.py:177-184 | a disallowed-modifier cancel reports `FirstDisallowed` of the mesh objects, the first disallowed type in object and then modifier order |
| VatBake.SingleFrameScenePassesGate | Blender/vertex_animation.py:171-205 | witness: one selected 8-vertex mesh with no modifiers, units right, scene frames 1 to 1 step 1 passes the gate as `Proceed(8, 0)`, with an empty frame range and so nothing for `meshes[0]` |
| VatBake.ExecuteGate | Blender/vertex_animation.py:171-205 | as the source, but an empty frame range is refused: a bake proceeds only with 1..8192 frames and at most 8192 vertices |
| VatBake.Execute | Blender/vertex_animation.py:171-211 | cancels exactly when the corrected gate `ExecuteGate` does (so an empty frame range gives `Cancelled(NoFrames)`) and then leaves the export mesh unchanged; otherwise it reports texture size (vertex_count, frame_count) with 4*w*h offset values, the two streams, their byte splits, and the export mesh's UVs |
| FrameRanges.InclusiveEnd | vertex_animation.py:53 | the older add-on's `end + 1` range is the newer one's exclusive range, plus at most the end frame; with step 1 it adds the end frame |
| LegacyVat.MorphFrames | vertex_animation.py:53 | the sampled frames start at frame_start, stay within [start, end], are never empty, and with step 1 end at frame_end |
| LegacyVat.TextureSize | vertex_animation.py:139 | the texture is (export-mesh vertex count, number of sampled frames), with at least one row |
| LegacyVat.LegacyUVLayersSpec | vertex_animation.py:72-82 | at least two UV layers; only layer 1 is written; every loop gets (1 - (vertId+0.5)/numVerts, 128/255); loops sharing a vertex share the UV |
| LegacyVat.LegacyUInside | vertex_animation.py:81 | every vertex's u lies strictly in (0,1), a one-vertex mesh included |
| LegacyVat.LegacyUOrdered | vertex_animation.py:81 | for two vertices a < b, u lies strictly in (0,1) and strictly decreases with the vertex index |
| LegacyVat.LegacyUColumn | vertex_animation.py:81 | floor(u*V) is V-1-vertId |
| LegacyVat.PackPolygon | vertex_animation.py:78-82 | one polygon's corners get their mirrored address on layer 1; every other entry and the colour layers are unchanged |
| LegacyVat.PackUVs | vertex_animation.py:72-82 | the mesh's UV layers become `LegacyUVLayers` of the old layers; colour layers are unchanged |
| LegacyVat.BuildMorphData | vertex_animation.py:93-135 | the offset and normal values are the reversed collections, each entry followed by 1.0 |
| LegacyVat.MorphDataShape | vertex_animation.py:102-131 | over N collected entries, both outputs hold 4N values, every fourth is 1.0, and quadruple i is collected entry N-1-i |
| LegacyVat.MorphDataAt | vertex_animation.py:100-131 | with F morphs of V vertices, entry k*V+v comes from morph F-1-k, vertex V-1-v: offset (dx, -dy, dz)*100 and normal ((nx+1)/2, (-ny+1)/2, (nz+1)/2) |
| LegacyVat.ReferenceRowIsZero | vertex_animation.py:100-131 | the last V offset pixels (morph 0 against itself) are (0, 0, 0, 1) |
| LegacyVat.LegacyUVAddressesVertex | vertex_animation.py:81-131 | the mirrored u cancels the vertex reversal: in every row k, the column that a vertex's u points into holds that vertex's data of morph F-1-k |
| LegacyVat.Run | vertex_animation.py:150-159 | `main` finishes with the texture size, both value lists, and the export mesh's UVs as above |
| LegacyVat.Execute | vertex_animation.py:170-182 | cancels exactly when the units check fails, building nothing; otherwise it is `main` |
| MeshMorpher.BuildOffsetList | mesh_morpher.py:39-56 | exactly two lists of one entry per basis vertex; basis + first = shape key 1; basis + second = shape key 2 when the pivot option is off and there are more than 2 key blocks, otherwise every entry is the location |
| MeshMorpher.Triples | mesh_morpher.py:61 | floor(n/3) triples; triple k is (flat[3k], flat[3k+1], flat[3k+2]) |
| MeshMorpher.MorphColorLayersSpec | mesh_morpher.py:61-74 | at least one colour layer; the others are kept; unpacking any loop's colour gives back its vertex's three normal floats |
| MeshMorpher.ColorPolygon | mesh_morpher.py:71-74 | one polygon's corners get their vertex's packed normal on colour layer 0; every other entry and the UV layers are unchanged |
| MeshMorpher.PackVertexColors | mesh_morpher.py:59-74 | the mesh's colour layers become `MorphColorLayers` of the old layers; UV layers are unchanged |
| MeshMorpher.MorphUVLayers | mesh_morpher.py:83-97 | at least four layers; layers 2 and 3, and layer 1 when written, have one UV per loop |
| MeshMorpher.MorphUVLayersSpec | mesh_morpher.py:77-97 | layer 0 and layers from 4 on are kept, and so is layer 1 without a second offset; layers 2 and 3 decode to the first offset; layers 1 and 2 to the second when written; otherwise layer 2's u is 0 |
| MeshMorpher.PackPolygon | mesh_morpher.py:86-97 | one polygon's corners get the target UVs on the layers being written; every other entry and the colour layers are unchanged |
| MeshMorpher.PackCorner | mesh_morpher.py:88-97 | one corner writes layers 1-3 (or 2-3) at its loop by the source's formulas and nothing else |
| MeshMorpher.PackUVs | mesh_morpher.py:77-97 | the mesh's UV layers become `MorphUVLayers` of the old layers, with layer 1 written iff the pivot option is on or there are more than 2 key blocks |
| MeshMorpher.MorphRoundTrip | mesh_morpher.py:39-97 | decoding any corner's UVs and adding the basis gives shape key 1, and shape key 2 when stored; with the pivot option layers 1 and 2 decode to the location |
| MeshMorpher.Run | mesh_morpher.py:100-108 | `main` packs the UVs and, only when store_morph1_normals is set, the vertex colours |
| MeshMorpher.Execute | mesh_morpher.py:126-144 | units are checked first; then it cancels with "needs shape keys" exactly when there are no shape keys or fewer than 2 key blocks; on cancel the mesh is unchanged; otherwise it is `main` |
| Geometry.PackNormalRoundTrip | vertex_animation.py:105-106 | the older add-ons' normal packing is undone by the shader's unpacking and maps [-1,1] into [0,1] |
| Base.PadSpec | Blender/vertex_animation.py:77-78 | `while len(layers) < n: new()` keeps the existing layers, adds blank ones, and stops at max(len, n) |
| Base.ReverseAt | vertex_animation.py:118-119 | after `list.reverse()`, entry i is old entry len-1-i |
| Base.ConcatReversedAt | Blender/vertex_animation.py:95-101 | with uniform rows, entry k*w+v of the last-row-first concatenation is row n-1-k, entry v |
| Meshes.Mesh.SetUV | Blender/vertex_animation.py:82-84 | assigning `uv_layers[i].data[l].uv` changes that entry only |
| Meshes.Mesh.NewUVLayer | Blender/vertex_animation.py:77-78 | `uv_layers.new()` appends one blank layer |
| Meshes.Mesh.NewColorLayer | mesh_morpher.py:68-69 | `vertex_colors.new()` appends one blank (white) colour layer; the UV layers are unchanged |
| Meshes.Mesh.SetColor | mesh_morpher.py:74 | assigning `vertex_colors[i].data[l].color` changes that entry only; the UV layers are unchanged |

## Left out

- Scene evaluation is left out: frame setting, depsgraph, `evaluated_get`, `new_from_object`, `to_mesh`, bmesh merging and `calc_normals`. Its results are the `seq<Frame>` inputs.
- Object transforms are left out. `matrix_world` and the vector-times-matrix products are taken as the identity.
- The units checks are left out. `unitsOk` is a boolean input because the checks compare floats (`round(scale_length, 2)`, `== 1.0`).
- File and image I/O is left out: FBX export, `images.new`, `save_render`, `.pixels` assignment and output paths. The model stops at the value lists and their size.
- Object and mesh lifecycle is left out: linking, selecting, deleting, freeing unused meshes, layer names. These have no effect on the values.
- UI is left out: panels, `poll`, `register`/`unregister`, including the broken `del` in mesh_morpher.py's `unregister`.
- IEEE rounding is left out. Reals are exact, so only the truncation in `float_to_bytes` is modelled.
- A scene with `frame_step` 0 is left out. Python's `range` raises for step 0, and `Scene.Valid` asks for step >= 1 and start <= end, as Blender's settings keep them.
- Contents of a newly added layer are left out. A new UV layer is modelled as all (0, 0) and a new colour layer as all white; the lemmas only say that new layers are the blank one.
- Chunking, vertical tiling, padding, a minimum texture size, offset normalisation by a maximum displacement and clamping before quantising are not modelled. None of the three add-ons does them.
- VatBake.Execute: requires the sampled frames to match the gate's counts (one frame per frame of the range, `vertex_count` vertices each, and the export mesh copied from them), because sampling is not modelled. On an empty frame range it follows the corrected gate and cancels with `NoFrames`, where the source raises IndexError at `meshes[0]` (see Findings).
- VatBake.GetVertexData: requires at least one frame and no frame longer than frame 0, which the source needs for `meshes[0]` and `original[v.index]`.
- VatBake.VertexDataAt: this lemma and the other layout lemmas assume all frames have the same vertex count V. Blender does not guarantee that for meshes whose topology changes.
- LegacyVat.Execute: requires one morph per sampled frame, with the export mesh copied from morph 0 and no morph longer than morph 0, because sampling is not modelled.
- LegacyVat.BuildMorphData: requires at least one morph and no morph longer than morph 0 (`Trackable`). Without them the source raises IndexError at vertex_animation.py:100 (`morphList[0]`) and :108 (`originalVertPos[i]`), and that error path is not modelled.
- MeshMorpher.Run: requires every key block to have one position per vertex and shape key 1 to have three normal floats per vertex, which Blender guarantees for shape keys.

## Findings

| source | as written | input that shows it | evidently intended | confidence | as-written member | corrected member |
|---|---|---|---|---|---|---|
| Blender/vertex_animation.py:176-205 | `frame_count` comes from `range(start, end, step)`, which is empty when `frame_start == frame_end`; only `frame_count > 8192` is refused, so sampling produces no meshes and `meshes[0]` raises IndexError | one mesh of 8 vertices, units right, frames 1 to 1, step 1: the gate proceeds with 0 frames (VatBake.SingleFrameScenePassesGate) | refuse an empty frame range before sampling (or sample the end frame inclusively, as the older add-on does) | not executed | VatBake.ExecuteGateAsWritten | VatBake.ExecuteGate |
