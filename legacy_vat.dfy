/** The Unreal vertex-animation add-on (vertex_animation.py): it samples the
    selected meshes on every frame from start to end inclusive, collects per
    vertex a scaled offset from frame 0 and a packed normal, reverses the whole
    collection, and stores it as RGBA pixels; the export mesh gets a UV layer
    whose u, mirrored, addresses each vertex's column. */
module LegacyVat {
  import opened Base
  import opened Geometry
  import opened Meshes
  import opened FrameRanges

  // ---------------------------------------------------------------------
  // buildMorphList's frames and bakeMorphData's size

  /** `range(scene.frame_start, scene.frame_end + 1, scene.frame_step)`: the end is included. */
  function MorphFrames(scene: Scene): (frames: seq<int>)
    requires scene.Valid()
    ensures |frames| >= 1 && frames[0] == scene.frameStart
    ensures forall i :: 0 <= i < |frames| ==> scene.frameStart <= frames[i] <= scene.frameEnd
    ensures scene.frameStep == 1 ==> frames[|frames| - 1] == scene.frameEnd
  {
    var frames := Range(scene.frameStart, scene.frameEnd + 1, scene.frameStep);
    InclusiveEnd(scene.frameStart, scene.frameEnd, scene.frameStep);
    frames
  }

  /** `size` in `bakeMorphData`: one column per vertex of the export mesh, one row per sampled frame. */
  function TextureSize(exportVerts: nat, scene: Scene): (size: (nat, nat))
    requires scene.Valid()
    ensures size.0 == exportVerts && size.1 == |MorphFrames(scene)| && size.1 >= 1
  {
    (exportVerts, |MorphFrames(scene)|)
  }

  // ---------------------------------------------------------------------
  // packUVs

  /** `1.0 - (vertId + 0.5) / numVerts`: the centre of column vertId, mirrored. */
  function LegacyU(vertexIndex: nat, numVerts: nat): real
    requires vertexIndex < numVerts
  {
    1.0 - (vertexIndex as real + 0.5) / numVerts as real
  }

  const LegacyV: real := (1.0 / 255.0) * 128.0

  /** The UV layers after `packUVs`: at least two, and layer 1 holds every
      loop's mirrored vertex address. */
  function LegacyUVLayers(before: seq<seq<UV>>, loopVerts: seq<nat>, numVerts: nat): seq<seq<UV>>
    requires forall l :: 0 <= l < |loopVerts| ==> loopVerts[l] < numVerts
  {
    var padded := Pad(before, 2, BlankUVLayer(|loopVerts|));
    PadSpec(before, 2, BlankUVLayer(|loopVerts|));
    padded[1 := seq(|loopVerts|, l requires 0 <= l < |loopVerts| => UV(LegacyU(loopVerts[l], numVerts), LegacyV))]
  }

  /** At least two layers, only layer 1 written, every loop set to its vertex's
      mirrored address, so loops sharing a vertex share a UV. */
  lemma LegacyUVLayersSpec(before: seq<seq<UV>>, loopVerts: seq<nat>, numVerts: nat)
    requires forall l :: 0 <= l < |loopVerts| ==> loopVerts[l] < numVerts
    ensures var after := LegacyUVLayers(before, loopVerts, numVerts);
      && |after| == Max(|before|, 2)
      && (forall i :: 0 <= i < |before| && i != 1 ==> after[i] == before[i])
      && |after[1]| == |loopVerts|
      && (forall l :: 0 <= l < |loopVerts| ==> after[1][l] == UV(LegacyU(loopVerts[l], numVerts), LegacyV))
      && (forall l1, l2 :: 0 <= l1 < |loopVerts| && 0 <= l2 < |loopVerts| && loopVerts[l1] == loopVerts[l2] ==> after[1][l1] == after[1][l2])
  {
    PadSpec(before, 2, BlankUVLayer(|loopVerts|));
    var padded := Pad(before, 2, BlankUVLayer(|loopVerts|));
    forall i | 0 <= i < |before| && i != 1
      ensures LegacyUVLayers(before, loopVerts, numVerts)[i] == before[i]
    {
      assert padded[..|before|][i] == before[i];
    }
  }

  /** u lies strictly inside (0, 1) and falls strictly as the vertex index grows. */
  lemma LegacyUOrdered(a: nat, b: nat, numVerts: nat)
    requires a < b < numVerts
    ensures 0.0 < LegacyU(b, numVerts) < LegacyU(a, numVerts) < 1.0
  {
    var n := numVerts as real;
    assert LegacyU(a, numVerts) == 1.0 - (a as real + 0.5) / n;
    assert LegacyU(b, numVerts) == 1.0 - (b as real + 0.5) / n;
    DivideIncreasing(0.0, a as real + 0.5, n);
    assert 0.0 / n == 0.0;
    DivideIncreasing(a as real + 0.5, b as real + 0.5, n);
    DivideIncreasing(b as real + 0.5, n, n);
    assert n / n == 1.0;
  }

  /** u lies strictly inside (0, 1) for every vertex, a mesh of one vertex included. */
  lemma LegacyUInside(vertexIndex: nat, numVerts: nat)
    requires vertexIndex < numVerts
    ensures 0.0 < LegacyU(vertexIndex, numVerts) < 1.0
  {
    var n := numVerts as real;
    assert LegacyU(vertexIndex, numVerts) == 1.0 - (vertexIndex as real + 0.5) / n;
    DivideIncreasing(0.0, vertexIndex as real + 0.5, n);
    assert 0.0 / n == 0.0;
    DivideIncreasing(vertexIndex as real + 0.5, n, n);
    assert n / n == 1.0;
  }

  /** The pixel column u points into, in an image V pixels wide, is V-1-vertexIndex. */
  lemma LegacyUColumn(vertexIndex: nat, numVerts: nat)
    requires vertexIndex < numVerts
    ensures (LegacyU(vertexIndex, numVerts) * numVerts as real).Floor == numVerts - 1 - vertexIndex
  {
    var n := numVerts as real;
    assert (vertexIndex as real + 0.5) / n * n == vertexIndex as real + 0.5;
    assert LegacyU(vertexIndex, numVerts) * n == n - vertexIndex as real - 0.5;
  }

  /** `packUVs` */
  method PackUVs(mesh: Mesh)
    requires mesh.Valid()
    modifies mesh
    ensures mesh.Valid()
    ensures mesh.uvLayers == LegacyUVLayers(old(mesh.uvLayers), mesh.loopVerts, mesh.numVerts)
    ensures mesh.colorLayers == old(mesh.colorLayers)
  {
    var numVerts := mesh.numVerts;
    ghost var start := mesh.uvLayers;
    ghost var blank := BlankUVLayer(|mesh.loopVerts|);
    while |mesh.uvLayers| < 2
      invariant mesh.Valid() && mesh.colorLayers == old(mesh.colorLayers)
      invariant Pad(mesh.uvLayers, 2, blank) == Pad(start, 2, blank)
      decreases 2 - |mesh.uvLayers|
    {
      mesh.NewUVLayer();
    }
    ghost var padded := mesh.uvLayers;
    ghost var written: set<nat> := {};
    var p := 0;
    while p < |mesh.polygons|
      invariant 0 <= p <= |mesh.polygons|
      invariant mesh.Valid() && mesh.colorLayers == old(mesh.colorLayers)
      invariant written == LoopsOf(mesh.polygons[..p])
      invariant LegacyUVsWritten(mesh.uvLayers, padded, mesh.loopVerts, numVerts, written)
    {
      var poly := mesh.polygons[p];
      assert PolygonFits(poly, mesh.loopVerts);
      PackPolygon(mesh, poly, padded, written);
      LoopsOfStep(mesh.polygons, p);
      written := written + CornerLoops(poly.loopIndices);
      p := p + 1;
    }
    assert mesh.polygons[..p] == mesh.polygons;
    ghost var after := LegacyUVLayers(start, mesh.loopVerts, numVerts);
    assert mesh.uvLayers[1] == after[1];
    assert mesh.uvLayers == after;
  }

  /** The state of the polygon loop in `packUVs`: the loops in `written` hold
      their mirrored address on layer 1, every other entry is as padded. */
  ghost predicate LegacyUVsWritten(layers: seq<seq<UV>>, padded: seq<seq<UV>>, loopVerts: seq<nat>,
                                   numVerts: nat, written: set<nat>)
    requires forall l :: 0 <= l < |loopVerts| ==> loopVerts[l] < numVerts
  {
    && |layers| == |padded| >= 2
    && (forall i :: 0 <= i < |padded| && i != 1 ==> layers[i] == padded[i])
    && |layers[1]| == |padded[1]| == |loopVerts|
    && forall l :: 0 <= l < |loopVerts| ==>
         layers[1][l] == if l in written then UV(LegacyU(loopVerts[l], numVerts), LegacyV) else padded[1][l]
  }

  /** The body of the polygon loop in `packUVs`: every corner of one polygon. */
  method PackPolygon(mesh: Mesh, poly: Polygon, ghost padded: seq<seq<UV>>, ghost written: set<nat>)
    requires mesh.Valid() && PolygonFits(poly, mesh.loopVerts)
    requires LegacyUVsWritten(mesh.uvLayers, padded, mesh.loopVerts, mesh.numVerts, written)
    modifies mesh
    ensures mesh.Valid() && mesh.colorLayers == old(mesh.colorLayers)
    ensures LegacyUVsWritten(mesh.uvLayers, padded, mesh.loopVerts, mesh.numVerts, written + CornerLoops(poly.loopIndices))
  {
    var numVerts := mesh.numVerts;
    ghost var done := written;
    var j := 0;
    while j < |poly.vertices|
      invariant 0 <= j <= |poly.vertices|
      invariant mesh.Valid() && mesh.colorLayers == old(mesh.colorLayers)
      invariant done == written + CornerLoops(poly.loopIndices[..j])
      invariant LegacyUVsWritten(mesh.uvLayers, padded, mesh.loopVerts, numVerts, done)
    {
      var vertId, loopId := poly.vertices[j], poly.loopIndices[j];
      var currentPos := 1.0 - (vertId as real + 0.5) / numVerts as real;
      mesh.SetUV(1, loopId, UV(currentPos, (1.0 / 255.0) * 128.0));
      CornerLoopsStep(poly.loopIndices, j);
      done := done + {loopId};
      j := j + 1;
    }
    assert poly.loopIndices[..j] == poly.loopIndices;
  }

  // ---------------------------------------------------------------------
  // buildMorphData

  /** `-1.0 * y` of the offset from frame 0, then `* 100.0`: no remapping into [0, 1]. */
  function MorphOffset(co: Vec3, original: Vec3): Vec3
  {
    var d := Sub(co, original);
    Scale(Vec3(d.x, -1.0 * d.y, d.z), 100.0)
  }

  /** The offsets each morph contributes, in collection order. */
  function OffsetRows(morphList: seq<Frame>): seq<seq<Vec3>>
    requires Trackable(morphList)
  {
    seq(|morphList|, k requires 0 <= k < |morphList| =>
      seq(|morphList[k]|, i requires 0 <= i < |morphList[k]| => MorphOffset(morphList[k][i].co, morphList[0][i].co)))
  }

  /** The packed normals each morph contributes, in collection order. */
  function NormalRows(morphList: seq<Frame>): seq<seq<Vec3>>
  {
    seq(|morphList|, k requires 0 <= k < |morphList| =>
      seq(|morphList[k]|, i requires 0 <= i < |morphList[k]| => PackNormal(morphList[k][i].normal)))
  }

  /** `offsetVertPos` after `.reverse()`. */
  function MorphOffsets(morphList: seq<Frame>): seq<Vec3>
    requires Trackable(morphList)
  {
    Reverse(Concat(OffsetRows(morphList)))
  }

  /** `morphNormals` after `.reverse()`. */
  function MorphNormals(morphList: seq<Frame>): seq<Vec3>
  {
    Reverse(Concat(NormalRows(morphList)))
  }

  /** Each vector with an alpha of 1 appended. */
  function Pixels(vs: seq<Vec3>): (ps: seq<Rgba>)
    ensures |ps| == |vs|
  {
    seq(|vs|, i requires 0 <= i < |vs| => Opaque(vs[i]))
  }

  /** One more opaque pixel appends the vector's three components and a 1. */
  lemma PixelsStep(vs: seq<Vec3>, i: nat)
    requires i < |vs|
    ensures Flatten(Pixels(vs)[..i + 1]) == Flatten(Pixels(vs)[..i]) + [vs[i].x, vs[i].y, vs[i].z] + [1.0]
  {
    assert Pixels(vs)[..i + 1] == Pixels(vs)[..i] + [Opaque(vs[i])];
    FlattenSnoc(Pixels(vs)[..i], Opaque(vs[i]));
  }

  /** Both collections have one entry per vertex of every morph. */
  lemma {:induction false} RowsLength(morphList: seq<Frame>, k: nat)
    requires Trackable(morphList) && k <= |morphList|
    ensures |Concat(OffsetRows(morphList)[..k])| == |Concat(NormalRows(morphList)[..k])|
  {
    if k > 0 {
      RowsLength(morphList, k - 1);
      ConcatStep(OffsetRows(morphList), k - 1);
      ConcatStep(NormalRows(morphList), k - 1);
    }
  }

  /** `buildMorphData`: nested loops collect, both lists are reversed in place,
      then every entry becomes a quadruple ending in 1.0. */
  method BuildMorphData(morphList: seq<Frame>) returns (offsetValues: seq<real>, normalValues: seq<real>)
    requires Trackable(morphList)
    ensures offsetValues == Flatten(Pixels(MorphOffsets(morphList)))
    ensures normalValues == Flatten(Pixels(MorphNormals(morphList)))
  {
    ghost var offsetRows, normalRows := OffsetRows(morphList), NormalRows(morphList);
    var offsetVertPos: seq<Vec3> := [];
    var morphNormals: seq<Vec3> := [];
    var original := morphList[0];
    var k := 0;
    while k < |morphList|
      invariant 0 <= k <= |morphList|
      invariant offsetVertPos == Concat(offsetRows[..k])
      invariant morphNormals == Concat(normalRows[..k])
    {
      var morph := morphList[k];
      ghost var offsetDone, normalDone := offsetVertPos, morphNormals;
      var i := 0;
      while i < |morph|
        invariant 0 <= i <= |morph|
        invariant offsetVertPos == offsetDone + offsetRows[k][..i]
        invariant morphNormals == normalDone + normalRows[k][..i]
      {
        var n := morph[i].normal;
        var currentNormal := Vec3((n.x + 1.0) * 0.5, ((n.y * -1.0) + 1.0) * 0.5, (n.z + 1.0) * 0.5);
        ExtendByOne(normalDone, normalRows[k], i);
        morphNormals := morphNormals + [currentNormal];
        var d := Sub(morph[i].co, original[i].co);
        var currentVertPos := Vec3(d.x, -1.0 * d.y, d.z);
        ExtendByOne(offsetDone, offsetRows[k], i);
        offsetVertPos := offsetVertPos + [Scale(currentVertPos, 100.0)];
        i := i + 1;
      }
      assert offsetRows[k][..i] == offsetRows[k] && normalRows[k][..i] == normalRows[k];
      ConcatStep(offsetRows, k);
      ConcatStep(normalRows, k);
      k := k + 1;
    }
    assert offsetRows[..k] == offsetRows && normalRows[..k] == normalRows;
    RowsLength(morphList, k);
    morphNormals := Reverse(morphNormals);
    offsetVertPos := Reverse(offsetVertPos);
    offsetValues, normalValues := [], [];
    var i := 0;
    while i < |morphNormals|
      invariant 0 <= i <= |morphNormals| == |offsetVertPos|
      invariant normalValues == Flatten(Pixels(morphNormals)[..i])
      invariant offsetValues == Flatten(Pixels(offsetVertPos)[..i])
    {
      var normal, offset := morphNormals[i], offsetVertPos[i];
      PixelsStep(morphNormals, i);
      PixelsStep(offsetVertPos, i);
      normalValues := normalValues + [normal.x, normal.y, normal.z] + [1.0];
      offsetValues := offsetValues + [offset.x, offset.y, offset.z] + [1.0];
      i := i + 1;
    }
    assert Pixels(morphNormals)[..i] == Pixels(morphNormals);
    assert Pixels(offsetVertPos)[..i] == Pixels(offsetVertPos);
  }

  /** With N collected entries in all, both outputs hold 4N values, quadruple i
      is collected entry N-1-i, and every fourth value is 1. */
  lemma MorphDataShape(morphList: seq<Frame>, i: nat)
    requires Trackable(morphList)
    ensures var n := |Concat(OffsetRows(morphList))|;
      && |Concat(NormalRows(morphList))| == n
      && |Flatten(Pixels(MorphOffsets(morphList)))| == 4 * n
      && |Flatten(Pixels(MorphNormals(morphList)))| == 4 * n
    ensures forall j :: 0 <= j < |Flatten(Pixels(MorphOffsets(morphList)))| && j % 4 == 3 ==> Flatten(Pixels(MorphOffsets(morphList)))[j] == 1.0
    ensures forall j :: 0 <= j < |Flatten(Pixels(MorphNormals(morphList)))| && j % 4 == 3 ==> Flatten(Pixels(MorphNormals(morphList)))[j] == 1.0
    ensures i < |Concat(OffsetRows(morphList))| ==>
      && Pixels(MorphOffsets(morphList))[i] == Opaque(Concat(OffsetRows(morphList))[|Concat(OffsetRows(morphList))| - 1 - i])
      && Pixels(MorphNormals(morphList))[i] == Opaque(Concat(NormalRows(morphList))[|Concat(NormalRows(morphList))| - 1 - i])
  {
    RowsLength(morphList, |morphList|);
    assert OffsetRows(morphList)[..|morphList|] == OffsetRows(morphList);
    assert NormalRows(morphList)[..|morphList|] == NormalRows(morphList);
    FlattenLength(Pixels(MorphOffsets(morphList)));
    FlattenLength(Pixels(MorphNormals(morphList)));
    FlattenAlpha(Pixels(MorphOffsets(morphList)));
    FlattenAlpha(Pixels(MorphNormals(morphList)));
    if i < |Concat(OffsetRows(morphList))| {
      ReverseAt(Concat(OffsetRows(morphList)), i);
      ReverseAt(Concat(NormalRows(morphList)), i);
    }
  }

  /** With F morphs of V vertices: entry k*V + v of both reversed lists comes
      from morph F-1-k, vertex V-1-v; frame order and vertex order are both reversed. */
  lemma MorphDataAt(morphList: seq<Frame>, vertexCount: nat, k: nat, v: nat)
    requires |morphList| >= 1 && forall f :: 0 <= f < |morphList| ==> |morphList[f]| == vertexCount
    requires k < |morphList| && v < vertexCount
    ensures |MorphOffsets(morphList)| == |morphList| * vertexCount == |MorphNormals(morphList)|
    ensures k * vertexCount + v < |morphList| * vertexCount
    ensures var f, w := |morphList| - 1 - k, vertexCount - 1 - v;
      && MorphOffsets(morphList)[k * vertexCount + v] == MorphOffset(morphList[f][w].co, morphList[0][w].co)
      && MorphNormals(morphList)[k * vertexCount + v] == PackNormal(morphList[f][w].normal)
  {
    var n, f, w := |morphList|, |morphList| - 1 - k, vertexCount - 1 - v;
    var offsetRows, normalRows := OffsetRows(morphList), NormalRows(morphList);
    assert Uniform(offsetRows, vertexCount) && Uniform(normalRows, vertexCount);
    RowInside(k, v, n, vertexCount);
    ConcatAt(offsetRows, vertexCount, f, w);
    ConcatAt(normalRows, vertexCount, f, w);
    assert n * vertexCount - 1 - (k * vertexCount + v) == f * vertexCount + w by {
      assert n * vertexCount == (f + 1 + k) * vertexCount;
    }
    ReverseAt(Concat(offsetRows), k * vertexCount + v);
    ReverseAt(Concat(normalRows), k * vertexCount + v);
  }

  /** The last row of the offset texture is morph 0 against itself: all zero. */
  lemma ReferenceRowIsZero(morphList: seq<Frame>, vertexCount: nat, v: nat)
    requires |morphList| >= 1 && forall f :: 0 <= f < |morphList| ==> |morphList[f]| == vertexCount
    requires v < vertexCount
    ensures (|morphList| - 1) * vertexCount + v < |MorphOffsets(morphList)|
    ensures Pixels(MorphOffsets(morphList))[(|morphList| - 1) * vertexCount + v] == Rgba(0.0, 0.0, 0.0, 1.0)
  {
    MorphDataAt(morphList, vertexCount, |morphList| - 1, v);
  }

  /** The mirrored u and the reversed vertex order cancel: in every row k, the
      column a vertex's u points into holds that vertex's data of morph F-1-k. */
  lemma LegacyUVAddressesVertex(morphList: seq<Frame>, vertexCount: nat, k: nat, vertexIndex: nat)
    requires |morphList| >= 1 && forall f :: 0 <= f < |morphList| ==> |morphList[f]| == vertexCount
    requires k < |morphList| && vertexIndex < vertexCount
    ensures (LegacyU(vertexIndex, vertexCount) * vertexCount as real).Floor == vertexCount - 1 - vertexIndex
    ensures k * vertexCount + (vertexCount - 1 - vertexIndex) < |MorphOffsets(morphList)| == |MorphNormals(morphList)|
    ensures var column := (LegacyU(vertexIndex, vertexCount) * vertexCount as real).Floor;
      && MorphOffsets(morphList)[k * vertexCount + column]
         == MorphOffset(morphList[|morphList| - 1 - k][vertexIndex].co, morphList[0][vertexIndex].co)
      && MorphNormals(morphList)[k * vertexCount + column] == PackNormal(morphList[|morphList| - 1 - k][vertexIndex].normal)
  {
    LegacyUColumn(vertexIndex, vertexCount);
    MorphDataAt(morphList, vertexCount, k, vertexCount - 1 - vertexIndex);
  }

  // ---------------------------------------------------------------------
  // main and UT_ProcessMeshesOperator.execute

  /** The samples the host hands over: one morph per frame of the range, export
      mesh copied from morph 0, and no morph with a vertex morph 0 lacks. */
  predicate SamplesFit(scene: Scene, morphList: seq<Frame>, numVerts: nat)
    requires scene.Valid()
  {
    && |morphList| == |MorphFrames(scene)|
    && |morphList[0]| == numVerts
    && forall k :: 0 <= k < |morphList| ==> |morphList[k]| <= numVerts
  }

  datatype LegacyOutcome =
    | Cancelled
    | Finished(width: nat, height: nat, offsetValues: seq<real>, normalValues: seq<real>)

  /** `main`: UVs on the export mesh, the morph data, and the texture size. */
  method Run(scene: Scene, morphList: seq<Frame>, exportMesh: Mesh) returns (outcome: LegacyOutcome)
    requires scene.Valid() && exportMesh.Valid() && SamplesFit(scene, morphList, exportMesh.numVerts)
    modifies exportMesh
    ensures outcome.Finished?
    ensures (outcome.width, outcome.height) == TextureSize(exportMesh.numVerts, scene)
    ensures outcome.offsetValues == Flatten(Pixels(MorphOffsets(morphList)))
    ensures outcome.normalValues == Flatten(Pixels(MorphNormals(morphList)))
    ensures exportMesh.uvLayers == LegacyUVLayers(old(exportMesh.uvLayers), exportMesh.loopVerts, exportMesh.numVerts)
    ensures exportMesh.colorLayers == old(exportMesh.colorLayers)
  {
    PackUVs(exportMesh);
    var offsetValues, normalValues := BuildMorphData(morphList);
    var size := TextureSize(exportMesh.numVerts, scene);
    outcome := Finished(size.0, size.1, offsetValues, normalValues);
  }

  /** `execute`: `main` runs only when `unitsOk` (Metric, scale 1.0); otherwise nothing is built. */
  method Execute(unitsOk: bool, scene: Scene, morphList: seq<Frame>, exportMesh: Mesh) returns (outcome: LegacyOutcome)
    requires scene.Valid() && exportMesh.Valid() && SamplesFit(scene, morphList, exportMesh.numVerts)
    modifies exportMesh
    ensures outcome.Cancelled? <==> !unitsOk
    ensures outcome.Cancelled? ==> unchanged(exportMesh)
    ensures outcome.Finished? ==>
      && (outcome.width, outcome.height) == TextureSize(exportMesh.numVerts, scene)
      && outcome.offsetValues == Flatten(Pixels(MorphOffsets(morphList)))
      && outcome.normalValues == Flatten(Pixels(MorphNormals(morphList)))
      && exportMesh.uvLayers == LegacyUVLayers(old(exportMesh.uvLayers), exportMesh.loopVerts, exportMesh.numVerts)
      && exportMesh.colorLayers == old(exportMesh.colorLayers)
  {
    if !unitsOk {
      return Cancelled;
    }
    outcome := Run(scene, morphList, exportMesh);
  }
}
