/** The Unreal morph-target packer (mesh_morpher.py): it stores the offsets of
    one or two shape keys from the basis (or the object's pivot location in
    place of the second) in UV layers 1 to 3, and optionally the first shape
    key's normals in vertex-colour layer 0. */
module MeshMorpher {
  import opened Base
  import opened Geometry
  import opened Meshes

  /** A shape key block: `data[i].co` per vertex and `normals_vertex_get()`, a
      flat list of three floats per vertex. */
  datatype KeyBlock = KeyBlock(co: seq<Vec3>, vertexNormals: seq<real>)

  /** `store_morph1_normals` and `store_pivot_location`. */
  datatype Props = Props(storeMorph1Normals: bool, storePivotLocation: bool)

  /** The second offset list holds the second shape key (not the pivot). */
  predicate SecondIsShapeKey(props: Props, keyBlocks: seq<KeyBlock>)
  {
    !props.storePivotLocation && |keyBlocks| > 2
  }

  /** `packUVs` writes the second offset list (into layers 1 and 2). */
  predicate WritesSecondOffset(props: Props, keyBlocks: seq<KeyBlock>)
  {
    props.storePivotLocation || |keyBlocks| > 2
  }

  /** Every key block has one position per vertex of the basis. */
  predicate KeyBlocksAligned(keyBlocks: seq<KeyBlock>)
  {
    |keyBlocks| >= 2 && forall k :: 0 <= k < |keyBlocks| ==> |keyBlocks[k].co| == |keyBlocks[0].co|
  }

  // ---------------------------------------------------------------------
  // buildOffsetList

  /** `buildOffsetList`: shape key 1 minus the basis, then shape key 2 minus the
      basis or `obj.location` once per vertex. */
  function BuildOffsetList(keyBlocks: seq<KeyBlock>, location: Vec3, props: Props): (offsetList: seq<seq<Vec3>>)
    requires KeyBlocksAligned(keyBlocks)
    ensures |offsetList| == 2
    ensures |offsetList[0]| == |keyBlocks[0].co| && |offsetList[1]| == |keyBlocks[0].co|
    ensures forall i :: 0 <= i < |keyBlocks[0].co| ==> Add(keyBlocks[0].co[i], offsetList[0][i]) == keyBlocks[1].co[i]
    ensures SecondIsShapeKey(props, keyBlocks) ==>
      forall i :: 0 <= i < |keyBlocks[0].co| ==> Add(keyBlocks[0].co[i], offsetList[1][i]) == keyBlocks[2].co[i]
    ensures !SecondIsShapeKey(props, keyBlocks) ==>
      forall i :: 0 <= i < |keyBlocks[0].co| ==> offsetList[1][i] == location
  {
    var original := keyBlocks[0].co;
    var target1 := keyBlocks[1].co;
    var vertOffset1 := seq(|original|, i requires 0 <= i < |original| => Sub(target1[i], original[i]));
    var vertOffset2 :=
      if SecondIsShapeKey(props, keyBlocks) then
        var target2 := keyBlocks[2].co;
        seq(|original|, i requires 0 <= i < |original| => Sub(target2[i], original[i]))
      else
        seq(|original|, i => location);
    [vertOffset1, vertOffset2]
  }

  // ---------------------------------------------------------------------
  // packVertexColors

  /** `zip(*(iter(flat),) * 3)`: consecutive triples, any one or two trailing values dropped. */
  function Triples(flat: seq<real>): (triples: seq<Vec3>)
    ensures |triples| == |flat| / 3
    ensures forall k :: 0 <= k < |triples| ==> triples[k] == Vec3(flat[3 * k], flat[3 * k + 1], flat[3 * k + 2])
    decreases |flat|
  {
    if |flat| < 3 then []
    else
      var rest := Triples(flat[3..]);
      assert forall k :: 1 <= k < |rest| + 1 ==> 3 * k == 3 * (k - 1) + 3;
      [Vec3(flat[0], flat[1], flat[2])] + rest
  }

  /** A packed normal as a vertex colour. */
  function ToColor(v: Vec3): Color { Color(v.x, v.y, v.z) }

  /** The colour layers after `packVertexColors`: at least one, and layer 0 gives
      every loop its vertex's packed normal. */
  function MorphColorLayers(before: seq<seq<Color>>, loopVerts: seq<nat>, flatNormals: seq<real>): seq<seq<Color>>
    requires forall l :: 0 <= l < |loopVerts| ==> loopVerts[l] < |flatNormals| / 3
  {
    var normals := Triples(flatNormals);
    var padded := Pad(before, 1, BlankColorLayer(|loopVerts|));
    PadSpec(before, 1, BlankColorLayer(|loopVerts|));
    padded[0 := seq(|loopVerts|, l requires 0 <= l < |loopVerts| => ToColor(PackNormal(normals[loopVerts[l]])))]
  }

  /** At least one colour layer, the others kept, and unpacking the colour of
      any loop gives back the three floats of its vertex's normal. */
  lemma MorphColorLayersSpec(before: seq<seq<Color>>, loopVerts: seq<nat>, flatNormals: seq<real>)
    requires forall l :: 0 <= l < |loopVerts| ==> loopVerts[l] < |flatNormals| / 3
    ensures var after := MorphColorLayers(before, loopVerts, flatNormals);
      && |after| == Max(|before|, 1)
      && (forall i :: 1 <= i < |before| ==> after[i] == before[i])
      && |after[0]| == |loopVerts|
      && forall l :: 0 <= l < |loopVerts| ==>
           var c, v := after[0][l], loopVerts[l];
           UnpackNormal(Vec3(c.r, c.g, c.b)) == Vec3(flatNormals[3 * v], flatNormals[3 * v + 1], flatNormals[3 * v + 2])
  {
    PadSpec(before, 1, BlankColorLayer(|loopVerts|));
    var padded := Pad(before, 1, BlankColorLayer(|loopVerts|));
    var after := MorphColorLayers(before, loopVerts, flatNormals);
    forall i | 1 <= i < |before|
      ensures after[i] == before[i]
    {
      assert padded[..|before|][i] == before[i];
    }
    forall l | 0 <= l < |loopVerts|
      ensures UnpackNormal(Vec3(after[0][l].r, after[0][l].g, after[0][l].b))
        == Vec3(flatNormals[3 * loopVerts[l]], flatNormals[3 * loopVerts[l] + 1], flatNormals[3 * loopVerts[l] + 2])
    {
      PackNormalRoundTrip(Triples(flatNormals)[loopVerts[l]]);
    }
  }

  /** `packVertexColors`: remap the triples in place, make sure there is a colour
      layer, then colour every polygon corner with its vertex's normal. */
  method PackVertexColors(mesh: Mesh, flatNormals: seq<real>)
    requires mesh.Valid() && mesh.numVerts <= |flatNormals| / 3
    modifies mesh
    ensures mesh.Valid()
    ensures mesh.colorLayers == MorphColorLayers(old(mesh.colorLayers), mesh.loopVerts, flatNormals)
    ensures mesh.uvLayers == old(mesh.uvLayers)
  {
    var morphNormals := Triples(flatNormals);
    ghost var triples := morphNormals;
    var id := 0;
    while id < |morphNormals|
      invariant 0 <= id <= |morphNormals| == |triples|
      invariant forall k :: 0 <= k < |triples| ==> morphNormals[k] == if k < id then PackNormal(triples[k]) else triples[k]
    {
      var currentNormal := morphNormals[id];
      currentNormal := Vec3((currentNormal.x + 1.0) * 0.5, ((currentNormal.y * -1.0) + 1.0) * 0.5, (currentNormal.z + 1.0) * 0.5);
      morphNormals := morphNormals[id := currentNormal];
      id := id + 1;
    }
    ghost var start := mesh.colorLayers;
    ghost var blank := BlankColorLayer(|mesh.loopVerts|);
    while |mesh.colorLayers| < 1
      invariant mesh.Valid() && mesh.uvLayers == old(mesh.uvLayers)
      invariant Pad(mesh.colorLayers, 1, blank) == Pad(start, 1, blank)
      decreases 1 - |mesh.colorLayers|
    {
      mesh.NewColorLayer();
    }
    ghost var padded := mesh.colorLayers;
    ghost var written: set<nat> := {};
    var p := 0;
    while p < |mesh.polygons|
      invariant 0 <= p <= |mesh.polygons|
      invariant mesh.Valid() && mesh.uvLayers == old(mesh.uvLayers)
      invariant written == LoopsOf(mesh.polygons[..p])
      invariant ColorsWritten(mesh.colorLayers, padded, mesh.loopVerts, morphNormals, written)
    {
      var poly := mesh.polygons[p];
      assert PolygonFits(poly, mesh.loopVerts);
      ColorPolygon(mesh, poly, morphNormals, padded, written);
      LoopsOfStep(mesh.polygons, p);
      written := written + CornerLoops(poly.loopIndices);
      p := p + 1;
    }
    assert mesh.polygons[..p] == mesh.polygons;
    ghost var after := MorphColorLayers(start, mesh.loopVerts, flatNormals);
    assert mesh.colorLayers[0] == after[0];
    assert mesh.colorLayers == after;
  }

  /** The state of the polygon loop in `packVertexColors`: the loops in
      `written` hold their vertex's packed normal on layer 0, every other entry
      is as padded. */
  ghost predicate ColorsWritten(layers: seq<seq<Color>>, padded: seq<seq<Color>>, loopVerts: seq<nat>,
                                packed: seq<Vec3>, written: set<nat>)
    requires forall l :: 0 <= l < |loopVerts| ==> loopVerts[l] < |packed|
  {
    && |layers| == |padded| >= 1
    && (forall i :: 1 <= i < |padded| ==> layers[i] == padded[i])
    && |layers[0]| == |padded[0]| == |loopVerts|
    && forall l :: 0 <= l < |loopVerts| ==>
         layers[0][l] == if l in written then ToColor(packed[loopVerts[l]]) else padded[0][l]
  }

  /** The body of the polygon loop in `packVertexColors`: every corner of one polygon. */
  method ColorPolygon(mesh: Mesh, poly: Polygon, morphNormals: seq<Vec3>,
                      ghost padded: seq<seq<Color>>, ghost written: set<nat>)
    requires mesh.Valid() && PolygonFits(poly, mesh.loopVerts) && mesh.numVerts <= |morphNormals|
    requires ColorsWritten(mesh.colorLayers, padded, mesh.loopVerts, morphNormals, written)
    modifies mesh
    ensures mesh.Valid() && mesh.uvLayers == old(mesh.uvLayers)
    ensures ColorsWritten(mesh.colorLayers, padded, mesh.loopVerts, morphNormals, written + CornerLoops(poly.loopIndices))
  {
    ghost var done := written;
    var j := 0;
    while j < |poly.vertices|
      invariant 0 <= j <= |poly.vertices|
      invariant mesh.Valid() && mesh.uvLayers == old(mesh.uvLayers)
      invariant done == written + CornerLoops(poly.loopIndices[..j])
      invariant ColorsWritten(mesh.colorLayers, padded, mesh.loopVerts, morphNormals, done)
    {
      var vertId, loopId := poly.vertices[j], poly.loopIndices[j];
      var normal := morphNormals[vertId];
      mesh.SetColor(0, loopId, Color(normal.x, normal.y, normal.z));
      CornerLoopsStep(poly.loopIndices, j);
      done := done + {loopId};
      j := j + 1;
    }
    assert poly.loopIndices[..j] == poly.loopIndices;
  }

  // ---------------------------------------------------------------------
  // packUVs

  /** Layer 1 when the second offset is written: `(o2.x, 1 - (o2.y * -1))`. */
  function Layer1UV(o2: Vec3): UV { UV(o2.x, 1.0 - (o2.y * -1.0)) }

  /** Layer 2: `(o2.z, 1 - o1.x)`, or `(0, 1 - o1.x)` without a second offset. */
  function Layer2UV(o1: Vec3, o2: Vec3, second: bool): UV
  {
    if second then UV(o2.z, 1.0 - o1.x) else UV(0.0, 1.0 - o1.x)
  }

  /** Layer 3: `(o1.y * -1, 1 - o1.z)`. */
  function Layer3UV(o1: Vec3): UV { UV(o1.y * -1.0, 1.0 - o1.z) }

  /** The UV layers after `packUVs`: at least four; layers 2 and 3 always
      written, layer 1 only when `second` holds, layer 0 and layers from 4 on never. */
  function MorphUVLayers(before: seq<seq<UV>>, loopVerts: seq<nat>, o1: seq<Vec3>, o2: seq<Vec3>, second: bool): (after: seq<seq<UV>>)
    requires forall l :: 0 <= l < |loopVerts| ==> loopVerts[l] < |o1| && loopVerts[l] < |o2|
    ensures |after| == Max(|before|, 4)
    ensures |after[2]| == |loopVerts| && |after[3]| == |loopVerts|
    ensures second ==> |after[1]| == |loopVerts|
  {
    var n := |loopVerts|;
    var padded := Pad(before, 4, BlankUVLayer(n));
    PadSpec(before, 4, BlankUVLayer(n));
    var layer2 := seq(n, l requires 0 <= l < n => Layer2UV(o1[loopVerts[l]], o2[loopVerts[l]], second));
    var layer3 := seq(n, l requires 0 <= l < n => Layer3UV(o1[loopVerts[l]]));
    if second then
      padded[1 := seq(n, l requires 0 <= l < n => Layer1UV(o2[loopVerts[l]]))][2 := layer2][3 := layer3]
    else
      padded[2 := layer2][3 := layer3]
  }

  /** What a material reads back for the first morph from layers 2 and 3. */
  function DecodeMorph1(uv2: UV, uv3: UV): Vec3
  {
    Vec3(1.0 - uv2.v, -uv3.u, 1.0 - uv3.v)
  }

  /** What a material reads back for the second morph (or pivot) from layers 1 and 2. */
  function DecodeMorph2(uv1: UV, uv2: UV): Vec3
  {
    Vec3(uv1.u, uv1.v - 1.0, uv2.u)
  }

  /** At least four layers; layer 0 and layers from 4 on are kept, and so is
      layer 1 unless `second`; decoding any loop's UVs gives back its vertex's
      first offset, and its second offset when `second`. */
  lemma MorphUVLayersSpec(before: seq<seq<UV>>, loopVerts: seq<nat>, o1: seq<Vec3>, o2: seq<Vec3>, second: bool)
    requires forall l :: 0 <= l < |loopVerts| ==> loopVerts[l] < |o1| && loopVerts[l] < |o2|
    ensures var after := MorphUVLayers(before, loopVerts, o1, o2, second);
      && |after| == Max(|before|, 4)
      && (forall i :: 0 <= i < |before| && (i == 0 || i >= 4 || (i == 1 && !second)) ==> after[i] == before[i])
      && (forall l :: 0 <= l < |loopVerts| ==> DecodeMorph1(after[2][l], after[3][l]) == o1[loopVerts[l]])
      && (second ==> forall l :: 0 <= l < |loopVerts| ==> DecodeMorph2(after[1][l], after[2][l]) == o2[loopVerts[l]])
      && (!second ==> forall l :: 0 <= l < |loopVerts| ==> after[2][l].u == 0.0)
  {
    var n := |loopVerts|;
    PadSpec(before, 4, BlankUVLayer(n));
    var padded := Pad(before, 4, BlankUVLayer(n));
    var after := MorphUVLayers(before, loopVerts, o1, o2, second);
    forall i | 0 <= i < |before| && (i == 0 || i >= 4 || (i == 1 && !second))
      ensures after[i] == before[i]
    {
      assert padded[..|before|][i] == before[i];
    }
  }

  /** `packUVs`: make sure there are four UV layers, then write layers 1 to 3 of
      every polygon corner from its vertex's offsets. */
  method PackUVs(mesh: Mesh, offsetList: seq<seq<Vec3>>, props: Props, keyBlockCount: nat)
    requires mesh.Valid()
    requires |offsetList| == 2 && mesh.numVerts <= |offsetList[0]| && mesh.numVerts <= |offsetList[1]|
    modifies mesh
    ensures mesh.Valid()
    ensures mesh.uvLayers == MorphUVLayers(old(mesh.uvLayers), mesh.loopVerts, offsetList[0], offsetList[1],
                                           props.storePivotLocation || keyBlockCount > 2)
    ensures mesh.colorLayers == old(mesh.colorLayers)
  {
    var vertOffset1, vertOffset2 := offsetList[0], offsetList[1];
    var second := props.storePivotLocation || keyBlockCount > 2;
    ghost var start := mesh.uvLayers;
    ghost var blank := BlankUVLayer(|mesh.loopVerts|);
    while |mesh.uvLayers| < 4
      invariant mesh.Valid() && mesh.colorLayers == old(mesh.colorLayers)
      invariant Pad(mesh.uvLayers, 4, blank) == Pad(start, 4, blank)
      decreases 4 - |mesh.uvLayers|
    {
      mesh.NewUVLayer();
    }
    ghost var padded := mesh.uvLayers;
    ghost var written: set<nat> := {};
    var p := 0;
    while p < |mesh.polygons|
      invariant 0 <= p <= |mesh.polygons|
      invariant mesh.Valid() && mesh.colorLayers == old(mesh.colorLayers)
      invariant |mesh.uvLayers| == |padded|
      invariant written == LoopsOf(mesh.polygons[..p])
      invariant UVsWritten(mesh.uvLayers, padded, mesh.loopVerts, vertOffset1, vertOffset2, second, written)
    {
      var poly := mesh.polygons[p];
      assert PolygonFits(poly, mesh.loopVerts);
      PackPolygon(mesh, poly, vertOffset1, vertOffset2, second, padded, written);
      LoopsOfStep(mesh.polygons, p);
      written := written + CornerLoops(poly.loopIndices);
      p := p + 1;
    }
    assert mesh.polygons[..p] == mesh.polygons;
    UVsWrittenAll(mesh.uvLayers, start, mesh.loopVerts, vertOffset1, vertOffset2, second, written);
  }

  /** The body of the polygon loop in `packUVs`: every corner of one polygon. */
  method PackPolygon(mesh: Mesh, poly: Polygon, vertOffset1: seq<Vec3>, vertOffset2: seq<Vec3>, second: bool,
                     ghost padded: seq<seq<UV>>, ghost written: set<nat>)
    requires mesh.Valid() && PolygonFits(poly, mesh.loopVerts)
    requires mesh.numVerts <= |vertOffset1| && mesh.numVerts <= |vertOffset2|
    requires UVsWritten(mesh.uvLayers, padded, mesh.loopVerts, vertOffset1, vertOffset2, second, written)
    modifies mesh
    ensures mesh.Valid() && mesh.colorLayers == old(mesh.colorLayers)
    ensures UVsWritten(mesh.uvLayers, padded, mesh.loopVerts, vertOffset1, vertOffset2, second,
                       written + CornerLoops(poly.loopIndices))
  {
    ghost var done := written;
    var j := 0;
    while j < |poly.vertices|
      invariant 0 <= j <= |poly.vertices|
      invariant mesh.Valid() && mesh.colorLayers == old(mesh.colorLayers)
      invariant done == written + CornerLoops(poly.loopIndices[..j])
      invariant UVsWritten(mesh.uvLayers, padded, mesh.loopVerts, vertOffset1, vertOffset2, second, done)
    {
      var vertId, loopId := poly.vertices[j], poly.loopIndices[j];
      ghost var before := mesh.uvLayers;
      PackCorner(mesh, vertId, loopId, vertOffset1, vertOffset2, second);
      UVsWrittenStep(before, mesh.uvLayers, padded, mesh.loopVerts, vertOffset1, vertOffset2, second, done, loopId);
      CornerLoopsStep(poly.loopIndices, j);
      done := done + {loopId};
      j := j + 1;
    }
    assert poly.loopIndices[..j] == poly.loopIndices;
  }

  /** The body of the corner loop in `packUVs`: layers 1 to 3, or 2 and 3, of one loop. */
  method PackCorner(mesh: Mesh, vertId: nat, loopId: nat, vertOffset1: seq<Vec3>, vertOffset2: seq<Vec3>, second: bool)
    requires mesh.Valid() && |mesh.uvLayers| >= 4
    requires loopId < |mesh.loopVerts| && vertId < |vertOffset1| && vertId < |vertOffset2|
    modifies mesh
    ensures mesh.Valid() && mesh.colorLayers == old(mesh.colorLayers)
    ensures var before, o1, o2 := old(mesh.uvLayers), vertOffset1[vertId], vertOffset2[vertId];
      mesh.uvLayers ==
        if second then before[1 := before[1][loopId := Layer1UV(o2)]][2 := before[2][loopId := Layer2UV(o1, o2, true)]][3 := before[3][loopId := Layer3UV(o1)]]
        else before[2 := before[2][loopId := Layer2UV(o1, o2, false)]][3 := before[3][loopId := Layer3UV(o1)]]
  {
    if second {
      mesh.SetUV(1, loopId, UV(vertOffset2[vertId].x, 1.0 - (vertOffset2[vertId].y * -1.0)));
      mesh.SetUV(2, loopId, UV(vertOffset2[vertId].z, 1.0 - vertOffset1[vertId].x));
      mesh.SetUV(3, loopId, UV(vertOffset1[vertId].y * -1.0, 1.0 - vertOffset1[vertId].z));
    } else {
      mesh.SetUV(2, loopId, UV(0.0, 1.0 - vertOffset1[vertId].x));
      mesh.SetUV(3, loopId, UV(vertOffset1[vertId].y * -1.0, 1.0 - vertOffset1[vertId].z));
    }
  }

  /** The state of the corner loop in `packUVs`: the loops in `written` hold the
      target UVs on the layers being written, every other entry is as padded. */
  ghost predicate UVsWritten(layers: seq<seq<UV>>, padded: seq<seq<UV>>, loopVerts: seq<nat>,
                             o1: seq<Vec3>, o2: seq<Vec3>, second: bool, written: set<nat>)
    requires forall l :: 0 <= l < |loopVerts| ==> loopVerts[l] < |o1| && loopVerts[l] < |o2|
  {
    && |layers| == |padded| >= 4
    && (forall i :: 0 <= i < |padded| ==> |layers[i]| == |padded[i]| == |loopVerts|)
    && (forall i :: 0 <= i < |padded| && (i == 0 || i >= 4 || (i == 1 && !second)) ==> layers[i] == padded[i])
    && (second ==> forall l :: 0 <= l < |loopVerts| ==>
          layers[1][l] == if l in written then Layer1UV(o2[loopVerts[l]]) else padded[1][l])
    && (forall l :: 0 <= l < |loopVerts| ==>
          layers[2][l] == if l in written then Layer2UV(o1[loopVerts[l]], o2[loopVerts[l]], second) else padded[2][l])
    && (forall l :: 0 <= l < |loopVerts| ==>
          layers[3][l] == if l in written then Layer3UV(o1[loopVerts[l]]) else padded[3][l])
  }

  /** Writing one more corner keeps the loop state. */
  lemma UVsWrittenStep(before: seq<seq<UV>>, after: seq<seq<UV>>, padded: seq<seq<UV>>, loopVerts: seq<nat>,
                       o1: seq<Vec3>, o2: seq<Vec3>, second: bool, written: set<nat>, loop: nat)
    requires forall l :: 0 <= l < |loopVerts| ==> loopVerts[l] < |o1| && loopVerts[l] < |o2|
    requires UVsWritten(before, padded, loopVerts, o1, o2, second, written)
    requires loop < |loopVerts|
    requires var v := loopVerts[loop];
      after == if second then before[1 := before[1][loop := Layer1UV(o2[v])]][2 := before[2][loop := Layer2UV(o1[v], o2[v], true)]][3 := before[3][loop := Layer3UV(o1[v])]]
               else before[2 := before[2][loop := Layer2UV(o1[v], o2[v], false)]][3 := before[3][loop := Layer3UV(o1[v])]]
    ensures UVsWritten(after, padded, loopVerts, o1, o2, second, written + {loop})
  {
  }

  /** Once every loop is written, the layers are the target. */
  lemma UVsWrittenAll(layers: seq<seq<UV>>, start: seq<seq<UV>>, loopVerts: seq<nat>,
                      o1: seq<Vec3>, o2: seq<Vec3>, second: bool, written: set<nat>)
    requires forall l :: 0 <= l < |loopVerts| ==> loopVerts[l] < |o1| && loopVerts[l] < |o2|
    requires forall i :: 0 <= i < |start| ==> |start[i]| == |loopVerts|
    requires UVsWritten(layers, Pad(start, 4, BlankUVLayer(|loopVerts|)), loopVerts, o1, o2, second, written)
    requires forall l :: 0 <= l < |loopVerts| ==> l in written
    ensures layers == MorphUVLayers(start, loopVerts, o1, o2, second)
  {
    var target := MorphUVLayers(start, loopVerts, o1, o2, second);
    if |loopVerts| > 0 {
      MorphUVLayerAt(start, loopVerts, o1, o2, second, 0);
    }
    forall i | 0 <= i < |layers|
      ensures layers[i] == target[i]
    {
      MorphUVLayerLength(start, loopVerts, o1, o2, second, i);
      forall l | 0 <= l < |loopVerts|
        ensures layers[i][l] == target[i][l]
      {
        MorphUVLayerAt(start, loopVerts, o1, o2, second, l);
      }
    }
  }

  /** The target layers, loop by loop: what each layer holds at one loop. */
  lemma MorphUVLayerAt(before: seq<seq<UV>>, loopVerts: seq<nat>, o1: seq<Vec3>, o2: seq<Vec3>, second: bool, l: nat)
    requires forall k :: 0 <= k < |loopVerts| ==> loopVerts[k] < |o1| && loopVerts[k] < |o2|
    requires forall i :: 0 <= i < |before| ==> |before[i]| == |loopVerts|
    requires l < |loopVerts|
    ensures var after, padded := MorphUVLayers(before, loopVerts, o1, o2, second), Pad(before, 4, BlankUVLayer(|loopVerts|));
      && |after| == |padded| >= 4
      && (forall i :: 0 <= i < |padded| ==> |padded[i]| == |loopVerts|)
      && after[1][l] == (if second then Layer1UV(o2[loopVerts[l]]) else padded[1][l])
      && after[2][l] == Layer2UV(o1[loopVerts[l]], o2[loopVerts[l]], second)
      && after[3][l] == Layer3UV(o1[loopVerts[l]])
      && (forall i :: 0 <= i < |padded| && (i == 0 || i >= 4) ==> after[i] == padded[i])
      && (!second ==> after[1] == padded[1])
  {
    PadSpec(before, 4, BlankUVLayer(|loopVerts|));
    var padded := Pad(before, 4, BlankUVLayer(|loopVerts|));
    forall i | 0 <= i < |padded|
      ensures |padded[i]| == |loopVerts|
    {
      if i < |before| {
        assert padded[..|before|][i] == before[i];
      }
    }
  }

  /** Every target layer has one entry per loop. */
  lemma MorphUVLayerLength(before: seq<seq<UV>>, loopVerts: seq<nat>, o1: seq<Vec3>, o2: seq<Vec3>, second: bool, i: nat)
    requires forall k :: 0 <= k < |loopVerts| ==> loopVerts[k] < |o1| && loopVerts[k] < |o2|
    requires forall j :: 0 <= j < |before| ==> |before[j]| == |loopVerts|
    requires i < |MorphUVLayers(before, loopVerts, o1, o2, second)|
    ensures |MorphUVLayers(before, loopVerts, o1, o2, second)[i]| == |loopVerts|
  {
    if |loopVerts| > 0 {
      MorphUVLayerAt(before, loopVerts, o1, o2, second, 0);
    } else {
      PadSpec(before, 4, BlankUVLayer(0));
      var padded := Pad(before, 4, BlankUVLayer(0));
      if i < |before| {
        assert padded[..|before|][i] == before[i];
      }
    }
  }

  // ---------------------------------------------------------------------
  // main and UT_PackMorphTargetsOperator.execute

  /** What `main` needs of the object: aligned key blocks with one position per
      mesh vertex, and three normal floats per vertex on shape key 1. */
  predicate ShapeKeysFit(keyBlocks: seq<KeyBlock>, numVerts: nat)
  {
    && KeyBlocksAligned(keyBlocks)
    && |keyBlocks[0].co| == numVerts
    && numVerts <= |keyBlocks[1].vertexNormals| / 3
  }

  /** `main`: offsets into UV layers, then normals into vertex colours if asked. */
  method Run(keyBlocks: seq<KeyBlock>, location: Vec3, props: Props, mesh: Mesh)
    requires mesh.Valid() && ShapeKeysFit(keyBlocks, mesh.numVerts)
    modifies mesh
    ensures mesh.Valid()
    ensures var offsetList := BuildOffsetList(keyBlocks, location, props);
      mesh.uvLayers == MorphUVLayers(old(mesh.uvLayers), mesh.loopVerts, offsetList[0], offsetList[1],
                                     WritesSecondOffset(props, keyBlocks))
    ensures mesh.colorLayers ==
      if props.storeMorph1Normals then MorphColorLayers(old(mesh.colorLayers), mesh.loopVerts, keyBlocks[1].vertexNormals)
      else old(mesh.colorLayers)
  {
    var offsetList := BuildOffsetList(keyBlocks, location, props);
    PackUVs(mesh, offsetList, props, |keyBlocks|);
    if props.storeMorph1Normals {
      PackVertexColors(mesh, keyBlocks[1].vertexNormals);
    }
  }

  /** Reading the packed UVs back: every corner's layers 2 and 3 add onto the
      basis to give shape key 1; with a second shape key layers 1 and 2 give
      shape key 2, with the pivot option they give the location, and otherwise
      layer 2's u is 0 and layer 1 is left as it was. */
  lemma MorphRoundTrip(keyBlocks: seq<KeyBlock>, location: Vec3, props: Props, before: seq<seq<UV>>, loopVerts: seq<nat>, l: nat)
    requires KeyBlocksAligned(keyBlocks)
    requires forall k :: 0 <= k < |loopVerts| ==> loopVerts[k] < |keyBlocks[0].co|
    requires l < |loopVerts|
    ensures var offsetList := BuildOffsetList(keyBlocks, location, props);
      var after := MorphUVLayers(before, loopVerts, offsetList[0], offsetList[1], WritesSecondOffset(props, keyBlocks));
      var v := loopVerts[l];
      && Add(keyBlocks[0].co[v], DecodeMorph1(after[2][l], after[3][l])) == keyBlocks[1].co[v]
      && (SecondIsShapeKey(props, keyBlocks) ==> Add(keyBlocks[0].co[v], DecodeMorph2(after[1][l], after[2][l])) == keyBlocks[2].co[v])
      && (props.storePivotLocation ==> DecodeMorph2(after[1][l], after[2][l]) == location)
      && (!WritesSecondOffset(props, keyBlocks) ==> after[2][l].u == 0.0 && (1 < |before| ==> after[1] == before[1]))
  {
    var offsetList := BuildOffsetList(keyBlocks, location, props);
    MorphUVLayersSpec(before, loopVerts, offsetList[0], offsetList[1], WritesSecondOffset(props, keyBlocks));
  }

  datatype MorphCancel = WrongUnits | NeedsShapeKeys

  datatype MorphOutcome = Cancelled(reason: MorphCancel) | Finished

  /** `execute`: units first (`unitsOk` is the Metric, 0.01 scale check), then
      an object without shape keys or with fewer than two key blocks is refused. */
  method Execute(unitsOk: bool, shapeKeys: Option<seq<KeyBlock>>, location: Vec3, props: Props, mesh: Mesh)
    returns (outcome: MorphOutcome)
    requires mesh.Valid()
    requires shapeKeys.Some? && |shapeKeys.value| >= 2 ==> ShapeKeysFit(shapeKeys.value, mesh.numVerts)
    modifies mesh
    ensures outcome == Cancelled(WrongUnits) <==> !unitsOk
    ensures outcome == Cancelled(NeedsShapeKeys) <==> unitsOk && (shapeKeys.None? || |shapeKeys.value| < 2)
    ensures outcome.Cancelled? ==> unchanged(mesh)
    ensures outcome.Finished? ==>
      var keyBlocks := shapeKeys.value;
      var offsetList := BuildOffsetList(keyBlocks, location, props);
      && mesh.uvLayers == MorphUVLayers(old(mesh.uvLayers), mesh.loopVerts, offsetList[0], offsetList[1],
                                        WritesSecondOffset(props, keyBlocks))
      && mesh.colorLayers ==
           if props.storeMorph1Normals then MorphColorLayers(old(mesh.colorLayers), mesh.loopVerts, keyBlocks[1].vertexNormals)
           else old(mesh.colorLayers)
  {
    if !unitsOk {
      return Cancelled(WrongUnits);
    }
    if shapeKeys.None? || |shapeKeys.value| < 2 {
      return Cancelled(NeedsShapeKeys);
    }
    Run(shapeKeys.value, location, props, mesh);
    outcome := Finished;
  }
}
