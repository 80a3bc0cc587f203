/** The Spark AR vertex-animation add-on (Blender/vertex_animation.py): it
    samples the selected meshes once per frame, stores per-vertex offsets from
    frame 0 and normals as RGBA pixels, one image row per frame with the last
    frame first, splits every value into a high and a low 8-bit image, and gives
    the export mesh a UV layer whose u addresses each vertex's column. */
module VatBake {
  import opened Base
  import opened Geometry
  import opened Meshes
  import opened FrameRanges

  // ---------------------------------------------------------------------
  // float_to_bytes and write_output_image

  /** Python's `int()` of a float: truncation toward zero. */
  function Trunc(r: real): int
  {
    if r >= 0.0 then r.Floor else -((-r).Floor)
  }

  datatype ByteSplit = ByteSplit(high: int, low: int)

  /** `int_value = int(x * 65535)`, high byte `(int_value >> 8) & 0xFF`, low byte
      `int_value & 0xFF`. Python's `>> 8` floors and `& 0xFF` takes the
      non-negative remainder, which Dafny's `/` and `%` by a positive constant
      do too. Nothing clamps: the pair is the 16-bit residue of the truncation. */
  function FloatToBytes(x: real): (b: ByteSplit)
    ensures 0 <= b.high <= 255 && 0 <= b.low <= 255
    ensures b.high * 256 + b.low == Trunc(x * 65535.0) % 65536
  {
    var v := Trunc(x * 65535.0);
    ByteResidue(v);
    ByteSplit((v / 256) % 256, v % 256)
  }

  /** The two bytes of an integer recombine to its 16-bit residue. */
  lemma ByteResidue(v: int)
    ensures ((v / 256) % 256) * 256 + v % 256 == v % 65536
  {
    var q, r := v / 256, v % 256;
    var p, t := q / 256, q % 256;
    assert v == 256 * q + r;
    assert q == 256 * p + t;
    assert v == 65536 * p + (256 * t + r);
    assert 0 <= 256 * t + r < 65536;
  }

  /** The 16-bit value back as a number in [0, 1]. */
  function Dequantize(b: ByteSplit): real
  {
    (b.high * 256 + b.low) as real / 65535.0
  }

  /** On [0, 1] the pair is exactly floor(x * 65535); 0 and 1 give the extreme pairs. */
  lemma FloatToBytesOnUnit(x: real)
    requires 0.0 <= x <= 1.0
    ensures FloatToBytes(x).high * 256 + FloatToBytes(x).low == (x * 65535.0).Floor
    ensures x == 0.0 ==> FloatToBytes(x) == ByteSplit(0, 0)
    ensures x == 1.0 ==> FloatToBytes(x) == ByteSplit(255, 255)
  {
    var f := (x * 65535.0).Floor;
    assert 0 <= f <= 65535;
    assert Trunc(x * 65535.0) == f;
    if x == 1.0 {
      assert f == 65535;
    }
  }

  /** Quantising loses less than one step of 1/65535, always downwards. */
  lemma QuantizeRoundTrip(x: real)
    requires 0.0 <= x <= 1.0
    ensures Dequantize(FloatToBytes(x)) <= x < Dequantize(FloatToBytes(x)) + 1.0 / 65535.0
  {
    FloatToBytesOnUnit(x);
    var f := (x * 65535.0).Floor;
    assert f as real <= x * 65535.0 < f as real + 1.0;
    assert Dequantize(FloatToBytes(x)) == f as real / 65535.0;
  }

  /** The value stored in the high image: `high_byte / 255.0`. */
  function HighChannel(x: real): real { FloatToBytes(x).high as real / 255.0 }

  /** The value stored in the low image: `low_byte / 255.0`. */
  function LowChannel(x: real): real { FloatToBytes(x).low as real / 255.0 }

  /** The high and low images hold, value by value, the two halves of `pixels`. */
  predicate SplitsInto(pixels: seq<real>, high: seq<real>, low: seq<real>)
  {
    && |high| == |pixels| && |low| == |pixels|
    && forall i :: 0 <= i < |pixels| ==> high[i] == HighChannel(pixels[i]) && low[i] == LowChannel(pixels[i])
  }

  /** The byte-list loop of `write_output_image`. */
  method WriteOutputImage(pixelList: seq<real>) returns (high: seq<real>, low: seq<real>)
    ensures SplitsInto(pixelList, high, low)
    ensures forall i :: 0 <= i < |pixelList| ==> 0.0 <= high[i] <= 1.0 && 0.0 <= low[i] <= 1.0
  {
    high, low := [], [];
    var i := 0;
    while i < |pixelList|
      invariant 0 <= i <= |pixelList|
      invariant |high| == i && |low| == i
      invariant forall k :: 0 <= k < i ==> high[k] == HighChannel(pixelList[k]) && low[k] == LowChannel(pixelList[k])
      invariant forall k :: 0 <= k < i ==> 0.0 <= high[k] <= 1.0 && 0.0 <= low[k] <= 1.0
    {
      var b := FloatToBytes(pixelList[i]);
      high := high + [b.high as real / 255.0];
      low := low + [b.low as real / 255.0];
      i := i + 1;
    }
  }

  /** What a shader reads back from the two images: high*255*256 + low*255, over 65535. */
  function Reconstruct(high: real, low: real): real
  {
    (high * 255.0 * 256.0 + low * 255.0) / 65535.0
  }

  /** Sampling both images and recombining recovers every value in [0, 1] to within 1/65535. */
  lemma ImageRoundTrip(pixels: seq<real>, high: seq<real>, low: seq<real>, i: nat)
    requires SplitsInto(pixels, high, low)
    requires i < |pixels| && 0.0 <= pixels[i] <= 1.0
    ensures Reconstruct(high[i], low[i]) <= pixels[i] < Reconstruct(high[i], low[i]) + 1.0 / 65535.0
  {
    var b := FloatToBytes(pixels[i]);
    assert Reconstruct(high[i], low[i]) == Dequantize(b);
    QuantizeRoundTrip(pixels[i]);
  }

  // ---------------------------------------------------------------------
  // get_vertex_data

  /** `((x + 1) * 0.5, (-y + 1) * 0.5, (z + 1) * 0.5, 1)` of the offset from frame 0. */
  function OffsetPixel(v: Vertex, original: Vertex): Rgba
  {
    var d := Sub(v.co, original.co);
    Rgba(ToUnit(d.x), ToUnit(-d.y), ToUnit(d.z), 1.0)
  }

  /** `((x + 1) * 0.5, (y + 1) * 0.5, (z + 1) * 0.5, 1)` of the normal. */
  function NormalPixel(v: Vertex): Rgba
  {
    Rgba(ToUnit(v.normal.x), ToUnit(v.normal.y), ToUnit(v.normal.z), 1.0)
  }

  /** A pixel lands in [0, 1] only when its source components lie in [-1, 1]:
      the remap neither scales nor clamps. */
  lemma PixelsInUnit(v: Vertex, original: Vertex)
    ensures var d := Sub(v.co, original.co);
      -1.0 <= d.x <= 1.0 && -1.0 <= d.y <= 1.0 && -1.0 <= d.z <= 1.0 ==>
      forall c :: c in Channels(OffsetPixel(v, original)) ==> 0.0 <= c <= 1.0
    ensures -1.0 <= v.normal.x <= 1.0 && -1.0 <= v.normal.y <= 1.0 && -1.0 <= v.normal.z <= 1.0 ==>
      forall c :: c in Channels(NormalPixel(v)) ==> 0.0 <= c <= 1.0
    ensures var d := Sub(v.co, original.co);
      d.x > 1.0 ==> OffsetPixel(v, original).r > 1.0
  {
    var d := Sub(v.co, original.co);
    if -1.0 <= d.x <= 1.0 && -1.0 <= d.y <= 1.0 && -1.0 <= d.z <= 1.0 {
      ToUnitBounds(d.x);
      ToUnitBounds(-d.y);
      ToUnitBounds(d.z);
    }
    if -1.0 <= v.normal.x <= 1.0 && -1.0 <= v.normal.y <= 1.0 && -1.0 <= v.normal.z <= 1.0 {
      ToUnitBounds(v.normal.x);
      ToUnitBounds(v.normal.y);
      ToUnitBounds(v.normal.z);
    }
  }

  /** One frame's offset pixels, in vertex order. */
  function OffsetRow(me: Frame, original: Frame): (row: seq<Rgba>)
    requires |me| <= |original|
    ensures |row| == |me|
    ensures forall v :: 0 <= v < |me| ==> row[v] == OffsetPixel(me[v], original[v])
  {
    seq(|me|, v requires 0 <= v < |me| => OffsetPixel(me[v], original[v]))
  }

  /** One frame's normal pixels, in vertex order. */
  function NormalRow(me: Frame): (row: seq<Rgba>)
    ensures |row| == |me|
    ensures forall v :: 0 <= v < |me| ==> row[v] == NormalPixel(me[v])
  {
    seq(|me|, v requires 0 <= v < |me| => NormalPixel(me[v]))
  }

  /** One row of offset pixels per frame, in frame order. */
  function OffsetRows(meshes: seq<Frame>): (rows: seq<seq<Rgba>>)
    requires Trackable(meshes)
    ensures |rows| == |meshes|
    ensures forall k :: 0 <= k < |meshes| ==> rows[k] == OffsetRow(meshes[k], meshes[0])
  {
    seq(|meshes|, k requires 0 <= k < |meshes| => OffsetRow(meshes[k], meshes[0]))
  }

  /** One row of normal pixels per frame, in frame order. */
  function NormalRows(meshes: seq<Frame>): (rows: seq<seq<Rgba>>)
    ensures |rows| == |meshes|
    ensures forall k :: 0 <= k < |meshes| ==> rows[k] == NormalRow(meshes[k])
  {
    seq(|meshes|, k requires 0 <= k < |meshes| => NormalRow(meshes[k]))
  }

  /** The offset image: its rows, last frame first. */
  function OffsetImage(meshes: seq<Frame>): seq<Rgba>
    requires Trackable(meshes)
  {
    ConcatReversed(OffsetRows(meshes))
  }

  /** The normal image: its rows, last frame first. */
  function NormalImage(meshes: seq<Frame>): seq<Rgba>
  {
    ConcatReversed(NormalRows(meshes))
  }

  /** `get_vertex_data`: for each mesh in reversed order, extend the offset
      list and the normal list by that frame's RGBA quadruples. */
  method GetVertexData(meshes: seq<Frame>) returns (offsets: seq<real>, normals: seq<real>)
    requires Trackable(meshes)
    ensures offsets == Flatten(OffsetImage(meshes))
    ensures normals == Flatten(NormalImage(meshes))
  {
    var original := meshes[0];
    offsets, normals := [], [];
    ghost var offsetRows, normalRows := OffsetRows(meshes), NormalRows(meshes);
    var m := |meshes|;
    while m > 0
      invariant 0 <= m <= |meshes|
      invariant offsets == Flatten(ConcatReversed(offsetRows[m..]))
      invariant normals == Flatten(ConcatReversed(normalRows[m..]))
    {
      m := m - 1;
      offsets, normals := AppendFrame(meshes[m], original, offsets, normals);
      ConcatReversedStep(offsetRows, m);
      ConcatReversedStep(normalRows, m);
      FlattenAppend(ConcatReversed(offsetRows[m + 1..]), offsetRows[m]);
      FlattenAppend(ConcatReversed(normalRows[m + 1..]), normalRows[m]);
    }
    assert offsetRows[0..] == offsetRows && normalRows[0..] == normalRows;
  }

  /** The body of the loop over meshes in `get_vertex_data`: for each vertex of
      one frame, one offset quadruple and one normal quadruple. */
  method AppendFrame(me: Frame, original: Frame, offsetsIn: seq<real>, normalsIn: seq<real>)
    returns (offsets: seq<real>, normals: seq<real>)
    requires |me| <= |original|
    ensures offsets == offsetsIn + Flatten(OffsetRow(me, original))
    ensures normals == normalsIn + Flatten(NormalRow(me))
  {
    offsets, normals := offsetsIn, normalsIn;
    ghost var offsetRow, normalRow := OffsetRow(me, original), NormalRow(me);
    var i := 0;
    while i < |me|
      invariant 0 <= i <= |me|
      invariant offsets == offsetsIn + Flatten(offsetRow[..i])
      invariant normals == normalsIn + Flatten(normalRow[..i])
    {
      var offset := Sub(me[i].co, original[i].co);
      var offsetQuad := [(offset.x + 1.0) * 0.5, (- offset.y + 1.0) * 0.5, (offset.z + 1.0) * 0.5, 1.0];
      var n := me[i].normal;
      var normalQuad := [(n.x + 1.0) * 0.5, (n.y + 1.0) * 0.5, (n.z + 1.0) * 0.5, 1.0];
      assert offsetRow[i] == OffsetPixel(me[i], original[i]);
      assert normalRow[i] == NormalPixel(me[i]);
      ExtendFlattened(offsetsIn, offsets, offsetRow, i, offsetQuad);
      ExtendFlattened(normalsIn, normals, normalRow, i, normalQuad);
      offsets := offsets + offsetQuad;
      normals := normals + normalQuad;
      i := i + 1;
    }
    assert offsetRow[..i] == offsetRow && normalRow[..i] == normalRow;
  }


  /** Every frame has the same V vertices. */
  predicate SameVertexCount(meshes: seq<Frame>, vertexCount: nat)
  {
    |meshes| >= 1 && forall k :: 0 <= k < |meshes| ==> |meshes[k]| == vertexCount
  }

  /** With F frames of V vertices: V*F pixels per image, and pixel k*V + v of
      both images comes from frame F-1-k, vertex v. */
  lemma VertexDataAt(meshes: seq<Frame>, vertexCount: nat, k: nat, v: nat)
    requires SameVertexCount(meshes, vertexCount)
    requires k < |meshes| && v < vertexCount
    ensures |OffsetImage(meshes)| == |meshes| * vertexCount == |NormalImage(meshes)|
    ensures k * vertexCount + v < |meshes| * vertexCount
    ensures OffsetImage(meshes)[k * vertexCount + v] == OffsetPixel(meshes[|meshes| - 1 - k][v], meshes[0][v])
    ensures NormalImage(meshes)[k * vertexCount + v] == NormalPixel(meshes[|meshes| - 1 - k][v])
  {
    assert Uniform(OffsetRows(meshes), vertexCount);
    assert Uniform(NormalRows(meshes), vertexCount);
    ConcatReversedAt(OffsetRows(meshes), vertexCount, k, v);
    ConcatReversedAt(NormalRows(meshes), vertexCount, k, v);
  }

  /** Both lists hold 4*F*V values, every fourth of which is the alpha 1. */
  lemma VertexDataShape(meshes: seq<Frame>, vertexCount: nat)
    requires SameVertexCount(meshes, vertexCount)
    ensures |Flatten(OffsetImage(meshes))| == 4 * vertexCount * |meshes|
    ensures |Flatten(NormalImage(meshes))| == 4 * vertexCount * |meshes|
    ensures forall j :: 0 <= j < |Flatten(OffsetImage(meshes))| && j % 4 == 3 ==> Flatten(OffsetImage(meshes))[j] == 1.0
    ensures forall j :: 0 <= j < |Flatten(NormalImage(meshes))| && j % 4 == 3 ==> Flatten(NormalImage(meshes))[j] == 1.0
  {
    OpaqueImageShape(OffsetRows(meshes), vertexCount);
    OpaqueImageShape(NormalRows(meshes), vertexCount);
  }

  /** Rows of `width` opaque pixels, last row first, flatten to 4*width*rows
      values with alpha 1 at every fourth. */
  lemma OpaqueImageShape(rows: seq<seq<Rgba>>, width: nat)
    requires Uniform(rows, width)
    requires forall k, v :: 0 <= k < |rows| && 0 <= v < |rows[k]| ==> rows[k][v].a == 1.0
    ensures |Flatten(ConcatReversed(rows))| == 4 * width * |rows|
    ensures forall j :: 0 <= j < |Flatten(ConcatReversed(rows))| && j % 4 == 3 ==> Flatten(ConcatReversed(rows))[j] == 1.0
  {
    var image := ConcatReversed(rows);
    ConcatReversedLength(rows, width);
    FlattenLength(image);
    assert 4 * (|rows| * width) == 4 * width * |rows|;
    ConcatReversedOpaque(rows);
    FlattenAlpha(image);
  }

  /** Concatenating opaque rows, last first, leaves every pixel opaque. */
  lemma {:induction false} ConcatReversedOpaque(rows: seq<seq<Rgba>>)
    requires forall k, v :: 0 <= k < |rows| && 0 <= v < |rows[k]| ==> rows[k][v].a == 1.0
    ensures forall i :: 0 <= i < |ConcatReversed(rows)| ==> ConcatReversed(rows)[i].a == 1.0
  {
    if rows != [] {
      assert forall k :: 0 <= k < |rows| - 1 ==> rows[1..][k] == rows[k + 1];
      ConcatReversedOpaque(rows[1..]);
      var tail := ConcatReversed(rows[1..]);
      assert ConcatReversed(rows) == tail + rows[0];
      forall i | 0 <= i < |ConcatReversed(rows)|
        ensures ConcatReversed(rows)[i].a == 1.0
      {
        if i >= |tail| {
          assert ConcatReversed(rows)[i] == rows[0][i - |tail|];
        }
      }
    }
  }

  /** The last row of the offset image is frame 0 against itself: neutral grey. */
  lemma ReferenceRowIsNeutral(meshes: seq<Frame>, vertexCount: nat, v: nat)
    requires SameVertexCount(meshes, vertexCount) && v < vertexCount
    ensures (|meshes| - 1) * vertexCount + v < |OffsetImage(meshes)|
    ensures OffsetImage(meshes)[(|meshes| - 1) * vertexCount + v] == Rgba(0.5, 0.5, 0.5, 1.0)
  {
    VertexDataAt(meshes, vertexCount, |meshes| - 1, v);
  }

  // ---------------------------------------------------------------------
  // create_export_mesh_object

  /** `(vertex_index + 0.5) / len(me.vertices)`: the centre of column vertex_index. */
  function ExportU(vertexIndex: nat, numVerts: nat): real
    requires vertexIndex < numVerts
  {
    (vertexIndex as real + 0.5) / numVerts as real
  }

  const ExportV: real := 128.0 / 255.0

  /** The UV layers after `create_export_mesh_object`: at least two, and layer 1
      holds every loop's vertex address. */
  function ExportUVLayers(before: seq<seq<UV>>, loopVerts: seq<nat>, numVerts: nat): seq<seq<UV>>
    requires forall l :: 0 <= l < |loopVerts| ==> loopVerts[l] < numVerts
  {
    var padded := Pad(before, 2, BlankUVLayer(|loopVerts|));
    PadSpec(before, 2, BlankUVLayer(|loopVerts|));
    padded[1 := seq(|loopVerts|, l requires 0 <= l < |loopVerts| => UV(ExportU(loopVerts[l], numVerts), ExportV))]
  }

  /** At least two layers, existing layers other than 1 kept, and layer 1 sets
      every loop to its vertex's address, so loops sharing a vertex share a UV. */
  lemma ExportUVLayersSpec(before: seq<seq<UV>>, loopVerts: seq<nat>, numVerts: nat)
    requires forall l :: 0 <= l < |loopVerts| ==> loopVerts[l] < numVerts
    ensures var after := ExportUVLayers(before, loopVerts, numVerts);
      && |after| == Max(|before|, 2)
      && (forall i :: 0 <= i < |before| && i != 1 ==> after[i] == before[i])
      && |after[1]| == |loopVerts|
      && (forall l :: 0 <= l < |loopVerts| ==> after[1][l] == UV(ExportU(loopVerts[l], numVerts), ExportV))
      && (forall l1, l2 :: 0 <= l1 < |loopVerts| && 0 <= l2 < |loopVerts| && loopVerts[l1] == loopVerts[l2] ==> after[1][l1] == after[1][l2])
  {
    PadSpec(before, 2, BlankUVLayer(|loopVerts|));
    var padded := Pad(before, 2, BlankUVLayer(|loopVerts|));
    forall i | 0 <= i < |before| && i != 1
      ensures ExportUVLayers(before, loopVerts, numVerts)[i] == before[i]
    {
      assert padded[..|before|][i] == before[i];
    }
  }

  /** u lies strictly inside (0, 1) and grows strictly with the vertex index. */
  lemma ExportUOrdered(a: nat, b: nat, numVerts: nat)
    requires a < b < numVerts
    ensures 0.0 < ExportU(a, numVerts) < ExportU(b, numVerts) < 1.0
  {
    var n := numVerts as real;
    var ua, ub := ExportU(a, numVerts), ExportU(b, numVerts);
    assert ua == (a as real + 0.5) / n && ub == (b as real + 0.5) / n;
    DivideIncreasing(0.0, a as real + 0.5, n);
    assert 0.0 / n == 0.0;
    DivideIncreasing(a as real + 0.5, b as real + 0.5, n);
    DivideIncreasing(b as real + 0.5, n, n);
    assert n / n == 1.0;
  }

  /** u lies strictly inside (0, 1) for every vertex, a mesh of one vertex included. */
  lemma ExportUInside(vertexIndex: nat, numVerts: nat)
    requires vertexIndex < numVerts
    ensures 0.0 < ExportU(vertexIndex, numVerts) < 1.0
  {
    var n := numVerts as real;
    assert ExportU(vertexIndex, numVerts) == (vertexIndex as real + 0.5) / n;
    DivideIncreasing(0.0, vertexIndex as real + 0.5, n);
    assert 0.0 / n == 0.0;
    DivideIncreasing(vertexIndex as real + 0.5, n, n);
    assert n / n == 1.0;
  }

  /** The pixel column u points into, in an image V pixels wide, is the vertex's own index. */
  lemma ExportUColumn(vertexIndex: nat, numVerts: nat)
    requires vertexIndex < numVerts
    ensures (ExportU(vertexIndex, numVerts) * numVerts as real).Floor == vertexIndex
  {
    assert ExportU(vertexIndex, numVerts) * numVerts as real == vertexIndex as real + 0.5;
  }

  /** The export mesh's UVs and the baked images agree: in every row k, the
      column a vertex's u points into holds that vertex's pixel of frame F-1-k. */
  lemma ExportUVAddressesVertex(meshes: seq<Frame>, vertexCount: nat, k: nat, vertexIndex: nat)
    requires SameVertexCount(meshes, vertexCount)
    requires k < |meshes| && vertexIndex < vertexCount
    ensures (ExportU(vertexIndex, vertexCount) * vertexCount as real).Floor == vertexIndex
    ensures k * vertexCount + vertexIndex < |OffsetImage(meshes)| == |NormalImage(meshes)|
    ensures var column := (ExportU(vertexIndex, vertexCount) * vertexCount as real).Floor;
      && OffsetImage(meshes)[k * vertexCount + column] == OffsetPixel(meshes[|meshes| - 1 - k][vertexIndex], meshes[0][vertexIndex])
      && NormalImage(meshes)[k * vertexCount + column] == NormalPixel(meshes[|meshes| - 1 - k][vertexIndex])
  {
    ExportUColumn(vertexIndex, vertexCount);
    VertexDataAt(meshes, vertexCount, k, vertexIndex);
  }

  /** The UV loop of `create_export_mesh_object`. */
  method CreateExportMeshObject(me: Mesh)
    requires me.Valid()
    modifies me
    ensures me.Valid()
    ensures me.uvLayers == ExportUVLayers(old(me.uvLayers), me.loopVerts, me.numVerts)
    ensures me.colorLayers == old(me.colorLayers)
  {
    ghost var start := me.uvLayers;
    ghost var blank := BlankUVLayer(|me.loopVerts|);
    while |me.uvLayers| < 2
      invariant me.Valid() && me.colorLayers == old(me.colorLayers)
      invariant Pad(me.uvLayers, 2, blank) == Pad(start, 2, blank)
      decreases 2 - |me.uvLayers|
    {
      me.NewUVLayer();
    }
    ghost var padded := me.uvLayers;
    assert padded == Pad(start, 2, blank);
    var l := 0;
    while l < |me.loopVerts|
      invariant 0 <= l <= |me.loopVerts|
      invariant me.Valid() && me.colorLayers == old(me.colorLayers)
      invariant |me.uvLayers| == |padded|
      invariant forall i :: 0 <= i < |padded| && i != 1 ==> me.uvLayers[i] == padded[i]
      invariant forall m :: 0 <= m < |me.loopVerts| ==>
        me.uvLayers[1][m] == if m < l then UV(ExportU(me.loopVerts[m], me.numVerts), ExportV) else padded[1][m]
    {
      me.SetUV(1, l, UV((me.loopVerts[l] as real + 0.5) / me.numVerts as real, 128.0 / 255.0));
      l := l + 1;
    }
    ghost var after := ExportUVLayers(start, me.loopVerts, me.numVerts);
    assert me.uvLayers[1] == after[1];
    assert me.uvLayers == after;
  }

  // ---------------------------------------------------------------------
  // frame_range and OBJECT_OT_ProcessAnimMeshes.execute

  /** `range(scene.frame_start, scene.frame_end, scene.frame_step)`: the end is excluded. */
  function FrameRange(scene: Scene): seq<int>
    requires scene.Valid()
  {
    Range(scene.frameStart, scene.frameEnd, scene.frameStep)
  }

  /** A selected object: whether it is a mesh, `len(ob.data.vertices)`, and its modifiers' types. */
  datatype SceneObject = SceneObject(isMesh: bool, vertexCount: nat, modifiers: seq<string>)

  const AllowedModifiers: seq<string> := [
    "ARMATURE", "CAST", "CURVE", "DISPLACE", "HOOK",
    "LAPLACIANDEFORM", "LATTICE", "MESH_DEFORM", "MESH_SEQUENCE_CACHE",
    "SHRINKWRAP", "SIMPLE_DEFORM", "SMOOTH",
    "CORRECTIVE_SMOOTH", "LAPLACIANSMOOTH",
    "SURFACE_DEFORM", "WARP", "WAVE"
  ]

  const VertexLimit: nat := 8192
  const FrameLimit: nat := 8192

  /** `[ob for ob in selected if ob.type == 'MESH']` */
  function MeshObjects(selected: seq<SceneObject>): (objects: seq<SceneObject>)
    ensures forall o :: o in objects <==> o in selected && o.isMesh
  {
    if selected == [] then []
    else (if selected[0].isMesh then [selected[0]] else []) + MeshObjects(selected[1..])
  }

  /** The comprehension keeps every occurrence: a mesh object appears in the
      result as often as it was selected, any other object not at all. */
  lemma {:induction false} MeshObjectsMultiplicity(selected: seq<SceneObject>)
    ensures forall o :: multiset(MeshObjects(selected))[o] == if o.isMesh then multiset(selected)[o] else 0
  {
    if selected != [] {
      MeshObjectsMultiplicity(selected[1..]);
      assert selected == [selected[0]] + selected[1..];
    }
  }

  /** `sum(len(ob.data.vertices) for ob in objects)` */
  function TotalVertices(objects: seq<SceneObject>): (total: nat)
    ensures forall i :: 0 <= i < |objects| ==> objects[i].vertexCount <= total
  {
    if objects == [] then 0
    else
      var rest := TotalVertices(objects[1..]);
      assert forall i :: 1 <= i < |objects| ==> objects[i] == objects[1..][i - 1];
      objects[0].vertexCount + rest
  }

  /** The sum splits over a concatenation of object lists. */
  lemma {:induction false} TotalVerticesAppend(a: seq<SceneObject>, b: seq<SceneObject>)
    ensures TotalVertices(a + b) == TotalVertices(a) + TotalVertices(b)
  {
    if a != [] {
      assert (a + b)[1..] == a[1..] + b;
      TotalVerticesAppend(a[1..], b);
    } else {
      assert a + b == b;
    }
  }

  /** Every modifier type of every object is on the allow-list. */
  predicate ModifiersAllowed(allowed: seq<string>, objects: seq<SceneObject>)
  {
    forall i, j :: 0 <= i < |objects| && 0 <= j < |objects[i].modifiers| ==> objects[i].modifiers[j] in allowed
  }

  /** The first modifier type, in object order, that is not on the allow-list
      (`execute` passes `AllowedModifiers`). */
  function FirstDisallowed(allowed: seq<string>, objects: seq<SceneObject>): (m: Option<string>)
    ensures m.None? <==> ModifiersAllowed(allowed, objects)
    ensures m.Some? ==> m.value !in allowed && exists i :: 0 <= i < |objects| && m.value in objects[i].modifiers
  {
    if objects == [] then None
    else
      var here := FirstDisallowedIn(allowed, objects[0].modifiers);
      if here.Some? then here
      else
        var rest := FirstDisallowed(allowed, objects[1..]);
        assert forall i :: 1 <= i < |objects| ==> objects[i] == objects[1..][i - 1];
        rest
  }

  /** The type reported is the first disallowed one in object order: it is what
      `FirstDisallowedIn` reports for some object, and every earlier object has
      only allowed modifiers. */
  lemma {:induction false} FirstDisallowedIsFirst(allowed: seq<string>, objects: seq<SceneObject>)
    ensures var m := FirstDisallowed(allowed, objects);
      m.Some? ==> exists i :: (0 <= i < |objects| && FirstDisallowedIn(allowed, objects[i].modifiers) == m &&
                               forall i' :: 0 <= i' < i ==> FirstDisallowedIn(allowed, objects[i'].modifiers).None?)
  {
    if objects != [] && FirstDisallowedIn(allowed, objects[0].modifiers).None? {
      var m := FirstDisallowed(allowed, objects[1..]);
      FirstDisallowedIsFirst(allowed, objects[1..]);
      if m.Some? {
        var i :| 0 <= i < |objects[1..]| && FirstDisallowedIn(allowed, objects[1..][i].modifiers) == m &&
                 forall i' :: 0 <= i' < i ==> FirstDisallowedIn(allowed, objects[1..][i'].modifiers).None?;
        assert objects[i + 1] == objects[1..][i];
        forall i' | 0 <= i' < i + 1
          ensures FirstDisallowedIn(allowed, objects[i'].modifiers).None?
        {
          if i' > 0 {
            assert objects[i'] == objects[1..][i' - 1];
          }
        }
      }
    }
  }

  /** The first modifier type of one object that is not on the allow-list. */
  function FirstDisallowedIn(allowed: seq<string>, modifiers: seq<string>): (m: Option<string>)
    ensures m.None? <==> forall j :: 0 <= j < |modifiers| ==> modifiers[j] in allowed
    ensures m.Some? ==> m.value !in allowed && m.value in modifiers
    ensures m.Some? ==> exists j :: (0 <= j < |modifiers| && modifiers[j] == m.value &&
                                    forall j' :: 0 <= j' < j ==> modifiers[j'] in allowed)
  {
    if modifiers == [] then None
    else if modifiers[0] !in allowed then Some(modifiers[0])
    else
      var rest := FirstDisallowedIn(allowed, modifiers[1..]);
      assert forall j :: 1 <= j < |modifiers| ==> modifiers[j] == modifiers[1..][j - 1];
      rest
  }

  datatype CancelReason =
    | DisallowedModifier(kind: string)
    | WrongUnits
    | TooManyVertices(vertexCount: nat)
    | TooManyFrames(frameCount: nat)
    | NoFrames

  datatype Decision = Cancel(reason: CancelReason) | Proceed(vertexCount: nat, frameCount: nat)

  /** The checks of `execute` as the source makes them, in its order: modifier
      types, then units (`unitsOk` is the Metric, 0.01 scale check), then the
      vertex limit, then the frame limit. Exactly 8192 passes either limit. */
  function ExecuteGateAsWritten(selected: seq<SceneObject>, unitsOk: bool, scene: Scene): (d: Decision)
    requires scene.Valid()
    ensures var objects := MeshObjects(selected);
      d.Proceed? <==>
        ModifiersAllowed(AllowedModifiers, objects) && unitsOk && TotalVertices(objects) <= VertexLimit && |FrameRange(scene)| <= FrameLimit
    ensures d.Proceed? ==> d.vertexCount == TotalVertices(MeshObjects(selected)) && d.frameCount == |FrameRange(scene)|
    ensures d.Cancel? && d.reason.DisallowedModifier? ==>
      d.reason.kind !in AllowedModifiers && exists o :: o in selected && o.isMesh && d.reason.kind in o.modifiers
    ensures d == Cancel(WrongUnits) ==> ModifiersAllowed(AllowedModifiers, MeshObjects(selected)) && !unitsOk
    ensures d.Cancel? && d.reason.TooManyVertices? ==>
      ModifiersAllowed(AllowedModifiers, MeshObjects(selected)) && unitsOk && d.reason.vertexCount == TotalVertices(MeshObjects(selected)) > VertexLimit
    ensures d.Cancel? && d.reason.TooManyFrames? ==>
      ModifiersAllowed(AllowedModifiers, MeshObjects(selected)) && unitsOk && TotalVertices(MeshObjects(selected)) <= VertexLimit
      && d.reason.frameCount == |FrameRange(scene)| > FrameLimit
    ensures d != Cancel(NoFrames)
  {
    var objects := MeshObjects(selected);
    var vertexCount := TotalVertices(objects);
    var frameCount := |FrameRange(scene)|;
    var bad := FirstDisallowed(AllowedModifiers, objects);
    if bad.Some? then Cancel(DisallowedModifier(bad.value))
    else if !unitsOk then Cancel(WrongUnits)
    else if vertexCount > VertexLimit then Cancel(TooManyVertices(vertexCount))
    else if frameCount > FrameLimit then Cancel(TooManyFrames(frameCount))
    else Proceed(vertexCount, frameCount)
  }

  /** A disallowed-modifier cancel reports the first disallowed type of the mesh
      objects, in object and then modifier order (see `FirstDisallowedIsFirst`). */
  lemma GateReportsFirstDisallowed(selected: seq<SceneObject>, unitsOk: bool, scene: Scene)
    requires scene.Valid()
    ensures var d := ExecuteGateAsWritten(selected, unitsOk, scene);
      d.Cancel? && d.reason.DisallowedModifier? ==>
        FirstDisallowed(AllowedModifiers, MeshObjects(selected)) == Some(d.reason.kind)
  {
  }

  /** A scene whose start and end frames coincide passes every check with no
      frames to sample, so `meshes[0]` afterwards has nothing to index. */
  lemma SingleFrameScenePassesGate()
    ensures var selected, scene := [SceneObject(true, 8, [])], Scene(1, 1, 1);
      && ExecuteGateAsWritten(selected, true, scene) == Proceed(8, 0)
      && FrameRange(scene) == []
      && !Trackable([])
  {
    var selected := [SceneObject(true, 8, [])];
    assert MeshObjects(selected) == selected;
    assert TotalVertices(selected) == 8;
  }

  /** The gate with an empty frame range refused as well: only a bake with at
      least one frame goes ahead. */
  function ExecuteGate(selected: seq<SceneObject>, unitsOk: bool, scene: Scene): (d: Decision)
    requires scene.Valid()
    ensures d.Proceed? ==> 1 <= d.frameCount <= FrameLimit && d.vertexCount <= VertexLimit
    ensures d.Proceed? ==> d.vertexCount == TotalVertices(MeshObjects(selected)) && d.frameCount == |FrameRange(scene)|
    ensures d != ExecuteGateAsWritten(selected, unitsOk, scene) ==>
      d == Cancel(NoFrames) && ExecuteGateAsWritten(selected, unitsOk, scene).Proceed? && FrameRange(scene) == []
  {
    var d := ExecuteGateAsWritten(selected, unitsOk, scene);
    if d.Proceed? && d.frameCount == 0 then Cancel(NoFrames) else d
  }

  /** The samples and export mesh the host hands over once the gate lets a bake
      proceed: one frame per entry of the frame range, each with the counted vertices. */
  predicate SamplesFit(d: Decision, meshes: seq<Frame>, numVerts: nat)
  {
    d.Proceed? ==>
      && |meshes| == d.frameCount
      && (forall k :: 0 <= k < |meshes| ==> |meshes[k]| == d.vertexCount)
      && numVerts == d.vertexCount
  }

  datatype BakeOutcome =
    | Cancelled(reason: CancelReason)
    | Finished(width: nat, height: nat, offsets: seq<real>, normals: seq<real>,
               positionHigh: seq<real>, positionLow: seq<real>, normalHigh: seq<real>, normalLow: seq<real>)

  /** `execute`: the gate, then the export mesh's UVs, the vertex data, and the
      four images of `texture_size = (vertex_count, frame_count)`. */
  method Execute(selected: seq<SceneObject>, unitsOk: bool, scene: Scene, meshes: seq<Frame>, exportMesh: Mesh)
    returns (outcome: BakeOutcome)
    requires scene.Valid() && exportMesh.Valid()
    requires SamplesFit(ExecuteGate(selected, unitsOk, scene), meshes, exportMesh.numVerts)
    modifies exportMesh
    ensures outcome.Cancelled? <==> ExecuteGate(selected, unitsOk, scene).Cancel?
    ensures outcome.Cancelled? ==>
      outcome.reason == ExecuteGate(selected, unitsOk, scene).reason && unchanged(exportMesh)
    ensures outcome.Finished? ==>
      && outcome.width == TotalVertices(MeshObjects(selected))
      && outcome.height == |FrameRange(scene)|
      && |outcome.offsets| == 4 * outcome.width * outcome.height
      && outcome.offsets == Flatten(OffsetImage(meshes))
      && outcome.normals == Flatten(NormalImage(meshes))
      && SplitsInto(outcome.offsets, outcome.positionHigh, outcome.positionLow)
      && SplitsInto(outcome.normals, outcome.normalHigh, outcome.normalLow)
      && exportMesh.uvLayers == ExportUVLayers(old(exportMesh.uvLayers), exportMesh.loopVerts, exportMesh.numVerts)
      && exportMesh.colorLayers == old(exportMesh.colorLayers)
  {
    var d := ExecuteGate(selected, unitsOk, scene);
    if d.Cancel? {
      return Cancelled(d.reason);
    }
    assert SameVertexCount(meshes, d.vertexCount);
    CreateExportMeshObject(exportMesh);
    var offsets, normals := GetVertexData(meshes);
    VertexDataShape(meshes, d.vertexCount);
    var width, height := d.vertexCount, d.frameCount;
    assert |offsets| == 4 * width * height;
    var positionHigh, positionLow := WriteOutputImage(offsets);
    var normalHigh, normalLow := WriteOutputImage(normals);
    outcome := Finished(width, height, offsets, normals, positionHigh, positionLow, normalHigh, normalLow);
  }
}
