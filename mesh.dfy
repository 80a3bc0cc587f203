/** The part of a Blender mesh the add-ons write: per-loop UV layers and
    vertex-colour layers, over fixed topology (vertices, loops, polygons). */
module Meshes {
  import opened Base

  datatype UV = UV(u: real, v: real)

  datatype Color = Color(r: real, g: real, b: real)

  /** `poly.vertices` and `poly.loop_indices`, position by position. */
  datatype Polygon = Polygon(vertices: seq<nat>, loopIndices: seq<nat>)

  /** The contents a freshly added layer is modelled with. */
  const BlankUV := UV(0.0, 0.0)
  const BlankColor := Color(1.0, 1.0, 1.0)

  function BlankUVLayer(loops: nat): seq<UV> { seq(loops, _ => BlankUV) }

  function BlankColorLayer(loops: nat): seq<Color> { seq(loops, _ => BlankColor) }

  /** The loops the polygons name. */
  function LoopsOf(polygons: seq<Polygon>): set<nat>
  {
    if polygons == [] then {}
    else LoopsOf(polygons[..|polygons| - 1]) + CornerLoops(polygons[|polygons| - 1].loopIndices)
  }

  /** The loops one polygon's corners name. */
  function CornerLoops(loopIndices: seq<nat>): set<nat>
  {
    if loopIndices == [] then {}
    else CornerLoops(loopIndices[..|loopIndices| - 1]) + {loopIndices[|loopIndices| - 1]}
  }

  /** A polygon's corners name loops of the mesh and agree with the loops' vertices. */
  predicate PolygonFits(poly: Polygon, loopVerts: seq<nat>)
  {
    && |poly.vertices| == |poly.loopIndices|
    && forall k :: 0 <= k < |poly.loopIndices| ==>
         poly.loopIndices[k] < |loopVerts| && loopVerts[poly.loopIndices[k]] == poly.vertices[k]
  }

  /** What Blender guarantees of every mesh: loops name existing vertices,
      polygons are made of loops, and every loop belongs to a polygon. */
  predicate Topology(numVerts: nat, loopVerts: seq<nat>, polygons: seq<Polygon>)
  {
    && (forall l :: 0 <= l < |loopVerts| ==> loopVerts[l] < numVerts)
    && (forall p :: 0 <= p < |polygons| ==> PolygonFits(polygons[p], loopVerts))
    && (forall l :: 0 <= l < |loopVerts| ==> l in LoopsOf(polygons))
  }

  class Mesh {
    /** `len(me.vertices)` */
    const numVerts: nat
    /** `me.loops[l].vertex_index` */
    const loopVerts: seq<nat>
    const polygons: seq<Polygon>
    /** `me.uv_layers[i].data[l].uv` */
    var uvLayers: seq<seq<UV>>
    /** `me.vertex_colors[i].data[l].color` */
    var colorLayers: seq<seq<Color>>

    ghost predicate Valid()
      reads this
    {
      && Topology(numVerts, loopVerts, polygons)
      && (forall i :: 0 <= i < |uvLayers| ==> |uvLayers[i]| == |loopVerts|)
      && (forall i :: 0 <= i < |colorLayers| ==> |colorLayers[i]| == |loopVerts|)
    }

    constructor (numVerts: nat, loopVerts: seq<nat>, polygons: seq<Polygon>,
                 uvLayers: seq<seq<UV>>, colorLayers: seq<seq<Color>>)
      requires Topology(numVerts, loopVerts, polygons)
      requires forall i :: 0 <= i < |uvLayers| ==> |uvLayers[i]| == |loopVerts|
      requires forall i :: 0 <= i < |colorLayers| ==> |colorLayers[i]| == |loopVerts|
      ensures Valid()
      ensures this.numVerts == numVerts && this.loopVerts == loopVerts && this.polygons == polygons
      ensures this.uvLayers == uvLayers && this.colorLayers == colorLayers
    {
      this.numVerts := numVerts;
      this.loopVerts := loopVerts;
      this.polygons := polygons;
      this.uvLayers := uvLayers;
      this.colorLayers := colorLayers;
    }

    /** `uv_layers.new()` */
    method NewUVLayer()
      requires Valid()
      modifies this
      ensures Valid()
      ensures uvLayers == old(uvLayers) + [BlankUVLayer(|loopVerts|)]
      ensures colorLayers == old(colorLayers)
    {
      uvLayers := uvLayers + [BlankUVLayer(|loopVerts|)];
    }

    /** `vertex_colors.new()` */
    method NewColorLayer()
      requires Valid()
      modifies this
      ensures Valid()
      ensures colorLayers == old(colorLayers) + [BlankColorLayer(|loopVerts|)]
      ensures uvLayers == old(uvLayers)
    {
      colorLayers := colorLayers + [BlankColorLayer(|loopVerts|)];
    }

    /** `uv_layers[layer].data[loop].uv = uv` */
    method SetUV(layer: nat, loop: nat, uv: UV)
      requires Valid() && layer < |uvLayers| && loop < |loopVerts|
      modifies this
      ensures Valid()
      ensures uvLayers == old(uvLayers)[layer := old(uvLayers)[layer][loop := uv]]
      ensures colorLayers == old(colorLayers)
    {
      uvLayers := uvLayers[layer := uvLayers[layer][loop := uv]];
    }

    /** `vertex_colors[layer].data[loop].color = color` */
    method SetColor(layer: nat, loop: nat, color: Color)
      requires Valid() && layer < |colorLayers| && loop < |loopVerts|
      modifies this
      ensures Valid()
      ensures colorLayers == old(colorLayers)[layer := old(colorLayers)[layer][loop := color]]
      ensures uvLayers == old(uvLayers)
    {
      colorLayers := colorLayers[layer := colorLayers[layer][loop := color]];
    }
  }

  /** The loops of the first p polygons, extended by one more polygon. */
  lemma LoopsOfStep(polygons: seq<Polygon>, p: nat)
    requires p < |polygons|
    ensures LoopsOf(polygons[..p + 1]) == LoopsOf(polygons[..p]) + CornerLoops(polygons[p].loopIndices)
  {
    assert polygons[..p + 1][..p] == polygons[..p];
  }

  /** The loops of the first j corners, extended by one more corner. */
  lemma CornerLoopsStep(loopIndices: seq<nat>, j: nat)
    requires j < |loopIndices|
    ensures CornerLoops(loopIndices[..j + 1]) == CornerLoops(loopIndices[..j]) + {loopIndices[j]}
  {
    assert loopIndices[..j + 1][..j] == loopIndices[..j];
  }
}
