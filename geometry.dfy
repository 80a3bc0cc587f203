/** Vectors, vertex samples and the flat RGBA pixel lists Blender images take. */
module Geometry {

  datatype Vec3 = Vec3(x: real, y: real, z: real)

  function Add(a: Vec3, b: Vec3): Vec3 { Vec3(a.x + b.x, a.y + b.y, a.z + b.z) }

  function Sub(a: Vec3, b: Vec3): Vec3 { Vec3(a.x - b.x, a.y - b.y, a.z - b.z) }

  function Scale(a: Vec3, k: real): Vec3 { Vec3(a.x * k, a.y * k, a.z * k) }

  /** One vertex of an evaluated mesh at one frame: position and normal. */
  datatype Vertex = Vertex(co: Vec3, normal: Vec3)

  /** The vertices of one sampled frame, in vertex-index order. */
  type Frame = seq<Vertex>

  /** The frames can be read against frame 0: there is at least one, and no
      frame has a vertex index that frame 0 lacks (`original[v.index]`). */
  predicate Trackable(frames: seq<Frame>)
  {
    |frames| >= 1 && forall k :: 0 <= k < |frames| ==> |frames[k]| <= |frames[0]|
  }

  /** `(c + 1) * 0.5`: maps [-1, 1] onto [0, 1]. */
  function ToUnit(c: real): real { (c + 1.0) * 0.5 }

  lemma ToUnitBounds(c: real)
    requires -1.0 <= c <= 1.0
    ensures 0.0 <= ToUnit(c) <= 1.0
  {
  }

  /** The normal packing both Unreal add-ons use: y flipped, then [-1,1] to [0,1]. */
  function PackNormal(n: Vec3): Vec3
  {
    Vec3((n.x + 1.0) * 0.5, ((n.y * -1.0) + 1.0) * 0.5, (n.z + 1.0) * 0.5)
  }

  /** What a shader computes to get the normal back. */
  function UnpackNormal(p: Vec3): Vec3
  {
    Vec3(p.x * 2.0 - 1.0, 1.0 - p.y * 2.0, p.z * 2.0 - 1.0)
  }

  lemma PackNormalRoundTrip(n: Vec3)
    ensures UnpackNormal(PackNormal(n)) == n
    ensures -1.0 <= n.x <= 1.0 && -1.0 <= n.y <= 1.0 && -1.0 <= n.z <= 1.0 ==>
      var p := PackNormal(n);
      0.0 <= p.x <= 1.0 && 0.0 <= p.y <= 1.0 && 0.0 <= p.z <= 1.0
  {
  }

  /** One pixel of a float image. */
  datatype Rgba = Rgba(r: real, g: real, b: real, a: real)

  function Channels(p: Rgba): seq<real> { [p.r, p.g, p.b, p.a] }

  /** A colour triple with alpha 1. */
  function Opaque(c: Vec3): Rgba { Rgba(c.x, c.y, c.z, 1.0) }

  /** Blender's `image.pixels` layout: the four channels of each pixel in turn. */
  function Flatten(ps: seq<Rgba>): seq<real>
  {
    if ps == [] then [] else Flatten(ps[..|ps| - 1]) + Channels(ps[|ps| - 1])
  }

  /** Appending a pixel appends its four channels. */
  lemma FlattenSnoc(ps: seq<Rgba>, p: Rgba)
    ensures Flatten(ps + [p]) == Flatten(ps) + Channels(p)
  {
    assert (ps + [p])[..|ps|] == ps;
  }

  /** Flattening one more pixel of a row appends its four channels. */
  lemma FlattenPrefixStep(ps: seq<Rgba>, i: nat)
    requires i < |ps|
    ensures Flatten(ps[..i + 1]) == Flatten(ps[..i]) + Channels(ps[i])
  {
    assert ps[..i + 1] == ps[..i] + [ps[i]];
    FlattenSnoc(ps[..i], ps[i]);
  }

  /** A list holding the flattened first i pixels of a row, extended by the
      channels of pixel i, holds the first i + 1. */
  lemma ExtendFlattened(prefix: seq<real>, acc: seq<real>, ps: seq<Rgba>, i: nat, quad: seq<real>)
    requires i < |ps|
    requires acc == prefix + Flatten(ps[..i]) && quad == Channels(ps[i])
    ensures acc + quad == prefix + Flatten(ps[..i + 1])
  {
    FlattenPrefixStep(ps, i);
  }

  /** Flattening distributes over concatenation. */
  lemma {:induction false} FlattenAppend(ps: seq<Rgba>, qs: seq<Rgba>)
    ensures Flatten(ps + qs) == Flatten(ps) + Flatten(qs)
    decreases |qs|
  {
    if qs != [] {
      var init := qs[..|qs| - 1];
      assert (ps + qs)[..|ps + qs| - 1] == ps + init;
      assert (ps + qs)[|ps + qs| - 1] == qs[|qs| - 1];
      FlattenAppend(ps, init);
    } else {
      assert ps + qs == ps;
    }
  }

  lemma {:induction false} FlattenLength(ps: seq<Rgba>)
    ensures |Flatten(ps)| == 4 * |ps|
  {
    if ps != [] {
      FlattenLength(ps[..|ps| - 1]);
    }
  }

  /** Channel c of pixel i is value 4 * i + c. */
  lemma {:induction false} FlattenAt(ps: seq<Rgba>, i: nat, c: nat)
    requires i < |ps| && c < 4
    ensures 4 * i + c < |Flatten(ps)|
    ensures Flatten(ps)[4 * i + c] == Channels(ps[i])[c]
  {
    var init := ps[..|ps| - 1];
    FlattenLength(ps);
    FlattenLength(init);
    if i < |ps| - 1 {
      FlattenAt(init, i, c);
    }
  }

  /** When every pixel is opaque, every fourth value is 1. */
  lemma FlattenAlpha(ps: seq<Rgba>)
    requires forall i :: 0 <= i < |ps| ==> ps[i].a == 1.0
    ensures forall j :: 0 <= j < |Flatten(ps)| && j % 4 == 3 ==> Flatten(ps)[j] == 1.0
  {
    FlattenLength(ps);
    forall j | 0 <= j < |Flatten(ps)| && j % 4 == 3
      ensures Flatten(ps)[j] == 1.0
    {
      FlattenAt(ps, j / 4, 3);
      assert 4 * (j / 4) + 3 == j;
    }
  }
}
