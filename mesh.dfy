/** Conversion of triangle meshes into interleaved vertex arrays: every
    point of every triangle becomes ten numbers, its position, the
    triangle's normal and the mesh colour, in input order. */
module Mesh {

  /** A flat-shaded triangle: one normal and its points. */
  datatype Triangle = Triangle(normal: seq<real>, coordinates: seq<seq<real>>)

  /** The shape object handed to the renderer. */
  datatype Shape = Shape(vertices: seq<real>)

  /** Numbers per vertex: position xyz, normal xyz, colour rgba. */
  const Stride: nat := 10

  /** Three points of three components and a three-component normal. */
  predicate WellFormed(t: Triangle)
  {
    && |t.normal| == 3
    && |t.coordinates| == 3
    && forall j | 0 <= j < |t.coordinates| :: |t.coordinates[j]| == 3
  }

  predicate AllWellFormed(triangles: seq<Triangle>)
  {
    forall i | 0 <= i < |triangles| :: WellFormed(triangles[i])
  }

  /** The numbers of one vertex. */
  function VertexRecord(point: seq<real>, normal: seq<real>, color: seq<real>): seq<real>
  {
    point + normal + color
  }

  /** The vertex records of a run of points sharing one normal. */
  function PointsVertices(points: seq<seq<real>>, normal: seq<real>, color: seq<real>): seq<real>
    decreases |points|
  {
    if points == [] then [] else VertexRecord(points[0], normal, color) + PointsVertices(points[1..], normal, color)
  }

  /** The vertex records of one triangle. */
  function TriangleVertices(t: Triangle, color: seq<real>): seq<real>
  {
    PointsVertices(t.coordinates, t.normal, color)
  }

  /** The vertex array of a list of triangles. */
  function Flatten(triangles: seq<Triangle>, color: seq<real>): seq<real>
    decreases |triangles|
  {
    if triangles == [] then [] else TriangleVertices(triangles[0], color) + Flatten(triangles[1..], color)
  }

  /** The draw count the renderer uses: `vertices.length / 10`. */
  function DrawCount(shape: Shape): nat
  {
    |shape.vertices| / Stride
  }

  // ---------------------------------------------------------------------
  // Order: conversion distributes over concatenation.

  lemma {:induction false} PointsAppend(p1: seq<seq<real>>, p2: seq<seq<real>>, normal: seq<real>, color: seq<real>)
    ensures PointsVertices(p1 + p2, normal, color) == PointsVertices(p1, normal, color) + PointsVertices(p2, normal, color)
    decreases |p1|
  {
    if p1 == [] {
      assert p1 + p2 == p2;
    } else {
      assert (p1 + p2)[1..] == p1[1..] + p2;
      PointsAppend(p1[1..], p2, normal, color);
    }
  }

  /** Converting `t1 + t2` gives the conversion of `t1` followed by that of `t2`. */
  lemma {:induction false} FlattenAppend(t1: seq<Triangle>, t2: seq<Triangle>, color: seq<real>)
    ensures Flatten(t1 + t2, color) == Flatten(t1, color) + Flatten(t2, color)
    decreases |t1|
  {
    if t1 == [] {
      assert t1 + t2 == t2;
    } else {
      assert (t1 + t2)[1..] == t1[1..] + t2;
      FlattenAppend(t1[1..], t2, color);
    }
  }

  lemma PointsSnoc(points: seq<seq<real>>, j: nat, normal: seq<real>, color: seq<real>)
    requires j < |points|
    ensures PointsVertices(points[..j + 1], normal, color) ==
            PointsVertices(points[..j], normal, color) + VertexRecord(points[j], normal, color)
  {
    assert points[..j + 1] == points[..j] + [points[j]];
    PointsAppend(points[..j], [points[j]], normal, color);
    assert PointsVertices([points[j]], normal, color) == VertexRecord(points[j], normal, color) + [];
  }

  /** Appending the next vertex record to a partial run extends the run by one point. */
  lemma ExtendRun(done: seq<real>, points: seq<seq<real>>, j: nat, normal: seq<real>, color: seq<real>)
    requires j < |points|
    ensures done + PointsVertices(points[..j], normal, color) + VertexRecord(points[j], normal, color) ==
            done + PointsVertices(points[..j + 1], normal, color)
  {
    PointsSnoc(points, j, normal, color);
  }

  lemma FlattenSnoc(triangles: seq<Triangle>, i: nat, color: seq<real>)
    requires i < |triangles|
    ensures Flatten(triangles[..i + 1], color) == Flatten(triangles[..i], color) + TriangleVertices(triangles[i], color)
  {
    assert triangles[..i + 1] == triangles[..i] + [triangles[i]];
    FlattenAppend(triangles[..i], [triangles[i]], color);
    assert Flatten([triangles[i]], color) == TriangleVertices(triangles[i], color) + [];
  }

  // ---------------------------------------------------------------------
  // Layout

  lemma {:induction false} PointsVerticesAt(points: seq<seq<real>>, normal: seq<real>, color: seq<real>, j: nat)
    requires |normal| == 3 && |color| == 4
    requires forall p | 0 <= p < |points| :: |points[p]| == 3
    requires j < |points|
    ensures |PointsVertices(points, normal, color)| == Stride * |points|
    ensures PointsVertices(points, normal, color)[Stride * j .. Stride * j + Stride] == VertexRecord(points[j], normal, color)
    decreases |points|
  {
    var head := VertexRecord(points[0], normal, color);
    var rest := points[1..];
    if j == 0 {
      if rest != [] {
        PointsVerticesAt(rest, normal, color, 0);
      }
      assert PointsVertices(points, normal, color)[..Stride] == head;
    } else {
      PointsVerticesAt(rest, normal, color, j - 1);
      var tail := PointsVertices(rest, normal, color);
      assert PointsVertices(points, normal, color)[Stride * j .. Stride * j + Stride]
          == tail[Stride * (j - 1) .. Stride * (j - 1) + Stride];
    }
  }

  /** A well-formed triangle gives three ten-number records. */
  lemma TriangleVerticesAt(t: Triangle, color: seq<real>, j: nat)
    requires WellFormed(t) && |color| == 4 && j < 3
    ensures |TriangleVertices(t, color)| == 3 * Stride
    ensures TriangleVertices(t, color)[Stride * j .. Stride * j + Stride] == VertexRecord(t.coordinates[j], t.normal, color)
  {
    PointsVerticesAt(t.coordinates, t.normal, color, j);
  }

  /** For well-formed input the array holds thirty numbers per triangle. */
  lemma {:induction false} FlattenLength(triangles: seq<Triangle>, color: seq<real>)
    requires AllWellFormed(triangles) && |color| == 4
    ensures |Flatten(triangles, color)| == 3 * Stride * |triangles|
    decreases |triangles|
  {
    if triangles != [] {
      TriangleVerticesAt(triangles[0], color, 0);
      FlattenLength(triangles[1..], color);
    }
  }

  /** Vertex `3 * i + j` of the array is point `j` of triangle `i`, with that
      triangle's normal and the colour. */
  lemma {:induction false} FlattenAt(triangles: seq<Triangle>, color: seq<real>, i: nat, j: nat)
    requires AllWellFormed(triangles) && |color| == 4
    requires i < |triangles| && j < 3
    ensures |Flatten(triangles, color)| == 3 * Stride * |triangles|
    ensures var k := 3 * i + j;
      Flatten(triangles, color)[Stride * k .. Stride * k + Stride]
        == VertexRecord(triangles[i].coordinates[j], triangles[i].normal, color)
    decreases |triangles|
  {
    var head := TriangleVertices(triangles[0], color);
    TriangleVerticesAt(triangles[0], color, j);
    var k := 3 * i + j;
    FlattenLength(triangles, color);
    if i == 0 {
      assert Flatten(triangles, color)[Stride * k .. Stride * k + Stride] == head[Stride * j .. Stride * j + Stride];
    } else {
      FlattenAt(triangles[1..], color, i - 1, j);
      var tail := Flatten(triangles[1..], color);
      FlattenLength(triangles[1..], color);
      var k' := 3 * (i - 1) + j;
      assert Stride * k == |head| + Stride * k';
      assert Flatten(triangles, color)[Stride * k .. Stride * k + Stride] == tail[Stride * k' .. Stride * k' + Stride];
    }
  }

  /** The three slots of vertex `3 * i + j`: position, then the triangle's
      normal, then the colour. */
  lemma VertexLayout(triangles: seq<Triangle>, color: seq<real>, i: nat, j: nat)
    requires AllWellFormed(triangles) && |color| == 4
    requires i < |triangles| && j < 3
    ensures var v := Flatten(triangles, color); var k := 3 * i + j;
      && Stride * k + Stride <= |v|
      && v[Stride * k .. Stride * k + 3] == triangles[i].coordinates[j]
      && v[Stride * k + 3 .. Stride * k + 6] == triangles[i].normal
      && v[Stride * k + 6 .. Stride * k + 10] == color
  {
    var v := Flatten(triangles, color);
    var k := 3 * i + j;
    FlattenLength(triangles, color);
    FlattenAt(triangles, color, i, j);
    var rec := VertexRecord(triangles[i].coordinates[j], triangles[i].normal, color);
    assert WellFormed(triangles[i]);
    assert |triangles[i].coordinates[j]| == 3;
    var slot := v[Stride * k .. Stride * k + Stride];
    assert slot == rec;
    assert rec[..3] == triangles[i].coordinates[j];
    assert rec[3..6] == triangles[i].normal;
    assert rec[6..10] == color;
    var b := Stride * k;
    assert forall m | 0 <= m < Stride :: v[b + m] == slot[m];
    assert v[b .. b + 3] == slot[..3];
    assert v[b + 3 .. b + 6] == slot[3..6];
    assert v[b + 6 .. b + 10] == slot[6..10];
  }

  // ---------------------------------------------------------------------
  // The conversion routine

  /** Walks the triangles and their points in order and appends each point,
      the triangle's normal and the colour to the vertex array. */
  method TrianglesToWebglObject(triangles: seq<Triangle>, color: seq<real>) returns (shape: Shape)
    ensures shape.vertices == Flatten(triangles, color)
    ensures triangles == [] ==> shape.vertices == []
  {
    var vertices: seq<real> := [];
    var i := 0;
    while i < |triangles|
      invariant 0 <= i <= |triangles|
      invariant vertices == Flatten(triangles[..i], color)
    {
      var triangle := triangles[i];
      ghost var done := vertices;
      var j := 0;
      while j < |triangle.coordinates|
        invariant 0 <= j <= |triangle.coordinates|
        invariant vertices == done + PointsVertices(triangle.coordinates[..j], triangle.normal, color)
      {
        var pt := triangle.coordinates[j];
        var triangleVertices: seq<real> := [];
        triangleVertices := triangleVertices + pt;
        triangleVertices := triangleVertices + triangle.normal;
        triangleVertices := triangleVertices + color;
        assert triangleVertices == VertexRecord(pt, triangle.normal, color);
        ExtendRun(done, triangle.coordinates, j, triangle.normal, color);
        vertices := vertices + triangleVertices;
        j := j + 1;
      }
      assert triangle.coordinates[..j] == triangle.coordinates;
      FlattenSnoc(triangles, i, color);
      i := i + 1;
    }
    assert triangles[..i] == triangles;
    shape := Shape(vertices);
  }
}
