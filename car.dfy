/** The car's mesh: a fixed table of nine flat-shaded triangles converted,
    with one blue colour, into an interleaved vertex array by the same
    nested loops as `Mesh.TrianglesToWebglObject`. */
module CarShape {
  import opened Mesh

  /** The car's colour, RGBA. */
  const CarColor: seq<real> := [0.05, 0.05, 0.9, 1.0]

  /** The car's triangles, in drawing order. */
  const CarTriangles: seq<Triangle> := [Face0, Face1, Face2, Face3, Face4, Face5, Face6, Face7, Face8]

  const Face0: Triangle :=
    Triangle([0.0, 0.0, 1.0], [
      [-0.11705460018119969, 0.0012516894548989877, 0.0],
      [-0.079654010181487933, 0.0012516894548989877, 0.0],
      [-0.079654010181487933, 0.038652279454610743, 0.0]])
  const Face1: Triangle :=
    Triangle([0.0, 0.0, 1.0], [
      [-0.086133382962100699, -0.0085091607436833284, 0.0],
      [-0.11325880186348414, -0.0085091607436833284, 0.0],
      [-0.086133382962100699, -0.035634579645066763, 0.0]])
  const Face2: Triangle :=
    Triangle([0.0, 0.0, 1.0], [
      [-0.12077234892450511, -0.017377899162263791, 0.0],
      [-0.1407723489245051, -0.017377899162263791, 0.0],
      [-0.12077234892450511, -0.037377899162263785, 0.0]])
  const Face3: Triangle :=
    Triangle([0.24253562503633297, 0.0, 0.97014250014533188], [
      [0.03, -0.05, 0.01],
      [0.07, -0.05, 0.0],
      [0.07, 0.05, 0.0]])
  const Face4: Triangle :=
    Triangle([0.0, 0.099503719020998915, 0.99503719020998915], [
      [0.07, 0.05, 0.0],
      [0.03, 0.05, 0.0],
      [0.03, -0.05, 0.01]])
  const Face5: Triangle :=
    Triangle([-0.097590007294853315, 0.19518001458970663, 0.97590007294853309], [
      [-0.07, -0.05, 0.0],
      [0.03, -0.05, 0.01],
      [-0.02, 0.0, -0.005]])
  const Face6: Triangle :=
    Triangle([0.099503719020998915, 0.0, 0.99503719020998915], [
      [-0.07, 0.05, 0.0],
      [-0.07, -0.05, 0.0],
      [-0.02, 0.0, -0.005]])
  const Face7: Triangle :=
    Triangle([0.0, -0.099503719020998915, 0.99503719020998915], [
      [-0.07, 0.05, 0.0],
      [-0.02, 0.0, -0.005],
      [0.03, 0.05, 0.0]])
  const Face8: Triangle :=
    Triangle([-0.19518001458970663, 0.097590007294853315, 0.97590007294853309], [
      [-0.02, 0.0, -0.005],
      [0.03, -0.05, 0.01],
      [0.03, 0.05, 0.0]])

  /** Every triangle of the table has three points of three components and
      a three-component normal. */
  lemma CarWellFormed()
    ensures |CarTriangles| == 9
    ensures AllWellFormed(CarTriangles)
  {
  }

  /** 9 triangles x 3 vertices x 10 numbers: 270 numbers, which the draw
      call reads as exactly 27 whole vertices. */
  lemma CarSize()
    ensures |Flatten(CarTriangles, CarColor)| == 270
    ensures |Flatten(CarTriangles, CarColor)| % Stride == 0
    ensures DrawCount(Shape(Flatten(CarTriangles, CarColor))) == 27
  {
    CarWellFormed();
    FlattenLength(CarTriangles, CarColor);
  }

  /** Vertex `k` of the car holds point `k % 3` of triangle `k / 3`, that
      triangle's normal and the car colour. */
  lemma CarVertex(k: nat)
    requires k < 27
    ensures var v := Flatten(CarTriangles, CarColor);
      && Stride * k + Stride <= |v|
      && v[Stride * k .. Stride * k + 3] == CarTriangles[k / 3].coordinates[k % 3]
      && v[Stride * k + 3 .. Stride * k + 6] == CarTriangles[k / 3].normal
      && v[Stride * k + 6 .. Stride * k + 10] == [0.05, 0.05, 0.9, 1.0]
  {
    CarWellFormed();
    assert k == 3 * (k / 3) + k % 3;
    VertexLayout(CarTriangles, CarColor, k / 3, k % 3);
  }

  /** `car()`: the inlined conversion of the table with the car colour. Its
      result is what `Mesh.TrianglesToWebglObject` gives for the same table. */
  method Car() returns (shape: Shape)
    ensures shape.vertices == Flatten(CarTriangles, CarColor)
  {
    var triangles := CarTriangles;
    var vertices: seq<real> := [];
    var i := 0;
    while i < |triangles|
      invariant 0 <= i <= |triangles|
      invariant vertices == Flatten(triangles[..i], CarColor)
    {
      var triangle := triangles[i];
      ghost var done := vertices;
      var j := 0;
      while j < |triangle.coordinates|
        invariant 0 <= j <= |triangle.coordinates|
        invariant vertices == done + PointsVertices(triangle.coordinates[..j], triangle.normal, CarColor)
      {
        var pt := triangle.coordinates[j];
        var triangleVertices: seq<real> := [];
        triangleVertices := triangleVertices + pt;
        triangleVertices := triangleVertices + triangle.normal;
        triangleVertices := triangleVertices + [0.05, 0.05, 0.9, 1.0];
        assert triangleVertices == VertexRecord(pt, triangle.normal, CarColor);
        ExtendRun(done, triangle.coordinates, j, triangle.normal, CarColor);
        vertices := vertices + triangleVertices;
        j := j + 1;
      }
      assert triangle.coordinates[..j] == triangle.coordinates;
      FlattenSnoc(triangles, i, CarColor);
      i := i + 1;
    }
    assert triangles[..i] == triangles;
    shape := Shape(vertices);
  }

  /** The inlined loops of `car()` and the general conversion routine give
      the same shape for the car's table and colour. */
  method CarMatchesConversion() returns (inlined: Shape, general: Shape)
    ensures inlined == general
    ensures inlined.vertices == Flatten(CarTriangles, CarColor)
  {
    inlined := Car();
    general := TrianglesToWebglObject(CarTriangles, CarColor);
    assert inlined.vertices == general.vertices;
  }
}

/** The obstacle's mesh: one triangle of side 0.06 in a dark colour. */
module ObstacleShape {
  import opened Mesh

  const Side: real := 0.06

  const ObstacleColor: seq<real> := [0.03, 0.03, 0.03, 1.0]

  const ObstacleTriangles: seq<Triangle> := [
    Triangle([0.0, 0.0, 1.0], [[Side, Side, Side], [Side, 0.0, Side], [0.0, 0.0, Side]])
  ]

  /** The obstacle converts to 30 numbers: one triangle, three vertices,
      each at height `Side` with normal +z and the obstacle colour. */
  lemma ObstacleShapeLayout()
    ensures |Flatten(ObstacleTriangles, ObstacleColor)| == 30
    ensures DrawCount(Shape(Flatten(ObstacleTriangles, ObstacleColor))) == 3
    ensures forall k | 0 <= k < 3 ::
      Flatten(ObstacleTriangles, ObstacleColor)[Stride * k + 2] == Side &&
      Flatten(ObstacleTriangles, ObstacleColor)[Stride * k + 3 .. Stride * k + 6] == [0.0, 0.0, 1.0] &&
      Flatten(ObstacleTriangles, ObstacleColor)[Stride * k + 6 .. Stride * k + 10] == ObstacleColor
  {
    assert WellFormed(ObstacleTriangles[0]);
    FlattenLength(ObstacleTriangles, ObstacleColor);
    forall k | 0 <= k < 3
      ensures Flatten(ObstacleTriangles, ObstacleColor)[Stride * k + 2] == Side
      ensures Flatten(ObstacleTriangles, ObstacleColor)[Stride * k + 3 .. Stride * k + 6] == [0.0, 0.0, 1.0]
      ensures Flatten(ObstacleTriangles, ObstacleColor)[Stride * k + 6 .. Stride * k + 10] == ObstacleColor
    {
      VertexLayout(ObstacleTriangles, ObstacleColor, 0, k);
      var v := Flatten(ObstacleTriangles, ObstacleColor);
      assert v[Stride * k .. Stride * k + 3][2] == v[Stride * k + 2];
      assert ObstacleTriangles[0].coordinates[k][2] == Side;
    }
  }
}
