/** `create_circle_vertices`: the triangle-fan mesh of the disc, with the
    trigonometry left symbolic. */
module Circle {

  /** The arguments `init_vulkan` passes. */
  const CIRCLE_RADIUS: real := 50.0
  const CIRCLE_SEGMENTS: nat := 32

  /** The vertex count hard-coded in `render`'s draw call. */
  const DRAW_VERTEX_COUNT: nat := 34

  /** Bytes per vertex: two 32-bit floats. */
  const VERTEX_STRIDE: nat := 8

  /** `Centre` is the origin; `Rim(radius, step, segments)` is the point
      `radius * (cos a, sin a)` with `a = step * 2 * PI / segments`. */
  datatype Vertex = Centre | Rim(radius: real, step: nat, segments: nat)

  /** The mesh: the centre, then the rim points for steps 0 to `segments`. */
  function CircleVertices(radius: real, segments: nat): seq<Vertex>
  {
    [Centre] + seq(segments + 1, (i: nat) => Rim(radius, i, segments))
  }

  method CreateCircleVertices(radius: real, segments: nat) returns (vertices: seq<Vertex>)
    ensures vertices == CircleVertices(radius, segments)
  {
    vertices := [Centre];
    for i := 0 to segments + 1
      invariant |vertices| == i + 1 && vertices[0] == Centre
      invariant forall k :: 0 <= k < i ==> vertices[k + 1] == Rim(radius, k, segments)
    {
      vertices := vertices + [Rim(radius, i, segments)];
    }
  }

  /** The fan has `segments + 2` vertices: the centre first and only there,
      then every step in order, ending on a full turn so that the fan closes. */
  lemma FanShape(radius: real, segments: nat)
    ensures var vs := CircleVertices(radius, segments);
      && |vs| == segments + 2
      && vs[0] == Centre
      && (forall k :: 1 <= k < |vs| ==> vs[k] == Rim(radius, k - 1, segments))
      && vs[1] == Rim(radius, 0, segments)
      && vs[|vs| - 1] == Rim(radius, segments, segments)
  {
  }

  /** The literal 34 in the draw call is the length of the mesh uploaded at
      start-up. */
  lemma DrawCountMatchesMesh()
    ensures |CircleVertices(CIRCLE_RADIUS, CIRCLE_SEGMENTS)| == DRAW_VERTEX_COUNT
  {
  }
}
