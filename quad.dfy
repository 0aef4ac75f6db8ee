/** `renderQuad`: a full-screen quad whose vertex array and vertex buffer are
    created on the first call (while `quadVAO` is still 0) and reused by every
    later call; each call draws it as a four-vertex triangle strip. */
module FullScreenQuad {
  import opened GL

  /** The interleaved vertex data: per vertex a position x, y, z in normalised
      device coordinates and a texture coordinate u, v. */
  const QuadVertices: seq<real> := [
    -1.0,  1.0, 0.0, 0.0, 1.0,
    -1.0, -1.0, 0.0, 0.0, 0.0,
     1.0,  1.0, 0.0, 1.0, 1.0,
     1.0, -1.0, 0.0, 1.0, 0.0
  ]

  /** `sizeof(float)`. */
  const FloatBytes: nat := 4
  /** Floats per vertex: three of position, two of texture coordinate. */
  const VertexFloats: nat := 5
  const VertexCount: nat := 4

  /** The attributes `renderQuad` sets up: 0 is the position, 1 the texture coordinate. */
  function PositionAttrib(vbo: nat): Attrib {
    Attrib(true, vbo, 3, VertexFloats * FloatBytes, 0)
  }

  function TexCoordAttrib(vbo: nat): Attrib {
    Attrib(true, vbo, 2, VertexFloats * FloatBytes, 3 * FloatBytes)
  }

  /** The position of vertex `v` in the x, y plane. */
  function X(v: nat): real
    requires v < VertexCount
  {
    QuadVertices[VertexFloats * v]
  }

  function Y(v: nat): real
    requires v < VertexCount
  {
    QuadVertices[VertexFloats * v + 1]
  }

  /** Twice the signed area of the triangle from vertex `a` to `b` to the point
      (px, py): positive when the point is left of the edge a-b. */
  function Side(a: nat, b: nat, px: real, py: real): real
    requires a < VertexCount && b < VertexCount
  {
    (X(b) - X(a)) * (py - Y(a)) - (Y(b) - Y(a)) * (px - X(a))
  }

  /** The point (px, py) lies in the triangle of vertices `a`, `b`, `c`, edges included. */
  predicate InTriangle(a: nat, b: nat, c: nat, px: real, py: real)
    requires a < VertexCount && b < VertexCount && c < VertexCount
  {
    (Side(a, b, px, py) >= 0.0 && Side(b, c, px, py) >= 0.0 && Side(c, a, px, py) >= 0.0) ||
    (Side(a, b, px, py) <= 0.0 && Side(b, c, px, py) <= 0.0 && Side(c, a, px, py) <= 0.0)
  }

  /** The vertex data holds exactly the four vertices drawn; each lies on the z = 0
      plane at a corner of the viewport, and its texture coordinate is its position
      mapped from [-1, 1] to [0, 1]. The four corners are distinct, vertices 0 and 3
      and vertices 1 and 2 are opposite, and so the strip's two triangles (0, 1, 2)
      and (1, 2, 3) together cover every point of the viewport [-1, 1] x [-1, 1]. */
  lemma VerticesCoverViewport()
    ensures |QuadVertices| == VertexCount * VertexFloats
    ensures forall v :: 0 <= v < VertexCount ==>
      var x, y, z, s, t := QuadVertices[5 * v], QuadVertices[5 * v + 1], QuadVertices[5 * v + 2],
                           QuadVertices[5 * v + 3], QuadVertices[5 * v + 4];
      (x == -1.0 || x == 1.0) && (y == -1.0 || y == 1.0) && z == 0.0 &&
      s == (x + 1.0) / 2.0 && t == (y + 1.0) / 2.0
    ensures forall i, j :: 0 <= i < j < VertexCount ==> X(i) != X(j) || Y(i) != Y(j)
    ensures X(0) == -X(3) && Y(0) == -Y(3) && X(1) == -X(2) && Y(1) == -Y(2)
    ensures forall px: real, py: real :: -1.0 <= px <= 1.0 && -1.0 <= py <= 1.0 ==>
      InTriangle(0, 1, 2, px, py) || InTriangle(1, 2, 3, px, py)
  {
  }

  /** The two `glEnableVertexAttribArray` and `glVertexAttribPointer` pairs of the
      bound vertex array: attribute 0 is the position and attribute 1 the texture
      coordinate, both read from the bound vertex buffer. */
  method DescribeVertexLayout(gl: Context)
    requires gl.s.vertexArray != 0 && gl.s.arrayBuffer != 0
    modifies gl
    ensures var vao, vbo := old(gl.s.vertexArray), old(gl.s.arrayBuffer);
      gl.s == old(gl.s).(attribs := old(gl.s.attribs)[(vao, 0) := PositionAttrib(vbo)][(vao, 1) := TexCoordAttrib(vbo)])
  {
    gl.EnableVertexAttribArray(0);
    gl.VertexAttribPointer(0, 3, VertexFloats * FloatBytes, 0);
    gl.EnableVertexAttribArray(1);
    gl.VertexAttribPointer(1, 2, VertexFloats * FloatBytes, 3 * FloatBytes);
  }

  class Quad {
    /** `quadVAO`; 0 until the first call creates it. */
    var vao: nat
    /** `quadVBO`. */
    var vbo: nat
    /** How many times the geometry has been created. */
    ghost var creations: nat

    /** Geometry exists exactly when `vao` is nonzero, it was created once, and the
        vertex array reads `QuadVertices` from `vbo` with the layout above. */
    ghost predicate Valid(gl: State)
      reads this
    {
      creations == (if vao == 0 then 0 else 1) &&
      (vao != 0 ==>
        gl.AttribOf(vao, 0) == PositionAttrib(vbo) && gl.AttribOf(vao, 1) == TexCoordAttrib(vbo) &&
        vbo in gl.bufferData && gl.bufferData[vbo] == QuadVertices)
    }

    /** The program starts with `quadVAO = 0`. */
    constructor ()
      ensures vao == 0 && creations == 0
    {
      vao, vbo := 0, 0;
      creations := 0;
    }

    /** The body of `if (quadVAO == 0)`: generate the names, upload the vertex data
        and describe its layout. */
    method Create(gl: Context)
      requires gl.s.Valid() && vao == 0 && creations == 0
      modifies this, gl
      ensures vao == old(gl.s.nextName) && vbo == vao + 1 && creations == 1
      ensures gl.s == old(gl.s).(nextName := vbo + 1, vertexArray := vao, arrayBuffer := vbo,
                                 bufferData := old(gl.s.bufferData)[vbo := QuadVertices],
                                 attribs := old(gl.s.attribs)[(vao, 0) := PositionAttrib(vbo)][(vao, 1) := TexCoordAttrib(vbo)])
      ensures gl.s.Valid() && Valid(gl.s)
    {
      vao := gl.GenName();
      vbo := gl.GenName();
      gl.BindVertexArray(vao);
      gl.BindArrayBuffer(vbo);
      gl.BufferData(QuadVertices);
      DescribeVertexLayout(gl);
      creations := creations + 1;
    }

    /** One call of `renderQuad`. */
    method Render(gl: Context)
      requires gl.s.Valid() && Valid(gl.s)
      modifies this, gl
      ensures gl.s.Valid() && Valid(gl.s) && vao != 0 && creations == 1
      // either way: one draw of the four-vertex strip with the quad's vertex array,
      // and nothing bound for drawing or sampling changes
      ensures gl.s.draws == old(gl.s.draws) + [old(gl.s).DrawWith(vao, TRIANGLE_STRIP, 0, VertexCount)]
      ensures old(gl.s.nextName) <= gl.s.nextName && gl.s.framebuffer == old(gl.s.framebuffer) && gl.s.vertexArray == 0
      ensures gl.s.activeUnit == old(gl.s.activeUnit) && gl.s.units == old(gl.s.units) && gl.s.textures == old(gl.s.textures)
      ensures gl.s.attachments == old(gl.s.attachments) && gl.s.drawBuffers == old(gl.s.drawBuffers)
      ensures gl.s.renderbuffers == old(gl.s.renderbuffers)
      ensures gl.s.program == old(gl.s.program) && gl.s.uniforms == old(gl.s.uniforms)
      // the geometry is created, with fresh names, only by a call that finds `quadVAO == 0`
      ensures old(vao) == 0 ==>
        vao == old(gl.s.nextName) && vbo == vao + 1 &&
        gl.s == old(gl.s).(nextName := vbo + 1, vertexArray := 0, arrayBuffer := vbo,
                           bufferData := old(gl.s.bufferData)[vbo := QuadVertices],
                           attribs := old(gl.s.attribs)[(vao, 0) := PositionAttrib(vbo)][(vao, 1) := TexCoordAttrib(vbo)],
                           draws := old(gl.s.draws) + [old(gl.s).DrawWith(vao, TRIANGLE_STRIP, 0, VertexCount)])
      // a later call only binds the vertex array, draws, and unbinds it
      ensures old(vao) != 0 ==>
        vao == old(vao) && vbo == old(vbo) &&
        gl.s == old(gl.s).(vertexArray := 0, draws := old(gl.s.draws) + [old(gl.s).DrawWith(vao, TRIANGLE_STRIP, 0, VertexCount)])
    {
      if vao == 0 {
        Create(gl);
      }
      gl.BindVertexArray(vao);
      gl.DrawArrays(TRIANGLE_STRIP, 0, VertexCount);
      gl.BindVertexArray(0);
    }
  }
}
