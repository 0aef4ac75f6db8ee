/** An abstract model of the slice of OpenGL 3.3 (core profile) that the bloom
    pipeline calls. The driver is foreign code: it is represented by the state
    those calls change and by `draws`, the log of every draw call together with
    what it sampled and what it wrote. */
module GL {

  datatype Option<T> = None | Some(value: T)

  // Enumerant values of the OpenGL headers.
  const COLOR_ATTACHMENT0: nat := 0x8CE0
  const DEPTH_ATTACHMENT: nat := 0x8D00
  const RGBA16F: nat := 0x881A
  const DEPTH_COMPONENT: nat := 0x1902
  const NEAREST_MIPMAP_LINEAR: nat := 0x2702
  const LINEAR: nat := 0x2601
  const REPEAT: nat := 0x2901
  const CLAMP_TO_EDGE: nat := 0x812F
  const TEXTURE_MAG_FILTER: nat := 0x2800
  const TEXTURE_MIN_FILTER: nat := 0x2801
  const TEXTURE_WRAP_S: nat := 0x2802
  const TEXTURE_WRAP_T: nat := 0x2803
  const TRIANGLE_STRIP: nat := 0x0005

  /** Storage given to a texture or renderbuffer. */
  datatype Image = Image(internalFormat: nat, width: nat, height: nat)

  /** A 2D texture object: its storage and its sampling parameters. */
  datatype Texture = Texture(image: Option<Image>, minFilter: nat, magFilter: nat, wrapS: nat, wrapT: nat)
  {
    /** The texture with sampling parameter `pname` set to `value`. */
    function WithParameter(pname: nat, value: nat): Texture
      requires IsTextureParameter(pname)
    {
      if pname == TEXTURE_MIN_FILTER then this.(minFilter := value)
      else if pname == TEXTURE_MAG_FILTER then this.(magFilter := value)
      else if pname == TEXTURE_WRAP_S then this.(wrapS := value)
      else this.(wrapT := value)
    }
  }

  /** The four parameter names `glTexParameteri` is given here. */
  predicate IsTextureParameter(pname: nat) {
    pname == TEXTURE_MIN_FILTER || pname == TEXTURE_MAG_FILTER || pname == TEXTURE_WRAP_S || pname == TEXTURE_WRAP_T
  }

  /** A texture object as glGenTextures leaves it (the GL defaults). */
  const DefaultTexture := Texture(None, NEAREST_MIPMAP_LINEAR, LINEAR, REPEAT, REPEAT)

  datatype Attachment = TextureAttachment(texture: nat) | RenderbufferAttachment(renderbuffer: nat)

  /** The value of a uniform: only `glUniform1i` and `glUniform1f` are used. */
  datatype Uniform = IntValue(i: int) | FloatValue(f: real)

  /** One vertex attribute of a vertex array object. */
  datatype Attrib = Attrib(enabled: bool, buffer: nat, size: nat, stride: nat, offset: nat)

  const DefaultAttrib := Attrib(false, 0, 4, 0, 0)

  /** A draw call as the GPU sees it: the framebuffer bound and the textures that
      framebuffer writes, the program and its uniforms, the 2D texture bound on
      each unit, the vertex array, and the primitive range. */
  datatype Draw = Draw(framebuffer: nat, writes: set<nat>, program: nat,
                       textures: map<nat, nat>, uniforms: map<string, Uniform>,
                       vertexArray: nat, mode: nat, first: nat, count: nat)
  {
    /** The texture a sampler uniform reads: the one bound on the unit the sampler names. */
    function Sampled(sampler: string): Option<nat> {
      if sampler in uniforms && uniforms[sampler].IntValue? && uniforms[sampler].i >= 0
         && uniforms[sampler].i as nat in textures
      then Some(textures[uniforms[sampler].i as nat])
      else None
    }
  }

  /** The attachment points a framebuffer draws into, given the draw-buffer
      table: the default framebuffer draws into the window, a framebuffer object
      without a `glDrawBuffers` call into colour attachment 0. */
  function DrawPoints(drawBuffers: map<nat, seq<nat>>, fbo: nat): seq<nat> {
    if fbo == 0 then []
    else if fbo in drawBuffers then drawBuffers[fbo]
    else [COLOR_ATTACHMENT0]
  }

  /** The textures attached at the points a framebuffer draws into. */
  function WrittenTextures(drawBuffers: map<nat, seq<nat>>, attachments: map<(nat, nat), Attachment>, fbo: nat): set<nat> {
    set p | p in DrawPoints(drawBuffers, fbo) && (fbo, p) in attachments && attachments[(fbo, p)].TextureAttachment?
      :: attachments[(fbo, p)].texture
  }

  /** The part of the driver's state the pipeline touches: the name counter, the
      bindings, the objects by name, and the draw log. */
  datatype State = State(
    nextName: nat,
    framebuffer: nat,
    activeUnit: nat,
    units: map<nat, nat>,
    textures: map<nat, Texture>,
    renderbuffer: nat,
    renderbuffers: map<nat, Image>,
    attachments: map<(nat, nat), Attachment>,
    drawBuffers: map<nat, seq<nat>>,
    program: nat,
    uniforms: map<nat, map<string, Uniform>>,
    vertexArray: nat,
    arrayBuffer: nat,
    bufferData: map<nat, seq<real>>,
    attribs: map<(nat, nat), Attrib>,
    draws: seq<Draw>)
  {
    /** Names are handed out from `nextName` upwards and 0 is never one; no
        framebuffer that has not been generated yet is bound or has draw buffers. */
    ghost predicate Valid() {
      0 < nextName && framebuffer < nextName &&
      forall f :: f in drawBuffers ==> f < nextName
    }

    /** The attachment points a framebuffer draws into. */
    function DrawBuffersOf(fbo: nat): seq<nat> {
      DrawPoints(drawBuffers, fbo)
    }

    /** The textures a draw into `fbo` writes. */
    function Written(fbo: nat): set<nat> {
      WrittenTextures(drawBuffers, attachments, fbo)
    }

    /** A framebuffer with no draw buffers of its own writes exactly the texture at
        its colour attachment 0. */
    lemma WrittenBySingleAttachment(fbo: nat, t: nat)
      requires fbo != 0 && fbo !in drawBuffers
      requires AttachmentAt(fbo, COLOR_ATTACHMENT0) == Some(TextureAttachment(t))
      ensures Written(fbo) == {t}
    {
      assert DrawBuffersOf(fbo) == [COLOR_ATTACHMENT0];
      assert t in Written(fbo);
    }

    /** A framebuffer whose draw buffers are two texture attachments writes both. */
    lemma WrittenByTwoAttachments(fbo: nat, p0: nat, p1: nat, t0: nat, t1: nat)
      requires fbo != 0 && fbo in drawBuffers && drawBuffers[fbo] == [p0, p1]
      requires AttachmentAt(fbo, p0) == Some(TextureAttachment(t0))
      requires AttachmentAt(fbo, p1) == Some(TextureAttachment(t1))
      ensures Written(fbo) == {t0, t1}
    {
      assert t0 in Written(fbo) && t1 in Written(fbo);
    }

    /** The default framebuffer writes no texture. */
    lemma DefaultFramebufferWritesNoTexture()
      ensures Written(0) == {}
    {
      assert DrawBuffersOf(0) == [];
    }

    /** The draw record of a draw issued in this state with vertex array `vao`. */
    function DrawWith(vao: nat, mode: nat, first: nat, count: nat): Draw {
      Draw(framebuffer, Written(framebuffer), program, units, UniformsOf(program), vao, mode, first, count)
    }

    function UniformsOf(p: nat): map<string, Uniform> {
      if p in uniforms then uniforms[p] else map[]
    }

    function TextureOf(t: nat): Texture {
      if t in textures then textures[t] else DefaultTexture
    }

    /** The 2D texture bound on the active unit (0 when none is). */
    function BoundTexture(): nat {
      if activeUnit in units then units[activeUnit] else 0
    }

    /** What is attached at `point` of framebuffer `fbo`. */
    function AttachmentAt(fbo: nat, point: nat): Option<Attachment> {
      if (fbo, point) in attachments then Some(attachments[(fbo, point)]) else None
    }

    function AttribOf(vao: nat, index: nat): Attrib {
      if (vao, index) in attribs then attribs[(vao, index)] else DefaultAttrib
    }
  }

  /** A fresh context: nothing generated, nothing bound, nothing drawn. */
  const FreshState := State(1, 0, 0, map[], map[], 0, map[], map[], map[], 0, map[], 0, 0, map[], map[], [])

  /** The current context. Every call below changes `s` as the OpenGL 3.3 core
      profile says that call changes the corresponding driver state. */
  class Context {
    var s: State

    constructor ()
      ensures s == FreshState && s.Valid()
    {
      s := FreshState;
    }

    /** `glGen*` and `glCreateProgram` for one object: a name never handed out before. */
    method GenName() returns (name: nat)
      requires s.Valid()
      modifies this
      ensures s.Valid() && 0 < name
      ensures name == old(s.nextName) && s == old(s).(nextName := name + 1)
    {
      name := s.nextName;
      s := s.(nextName := name + 1);
    }

    /** `glBindFramebuffer(GL_FRAMEBUFFER, fbo)`; binding a name that was never
        generated is an error in the core profile. */
    method BindFramebuffer(fbo: nat)
      requires s.Valid() && fbo < s.nextName
      modifies this
      ensures s.Valid() && s == old(s).(framebuffer := fbo)
    {
      s := s.(framebuffer := fbo);
    }

    /** `glFramebufferTexture2D(GL_FRAMEBUFFER, point, GL_TEXTURE_2D, t, 0)`: an error, with
        no effect, while the default framebuffer is bound. */
    method FramebufferTexture2D(point: nat, t: nat)
      modifies this
      ensures s == if old(s.framebuffer) == 0 then old(s)
                   else old(s).(attachments := old(s.attachments)[(old(s.framebuffer), point) := TextureAttachment(t)])
    {
      if s.framebuffer != 0 {
        s := s.(attachments := s.attachments[(s.framebuffer, point) := TextureAttachment(t)]);
      }
    }

    /** `glFramebufferRenderbuffer(GL_FRAMEBUFFER, point, GL_RENDERBUFFER, rb)`. */
    method FramebufferRenderbuffer(point: nat, rb: nat)
      modifies this
      ensures s == if old(s.framebuffer) == 0 then old(s)
                   else old(s).(attachments := old(s.attachments)[(old(s.framebuffer), point) := RenderbufferAttachment(rb)])
    {
      if s.framebuffer != 0 {
        s := s.(attachments := s.attachments[(s.framebuffer, point) := RenderbufferAttachment(rb)]);
      }
    }

    /** `glDrawBuffers(n, points)` on the bound framebuffer object. */
    method DrawBuffers(points: seq<nat>)
      requires s.Valid()
      modifies this
      ensures s.Valid()
      ensures s == if old(s.framebuffer) == 0 then old(s)
                   else old(s).(drawBuffers := old(s.drawBuffers)[old(s.framebuffer) := points])
    {
      if s.framebuffer != 0 {
        s := s.(drawBuffers := s.drawBuffers[s.framebuffer := points]);
      }
    }

    /** `glBindRenderbuffer(GL_RENDERBUFFER, rb)`. */
    method BindRenderbuffer(rb: nat)
      modifies this
      ensures s == old(s).(renderbuffer := rb)
    {
      s := s.(renderbuffer := rb);
    }

    /** `glRenderbufferStorage(GL_RENDERBUFFER, format, width, height)`. */
    method RenderbufferStorage(format: nat, width: nat, height: nat)
      modifies this
      ensures s == old(s).(renderbuffers := old(s.renderbuffers)[old(s.renderbuffer) := Image(format, width, height)])
    {
      s := s.(renderbuffers := s.renderbuffers[s.renderbuffer := Image(format, width, height)]);
    }

    /** `glActiveTexture(GL_TEXTURE0 + unit)`. */
    method ActiveTexture(unit: nat)
      modifies this
      ensures s == old(s).(activeUnit := unit)
    {
      s := s.(activeUnit := unit);
    }

    /** `glBindTexture(GL_TEXTURE_2D, t)`: binds `t` on the active unit. */
    method BindTexture(t: nat)
      modifies this
      ensures s == old(s).(units := old(s.units)[old(s.activeUnit) := t])
    {
      s := s.(units := s.units[s.activeUnit := t]);
    }

    /** `glTexImage2D(GL_TEXTURE_2D, 0, format, width, height, 0, ..., NULL)` on the bound texture. */
    method TexImage2D(format: nat, width: nat, height: nat)
      modifies this
      ensures var t := old(s.BoundTexture());
        s == old(s).(textures := old(s.textures)[t := old(s.TextureOf(t)).(image := Some(Image(format, width, height)))])
    {
      var t := s.BoundTexture();
      s := s.(textures := s.textures[t := s.TextureOf(t).(image := Some(Image(format, width, height)))]);
    }

    /** `glTexParameteri(GL_TEXTURE_2D, pname, value)` on the bound texture; an
        unknown parameter name is an error with no effect. */
    method TexParameter(pname: nat, value: nat)
      modifies this
      ensures var t := old(s.BoundTexture());
        s == if IsTextureParameter(pname) then old(s).(textures := old(s.textures)[t := old(s.TextureOf(t)).WithParameter(pname, value)])
             else old(s)
    {
      if IsTextureParameter(pname) {
        var t := s.BoundTexture();
        s := s.(textures := s.textures[t := s.TextureOf(t).WithParameter(pname, value)]);
      }
    }

    /** `glUseProgram(p)`, what `Shader::use` issues. */
    method UseProgram(p: nat)
      modifies this
      ensures s == old(s).(program := p)
    {
      s := s.(program := p);
    }

    /** `glUniform1i` on the program in use (`Shader::setInt`); without a program
        in use it is an error with no effect. */
    method SetInt(name: string, value: int)
      modifies this
      ensures var p := old(s.program);
        s == if p == 0 then old(s)
             else old(s).(uniforms := old(s.uniforms)[p := old(s.UniformsOf(p))[name := IntValue(value)]])
    {
      if s.program != 0 {
        s := s.(uniforms := s.uniforms[s.program := s.UniformsOf(s.program)[name := IntValue(value)]]);
      }
    }

    /** `glUniform1f` on the program in use (`Shader::setFloat`). */
    method SetFloat(name: string, value: real)
      modifies this
      ensures var p := old(s.program);
        s == if p == 0 then old(s)
             else old(s).(uniforms := old(s.uniforms)[p := old(s.UniformsOf(p))[name := FloatValue(value)]])
    {
      if s.program != 0 {
        s := s.(uniforms := s.uniforms[s.program := s.UniformsOf(s.program)[name := FloatValue(value)]]);
      }
    }

    /** `glBindVertexArray(vao)`. */
    method BindVertexArray(vao: nat)
      modifies this
      ensures s == old(s).(vertexArray := vao)
    {
      s := s.(vertexArray := vao);
    }

    /** `glBindBuffer(GL_ARRAY_BUFFER, b)`. */
    method BindArrayBuffer(b: nat)
      modifies this
      ensures s == old(s).(arrayBuffer := b)
    {
      s := s.(arrayBuffer := b);
    }

    /** `glBufferData(GL_ARRAY_BUFFER, ..., data, GL_STATIC_DRAW)` into the bound buffer. */
    method BufferData(data: seq<real>)
      modifies this
      ensures var b := old(s.arrayBuffer);
        s == if b == 0 then old(s) else old(s).(bufferData := old(s.bufferData)[b := data])
    {
      if s.arrayBuffer != 0 {
        s := s.(bufferData := s.bufferData[s.arrayBuffer := data]);
      }
    }

    /** `glEnableVertexAttribArray(index)` on the bound vertex array. */
    method EnableVertexAttribArray(index: nat)
      modifies this
      ensures var v := old(s.vertexArray);
        s == if v == 0 then old(s)
             else old(s).(attribs := old(s.attribs)[(v, index) := old(s.AttribOf(v, index)).(enabled := true)])
    {
      if s.vertexArray != 0 {
        s := s.(attribs := s.attribs[(s.vertexArray, index) := s.AttribOf(s.vertexArray, index).(enabled := true)]);
      }
    }

    /** `glVertexAttribPointer(index, size, GL_FLOAT, GL_FALSE, stride, offset)`: the
        attribute reads the bound array buffer (stride and offset in bytes). */
    method VertexAttribPointer(index: nat, size: nat, stride: nat, offset: nat)
      modifies this
      ensures var v, b := old(s.vertexArray), old(s.arrayBuffer);
        s == if v == 0 || b == 0 then old(s)
             else old(s).(attribs := old(s.attribs)[(v, index) := old(s.AttribOf(v, index)).(buffer := b, size := size, stride := stride, offset := offset)])
    {
      if s.vertexArray != 0 && s.arrayBuffer != 0 {
        var a := s.AttribOf(s.vertexArray, index).(buffer := s.arrayBuffer, size := size, stride := stride, offset := offset);
        s := s.(attribs := s.attribs[(s.vertexArray, index) := a]);
      }
    }

    /** `glDrawArrays(mode, first, count)`: logged with what it samples and writes. */
    method DrawArrays(mode: nat, first: nat, count: nat)
      modifies this
      ensures s == old(s).(draws := old(s.draws) + [old(s).DrawWith(old(s.vertexArray), mode, first, count)])
    {
      s := s.(draws := s.draws + [s.DrawWith(s.vertexArray, mode, first, count)]);
    }
  }
}
