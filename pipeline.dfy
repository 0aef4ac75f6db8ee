/** The HDR bloom post-process of the render loop: the offscreen HDR target with
    its sharp and bright-pass attachments, the two ping-pong blur buffers, the
    blur loop, and the composite that tonemaps onto the window. */
module PostProcess {
  import opened GL
  import opened BlurSchedule
  import opened FullScreenQuad

  const SCR_WIDTH: nat := 800
  const SCR_HEIGHT: nat := 600

  /** The two names that one `glGen*(2, ids)` call fills in. */
  type Names2 = s: seq<nat> | |s| == 2 witness [1, 2]

  /** Every colour buffer of the pipeline: screen-sized half-float RGBA, linear
      filtering, clamped at the edges so that the blur does not wrap around. */
  const BufferTexture := Texture(Some(Image(RGBA16F, SCR_WIDTH, SCR_HEIGHT)), LINEAR, LINEAR, CLAMP_TO_EDGE, CLAMP_TO_EDGE)

  /** The storage and parameters the two colour-buffer loops give the texture bound
      on the active unit: `glTexImage2D` with no data, then four `glTexParameteri`.
      Whatever the texture was before, it ends up exactly `BufferTexture`. */
  method ConfigureBufferTexture(gl: Context)
    modifies gl
    ensures gl.s == old(gl.s).(textures := old(gl.s.textures)[old(gl.s.BoundTexture()) := BufferTexture])
  {
    ghost var t := gl.s.BoundTexture();
    ghost var m := gl.s.textures;
    gl.TexImage2D(RGBA16F, SCR_WIDTH, SCR_HEIGHT);
    gl.TexParameter(TEXTURE_MIN_FILTER, LINEAR);
    assert gl.s.textures == m[t := gl.s.textures[t]];
    gl.TexParameter(TEXTURE_MAG_FILTER, LINEAR);
    assert gl.s.textures == m[t := gl.s.textures[t]];
    gl.TexParameter(TEXTURE_WRAP_S, CLAMP_TO_EDGE);
    assert gl.s.textures == m[t := gl.s.textures[t]];
    gl.TexParameter(TEXTURE_WRAP_T, CLAMP_TO_EDGE);
    assert gl.s.textures == m[t := gl.s.textures[t]];
  }

  /** The body both colour-buffer loops share: bind texture `t`, give it the
      colour-buffer storage and parameters, and attach it at `point` of the bound
      framebuffer. */
  method AttachColorBuffer(gl: Context, point: nat, t: nat)
    requires gl.s.framebuffer != 0
    modifies gl
    ensures gl.s == old(gl.s).(units := old(gl.s.units)[old(gl.s.activeUnit) := t],
                               textures := old(gl.s.textures)[t := BufferTexture],
                               attachments := old(gl.s.attachments)[(old(gl.s.framebuffer), point) := TextureAttachment(t)])
  {
    gl.BindTexture(t);
    ConfigureBufferTexture(gl);
    gl.FramebufferTexture2D(point, t);
  }

  /** The HDR target: colour buffer i at colour attachment i (0 the full radiance,
      1 the bright pass), a depth renderbuffer, and both colour attachments
      enabled as draw buffers so one scene pass fills both. */
  ghost predicate HdrLayout(gl: State, fbo: nat, colorBuffers: Names2, depth: nat) {
    gl.AttachmentAt(fbo, COLOR_ATTACHMENT0) == Some(TextureAttachment(colorBuffers[0])) &&
    gl.AttachmentAt(fbo, COLOR_ATTACHMENT0 + 1) == Some(TextureAttachment(colorBuffers[1])) &&
    gl.AttachmentAt(fbo, DEPTH_ATTACHMENT) == Some(RenderbufferAttachment(depth)) &&
    fbo in gl.drawBuffers && gl.drawBuffers[fbo] == [COLOR_ATTACHMENT0, COLOR_ATTACHMENT0 + 1] &&
    gl.TextureOf(colorBuffers[0]) == BufferTexture && gl.TextureOf(colorBuffers[1]) == BufferTexture &&
    depth in gl.renderbuffers && gl.renderbuffers[depth] == Image(DEPTH_COMPONENT, SCR_WIDTH, SCR_HEIGHT)
  }

  /** The ping-pong buffers: framebuffer i has texture i at colour attachment 0
      (the default draw buffer), and both textures have the same storage. */
  ghost predicate PingPongLayout(gl: State, fbos: Names2, textures: Names2) {
    gl.AttachmentAt(fbos[0], COLOR_ATTACHMENT0) == Some(TextureAttachment(textures[0])) &&
    gl.AttachmentAt(fbos[1], COLOR_ATTACHMENT0) == Some(TextureAttachment(textures[1])) &&
    fbos[0] !in gl.drawBuffers && fbos[1] !in gl.drawBuffers &&
    gl.TextureOf(textures[0]) == BufferTexture && gl.TextureOf(textures[1]) == BufferTexture
  }

  /** The tables the HDR set-up leaves behind have the HDR layout. */
  lemma HdrLayoutBuilt(g: State, h: State, fbo: nat, colorBuffers: Names2, depth: nat)
    requires h.attachments == g.attachments
      [(fbo, COLOR_ATTACHMENT0) := TextureAttachment(colorBuffers[0])]
      [(fbo, COLOR_ATTACHMENT0 + 1) := TextureAttachment(colorBuffers[1])]
      [(fbo, DEPTH_ATTACHMENT) := RenderbufferAttachment(depth)]
    requires h.drawBuffers == g.drawBuffers[fbo := [COLOR_ATTACHMENT0, COLOR_ATTACHMENT0 + 1]]
    requires h.textures == g.textures[colorBuffers[0] := BufferTexture][colorBuffers[1] := BufferTexture]
    requires h.renderbuffers == g.renderbuffers[depth := Image(DEPTH_COMPONENT, SCR_WIDTH, SCR_HEIGHT)]
    ensures HdrLayout(h, fbo, colorBuffers, depth)
  {
  }

  /** The tables the ping-pong set-up leaves behind have the ping-pong layout. */
  lemma PingPongLayoutBuilt(g: State, h: State, fbos: Names2, textures: Names2)
    requires fbos[0] != fbos[1] && fbos[0] !in g.drawBuffers && fbos[1] !in g.drawBuffers
    requires h.attachments == g.attachments
      [(fbos[0], COLOR_ATTACHMENT0) := TextureAttachment(textures[0])]
      [(fbos[1], COLOR_ATTACHMENT0) := TextureAttachment(textures[1])]
    requires h.drawBuffers == g.drawBuffers
    requires h.textures == g.textures[textures[0] := BufferTexture][textures[1] := BufferTexture]
    ensures PingPongLayout(h, fbos, textures)
  {
  }

  /** The ping-pong set-up leaves the HDR target's layout alone: it attaches and
      configures only names of its own. */
  lemma HdrLayoutKept(g: State, h: State, fbo: nat, colorBuffers: Names2, depth: nat, fbos: Names2, textures: Names2)
    requires HdrLayout(g, fbo, colorBuffers, depth)
    requires fbo != fbos[0] && fbo != fbos[1] && colorBuffers[0] !in textures && colorBuffers[1] !in textures
    requires h.textures == g.textures[textures[0] := BufferTexture][textures[1] := BufferTexture]
    requires h.attachments == g.attachments[(fbos[0], COLOR_ATTACHMENT0) := TextureAttachment(textures[0])]
                                           [(fbos[1], COLOR_ATTACHMENT0) := TextureAttachment(textures[1])]
    requires h.drawBuffers == g.drawBuffers && h.renderbuffers == g.renderbuffers
    ensures HdrLayout(h, fbo, colorBuffers, depth)
  {
  }

  /** Both layouts depend only on the framebuffer, texture and renderbuffer tables. */
  lemma LayoutsKept(g: State, h: State, fbo: nat, colorBuffers: Names2, depth: nat, fbos: Names2, textures: Names2)
    requires HdrLayout(g, fbo, colorBuffers, depth) && PingPongLayout(g, fbos, textures)
    requires h.attachments == g.attachments && h.drawBuffers == g.drawBuffers
    requires h.textures == g.textures && h.renderbuffers == g.renderbuffers
    ensures HdrLayout(h, fbo, colorBuffers, depth) && PingPongLayout(h, fbos, textures)
  {
  }

  /** The attachment table after `textures[j]` is attached at `keys[j]`
      (framebuffer, attachment point) for each j in turn. */
  function AttachAll(m: map<(nat, nat), Attachment>, keys: seq<(nat, nat)>, textures: seq<nat>): map<(nat, nat), Attachment>
    requires |keys| == |textures|
  {
    if keys == [] then m
    else AttachAll(m, keys[..|keys| - 1], textures[..|textures| - 1])[keys[|keys| - 1] := TextureAttachment(textures[|textures| - 1])]
  }

  /** The texture table after each texture of `ts` in turn is given the colour-buffer set-up. */
  function StoreAll(m: map<nat, Texture>, ts: seq<nat>): map<nat, Texture> {
    if ts == [] then m else StoreAll(m, ts[..|ts| - 1])[ts[|ts| - 1] := BufferTexture]
  }

  /** The depth renderbuffer of the HDR target: a fresh renderbuffer with
      screen-sized depth storage, attached to the bound framebuffer. */
  method CreateDepthBuffer(gl: Context) returns (rboDepth: nat)
    requires gl.s.Valid() && gl.s.framebuffer != 0
    modifies gl
    ensures gl.s.Valid() && rboDepth == old(gl.s.nextName)
    ensures gl.s == old(gl.s).(
      nextName := rboDepth + 1,
      renderbuffer := rboDepth,
      renderbuffers := old(gl.s.renderbuffers)[rboDepth := Image(DEPTH_COMPONENT, SCR_WIDTH, SCR_HEIGHT)],
      attachments := old(gl.s.attachments)[(old(gl.s.framebuffer), DEPTH_ATTACHMENT) := RenderbufferAttachment(rboDepth)])
  {
    rboDepth := gl.GenName();
    gl.BindRenderbuffer(rboDepth);
    gl.RenderbufferStorage(DEPTH_COMPONENT, SCR_WIDTH, SCR_HEIGHT);
    gl.FramebufferRenderbuffer(DEPTH_ATTACHMENT, rboDepth);
  }

  /** The HDR framebuffer set-up: one framebuffer, two colour textures attached in a
      loop, a depth renderbuffer, two draw buffers; it ends by binding the window. */
  method CreateHdrTarget(gl: Context) returns (hdrFBO: nat, colorBuffers: Names2, rboDepth: nat)
    requires gl.s.Valid()
    modifies gl
    ensures gl.s.Valid()
    ensures hdrFBO == old(gl.s.nextName) && colorBuffers == [hdrFBO + 1, hdrFBO + 2] && rboDepth == hdrFBO + 3
    ensures gl.s == old(gl.s).(
      nextName := hdrFBO + 4,
      framebuffer := 0,
      units := old(gl.s.units)[old(gl.s.activeUnit) := colorBuffers[1]],
      textures := old(gl.s.textures)[colorBuffers[0] := BufferTexture][colorBuffers[1] := BufferTexture],
      attachments := old(gl.s.attachments)
        [(hdrFBO, COLOR_ATTACHMENT0) := TextureAttachment(colorBuffers[0])]
        [(hdrFBO, COLOR_ATTACHMENT0 + 1) := TextureAttachment(colorBuffers[1])]
        [(hdrFBO, DEPTH_ATTACHMENT) := RenderbufferAttachment(rboDepth)],
      drawBuffers := old(gl.s.drawBuffers)[hdrFBO := [COLOR_ATTACHMENT0, COLOR_ATTACHMENT0 + 1]],
      renderbuffer := rboDepth,
      renderbuffers := old(gl.s.renderbuffers)[rboDepth := Image(DEPTH_COMPONENT, SCR_WIDTH, SCR_HEIGHT)])
    ensures HdrLayout(gl.s, hdrFBO, colorBuffers, rboDepth)
  {
    hdrFBO := gl.GenName();
    gl.BindFramebuffer(hdrFBO);
    var t0 := gl.GenName();
    var t1 := gl.GenName();
    colorBuffers := [t0, t1];
    assert colorBuffers == [hdrFBO + 1, hdrFBO + 2];
    ghost var s0 := gl.s;
    ghost var points := [(hdrFBO, COLOR_ATTACHMENT0), (hdrFBO, COLOR_ATTACHMENT0 + 1)];
    for i := 0 to 2
      invariant gl.s == s0.(
        units := if i == 0 then s0.units else s0.units[s0.activeUnit := colorBuffers[i - 1]],
        textures := StoreAll(s0.textures, colorBuffers[..i]),
        attachments := AttachAll(s0.attachments, points[..i], colorBuffers[..i]))
    {
      AttachColorBuffer(gl, COLOR_ATTACHMENT0 + i, colorBuffers[i]);
      assert points[..i + 1][..i] == points[..i] && colorBuffers[..i + 1][..i] == colorBuffers[..i];
    }
    assert points[..2] == points && colorBuffers[..2] == colorBuffers;
    rboDepth := CreateDepthBuffer(gl);
    gl.DrawBuffers([COLOR_ATTACHMENT0, COLOR_ATTACHMENT0 + 1]);
    gl.BindFramebuffer(0);
    HdrLayoutBuilt(old(gl.s), gl.s, hdrFBO, colorBuffers, rboDepth);
  }

  /** The ping-pong set-up: two framebuffers and two textures, framebuffer i getting
      texture i at colour attachment 0. The last one stays bound. */
  method CreatePingPongBuffers(gl: Context) returns (pingpongFBO: Names2, pingpongColorbuffers: Names2)
    requires gl.s.Valid()
    modifies gl
    ensures gl.s.Valid()
    ensures pingpongFBO == [old(gl.s.nextName), old(gl.s.nextName) + 1]
    ensures pingpongColorbuffers == [old(gl.s.nextName) + 2, old(gl.s.nextName) + 3]
    ensures gl.s == old(gl.s).(
      nextName := old(gl.s.nextName) + 4,
      framebuffer := pingpongFBO[1],
      units := old(gl.s.units)[old(gl.s.activeUnit) := pingpongColorbuffers[1]],
      textures := old(gl.s.textures)[pingpongColorbuffers[0] := BufferTexture][pingpongColorbuffers[1] := BufferTexture],
      attachments := old(gl.s.attachments)
        [(pingpongFBO[0], COLOR_ATTACHMENT0) := TextureAttachment(pingpongColorbuffers[0])]
        [(pingpongFBO[1], COLOR_ATTACHMENT0) := TextureAttachment(pingpongColorbuffers[1])])
    ensures PingPongLayout(gl.s, pingpongFBO, pingpongColorbuffers)
  {
    var f0 := gl.GenName();
    var f1 := gl.GenName();
    pingpongFBO := [f0, f1];
    var t0 := gl.GenName();
    var t1 := gl.GenName();
    pingpongColorbuffers := [t0, t1];
    assert pingpongFBO == [old(gl.s.nextName), old(gl.s.nextName) + 1];
    assert pingpongColorbuffers == [old(gl.s.nextName) + 2, old(gl.s.nextName) + 3];
    ghost var s0 := gl.s;
    ghost var points := [(f0, COLOR_ATTACHMENT0), (f1, COLOR_ATTACHMENT0)];
    for i := 0 to 2
      invariant gl.s == s0.(
        framebuffer := if i == 0 then s0.framebuffer else pingpongFBO[i - 1],
        units := if i == 0 then s0.units else s0.units[s0.activeUnit := pingpongColorbuffers[i - 1]],
        textures := StoreAll(s0.textures, pingpongColorbuffers[..i]),
        attachments := AttachAll(s0.attachments, points[..i], pingpongColorbuffers[..i]))
    {
      gl.BindFramebuffer(pingpongFBO[i]);
      AttachColorBuffer(gl, COLOR_ATTACHMENT0, pingpongColorbuffers[i]);
      assert points[..i + 1][..i] == points[..i] && pingpongColorbuffers[..i + 1][..i] == pingpongColorbuffers[..i];
    }
    assert points[..2] == points && pingpongColorbuffers[..2] == pingpongColorbuffers;
    PingPongLayoutBuilt(old(gl.s), gl.s, pingpongFBO, pingpongColorbuffers);
  }

  /** The sampler units the two shader programs are given once: the blur reads
      `image` from unit 0; the composite reads `scene` from unit 0 and `bloomBlur`
      from unit 1. */
  ghost predicate SamplerUnits(gl: State, blurProgram: nat, bloomProgram: nat) {
    "image" in gl.UniformsOf(blurProgram) && gl.UniformsOf(blurProgram)["image"] == IntValue(0) &&
    "scene" in gl.UniformsOf(bloomProgram) && gl.UniformsOf(bloomProgram)["scene"] == IntValue(0) &&
    "bloomBlur" in gl.UniformsOf(bloomProgram) && gl.UniformsOf(bloomProgram)["bloomBlur"] == IntValue(1)
  }

  /** The sampler assignments made once before the render loop. */
  method ConfigureSamplers(gl: Context, blurProgram: nat, bloomProgram: nat)
    requires 0 < blurProgram && 0 < bloomProgram && blurProgram != bloomProgram
    modifies gl
    ensures gl.s == old(gl.s).(
      program := bloomProgram,
      uniforms := old(gl.s.uniforms)
        [blurProgram := old(gl.s.UniformsOf(blurProgram))["image" := IntValue(0)]]
        [bloomProgram := old(gl.s.UniformsOf(bloomProgram))["scene" := IntValue(0)]["bloomBlur" := IntValue(1)]])
    ensures SamplerUnits(gl.s, blurProgram, bloomProgram)
  {
    gl.UseProgram(blurProgram);
    gl.SetInt("image", 0);
    gl.UseProgram(bloomProgram);
    gl.SetInt("scene", 0);
    gl.SetInt("bloomBlur", 1);
  }

  /** The bindings of one blur pass: the target framebuffer, the direction
      uniform of the program in use (the blur program is made current before the
      loop), and the source texture on the active unit. */
  method BindBlurInputs(gl: Context, fbo: nat, horizontal: bool, source: nat)
    requires gl.s.Valid() && fbo < gl.s.nextName && gl.s.program != 0
    modifies gl
    ensures gl.s.Valid()
    ensures var p := old(gl.s.program);
      gl.s == old(gl.s).(
        framebuffer := fbo,
        units := old(gl.s.units)[old(gl.s.activeUnit) := source],
        uniforms := old(gl.s.uniforms)[p := old(gl.s.UniformsOf(p))["horizontal" := IntValue(BoolToIndex(horizontal))]])
  {
    gl.BindFramebuffer(fbo);
    gl.SetInt("horizontal", BoolToIndex(horizontal));
    gl.BindTexture(source);
  }

  /** The bindings of the composite pass: the bloom program, the sharp image on
      unit 0, the blurred image on unit 1 (which stays active), and the bloom
      switch and exposure as uniforms of that program. */
  method BindCompositeInputs(gl: Context, program: nat, scene: nat, blurred: nat, bloom: bool, exposure: real)
    requires program != 0
    modifies gl
    ensures gl.s == old(gl.s).(
      program := program,
      activeUnit := 1,
      units := old(gl.s.units)[0 := scene][1 := blurred],
      uniforms := old(gl.s.uniforms)
        [program := old(gl.s.UniformsOf(program))["bloom" := IntValue(BoolToIndex(bloom))]["exposure" := FloatValue(exposure)]])
  {
    gl.UseProgram(program);
    gl.ActiveTexture(0);
    gl.BindTexture(scene);
    gl.ActiveTexture(1);
    gl.BindTexture(blurred);
    gl.SetInt("bloom", BoolToIndex(bloom));
    gl.SetFloat("exposure", exposure);
  }

  class Pipeline {
    const gl: Context
    const quad: Quad
    const blurProgram: nat
    const bloomProgram: nat
    const hdrFBO: nat
    const colorBuffers: Names2
    const rboDepth: nat
    const pingpongFBO: Names2
    const pingpongColorbuffers: Names2

    /** The names the pipeline owns are distinct, and none is 0. */
    ghost predicate NamesDistinct() {
      0 < blurProgram && 0 < bloomProgram && blurProgram != bloomProgram &&
      0 < hdrFBO && 0 < pingpongFBO[0] && 0 < pingpongFBO[1] &&
      hdrFBO != pingpongFBO[0] && hdrFBO != pingpongFBO[1] && pingpongFBO[0] != pingpongFBO[1] &&
      colorBuffers[0] != colorBuffers[1] && pingpongColorbuffers[0] != pingpongColorbuffers[1] &&
      colorBuffers[0] !in pingpongColorbuffers && colorBuffers[1] !in pingpongColorbuffers
    }

    /** The driver state at the end of the set-up. The render loop never changes its
        framebuffer, texture or renderbuffer tables. */
    ghost const initial: State

    /** What the set-up establishes: distinct names, and the HDR and ping-pong
        layouts in `initial`. */
    ghost predicate Setup() {
      NamesDistinct() && initial.Valid() &&
      hdrFBO < initial.nextName && pingpongFBO[0] < initial.nextName && pingpongFBO[1] < initial.nextName &&
      HdrLayout(initial, hdrFBO, colorBuffers, rboDepth) &&
      PingPongLayout(initial, pingpongFBO, pingpongColorbuffers)
    }

    /** Driver state `g` still has the tables of `initial`, has handed out no name
        twice since, and keeps the sampler units. */
    ghost predicate ValidIn(g: State) {
      g.Valid() && initial.nextName <= g.nextName &&
      g.attachments == initial.attachments && g.drawBuffers == initial.drawBuffers &&
      g.textures == initial.textures && g.renderbuffers == initial.renderbuffers &&
      SamplerUnits(g, blurProgram, bloomProgram)
    }

    ghost predicate Valid()
      reads gl, quad
    {
      ValidIn(gl.s) && quad.Valid(gl.s)
    }

    /** The layouts hold in every state the render loop reaches. */
    lemma LayoutsIn(g: State)
      requires Setup() && ValidIn(g)
      ensures HdrLayout(g, hdrFBO, colorBuffers, rboDepth) && PingPongLayout(g, pingpongFBO, pingpongColorbuffers)
    {
    }

    /** A draw into the HDR target writes both colour buffers: the full radiance and
        the bright pass come out of one scene pass. */
    lemma SceneTargetWritesBothBuffers(g: State)
      requires Setup() && ValidIn(g)
      ensures g.Written(hdrFBO) == {colorBuffers[0], colorBuffers[1]}
    {
      LayoutsIn(g);
      g.WrittenByTwoAttachments(hdrFBO, COLOR_ATTACHMENT0, COLOR_ATTACHMENT0 + 1, colorBuffers[0], colorBuffers[1]);
    }

    /** Setting one uniform other than a sampler keeps the sampler units. */
    lemma ValidInUniform(g: State, h: State, p: nat, name: string, v: Uniform)
      requires ValidIn(g) && h.Valid() && g.nextName <= h.nextName
      requires h.attachments == g.attachments && h.drawBuffers == g.drawBuffers
      requires h.textures == g.textures && h.renderbuffers == g.renderbuffers
      requires name != "image" && name != "scene" && name != "bloomBlur"
      requires h.uniforms == g.uniforms[p := g.UniformsOf(p)[name := v]]
      ensures ValidIn(h)
    {
      assert h.UniformsOf(blurProgram)["image"] == IntValue(0);
      assert h.UniformsOf(bloomProgram)["scene"] == IntValue(0);
    }

    /** The start-up part of `main` that the post-process needs: compiling the blur
        and bloom shaders (their programs), the HDR target, the ping-pong buffers,
        the sampler units, and the quad, not created yet. Nothing is drawn. */
    constructor (gl: Context)
      requires gl.s.Valid()
      modifies gl
      ensures Setup() && Valid() && this.gl == gl && fresh(quad) && quad.vao == 0
      ensures gl.s.draws == old(gl.s.draws) && gl.s.vertexArray == old(gl.s.vertexArray)
      ensures gl.s.activeUnit == old(gl.s.activeUnit)
    {
      quad := new Quad();
      var blur := gl.GenName();
      var bloom := gl.GenName();
      var hdr, cbs, rbo := CreateHdrTarget(gl);
      ghost var g1 := gl.s;
      var fbos, texs := CreatePingPongBuffers(gl);
      HdrLayoutKept(g1, gl.s, hdr, cbs, rbo, fbos, texs);
      ghost var g2 := gl.s;
      ConfigureSamplers(gl, blur, bloom);
      LayoutsKept(g2, gl.s, hdr, cbs, rbo, fbos, texs);
      this.gl := gl;
      blurProgram, bloomProgram := blur, bloom;
      hdrFBO, colorBuffers, rboDepth := hdr, cbs, rbo;
      pingpongFBO, pingpongColorbuffers := fbos, texs;
      initial := gl.s;
    }

    /** The texture a blur pass samples for a given source. */
    function SourceTexture(r: Source): nat
      requires r.PingPong? ==> r.index < 2
    {
      match r
      case BrightPass => colorBuffers[1]
      case PingPong(i) => pingpongColorbuffers[i]
    }

    /** Draw `d` is the blur pass `s`: the quad, drawn into ping-pong framebuffer
        `s.write` (which writes exactly its texture) by the blur program with the
        direction uniform set from the flag, sampling `s.read` through `image`. */
    ghost predicate BlurDraw(d: Draw, s: Step) {
      s.write < 2 && (s.read.PingPong? ==> s.read.index < 2) &&
      d.framebuffer == pingpongFBO[s.write] && d.writes == {pingpongColorbuffers[s.write]} &&
      d.program == blurProgram &&
      "horizontal" in d.uniforms && d.uniforms["horizontal"] == IntValue(BoolToIndex(s.horizontal)) &&
      d.Sampled("image") == Some(SourceTexture(s.read)) &&
      d.mode == TRIANGLE_STRIP && d.first == 0 && d.count == VertexCount
    }

    /** Draw `d` is the composite: the quad, drawn into the window by the bloom
        program, sampling the sharp image through `scene` and `blurred` through
        `bloomBlur`, with the bloom switch and the exposure as uniforms. */
    ghost predicate CompositeDraw(d: Draw, blurred: nat, bloom: bool, exposure: real) {
      d.framebuffer == 0 && d.writes == {} && d.program == bloomProgram &&
      d.Sampled("scene") == Some(colorBuffers[0]) && d.Sampled("bloomBlur") == Some(blurred) &&
      "bloom" in d.uniforms && d.uniforms["bloom"] == IntValue(BoolToIndex(bloom)) &&
      "exposure" in d.uniforms && d.uniforms["exposure"] == FloatValue(exposure) &&
      d.mode == TRIANGLE_STRIP && d.first == 0 && d.count == VertexCount
    }

    /** From index `n0` on, `ds` holds exactly the draws of the passes `steps`, in
        order, all with vertex array `vao`. */
    ghost predicate BlurPasses(ds: seq<Draw>, n0: nat, steps: seq<Step>, vao: nat) {
      |ds| == n0 + |steps| &&
      forall k :: 0 <= k < |steps| ==> BlurDraw(ds[n0 + k], steps[k]) && ds[n0 + k].vertexArray == vao
    }

    /** Appending the draw of one more pass extends the record and keeps what came before. */
    lemma BlurPassesExtend(ds: seq<Draw>, n0: nat, steps: seq<Step>, vao: nat, d: Draw, s: Step)
      requires BlurPasses(ds, n0, steps, vao) && BlurDraw(d, s) && d.vertexArray == vao
      ensures BlurPasses(ds + [d], n0, steps + [s], vao) && (ds + [d])[..n0] == ds[..n0]
    {
    }

    /** One pass of the blur loop: bind the target framebuffer, set the direction,
        bind the source texture on unit 0, draw the quad. */
    method BlurPass(write: nat, horizontal: bool, read: Source)
      requires Setup() && Valid() && gl.s.activeUnit == 0 && gl.s.program == blurProgram
      requires write < 2 && (read.PingPong? ==> read.index < 2)
      modifies gl, quad
      ensures Valid() && gl.s.activeUnit == 0 && gl.s.program == blurProgram
      ensures gl.s.framebuffer == pingpongFBO[write] && quad.vao != 0
      ensures old(quad.vao) != 0 ==> quad.vao == old(quad.vao)
      ensures |gl.s.draws| == |old(gl.s.draws)| + 1 && gl.s.draws == old(gl.s.draws) + [gl.s.draws[|old(gl.s.draws)|]]
      ensures BlurDraw(gl.s.draws[|old(gl.s.draws)|], Step(write, horizontal, read))
      ensures gl.s.draws[|old(gl.s.draws)|].vertexArray == quad.vao
    {
      ghost var g0 := gl.s;
      ghost var step := Step(write, horizontal, read);
      BindBlurInputs(gl, pingpongFBO[write], horizontal, SourceTexture(read));
      ghost var g1 := gl.s;
      ValidInUniform(g0, g1, blurProgram, "horizontal", IntValue(BoolToIndex(horizontal)));
      quad.Render(gl);
      BoundForBlur(g0, g1, step, quad.vao);
    }

    /** What `BindBlurInputs` makes of `g0` for pass `s`, with the blur program in use. */
    ghost predicate BlurInputsBound(g0: State, g1: State, s: Step)
      requires s.write < 2 && (s.read.PingPong? ==> s.read.index < 2)
    {
      g1 == g0.(framebuffer := pingpongFBO[s.write],
                units := g0.units[g0.activeUnit := SourceTexture(s.read)],
                uniforms := g0.uniforms[blurProgram := g0.UniformsOf(blurProgram)["horizontal" := IntValue(BoolToIndex(s.horizontal))]])
    }

    /** With the inputs of blur pass `s` bound, a draw of the quad is that pass:
        its framebuffer writes exactly the ping-pong texture `s.write`. */
    lemma BoundForBlur(g0: State, g1: State, s: Step, vao: nat)
      requires Setup() && ValidIn(g0) && g0.program == blurProgram && g0.activeUnit == 0
      requires s.write < 2 && (s.read.PingPong? ==> s.read.index < 2)
      requires BlurInputsBound(g0, g1, s)
      ensures BlurDraw(g1.DrawWith(vao, TRIANGLE_STRIP, 0, VertexCount), s)
    {
      LayoutsIn(g0);
      g1.WrittenBySingleAttachment(pingpongFBO[s.write], pingpongColorbuffers[s.write]);
    }

    /** Step 2 of the frame: `amount` passes of the two-pass Gaussian blur, then the
        window framebuffer is bound again. Returns the final `horizontal` and the
        passes issued. */
    method Blur(amount: nat) returns (horizontal: bool, steps: seq<Step>)
      requires Setup() && Valid() && gl.s.activeUnit == 0
      modifies gl, quad
      ensures Valid() && gl.s.framebuffer == 0 && gl.s.activeUnit == 0 && gl.s.program == blurProgram
      ensures steps == Schedule(amount) && horizontal == StateAfter(amount).horizontal
      ensures |gl.s.draws| == |old(gl.s.draws)| + amount && gl.s.draws[..|old(gl.s.draws)|] == old(gl.s.draws)
      ensures BlurPasses(gl.s.draws, |old(gl.s.draws)|, steps, quad.vao) && (amount > 0 ==> quad.vao != 0)
    {
      gl.UseProgram(blurProgram);
      horizontal, steps := BlurLoop(amount);
      ghost var g := gl.s;
      gl.BindFramebuffer(0);
      ValidInRebound(g, 0);
    }

    /** The `for` loop of step 2, with the blur program in use: each iteration
        issues the pass `StepOf` gives for the loop's locals, then flips
        `horizontal` and clears `first_iteration`. */
    method BlurLoop(amount: nat) returns (horizontal: bool, steps: seq<Step>)
      requires Setup() && Valid() && gl.s.activeUnit == 0 && gl.s.program == blurProgram
      modifies gl, quad
      ensures Valid() && gl.s.activeUnit == 0 && gl.s.program == blurProgram
      ensures steps == Schedule(amount) && horizontal == StateAfter(amount).horizontal
      ensures |gl.s.draws| == |old(gl.s.draws)| + amount && gl.s.draws[..|old(gl.s.draws)|] == old(gl.s.draws)
      ensures BlurPasses(gl.s.draws, |old(gl.s.draws)|, steps, quad.vao) && (amount > 0 ==> quad.vao != 0)
    {
      horizontal := true;
      var firstIteration := true;
      steps := [];
      for i := 0 to amount
        invariant Valid() && gl.s.activeUnit == 0 && gl.s.program == blurProgram
        invariant LoopState(horizontal, firstIteration) == StateAfter(i) && steps == Schedule(i)
        invariant |gl.s.draws| == |old(gl.s.draws)| + i && gl.s.draws[..|old(gl.s.draws)|] == old(gl.s.draws)
        invariant i > 0 ==> quad.vao != 0
        invariant BlurPasses(gl.s.draws, |old(gl.s.draws)|, steps, quad.vao)
      {
        var write := BoolToIndex(horizontal);
        var read := if firstIteration then BrightPass else PingPong(BoolToIndex(!horizontal));
        ghost var before := gl.s.draws;
        BlurPass(write, horizontal, read);
        BlurPassesExtend(before, |old(gl.s.draws)|, steps, quad.vao, gl.s.draws[|before|], Step(write, horizontal, read));
        steps := steps + [Step(write, horizontal, read)];
        horizontal := !horizontal;
        if firstIteration {
          firstIteration := false;
        }
      }
    }

    /** Binding another generated framebuffer keeps the pipeline's invariant. */
    lemma ValidInRebound(g: State, fbo: nat)
      requires ValidIn(g) && fbo < g.nextName
      ensures ValidIn(g.(framebuffer := fbo))
    {
    }

    /** Step 3 of the frame: the sharp image on unit 0, the blurred buffer
        `pingpongColorbuffers[!horizontal]` on unit 1, the bloom switch and the
        exposure passed through as uniforms, and the quad drawn into the window. */
    method Composite(horizontal: bool, bloom: bool, exposure: real)
      requires Setup() && Valid() && gl.s.framebuffer == 0
      modifies gl, quad
      ensures Valid() && gl.s.framebuffer == 0 && gl.s.activeUnit == 1 && gl.s.program == bloomProgram
      ensures |gl.s.draws| == |old(gl.s.draws)| + 1 && gl.s.draws[..|old(gl.s.draws)|] == old(gl.s.draws)
      ensures CompositeDraw(gl.s.draws[|old(gl.s.draws)|], pingpongColorbuffers[BoolToIndex(!horizontal)], bloom, exposure)
      ensures gl.s.draws[|old(gl.s.draws)|].vertexArray == quad.vao && (old(quad.vao) != 0 ==> quad.vao == old(quad.vao))
    {
      ghost var g0 := gl.s;
      var blurred := pingpongColorbuffers[BoolToIndex(!horizontal)];
      BindCompositeInputs(gl, bloomProgram, colorBuffers[0], blurred, bloom, exposure);
      ghost var g1 := gl.s;
      CompositeInputsKeepValid(g0, g1, blurred, bloom, exposure);
      quad.Render(gl);
      BoundForComposite(g0, g1, blurred, bloom, exposure, quad.vao);
    }

    /** What `BindCompositeInputs` makes of `g0` for this pipeline. */
    ghost predicate CompositeInputsBound(g0: State, g1: State, blurred: nat, bloom: bool, exposure: real) {
      g1 == g0.(program := bloomProgram, activeUnit := 1,
                units := g0.units[0 := colorBuffers[0]][1 := blurred],
                uniforms := g0.uniforms[bloomProgram := g0.UniformsOf(bloomProgram)
                  ["bloom" := IntValue(BoolToIndex(bloom))]["exposure" := FloatValue(exposure)]])
    }

    /** Binding the composite's inputs keeps the pipeline's invariant: neither
        uniform it sets is a sampler. */
    lemma CompositeInputsKeepValid(g0: State, g1: State, blurred: nat, bloom: bool, exposure: real)
      requires ValidIn(g0) && CompositeInputsBound(g0, g1, blurred, bloom, exposure)
      ensures ValidIn(g1)
    {
      var gm := g0.(uniforms := g0.uniforms[bloomProgram := g0.UniformsOf(bloomProgram)["bloom" := IntValue(BoolToIndex(bloom))]]);
      ValidInUniform(g0, gm, bloomProgram, "bloom", IntValue(BoolToIndex(bloom)));
      ValidInUniform(gm, g1, bloomProgram, "exposure", FloatValue(exposure));
    }

    /** With the composite's inputs bound, a draw of the quad is the composite:
        into the window, which writes no texture. */
    lemma BoundForComposite(g0: State, g1: State, blurred: nat, bloom: bool, exposure: real, vao: nat)
      requires ValidIn(g0) && g0.framebuffer == 0 && CompositeInputsBound(g0, g1, blurred, bloom, exposure)
      ensures CompositeDraw(g1.DrawWith(vao, TRIANGLE_STRIP, 0, VertexCount), blurred, bloom, exposure)
    {
      g1.DefaultFramebufferWritesNoTexture();
    }

    /** The whole post-process of one frame, once the scene is in the HDR target:
        `amount` blur passes, then the composite. */
    method RenderPostProcess(amount: nat, bloom: bool, exposure: real) returns (steps: seq<Step>)
      requires Setup() && Valid() && gl.s.activeUnit == 0 && amount >= 1
      modifies gl, quad
      ensures Valid() && gl.s.framebuffer == 0 && gl.s.activeUnit == 1 && gl.s.program == bloomProgram
      ensures steps == Schedule(amount)
      ensures |gl.s.draws| == |old(gl.s.draws)| + amount + 1 && gl.s.draws[..|old(gl.s.draws)|] == old(gl.s.draws)
      ensures PostProcessDraws(gl.s.draws, |old(gl.s.draws)|, amount, quad.vao, bloom, exposure)
    {
      ghost var n0 := |gl.s.draws|;
      var horizontal;
      horizontal, steps := Blur(amount);
      ghost var blurDraws, vao := gl.s.draws, quad.vao;
      Composite(horizontal, bloom, exposure);
      assert quad.vao == vao;
      assert gl.s.draws[..n0 + amount] == blurDraws;
      assert gl.s.draws[..n0] == blurDraws[..n0];
      PostProcessDrawsFollow(gl.s.draws, n0, amount, quad.vao, bloom, exposure);
    }

    /** From index `n0` on, `ds` holds the draws of one post-process: `amount` blur
        passes following the schedule, in none of which the texture sampled is one
        written, then the composite, which samples exactly the texture the last
        blur pass wrote; all of them draw the vertex array `vao`. */
    ghost predicate PostProcessDraws(ds: seq<Draw>, n0: nat, amount: nat, vao: nat, bloom: bool, exposure: real) {
      amount >= 1 && |ds| == n0 + amount + 1 &&
      (forall k :: 0 <= k < amount ==> FeedbackFreeBlurDraw(ds[n0 + k], Schedule(amount)[k], vao)) &&
      CompositeDraw(ds[n0 + amount], pingpongColorbuffers[CompositeIndex(amount)], bloom, exposure) &&
      ds[n0 + amount].vertexArray == vao &&
      ds[n0 + amount].Sampled("bloomBlur").Some? &&
      {ds[n0 + amount].Sampled("bloomBlur").value} == ds[n0 + amount - 1].writes
    }

    /** Draw `d` is the blur pass `s` drawn with vertex array `vao`, and the texture
        it samples is not one it writes. */
    ghost predicate FeedbackFreeBlurDraw(d: Draw, s: Step, vao: nat) {
      BlurDraw(d, s) && d.vertexArray == vao &&
      d.Sampled("image").Some? && d.Sampled("image").value !in d.writes
    }

    /** The blur passes followed by the composite form a post-process: feedback-free,
        and with the composite reading the last pass's output. */
    lemma PostProcessDrawsFollow(ds: seq<Draw>, n0: nat, amount: nat, vao: nat, bloom: bool, exposure: real)
      requires NamesDistinct() && amount >= 1 && |ds| == n0 + amount + 1
      requires BlurPasses(ds[..n0 + amount], n0, Schedule(amount), vao)
      requires CompositeDraw(ds[n0 + amount], pingpongColorbuffers[CompositeIndex(amount)], bloom, exposure)
      requires ds[n0 + amount].vertexArray == vao
      ensures PostProcessDraws(ds, n0, amount, vao, bloom, exposure)
    {
      var blurs := ds[..n0 + amount];
      forall k | 0 <= k < amount
        ensures FeedbackFreeBlurDraw(ds[n0 + k], Schedule(amount)[k], vao)
      {
        assert ds[n0 + k] == blurs[n0 + k];
        NoFeedback(amount, k, ds[n0 + k]);
      }
      assert ds[n0 + amount - 1] == blurs[n0 + amount - 1];
      CompositeSamplesLastPass(amount, ds[n0 + amount - 1], ds[n0 + amount], bloom, exposure);
    }

    /** No blur pass samples the texture its framebuffer writes. */
    lemma NoFeedback(n: nat, k: nat, d: Draw)
      requires NamesDistinct() && k < n && BlurDraw(d, Schedule(n)[k])
      ensures d.Sampled("image").Some? && d.Sampled("image").value !in d.writes
    {
      ReadIsNeverWritten(n, k);
    }

    /** The first pass samples the bright-pass texture, colour attachment 1 of the HDR target. */
    lemma FirstPassSamplesBrightPass(n: nat, d: Draw)
      requires n >= 1 && BlurDraw(d, Schedule(n)[0])
      ensures d.Sampled("image") == Some(colorBuffers[1])
    {
      ReadIsNeverWritten(n, 0);
    }

    /** Each later pass samples exactly the texture the pass before it wrote. */
    lemma PassesChain(n: nat, k: nat, prev: Draw, d: Draw)
      requires 0 < k < n && BlurDraw(prev, Schedule(n)[k - 1]) && BlurDraw(d, Schedule(n)[k])
      ensures d.Sampled("image").Some? && {d.Sampled("image").value} == prev.writes
    {
      ReadsPreviousOutput(n, k);
    }

    /** The composite samples exactly the texture the last blur pass wrote. */
    lemma CompositeSamplesLastPass(n: nat, last: Draw, c: Draw, bloom: bool, exposure: real)
      requires n >= 1 && BlurDraw(last, Schedule(n)[n - 1])
      requires CompositeDraw(c, pingpongColorbuffers[CompositeIndex(n)], bloom, exposure)
      ensures c.Sampled("bloomBlur").Some? && {c.Sampled("bloomBlur").value} == last.writes
    {
      CompositeReadsLastWrite(n);
    }
  }
}
