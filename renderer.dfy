/**
 * The draw-call batching engine of src/renderer.rs: an append-only registry
 * of draw calls, each with a CPU-side quad queue and a GPU buffer whose
 * capacity grows by the upload policy of `render`.
 *
 * The OpenGL context is modelled as an append-only trace of the commands the
 * renderer issues, and GL object names as a counter (`nextName`) from which
 * every `Gen*`/`CreateProgram` takes the next unused name.
 */
module Renderer {
  import opened Geometry
  import opened Seqs

  const TEXTURE_COUNT: nat := 2
  const DRAW_CALL_INDEX_UI: nat := 0
  const DRAW_CALL_INDEX_TEXT: nat := 1

  /** A GL object name (`GLuint`); 0 names no object. */
  type Name = nat

  // ---------------------------------------------------------------------------
  // Shader sources

  datatype ShaderKind = TexQuadShader | TextShader
  datatype ShaderStage = VertexStage | FragmentStage

  /** One embedded shader file: `shaders/<kind>.<stage>`, or under `shaders/legacy/`. */
  datatype ShaderFile = ShaderFile(kind: ShaderKind, stage: ShaderStage, legacy: bool)

  const VERTEX_SHADER_SOURCE: seq<ShaderFile> :=
    [ShaderFile(TexQuadShader, VertexStage, false), ShaderFile(TextShader, VertexStage, false)]
  const FRAGMENT_SHADER_SOURCE: seq<ShaderFile> :=
    [ShaderFile(TexQuadShader, FragmentStage, false), ShaderFile(TextShader, FragmentStage, false)]
  const VERTEX_SHADER_SOURCE_210: seq<ShaderFile> :=
    [ShaderFile(TexQuadShader, VertexStage, true), ShaderFile(TextShader, VertexStage, true)]
  const FRAGMENT_SHADER_SOURCE_210: seq<ShaderFile> :=
    [ShaderFile(TexQuadShader, FragmentStage, true), ShaderFile(TextShader, FragmentStage, true)]

  /** The shader kind of built-in draw call `i`: UI sprites at 0, text at 1. */
  function BuiltInKind(i: nat): ShaderKind
  {
    if i == DRAW_CALL_INDEX_UI then TexQuadShader else TextShader
  }

  /** The vertex shader for slot `i`: the legacy file exactly when `opengl21`. */
  function VertexSource(i: nat, opengl21: bool): (f: ShaderFile)
    requires i < TEXTURE_COUNT
    ensures f == ShaderFile(BuiltInKind(i), VertexStage, opengl21)
  {
    if opengl21 then VERTEX_SHADER_SOURCE_210[i] else VERTEX_SHADER_SOURCE[i]
  }

  /** The fragment shader for slot `i`: the legacy file exactly when `opengl21`. */
  function FragmentSource(i: nat, opengl21: bool): (f: ShaderFile)
    requires i < TEXTURE_COUNT
    ensures f == ShaderFile(BuiltInKind(i), FragmentStage, opengl21)
  {
    if opengl21 then FRAGMENT_SHADER_SOURCE_210[i] else FRAGMENT_SHADER_SOURCE[i]
  }

  // ---------------------------------------------------------------------------
  // Registry entities

  /**
   * `ShaderProgram`: the program name and the files it was built from. The
   * uniform and attribute locations are answers of the GL driver and are not
   * modelled.
   */
  datatype ShaderProgram = ShaderProgram(program: Name, vert: ShaderFile, frag: ShaderFile)

  /** `Attributes`: buffer, vertex-array object (0 in legacy mode), queue and capacity in bytes. */
  datatype Attributes = Attributes(vbo: Name, vao: Name, vboData: seq<TexQuad>, allocatedVboDataSize: int)

  datatype DrawCall = DrawCall(texture: Name, program: ShaderProgram, attributes: Attributes)

  /** A decoded image: `load_image` is assumed to succeed (the source unwraps it). */
  datatype Image = Image(width: int, height: int)

  datatype Capability = Texture2D | DepthTest | Blend
  datatype PixelFormat = Rgba | Red

  /** The GL commands the renderer issues, with only the arguments the model tracks. */
  datatype GlCommand =
    | Enable(cap: Capability)
    | BlendFuncAlpha
    | LinkProgram(program: Name, vert: ShaderFile, frag: ShaderFile)
    | UseProgram(program: Name)
    | GenVertexArray(vao: Name)
    | BindVertexArray(vao: Name)
    | GenBuffer(vbo: Name)
    | BindBuffer(vbo: Name)
    | EnableAttribs(program: Name)
    | DisableAttribs(program: Name)
    | GenTexture(texture: Name)
    | BindTexture(texture: Name)
    | TexImage(format: PixelFormat, width: int, height: int)
    | UploadProjection(program: Name, viewportWidth: real, viewportHeight: real)
    | BufferSubData(size: int)
    | BufferData(size: int)
    | DrawArrays(count: int)

  // ---------------------------------------------------------------------------
  // Creation, as pure functions of the first free GL name

  /** GL names `create_attributes` takes: a buffer, plus a vertex array when not legacy. */
  function AttributeNames(opengl21: bool): nat
  {
    if opengl21 then 1 else 2
  }

  /** Names one draw call takes: program, attributes, texture. */
  function NamesPerDrawCall(opengl21: bool): nat
  {
    1 + AttributeNames(opengl21) + 1
  }

  /** What `create_attributes` returns when the driver hands out names from `base` on. */
  function NewAttributes(base: Name, opengl21: bool): (a: Attributes)
    requires base >= 1
    ensures a.vboData == [] && a.allocatedVboDataSize == 0
    ensures a.vao == 0 <==> opengl21
    ensures base <= a.vbo < base + AttributeNames(opengl21)
    ensures !opengl21 ==> base <= a.vao < base + AttributeNames(opengl21)
  {
    if opengl21 then Attributes(base, 0, [], 0) else Attributes(base + 1, base, [], 0)
  }

  /** The GL commands of `create_attributes`. */
  function AttributeCommands(base: Name, opengl21: bool, program: Name): seq<GlCommand>
  {
    if opengl21 then [GenBuffer(base), BindBuffer(base)]
    else [GenVertexArray(base), BindVertexArray(base), GenBuffer(base + 1), BindBuffer(base + 1), EnableAttribs(program)]
  }

  /** A vertex-array object is generated, and attributes enabled, only outside legacy mode. */
  lemma AttributeSetupOnlyWhenModern(base: Name, opengl21: bool, program: Name)
    ensures (exists v :: GenVertexArray(v) in AttributeCommands(base, opengl21, program)) <==> !opengl21
    ensures EnableAttribs(program) in AttributeCommands(base, opengl21, program) <==> !opengl21
  {
    var cmds := AttributeCommands(base, opengl21, program);
    if !opengl21 {
      assert cmds[0] == GenVertexArray(base);
    }
  }

  /** The draw call `create_draw_call` (or one turn of `initialize_renderer`'s loop) builds. */
  function NewDrawCall(base: Name, vert: ShaderFile, frag: ShaderFile, opengl21: bool): DrawCall
    requires base >= 1
  {
    DrawCall(base + 1 + AttributeNames(opengl21), ShaderProgram(base, vert, frag), NewAttributes(base + 1, opengl21))
  }

  /** The GL commands of `create_program`, `create_attributes` and `create_texture`, in that order. */
  function NewDrawCallCommands(base: Name, vert: ShaderFile, frag: ShaderFile, opengl21: bool): seq<GlCommand>
  {
    var texture := base + 1 + AttributeNames(opengl21);
    [LinkProgram(base, vert, frag), UseProgram(base)]
      + AttributeCommands(base + 1, opengl21, base)
      + [GenTexture(texture), BindTexture(texture)]
  }

  /** Every handle of `c` is a name handed out below `next`; the texture and buffer are real objects. */
  predicate NamesBelow(c: DrawCall, next: Name)
  {
    && 0 < c.texture < next
    && 0 < c.attributes.vbo < next
    && c.attributes.vao < next
    && 0 < c.program.program < next
  }

  /** A new draw call owns fresh names and starts with an empty queue and no buffer storage. */
  lemma NewDrawCallIsFresh(base: Name, vert: ShaderFile, frag: ShaderFile, opengl21: bool)
    requires base >= 1
    ensures var c := NewDrawCall(base, vert, frag, opengl21);
      && NamesBelow(c, base + NamesPerDrawCall(opengl21))
      && base <= c.texture && base <= c.attributes.vbo && base <= c.program.program
      && c.attributes.vboData == [] && c.attributes.allocatedVboDataSize == 0
      && (c.attributes.vao == 0 <==> opengl21)
  {
  }

  /**
   * The first `n` built-in draw calls of `initialize_renderer`: slot `k` is
   * compiled from slot `k`'s shader files and takes the names right after
   * those of slot `k - 1`, the first taking names from `base`.
   */
  function BuiltInCalls(base: Name, opengl21: bool, n: nat): (r: seq<DrawCall>)
    requires base >= 1 && n <= TEXTURE_COUNT
    ensures |r| == n
    ensures forall k :: 0 <= k < n ==>
      r[k] == NewDrawCall(base + k * NamesPerDrawCall(opengl21), VertexSource(k, opengl21), FragmentSource(k, opengl21), opengl21)
  {
    if n == 0 then []
    else
      var k := n - 1;
      BuiltInCalls(base, opengl21, k)
      + [NewDrawCall(base + k * NamesPerDrawCall(opengl21), VertexSource(k, opengl21), FragmentSource(k, opengl21), opengl21)]
  }

  /** The GL commands of the first `n` turns of `initialize_renderer`'s loop. */
  function BuiltInCommands(base: Name, opengl21: bool, n: nat): seq<GlCommand>
    requires n <= TEXTURE_COUNT
  {
    if n == 0 then []
    else
      var k := n - 1;
      BuiltInCommands(base, opengl21, k)
      + NewDrawCallCommands(base + k * NamesPerDrawCall(opengl21), VertexSource(k, opengl21), FragmentSource(k, opengl21), opengl21)
  }

  /** One more turn of `initialize_renderer`'s loop appends built-in `i` to the registry. */
  lemma BuiltInCallsStep(prefix: seq<DrawCall>, before: seq<DrawCall>, after: seq<DrawCall>,
                         base: Name, opengl21: bool, i: nat)
    requires base >= 1 && i < TEXTURE_COUNT
    requires before == prefix + BuiltInCalls(base, opengl21, i)
    requires after == before
      + [NewDrawCall(base + i * NamesPerDrawCall(opengl21), VertexSource(i, opengl21), FragmentSource(i, opengl21), opengl21)]
    ensures after == prefix + BuiltInCalls(base, opengl21, i + 1)
  {
    AppendAssoc(prefix, BuiltInCalls(base, opengl21, i),
      [NewDrawCall(base + i * NamesPerDrawCall(opengl21), VertexSource(i, opengl21), FragmentSource(i, opengl21), opengl21)]);
  }

  /** One more turn of `initialize_renderer`'s loop appends the commands that create built-in `i`. */
  lemma BuiltInCommandsStep(start: seq<GlCommand>, before: seq<GlCommand>, after: seq<GlCommand>,
                            base: Name, opengl21: bool, i: nat)
    requires i < TEXTURE_COUNT
    requires before == start + BuiltInCommands(base, opengl21, i)
    requires after == before
      + NewDrawCallCommands(base + i * NamesPerDrawCall(opengl21), VertexSource(i, opengl21), FragmentSource(i, opengl21), opengl21)
    ensures after == start + BuiltInCommands(base, opengl21, i + 1)
  {
    AppendAssoc(start, BuiltInCommands(base, opengl21, i),
      NewDrawCallCommands(base + i * NamesPerDrawCall(opengl21), VertexSource(i, opengl21), FragmentSource(i, opengl21), opengl21));
  }

  /**
   * The two built-ins: UI sprites at slot 0 and text at slot 1, both compiled
   * from the legacy shader files exactly when `opengl21`, each with its own
   * texture and an empty queue.
   */
  lemma BuiltInCallsAreUiThenText(base: Name, opengl21: bool)
    requires base >= 1
    ensures var r := BuiltInCalls(base, opengl21, TEXTURE_COUNT);
      && r[DRAW_CALL_INDEX_UI].program.vert.kind == TexQuadShader
      && r[DRAW_CALL_INDEX_UI].program.frag.kind == TexQuadShader
      && r[DRAW_CALL_INDEX_TEXT].program.vert.kind == TextShader
      && r[DRAW_CALL_INDEX_TEXT].program.frag.kind == TextShader
      && (forall i :: 0 <= i < TEXTURE_COUNT ==>
            && r[i].program.vert.legacy == opengl21 && r[i].program.frag.legacy == opengl21
            && r[i].attributes.vboData == [] && r[i].attributes.allocatedVboDataSize == 0)
      && r[DRAW_CALL_INDEX_UI].texture != r[DRAW_CALL_INDEX_TEXT].texture
  {
    var r := BuiltInCalls(base, opengl21, TEXTURE_COUNT);
    assert r[0] == BuiltInCalls(base, opengl21, 1)[0];
    NewDrawCallIsFresh(base, VertexSource(0, opengl21), FragmentSource(0, opengl21), opengl21);
    NewDrawCallIsFresh(base + NamesPerDrawCall(opengl21), VertexSource(1, opengl21), FragmentSource(1, opengl21), opengl21);
  }

  /** The global GL state `initialize_renderer` sets up. */
  function GlobalStateCommands(opengl21: bool): seq<GlCommand>
  {
    (if opengl21 then [Enable(Texture2D)] else []) + [Enable(DepthTest), Enable(Blend), BlendFuncAlpha]
  }

  // ---------------------------------------------------------------------------
  // Geometry queueing

  /** The registry after `q` is pushed onto the queue of draw call `i`. */
  function PushQuad(cs: seq<DrawCall>, i: nat, q: TexQuad): (r: seq<DrawCall>)
    requires i < |cs|
    ensures |r| == |cs|
    ensures forall j :: 0 <= j < |cs| && j != i ==> r[j] == cs[j]
    ensures r[i].attributes.vboData == cs[i].attributes.vboData + [q]
    ensures r[i].texture == cs[i].texture && r[i].program == cs[i].program
    ensures r[i].attributes.vbo == cs[i].attributes.vbo && r[i].attributes.vao == cs[i].attributes.vao
    ensures r[i].attributes.allocatedVboDataSize == cs[i].attributes.allocatedVboDataSize
  {
    var a := cs[i].attributes;
    cs[i := cs[i].(attributes := a.(vboData := a.vboData + [q]))]
  }

  // ---------------------------------------------------------------------------
  // The frame loop of `render`

  /** The size in bytes of a draw call's queued geometry: `size_of::<TexQuad>() * len`. */
  function PayloadBytes(a: Attributes): int
  {
    QUAD_BYTES * |a.vboData|
  }

  function Max(a: int, b: int): int
  {
    if a < b then b else a
  }

  /**
   * The buffer policy: update in place when the payload is strictly smaller
   * than the buffer, otherwise reallocate it at exactly the payload's size.
   */
  function Upload(payload: int, capacity: int): (r: (GlCommand, int))
    ensures r.1 == Max(capacity, payload)
    ensures r.0 == BufferSubData(payload) <==> payload < capacity
    ensures r.0 == BufferData(payload) <==> capacity <= payload
    ensures r.0.BufferSubData? ==> r.1 == capacity
  {
    if payload < capacity then (BufferSubData(payload), capacity) else (BufferData(payload), payload)
  }

  /** A draw call after `render` has handled it. */
  function FlushedCall(c: DrawCall): (r: DrawCall)
    ensures r.attributes.vboData == []
    ensures r.texture == c.texture && r.program == c.program
    ensures r.attributes.vbo == c.attributes.vbo && r.attributes.vao == c.attributes.vao
    ensures r.attributes.allocatedVboDataSize >= c.attributes.allocatedVboDataSize
    ensures c.attributes.vboData != [] ==> r.attributes.allocatedVboDataSize >= PayloadBytes(c.attributes)
    ensures c.attributes.vboData == [] ==> r == c
  {
    if c.attributes.vboData == [] then c
    else
      var newCapacity := Upload(PayloadBytes(c.attributes), c.attributes.allocatedVboDataSize).1;
      c.(attributes := c.attributes.(vboData := [], allocatedVboDataSize := newCapacity))
  }

  /** The registry after `render`: draw call `i` is draw call `i` flushed, for every `i`. */
  function FlushedCalls(cs: seq<DrawCall>): (r: seq<DrawCall>)
    ensures |r| == |cs|
    ensures forall i {:trigger r[i]} :: 0 <= i < |cs| ==> r[i] == FlushedCall(cs[i])
  {
    if cs == [] then []
    else
      var init := cs[..|cs| - 1];
      assert forall i :: 0 <= i < |init| ==> cs[i] == init[i];
      FlushedCalls(init) + [FlushedCall(cs[|cs| - 1])]
  }

  /** Every draw call's names were handed out before `next`, and no two draw calls share a texture. */
  ghost predicate ValidRegistry(cs: seq<DrawCall>, next: Name)
  {
    && (forall i :: 0 <= i < |cs| ==> NamesBelow(cs[i], next))
    && (forall i, j :: 0 <= i < j < |cs| ==> cs[i].texture != cs[j].texture)
  }

  /** `render` keeps every draw call's names, so a valid registry stays valid. */
  lemma FlushedCallsKeepNames(cs: seq<DrawCall>, next: Name)
    requires ValidRegistry(cs, next)
    ensures ValidRegistry(FlushedCalls(cs), next)
  {
  }

  /**
   * After `render` every queue is empty, every draw call keeps its handles,
   * and its capacity has not shrunk and covers any payload it just uploaded.
   */
  lemma RenderEmptiesEveryQueue(cs: seq<DrawCall>)
    ensures var r := FlushedCalls(cs);
      forall i :: 0 <= i < |cs| ==>
        && r[i].attributes.vboData == []
        && r[i].texture == cs[i].texture && r[i].program == cs[i].program
        && r[i].attributes.vbo == cs[i].attributes.vbo && r[i].attributes.vao == cs[i].attributes.vao
        && r[i].attributes.allocatedVboDataSize >= cs[i].attributes.allocatedVboDataSize
        && (cs[i].attributes.vboData != [] ==> r[i].attributes.allocatedVboDataSize >= PayloadBytes(cs[i].attributes))
  {
  }

  /** Flushing call `i` of a registry whose first `i` calls are flushed extends the flushed prefix by one. */
  lemma FlushStep(registry: seq<DrawCall>, i: nat, before: seq<DrawCall>, after: seq<DrawCall>)
    requires i < |registry|
    requires before == FlushedCalls(registry[..i]) + registry[i..]
    requires after == before[i := FlushedCall(before[i])]
    ensures after == FlushedCalls(registry[..i + 1]) + registry[i + 1..]
  {
    var done := FlushedCalls(registry[..i]);
    assert registry[..i + 1][..i] == registry[..i];
    assert FlushedCalls(registry[..i + 1]) == done + [FlushedCall(registry[i])];
    assert before[i] == registry[i];
    assert after == done + [FlushedCall(registry[i])] + registry[i + 1..];
  }

  /** With every draw call flushed, the prefix forms are the whole registry's. */
  lemma FlushedWhole(registry: seq<DrawCall>, opengl21: bool, width: real, height: real)
    ensures FlushedCalls(registry[..|registry|]) + registry[|registry|..] == FlushedCalls(registry)
    ensures RenderCommands(registry[..|registry|], opengl21, width, height) == RenderCommands(registry, opengl21, width, height)
  {
    assert registry[..|registry|] == registry && registry[|registry|..] == [];
  }

  /** What `render` binds before uploading: program, projection, vertex array (modern), texture, buffer. */
  function SetupCommands(c: DrawCall, opengl21: bool, width: real, height: real): seq<GlCommand>
  {
    var p := c.program.program;
    [UseProgram(p), UploadProjection(p, width, height)]
      + (if opengl21 then [] else [BindVertexArray(c.attributes.vao)])
      + [BindTexture(c.texture), BindBuffer(c.attributes.vbo)]
  }

  /** The upload `render` issues for a draw call under the buffer policy. */
  function UploadCommand(c: DrawCall): GlCommand
  {
    Upload(PayloadBytes(c.attributes), c.attributes.allocatedVboDataSize).0
  }

  /** The draw of `6 × len` vertices, bracketed by attribute enable/disable in legacy mode. */
  function DrawCommands(c: DrawCall, opengl21: bool): seq<GlCommand>
  {
    var p := c.program.program;
    (if opengl21 then [EnableAttribs(p)] else [])
      + [DrawArrays(|c.attributes.vboData| * 6)]
      + (if opengl21 then [DisableAttribs(p)] else [])
  }

  /** The GL commands `render` issues for one draw call, in the source's order. */
  function CallCommands(c: DrawCall, opengl21: bool, width: real, height: real): seq<GlCommand>
  {
    if c.attributes.vboData == [] then []
    else SetupCommands(c, opengl21, width, height) + [UploadCommand(c)] + DrawCommands(c, opengl21)
  }

  /** The GL commands `render` issues for the calls `cs`, in registry order. */
  function RenderCommands(cs: seq<DrawCall>, opengl21: bool, width: real, height: real): seq<GlCommand>
  {
    if cs == [] then []
    else RenderCommands(cs[..|cs| - 1], opengl21, width, height) + CallCommands(cs[|cs| - 1], opengl21, width, height)
  }

  /** Appending the commands of call `i` to a trace that holds those of the calls before it. */
  lemma TraceAfterCall(start: seq<GlCommand>, before: seq<GlCommand>, after: seq<GlCommand>,
                       cs: seq<DrawCall>, i: nat, opengl21: bool, width: real, height: real)
    requires i < |cs|
    requires before == start + RenderCommands(cs[..i], opengl21, width, height)
    requires after == before + CallCommands(cs[i], opengl21, width, height)
    ensures after == start + RenderCommands(cs[..i + 1], opengl21, width, height)
  {
    assert cs[..i + 1][..i] == cs[..i];
    AppendAssoc(start, RenderCommands(cs[..i], opengl21, width, height), CallCommands(cs[i], opengl21, width, height));
  }

  /** The vertex counts of the `DrawArrays` commands in `cmds`, in order. */
  function DrawCounts(cmds: seq<GlCommand>): seq<int>
  {
    if cmds == [] then []
    else DrawCounts(cmds[..|cmds| - 1]) + (if cmds[|cmds| - 1].DrawArrays? then [cmds[|cmds| - 1].count] else [])
  }

  /** The uploads (in-place or reallocating) in `cmds`, in order. */
  function Uploads(cmds: seq<GlCommand>): seq<GlCommand>
  {
    if cmds == [] then []
    else
      var last := cmds[|cmds| - 1];
      Uploads(cmds[..|cmds| - 1]) + (if last.BufferSubData? || last.BufferData? then [last] else [])
  }

  /** `6 × len` for each draw call with a non-empty queue, in registry order. */
  function NonEmptyVertexCounts(cs: seq<DrawCall>): seq<int>
  {
    if cs == [] then []
    else
      var c := cs[|cs| - 1];
      NonEmptyVertexCounts(cs[..|cs| - 1]) + (if c.attributes.vboData == [] then [] else [|c.attributes.vboData| * 6])
  }

  /** The upload the policy picks for each draw call with a non-empty queue, in registry order. */
  function NonEmptyUploads(cs: seq<DrawCall>): seq<GlCommand>
  {
    if cs == [] then []
    else
      var c := cs[|cs| - 1];
      NonEmptyUploads(cs[..|cs| - 1]) + (if c.attributes.vboData == [] then [] else [UploadCommand(c)])
  }

  lemma {:induction false} DrawCountsAppend(a: seq<GlCommand>, b: seq<GlCommand>)
    ensures DrawCounts(a + b) == DrawCounts(a) + DrawCounts(b)
  {
    if b != [] {
      assert (a + b)[..|a + b| - 1] == a + b[..|b| - 1];
      DrawCountsAppend(a, b[..|b| - 1]);
    } else {
      assert a + b == a;
    }
  }

  lemma {:induction false} UploadsAppend(a: seq<GlCommand>, b: seq<GlCommand>)
    ensures Uploads(a + b) == Uploads(a) + Uploads(b)
  {
    if b != [] {
      assert (a + b)[..|a + b| - 1] == a + b[..|b| - 1];
      UploadsAppend(a, b[..|b| - 1]);
    } else {
      assert a + b == a;
    }
  }

  lemma {:induction false} NoDrawCounts(cmds: seq<GlCommand>)
    requires forall i :: 0 <= i < |cmds| ==> !cmds[i].DrawArrays?
    ensures DrawCounts(cmds) == []
  {
    if cmds != [] {
      NoDrawCounts(cmds[..|cmds| - 1]);
    }
  }

  lemma {:induction false} NoUploads(cmds: seq<GlCommand>)
    requires forall i :: 0 <= i < |cmds| ==> !cmds[i].BufferSubData? && !cmds[i].BufferData?
    ensures Uploads(cmds) == []
  {
    if cmds != [] {
      NoUploads(cmds[..|cmds| - 1]);
    }
  }

  /** Only the one command between two draw-free stretches can contribute a draw. */
  lemma DrawCountsAround(pre: seq<GlCommand>, x: GlCommand, post: seq<GlCommand>)
    requires forall i :: 0 <= i < |pre| ==> !pre[i].DrawArrays?
    requires forall i :: 0 <= i < |post| ==> !post[i].DrawArrays?
    ensures DrawCounts(pre + [x] + post) == DrawCounts([x])
  {
    DrawCountsAppend(pre + [x], post);
    DrawCountsAppend(pre, [x]);
    NoDrawCounts(pre);
    NoDrawCounts(post);
  }

  /** Only the one command between two upload-free stretches can contribute an upload. */
  lemma UploadsAround(pre: seq<GlCommand>, x: GlCommand, post: seq<GlCommand>)
    requires forall i :: 0 <= i < |pre| ==> !pre[i].BufferSubData? && !pre[i].BufferData?
    requires forall i :: 0 <= i < |post| ==> !post[i].BufferSubData? && !post[i].BufferData?
    ensures Uploads(pre + [x] + post) == Uploads([x])
  {
    UploadsAppend(pre + [x], post);
    UploadsAppend(pre, [x]);
    NoUploads(pre);
    NoUploads(post);
  }

  /**
   * One non-empty draw call yields exactly one `DrawArrays`, of `6 × len`
   * vertices; an empty one yields no command at all.
   */
  lemma CallDrawsOnce(c: DrawCall, opengl21: bool, width: real, height: real)
    ensures CallCommands(c, opengl21, width, height) == [] <==> c.attributes.vboData == []
    ensures DrawCounts(CallCommands(c, opengl21, width, height))
         == if c.attributes.vboData == [] then [] else [|c.attributes.vboData| * 6]
  {
    if c.attributes.vboData != [] {
      var p := c.program.program;
      var e: seq<GlCommand> := if opengl21 then [EnableAttribs(p)] else [];
      var d := DrawArrays(|c.attributes.vboData| * 6);
      var g: seq<GlCommand> := if opengl21 then [DisableAttribs(p)] else [];
      var pre := SetupCommands(c, opengl21, width, height) + [UploadCommand(c)] + e;
      assert DrawCommands(c, opengl21) == e + [d] + g;
      assert CallCommands(c, opengl21, width, height) == pre + [d] + g;
      DrawCountsAround(pre, d, g);
      assert DrawCounts([d]) == [d.count] by { assert [d][..0] == []; }
    }
  }

  /** One non-empty draw call yields exactly one upload, the one the policy picks. */
  lemma CallUploadsOnce(c: DrawCall, opengl21: bool, width: real, height: real)
    ensures Uploads(CallCommands(c, opengl21, width, height))
         == if c.attributes.vboData == [] then [] else [UploadCommand(c)]
  {
    if c.attributes.vboData != [] {
      var setup := SetupCommands(c, opengl21, width, height);
      var u := UploadCommand(c);
      var post := DrawCommands(c, opengl21);
      assert CallCommands(c, opengl21, width, height) == setup + [u] + post;
      UploadsAround(setup, u, post);
      assert Uploads([u]) == [u] by { assert [u][..0] == []; }
    }
  }

  /**
   * Legacy mode brackets the draw: the attributes are enabled right before
   * `DrawArrays` and disabled right after it, which ends the call's commands.
   * Modern mode binds the call's vertex-array object instead and never touches
   * the attribute arrays.
   */
  lemma CallBracketsDraw(c: DrawCall, opengl21: bool, width: real, height: real)
    requires c.attributes.vboData != []
    ensures var cmds := CallCommands(c, opengl21, width, height);
      var p := c.program.program;
      var k := |cmds| - (if opengl21 then 2 else 1);
      && cmds[0] == UseProgram(p)
      && 1 <= k && cmds[k] == DrawArrays(|c.attributes.vboData| * 6)
      && (opengl21 ==> cmds[k - 1] == EnableAttribs(p) && cmds[k + 1] == DisableAttribs(p))
      && (!opengl21 ==>
            && BindVertexArray(c.attributes.vao) in cmds[..k]
            && forall i :: 0 <= i < |cmds| ==> !cmds[i].EnableAttribs? && !cmds[i].DisableAttribs?)
  {
    var cmds := CallCommands(c, opengl21, width, height);
    if !opengl21 {
      assert cmds[2] == BindVertexArray(c.attributes.vao);
    }
  }

  /**
   * Across the registry, the draws are exactly one per non-empty draw call,
   * of `6 × len` vertices, in registry order; so are the uploads, each the one
   * the buffer policy picks for that draw call.
   */
  lemma {:induction false} RenderDrawsInRegistryOrder(cs: seq<DrawCall>, opengl21: bool, width: real, height: real)
    ensures DrawCounts(RenderCommands(cs, opengl21, width, height)) == NonEmptyVertexCounts(cs)
    ensures Uploads(RenderCommands(cs, opengl21, width, height)) == NonEmptyUploads(cs)
    ensures |NonEmptyUploads(cs)| == |NonEmptyVertexCounts(cs)|
  {
    if cs != [] {
      var init, last := cs[..|cs| - 1], cs[|cs| - 1];
      RenderDrawsInRegistryOrder(init, opengl21, width, height);
      CallDrawsOnce(last, opengl21, width, height);
      CallUploadsOnce(last, opengl21, width, height);
      DrawCountsAppend(RenderCommands(init, opengl21, width, height), CallCommands(last, opengl21, width, height));
      UploadsAppend(RenderCommands(init, opengl21, width, height), CallCommands(last, opengl21, width, height));
    }
  }

  /** The buffer capacity after frames that uploaded `payloads`, starting from `capacity`. */
  function CapacityAfterFrames(capacity: int, payloads: seq<int>): int
  {
    if payloads == [] then capacity
    else Upload(payloads[|payloads| - 1], CapacityAfterFrames(capacity, payloads[..|payloads| - 1])).1
  }

  /**
   * The capacity never shrinks: it is the largest of the starting capacity and
   * every payload uploaded since, so a frame whose payload is strictly smaller
   * than some earlier one updates in place.
   */
  lemma {:induction false} CapacityIsRunningMaximum(capacity: int, payloads: seq<int>)
    ensures var r := CapacityAfterFrames(capacity, payloads);
      && r >= capacity
      && (forall i :: 0 <= i < |payloads| ==> r >= payloads[i])
      && (r == capacity || r in payloads)
  {
    if payloads != [] {
      var init := payloads[..|payloads| - 1];
      CapacityIsRunningMaximum(capacity, init);
      var r := CapacityAfterFrames(capacity, payloads);
      assert forall i :: 0 <= i < |init| ==> payloads[i] == init[i];
      assert forall x :: x in init ==> x in payloads;
    }
  }

  /**
   * Because the comparison is strict, a frame uploading exactly as many bytes
   * as the buffer holds reallocates it (at the same size) rather than
   * updating it in place.
   */
  lemma EqualPayloadReallocates(payload: int, capacity: int)
    requires capacity <= payload
    ensures var grown := Upload(payload, capacity).1;
      Upload(payload, grown) == (BufferData(payload), grown)
  {
  }

  // ---------------------------------------------------------------------------
  // The renderer state

  /** `DrawState`, together with the GL context it drives. */
  class DrawState {
    var calls: seq<DrawCall>
    var opengl21: bool
    /** Every GL command issued so far, oldest first. */
    var trace: seq<GlCommand>
    /** The lowest GL name not yet handed out. */
    var nextName: Name

    /** Every draw call holds names already handed out, and no two share a texture. */
    ghost predicate Valid()
      reads this
    {
      nextName >= 1 && ValidRegistry(calls, nextName)
    }

    /** The initial `DRAW_STATE`: no draw calls, legacy mode. */
    constructor ()
      ensures Valid()
      ensures calls == [] && opengl21 && trace == []
    {
      calls := [];
      opengl21 := true;
      trace := [];
      nextName := 1;
    }

    /** A `Gen*` call: the driver hands out the next unused name. */
    method GenName() returns (n: Name)
      modifies this
      ensures n == old(nextName) && nextName == n + 1
      ensures calls == old(calls) && opengl21 == old(opengl21) && trace == old(trace)
    {
      n := nextName;
      nextName := nextName + 1;
    }

    /** `create_program`: create, compile and link, then make the program current. */
    method CreateProgram(vert: ShaderFile, frag: ShaderFile) returns (p: ShaderProgram)
      modifies this
      ensures p == ShaderProgram(old(nextName), vert, frag)
      ensures nextName == old(nextName) + 1
      ensures trace == old(trace) + [LinkProgram(p.program, vert, frag), UseProgram(p.program)]
      ensures calls == old(calls) && opengl21 == old(opengl21)
    {
      var name := GenName();
      trace := trace + [LinkProgram(name, vert, frag)];
      trace := trace + [UseProgram(name)];
      p := ShaderProgram(name, vert, frag);
    }

    /** `create_attributes`: a vertex-array object and enabled attributes only outside legacy mode. */
    method CreateAttributes(legacy: bool, program: ShaderProgram) returns (a: Attributes)
      requires nextName >= 1
      modifies this
      ensures a == NewAttributes(old(nextName), legacy)
      ensures nextName == old(nextName) + AttributeNames(legacy)
      ensures trace == old(trace) + AttributeCommands(old(nextName), legacy, program.program)
      ensures calls == old(calls) && opengl21 == old(opengl21)
    {
      var vao := 0;
      if !legacy {
        vao := GenName();
        trace := trace + [GenVertexArray(vao), BindVertexArray(vao)];
      }
      var vbo := GenName();
      trace := trace + [GenBuffer(vbo), BindBuffer(vbo)];
      if !legacy {
        trace := trace + [EnableAttribs(program.program)];
      }
      a := Attributes(vbo, vao, [], 0);
    }

    /** `create_texture`. */
    method CreateTexture() returns (t: Name)
      modifies this
      ensures t == old(nextName) && nextName == t + 1
      ensures trace == old(trace) + [GenTexture(t), BindTexture(t)]
      ensures calls == old(calls) && opengl21 == old(opengl21)
    {
      t := GenName();
      trace := trace + [GenTexture(t), BindTexture(t)];
    }

    /** `insert_texture`: upload an image into texture `tex`. */
    method InsertTexture(tex: Name, format: PixelFormat, width: int, height: int)
      modifies this
      ensures trace == old(trace) + [BindTexture(tex), TexImage(format, width, height)]
      ensures calls == old(calls) && opengl21 == old(opengl21) && nextName == old(nextName)
    {
      trace := trace + [BindTexture(tex), TexImage(format, width, height)];
    }

    /** Program, attributes and texture of a new draw call, pushed onto the registry. */
    method PushNewDrawCall(vert: ShaderFile, frag: ShaderFile)
      requires Valid()
      modifies this
      ensures Valid()
      ensures calls == old(calls) + [NewDrawCall(old(nextName), vert, frag, opengl21)]
      ensures trace == old(trace) + NewDrawCallCommands(old(nextName), vert, frag, opengl21)
      ensures nextName == old(nextName) + NamesPerDrawCall(opengl21)
      ensures opengl21 == old(opengl21)
    {
      var base := nextName;
      var program := CreateProgram(vert, frag);
      var attributes := CreateAttributes(opengl21, program);
      var texture := CreateTexture();
      calls := calls + [DrawCall(texture, program, attributes)];
      NewDrawCallIsFresh(base, vert, frag, opengl21);
    }

    /** The global GL state `initialize_renderer` sets: 2D textures (legacy only), depth test, alpha blending. */
    method SetGlobalState()
      modifies this
      ensures trace == old(trace) + GlobalStateCommands(opengl21)
      ensures calls == old(calls) && opengl21 == old(opengl21) && nextName == old(nextName)
    {
      if opengl21 {
        trace := trace + [Enable(Texture2D)];
      }
      trace := trace + [Enable(DepthTest), Enable(Blend), BlendFuncAlpha];
    }

    /** The loop of `initialize_renderer`: built-in draw call `i` gets shader pair `i` of the current mode. */
    method PushBuiltInCalls()
      requires Valid()
      modifies this
      ensures Valid()
      ensures calls == old(calls) + BuiltInCalls(old(nextName), opengl21, TEXTURE_COUNT)
      ensures trace == old(trace) + BuiltInCommands(old(nextName), opengl21, TEXTURE_COUNT)
      ensures nextName == old(nextName) + TEXTURE_COUNT * NamesPerDrawCall(opengl21)
      ensures opengl21 == old(opengl21)
    {
      ghost var base, existing, before, legacy := nextName, calls, trace, opengl21;
      ghost var per := NamesPerDrawCall(legacy);
      for i := 0 to TEXTURE_COUNT
        invariant Valid() && opengl21 == legacy
        invariant calls == existing + BuiltInCalls(base, legacy, i)
        invariant trace == before + BuiltInCommands(base, legacy, i)
        invariant nextName == base + i * per
      {
        ghost var callsBefore, traceBefore := calls, trace;
        PushNewDrawCall(VertexSource(i, opengl21), FragmentSource(i, opengl21));
        BuiltInCallsStep(existing, callsBefore, calls, base, legacy, i);
        BuiltInCommandsStep(before, traceBefore, trace, base, legacy, i);
        assert (i + 1) * per == i * per + per;
      }
    }

    /**
     * `initialize_renderer`: record the mode, set up blending and depth
     * testing, push the two built-in draw calls, then seed the UI texture from
     * the sprite sheet and the glyph-cache texture as a blank `RED` image.
     */
    method InitializeRenderer(legacy: bool, uiSpritesheet: Image, glyphCacheWidth: int, glyphCacheHeight: int)
      requires Valid()
      modifies this
      ensures Valid()
      ensures opengl21 == legacy
      ensures calls == old(calls) + BuiltInCalls(old(nextName), legacy, TEXTURE_COUNT)
      ensures nextName == old(nextName) + TEXTURE_COUNT * NamesPerDrawCall(legacy)
      ensures trace == old(trace) + GlobalStateCommands(legacy) + BuiltInCommands(old(nextName), legacy, TEXTURE_COUNT)
        + [BindTexture(calls[DRAW_CALL_INDEX_UI].texture), TexImage(Rgba, uiSpritesheet.width, uiSpritesheet.height)]
        + [BindTexture(calls[DRAW_CALL_INDEX_TEXT].texture), TexImage(Red, glyphCacheWidth, glyphCacheHeight)]
    {
      opengl21 := legacy;
      SetGlobalState();
      PushBuiltInCalls();
      ghost var created := trace;
      InsertTexture(calls[DRAW_CALL_INDEX_UI].texture, Rgba, uiSpritesheet.width, uiSpritesheet.height);
      InsertTexture(calls[DRAW_CALL_INDEX_TEXT].texture, Red, glyphCacheWidth, glyphCacheHeight);
      assert created == old(trace) + GlobalStateCommands(legacy) + BuiltInCommands(old(nextName), legacy, TEXTURE_COUNT);
    }

    /**
     * `create_draw_call`: push a draw call built from the UI shader pair of the
     * current mode, seed its texture from `image`, and return its index.
     */
    method CreateDrawCall(image: Image) returns (index: nat)
      requires Valid()
      modifies this
      ensures Valid()
      ensures index == |old(calls)|
      ensures calls == old(calls)
        + [NewDrawCall(old(nextName), VertexSource(DRAW_CALL_INDEX_UI, opengl21), FragmentSource(DRAW_CALL_INDEX_UI, opengl21), opengl21)]
      ensures trace == old(trace)
        + NewDrawCallCommands(old(nextName), VertexSource(DRAW_CALL_INDEX_UI, opengl21), FragmentSource(DRAW_CALL_INDEX_UI, opengl21), opengl21)
        + [BindTexture(calls[index].texture), TexImage(Rgba, image.width, image.height)]
      ensures nextName == old(nextName) + NamesPerDrawCall(opengl21)
      ensures opengl21 == old(opengl21)
    {
      var vert := VertexSource(DRAW_CALL_INDEX_UI, opengl21);
      var frag := FragmentSource(DRAW_CALL_INDEX_UI, opengl21);
      index := |calls|;
      PushNewDrawCall(vert, frag);
      InsertTexture(calls[index].texture, Rgba, image.width, image.height);
    }

    /** `draw_quad`: queue one axis-aligned quad on draw call `texIndex`; no GL work. */
    method DrawQuad(coords: Rect, texcoords: Rect, color: Color, z: real, texIndex: nat)
      requires texIndex < |calls|
      requires Valid()
      modifies this
      ensures Valid()
      ensures calls == PushQuad(old(calls), texIndex, AxisAlignedQuad(coords, texcoords, color, z))
      ensures trace == old(trace) && opengl21 == old(opengl21) && nextName == old(nextName)
    {
      var quad := AxisAlignedQuad(coords, texcoords, color, z);
      calls := PushQuad(calls, texIndex, quad);
    }

    /**
     * `draw_rotated_quad`: as `DrawQuad`, the corners rotated about the centre;
     * `cos` and `sin` are those of the rotation angle.
     */
    method DrawRotatedQuad(coords: Rect, texcoords: Rect, c: Color, z: real, texIndex: nat, cos: real, sin: real)
      requires texIndex < |calls|
      requires Valid()
      modifies this
      ensures Valid()
      ensures calls == PushQuad(old(calls), texIndex, RotatedQuad(coords, texcoords, c, z, cos, sin))
      ensures trace == old(trace) && opengl21 == old(opengl21) && nextName == old(nextName)
    {
      var quad := RotatedQuad(coords, texcoords, c, z, cos, sin);
      calls := PushQuad(calls, texIndex, quad);
    }

    /**
     * The GL work of one turn of `render`'s loop for a draw call with a
     * non-empty queue: bind, upload under the buffer policy, draw (bracketed by
     * the attribute arrays in legacy mode). Returns the call's attributes with
     * the queue cleared and the capacity the upload left.
     */
    method SubmitCall(call: DrawCall, width: real, height: real) returns (attributes: Attributes)
      requires call.attributes.vboData != []
      modifies this
      ensures attributes == FlushedCall(call).attributes
      ensures trace == old(trace) + CallCommands(call, opengl21, width, height)
      ensures calls == old(calls) && opengl21 == old(opengl21) && nextName == old(nextName)
    {
      var program := call.program.program;
      trace := trace + [UseProgram(program), UploadProjection(program, width, height)];
      if !opengl21 {
        trace := trace + [BindVertexArray(call.attributes.vao)];
      }
      trace := trace + [BindTexture(call.texture), BindBuffer(call.attributes.vbo)];
      assert trace == old(trace) + SetupCommands(call, opengl21, width, height);
      ghost var bound := trace;

      attributes := call.attributes;
      var bufferLength := QUAD_BYTES * |attributes.vboData|;
      if bufferLength < attributes.allocatedVboDataSize {
        trace := trace + [BufferSubData(bufferLength)];
      } else {
        attributes := attributes.(allocatedVboDataSize := bufferLength);
        trace := trace + [BufferData(bufferLength)];
      }
      assert trace == bound + [UploadCommand(call)];
      ghost var uploaded := trace;

      if opengl21 {
        trace := trace + [EnableAttribs(program)];
      }
      trace := trace + [DrawArrays(|attributes.vboData| * 6)];
      if opengl21 {
        trace := trace + [DisableAttribs(program)];
      }
      assert trace == uploaded + DrawCommands(call, opengl21);

      attributes := attributes.(vboData := []);
    }

    /**
     * One turn of `render`'s loop: skip draw call `i` when its queue is empty,
     * else submit and clear it. `registry` is the registry `render` started
     * from and `start` the trace before it; after the turn, one more draw call
     * is flushed and its commands issued.
     */
    method RenderCall(i: nat, width: real, height: real, ghost start: seq<GlCommand>, ghost registry: seq<DrawCall>)
      requires i < |registry|
      requires calls == FlushedCalls(registry[..i]) + registry[i..]
      requires trace == start + RenderCommands(registry[..i], opengl21, width, height)
      modifies this
      ensures calls == FlushedCalls(registry[..i + 1]) + registry[i + 1..]
      ensures trace == start + RenderCommands(registry[..i + 1], opengl21, width, height)
      ensures opengl21 == old(opengl21) && nextName == old(nextName)
    {
      ghost var before, flushed := trace, calls;
      var call := calls[i];
      assert call == registry[i];
      if call.attributes.vboData != [] {
        var attributes := SubmitCall(call, width, height);
        calls := calls[i := call.(attributes := attributes)];
      }
      TraceAfterCall(start, before, trace, registry, i, opengl21, width, height);
      FlushStep(registry, i, flushed, calls);
    }

    /** `render`'s loop: every draw call, in registry order, gets one turn of `RenderCall`. */
    method RenderCalls(width: real, height: real)
      modifies this
      ensures calls == FlushedCalls(old(calls))
      ensures trace == old(trace) + RenderCommands(old(calls), opengl21, width, height)
      ensures opengl21 == old(opengl21) && nextName == old(nextName)
    {
      ghost var start, registry, legacy, names := trace, calls, opengl21, nextName;
      var i, n := 0, |calls|;
      assert registry[..0] == [] && registry[0..] == registry;
      while i < n
        invariant i <= n == |registry|
        invariant calls == FlushedCalls(registry[..i]) + registry[i..]
        invariant trace == start + RenderCommands(registry[..i], legacy, width, height)
        invariant opengl21 == legacy && nextName == names
      {
        RenderCall(i, width, height, start, registry);
        i := i + 1;
      }
      FlushedWhole(registry, legacy, width, height);
    }

    /** `render`: flush every draw call; the registry stays valid because flushing keeps every name. */
    method Render(width: real, height: real)
      requires Valid()
      modifies this
      ensures Valid()
      ensures calls == FlushedCalls(old(calls))
      ensures trace == old(trace) + RenderCommands(old(calls), opengl21, width, height)
      ensures opengl21 == old(opengl21) && nextName == old(nextName)
    {
      FlushedCallsKeepNames(calls, nextName);
      RenderCalls(width, height);
    }

    /** `get_texture`: the texture of draw call `index`, which no other draw call shares. */
    function GetTexture(index: nat): (t: Name)
      requires index < |calls|
      requires Valid()
      reads this
      ensures t == calls[index].texture
      ensures 0 < t < nextName
      ensures forall j :: 0 <= j < |calls| && j != index ==> calls[j].texture != t
    {
      calls[index].texture
    }
  }

  /** Three draw calls of which only the last holds a quad: one draw of 6 vertices. */
  lemma OneQuadOnThirdCall(cs: seq<DrawCall>, q: TexQuad)
    requires |cs| == 3
    requires cs[0].attributes.vboData == [] && cs[1].attributes.vboData == []
    requires cs[2].attributes.vboData == [q]
    ensures NonEmptyVertexCounts(cs) == [6]
  {
    assert cs[..2][..1] == cs[..1] && cs[..1][..0] == [] && cs[..3][..2] == cs[..2];
    assert NonEmptyVertexCounts(cs[..1]) == [];
    assert NonEmptyVertexCounts(cs[..2]) == [];
  }

  /**
   * A first frame: initialize in modern mode, add a sprite draw call, queue
   * one quad on it and render. The new draw call lands at index 2, after the
   * two built-ins; the frame submits one draw of 6 vertices, and the queue is
   * left empty.
   */
  method FirstFrame(seed: Image, glyphCacheWidth: int, glyphCacheHeight: int, sprite: Image,
                    coords: Rect, texcoords: Rect, color: Color, z: real, width: real, height: real)
    returns (index: nat, draws: seq<int>, queued: nat)
    ensures index == 2
    ensures draws == [6]
    ensures queued == 0
  {
    var state := new DrawState();
    state.InitializeRenderer(false, seed, glyphCacheWidth, glyphCacheHeight);
    index := state.CreateDrawCall(sprite);
    state.DrawQuad(coords, texcoords, color, z, index);
    ghost var registry := state.calls;
    var frameStart := |state.trace|;
    state.Render(width, height);
    assert state.trace[frameStart..] == RenderCommands(registry, false, width, height);
    draws := DrawCounts(state.trace[frameStart..]);
    queued := |state.calls[index].attributes.vboData|;

    RenderDrawsInRegistryOrder(registry, false, width, height);
    assert registry[0].attributes.vboData == [] && registry[1].attributes.vboData == [];
    OneQuadOnThirdCall(registry, AxisAlignedQuad(coords, texcoords, color, z));
  }
}
