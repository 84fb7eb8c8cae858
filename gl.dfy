/**
 * The slice of the OpenGL context that a mesh touches, as a mock context:
 * each `gl*` call (and the shader's `setFloat`) is an abstract Command, Exec
 * gives its effect on a GLState, and a Context object keeps the current
 * state together with the log of every command issued so far.
 */
module GL {

  // Enumerants of the OpenGL API, with their values from the GL headers.
  const GL_TRIANGLES: nat := 0x0004
  const GL_TEXTURE_2D: nat := 0x0DE1
  const GL_UNSIGNED_INT: nat := 0x1405
  const GL_FLOAT: nat := 0x1406
  const GL_TEXTURE0: nat := 0x84C0
  const GL_ARRAY_BUFFER: nat := 0x8892
  const GL_ELEMENT_ARRAY_BUFFER: nat := 0x8893
  const GL_STATIC_DRAW: nat := 0x88E4

  /** One call into the graphics API. Buffer contents are represented by their size in bytes. */
  datatype Command =
    | GenVertexArray(vao: nat)
    | GenBuffer(buffer: nat)
    | BindVertexArray(vao: nat)
    | BindBuffer(target: nat, buffer: nat)
    | BufferData(target: nat, size: nat, usage: nat)
    | EnableVertexAttribArray(index: nat)
    | VertexAttribPointer(index: nat, size: nat, kind: nat, normalized: bool, stride: nat, offset: nat)
    | ActiveTexture(texture: nat)
    | BindTexture(target: nat, texture: nat)
    | SetFloat(program: nat, name: string, value: int)
    | DrawElements(mode: nat, count: nat, kind: nat, offset: nat)

  /** A vertex attribute slot of a vertex array object: its layout and the buffer it reads from. */
  datatype Attrib = Attrib(enabled: bool, size: nat, kind: nat, normalized: bool, stride: nat, offset: nat, buffer: nat)

  const DisabledAttrib := Attrib(false, 4, GL_FLOAT, false, 0, 0, 0)

  /** A vertex array object: the element buffer it is bound to and its attribute slots. */
  datatype Vao = Vao(elementBuffer: nat, attribs: map<nat, Attrib>)

  /** An indexed draw as submitted: the vertex array bound at that moment and the call's arguments. */
  datatype DrawCall = DrawCall(vao: nat, mode: nat, count: nat, kind: nat, offset: nat)

  datatype GLState = GLState(
    activeUnit: nat,                     // texture unit selected by glActiveTexture, counted from GL_TEXTURE0
    boundVAO: nat,                       // 0 when no vertex array is bound
    arrayBuffer: nat,                    // GL_ARRAY_BUFFER binding
    unitTex: map<nat, nat>,              // texture unit -> GL_TEXTURE_2D texture bound to it
    uniforms: map<(nat, string), int>,   // (program, uniform name) -> value last set
    vaos: map<nat, Vao>,                 // generated vertex array names
    buffers: map<nat, nat>,              // generated buffer names -> data size in bytes
    draws: seq<DrawCall>)                // indexed draws submitted so far

  function Initial(): GLState {
    GLState(0, 0, 0, map[], map[], map[], map[], [])
  }

  /** The buffer that a buffer target currently refers to, 0 for none. */
  function BoundBuffer(s: GLState, target: nat): nat {
    if target == GL_ARRAY_BUFFER then s.arrayBuffer
    else if target == GL_ELEMENT_ARRAY_BUFFER && s.boundVAO in s.vaos then s.vaos[s.boundVAO].elementBuffer
    else 0
  }

  /** Attribute slot `index` of the bound vertex array, as it stands (a disabled default if never set). */
  function Slot(s: GLState, index: nat): Attrib {
    if s.boundVAO in s.vaos && index in s.vaos[s.boundVAO].attribs then s.vaos[s.boundVAO].attribs[index]
    else DisabledAttrib
  }

  /** Replaces attribute slot `index` of the bound vertex array; no effect when none is bound. */
  function SetSlot(s: GLState, index: nat, a: Attrib): GLState {
    if s.boundVAO in s.vaos then
      var v := s.vaos[s.boundVAO];
      s.(vaos := s.vaos[s.boundVAO := v.(attribs := v.attribs[index := a])])
    else s
  }

  /** The commands that create object names: glGenVertexArrays and glGenBuffers. */
  predicate Generates(c: Command) {
    c.GenVertexArray? || c.GenBuffer?
  }

  /**
   * The effect of one command on the context. Every command other than the
   * two name generations leaves the sets of object names as they were.
   */
  function Exec(s: GLState, c: Command): (r: GLState)
    ensures !Generates(c) ==> r.vaos.Keys == s.vaos.Keys && r.buffers.Keys == s.buffers.Keys
  {
    match c
    case GenVertexArray(n) => s.(vaos := s.vaos[n := Vao(0, map[])])
    case GenBuffer(n) => s.(buffers := s.buffers[n := 0])
    case BindVertexArray(n) => s.(boundVAO := n)
    case BindBuffer(target, b) =>
      if target == GL_ARRAY_BUFFER then s.(arrayBuffer := b)
      else if target == GL_ELEMENT_ARRAY_BUFFER && s.boundVAO in s.vaos then
        s.(vaos := s.vaos[s.boundVAO := s.vaos[s.boundVAO].(elementBuffer := b)])
      else s
    case BufferData(target, size, _) =>
      var b := BoundBuffer(s, target);
      if b != 0 && b in s.buffers then
        assert s.buffers[b := size].Keys == s.buffers.Keys;
        s.(buffers := s.buffers[b := size])
      else s
    case EnableVertexAttribArray(i) =>
      SetSlot(s, i, Slot(s, i).(enabled := true))
    case VertexAttribPointer(i, size, kind, norm, stride, offset) =>
      SetSlot(s, i, Attrib(Slot(s, i).enabled, size, kind, norm, stride, offset, s.arrayBuffer))
    case ActiveTexture(t) =>
      if t >= GL_TEXTURE0 then s.(activeUnit := t - GL_TEXTURE0) else s
    case BindTexture(target, tex) =>
      if target == GL_TEXTURE_2D then s.(unitTex := s.unitTex[s.activeUnit := tex]) else s
    case SetFloat(program, name, v) => s.(uniforms := s.uniforms[(program, name) := v])
    case DrawElements(mode, count, kind, offset) =>
      s.(draws := s.draws + [DrawCall(s.boundVAO, mode, count, kind, offset)])
  }

  /** The state reached by issuing `cmds` in order from `s`. */
  function Run(s: GLState, cmds: seq<Command>): GLState
    decreases |cmds|
  {
    if cmds == [] then s else Exec(Run(s, cmds[..|cmds| - 1]), cmds[|cmds| - 1])
  }

  /** Issuing two command sequences one after the other is issuing their concatenation. */
  lemma {:induction false} RunAppend(s: GLState, a: seq<Command>, b: seq<Command>)
    ensures Run(s, a + b) == Run(Run(s, a), b)
    decreases |b|
  {
    if b == [] {
      assert a + b == a;
    } else {
      assert (a + b)[..|a + b| - 1] == a + b[..|b| - 1];
      RunAppend(s, a, b[..|b| - 1]);
    }
  }

  lemma Run1(s: GLState, a: Command)
    ensures Run(s, [a]) == Exec(s, a)
  {
    assert [a][..0] == [];
  }

  lemma Run2(s: GLState, a: Command, b: Command)
    ensures Run(s, [a, b]) == Exec(Exec(s, a), b)
  {
    assert [a, b][..1] == [a];
    Run1(s, a);
  }

  lemma Run3(s: GLState, a: Command, b: Command, c: Command)
    ensures Run(s, [a, b, c]) == Exec(Exec(Exec(s, a), b), c)
  {
    assert [a, b, c][..2] == [a, b];
    Run2(s, a, b);
  }

  lemma Run4(s: GLState, a: Command, b: Command, c: Command, d: Command)
    ensures Run(s, [a, b, c, d]) == Exec(Exec(Exec(Exec(s, a), b), c), d)
  {
    assert [a, b, c, d][..3] == [a, b, c];
    Run3(s, a, b, c);
  }

  /** Three single commands appended one by one to a log. */
  lemma AppendThree(log: seq<Command>, a: Command, b: Command, c: Command)
    ensures log + [a] + [b] + [c] == log + [a, b, c]
  {
  }

  /** Four single commands appended one by one to a log. */
  lemma AppendFour(log: seq<Command>, a: Command, b: Command, c: Command, d: Command)
    ensures log + [a] + [b] + [c] + [d] == log + [a, b, c, d]
  {
  }

  /**
   * The graphics context shared by every mesh: the current state, the log of
   * commands issued since it was created, and the next object name it hands out.
   */
  class Context {
    var state: GLState
    var log: seq<Command>
    var nextName: nat

    /** Names at or above nextName are unused. */
    ghost predicate Valid()
      reads this
    {
      && 0 < nextName
      && (forall n :: n in state.vaos ==> n < nextName)
      && (forall n :: n in state.buffers ==> n < nextName)
    }

    constructor ()
      ensures Valid()
      ensures state == Initial() && log == [] && nextName == 1
    {
      state := Initial();
      log := [];
      nextName := 1;
    }

    /**
     * Issues one command other than a name generation. Such a command leaves
     * the names of vertex arrays and buffers alone (Exec), so the names at or
     * above nextName stay unused.
     */
    method Issue(c: Command)
      requires Valid()
      requires !Generates(c)
      modifies this
      ensures Valid()
      ensures state == Exec(old(state), c)
      ensures log == old(log) + [c]
      ensures nextName == old(nextName)
    {
      state := Exec(state, c);
      log := log + [c];
    }

    /** glGenVertexArrays(1, &n): a nonzero name that no vertex array had. */
    method GenVertexArray() returns (n: nat)
      requires Valid()
      modifies this
      ensures Valid()
      ensures n != 0 && n !in old(state.vaos) && n !in old(state.buffers) && n == old(nextName)
      ensures state == Exec(old(state), Command.GenVertexArray(n))
      ensures log == old(log) + [Command.GenVertexArray(n)]
      ensures nextName == n + 1
    {
      n := nextName;
      state := Exec(state, Command.GenVertexArray(n));
      log := log + [Command.GenVertexArray(n)];
      nextName := nextName + 1;
    }

    /** glGenBuffers(1, &n): a nonzero name that no buffer had. */
    method GenBuffer() returns (n: nat)
      requires Valid()
      modifies this
      ensures Valid()
      ensures n != 0 && n !in old(state.vaos) && n !in old(state.buffers) && n == old(nextName)
      ensures state == Exec(old(state), Command.GenBuffer(n))
      ensures log == old(log) + [Command.GenBuffer(n)]
      ensures nextName == n + 1
    {
      n := nextName;
      state := Exec(state, Command.GenBuffer(n));
      log := log + [Command.GenBuffer(n)];
      nextName := nextName + 1;
    }
  }
}
