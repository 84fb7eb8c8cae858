/**
 * The values a mesh is built from (vertices, textures), the memory layout of
 * a vertex, the rule that names a texture's sampler uniform, and the command
 * sequences that building and drawing a mesh issue to the graphics context.
 */
module MeshSpec {
  import opened GL
  import opened Decimal

  /** C++ `unsigned int`. */
  type uint32 = x: int | 0 <= x < 0x1_0000_0000

  // Vertex components are floats that the model never computes with.
  datatype Vec3 = Vec3(x: real, y: real, z: real)
  datatype Vec2 = Vec2(x: real, y: real)

  datatype Vertex = Vertex(position: Vec3, normal: Vec3, texCoords: Vec2)

  /** A texture object and its role tag (the `type` member of the C++ struct). */
  datatype Texture = Texture(id: uint32, kind: string)

  // ---------------------------------------------------------------------
  // Memory layout of Vertex

  const FloatSize: nat := 4        // sizeof(float)
  const UintSize: nat := 4         // sizeof(unsigned int)

  /** Float components of Position, Normal and TexCoords, in declaration order. */
  const FieldComponents: seq<nat> := [3, 3, 2]

  /** offsetof(Vertex, Position), offsetof(Vertex, Normal), offsetof(Vertex, TexCoords). */
  const FieldOffsets: seq<nat> := [0, 12, 24]

  /** sizeof(Vertex). */
  const SizeOfVertex: nat := 32

  function Sum(s: seq<nat>): nat
    decreases |s|
  {
    if s == [] then 0 else Sum(s[..|s| - 1]) + s[|s| - 1]
  }

  /**
   * The struct is packed: each field starts after the floats of the fields
   * declared before it, and the struct is exactly as large as all its floats.
   */
  lemma PackedLayout()
    ensures |FieldOffsets| == |FieldComponents|
    ensures forall k :: 0 <= k < |FieldComponents| ==> FieldOffsets[k] == FloatSize * Sum(FieldComponents[..k])
    ensures SizeOfVertex == FloatSize * Sum(FieldComponents)
  {
    assert FieldComponents[..0] == [];
    assert FieldComponents[..1] == [3];
    assert FieldComponents[..2] == [3, 3];
    assert [3, 3][..1] == [3];
    assert [3][..0] == [];
  }

  /** Bytes taken by n vertices, and by n indices. */
  function VertexBytes(n: nat): nat { n * SizeOfVertex }
  function IndexBytes(n: nat): nat { n * UintSize }

  /** Attribute slot `k` as the mesh describes it: field k of a vertex, read from buffer `vbo`. */
  function MeshAttrib(k: nat, vbo: nat): (a: Attrib)
    requires k < |FieldComponents|
    ensures a.enabled && a.kind == GL_FLOAT && !a.normalized && a.buffer == vbo
    ensures a.stride == SizeOfVertex && a.size == FieldComponents[k]
    // the fields are packed: each starts where the previous one ends, and the last ends at the stride
    ensures k == 0 ==> a.offset == 0
    ensures k > 0 ==> a.offset == FieldOffsets[k - 1] + FloatSize * FieldComponents[k - 1]
    ensures k == |FieldComponents| - 1 ==> a.offset + FloatSize * a.size == a.stride
  {
    Attrib(true, FieldComponents[k], GL_FLOAT, false, SizeOfVertex, FieldOffsets[k], vbo)
  }

  /** The attribute slots of the mesh's vertex array. */
  function MeshAttribs(vbo: nat): map<nat, Attrib> {
    map[0 := MeshAttrib(0, vbo), 1 := MeshAttrib(1, vbo), 2 := MeshAttrib(2, vbo)]
  }

  /** Setting the three slots one by one adds the mesh's slots to those already there. */
  lemma SetMeshAttribs(m: map<nat, Attrib>, vbo: nat)
    ensures m[0 := MeshAttrib(0, vbo)][1 := MeshAttrib(1, vbo)][2 := MeshAttrib(2, vbo)] == m + MeshAttribs(vbo)
    ensures map[] + MeshAttribs(vbo) == MeshAttribs(vbo)
  {
    var l := m[0 := MeshAttrib(0, vbo)][1 := MeshAttrib(1, vbo)][2 := MeshAttrib(2, vbo)];
    var r := m + MeshAttribs(vbo);
    assert l.Keys == r.Keys;
    assert forall key :: key in l ==> l[key] == r[key];
  }

  // ---------------------------------------------------------------------
  // Sampler uniform names

  const MaterialPrefix := "material."
  const Diffuse := "texture_diffuse"
  const Specular := "texture_specular"

  /** Role tags that carry their own running number. */
  predicate Numbered(kind: string) {
    kind == Diffuse || kind == Specular
  }

  /** The number of textures tagged `kind` in `t`. */
  function Count(t: seq<Texture>, kind: string): (n: nat)
    ensures n <= |t|
    decreases |t|
  {
    if t == [] then 0
    else Count(t[..|t| - 1], kind) + (if t[|t| - 1].kind == kind then 1 else 0)
  }

  lemma {:induction false} CountAppend(a: seq<Texture>, b: seq<Texture>, kind: string)
    ensures Count(a + b, kind) == Count(a, kind) + Count(b, kind)
    decreases |b|
  {
    if b == [] {
      assert a + b == a;
    } else {
      assert (a + b)[..|a + b| - 1] == a + b[..|b| - 1];
      CountAppend(a, b[..|b| - 1], kind);
    }
  }

  /** The two numbered kinds are told apart (their tags differ in length). */
  lemma NumberedKindsDiffer()
    ensures Diffuse != Specular
  {
    assert |Diffuse| != |Specular|;
  }

  /** Counting one more texture of a list. */
  lemma CountStep(t: seq<Texture>, i: nat, kind: string)
    requires i < |t|
    ensures Count(t[..i + 1], kind) == Count(t[..i], kind) + (if t[i].kind == kind then 1 else 0)
  {
    assert t[..i + 1][..i] == t[..i];
  }

  /**
   * The two counters of the texture loop of Mesh::Draw after texture i: the
   * counter of its kind, if numbered, moves on by one and the other stays.
   */
  lemma CountersStep(t: seq<Texture>, i: nat, d0: nat, s0: nat, d1: nat, s1: nat)
    requires i < |t|
    requires d0 == Count(t[..i], Diffuse) + 1 && s0 == Count(t[..i], Specular) + 1
    requires t[i].kind == Diffuse ==> d1 == d0 + 1 && s1 == s0
    requires t[i].kind != Diffuse && t[i].kind == Specular ==> d1 == d0 && s1 == s0 + 1
    requires t[i].kind != Diffuse && t[i].kind != Specular ==> d1 == d0 && s1 == s0
    ensures d1 == Count(t[..i + 1], Diffuse) + 1 && s1 == Count(t[..i + 1], Specular) + 1
  {
    CountStep(t, i, Diffuse);
    CountStep(t, i, Specular);
  }

  /**
   * The N appended to the name of a texture tagged `kind` that comes after
   * `before`: one more than the textures of the same numbered kind before it,
   * and nothing for any other kind.
   */
  function Number(before: seq<Texture>, kind: string): (n: string)
    ensures n == "" <==> !Numbered(kind)
    ensures forall k :: 0 <= k < |n| ==> IsDigit(n[k])
  {
    if kind == Diffuse then NatToString(Count(before, Diffuse) + 1)
    else if kind == Specular then NatToString(Count(before, Specular) + 1)
    else ""
  }

  /**
   * The sampler uniform that texture `j` of `t` is assigned to: "material."
   * and the texture's type, followed by digits exactly when the type is a
   * numbered one.
   */
  function SamplerName(t: seq<Texture>, j: nat): (name: string)
    requires j < |t|
    ensures MaterialPrefix + t[j].kind <= name
    ensures name == MaterialPrefix + t[j].kind <==> !Numbered(t[j].kind)
  {
    MaterialPrefix + t[j].kind + Number(t[..j], t[j].kind)
  }

  /** A numbered kind takes the next value of its own counter. */
  lemma NumberOfNumbered(before: seq<Texture>, kind: string)
    requires Numbered(kind)
    ensures Number(before, kind) == NatToString(Count(before, kind) + 1)
  {
    NumberedKindsDiffer();
  }

  /** The name of texture j depends on the textures up to j only, not on those after it. */
  lemma SamplerNameOfPrefix(t: seq<Texture>, n: nat, j: nat)
    requires j < n <= |t|
    ensures SamplerName(t[..n], j) == SamplerName(t, j)
  {
    assert t[..n][..j] == t[..j];
    assert t[..n][j] == t[j];
  }

  /**
   * For the k-th texture of a numbered kind (counting from 1) there is a
   * position j holding it, and its uniform is "material." + kind + k.
   */
  lemma {:induction false} KthNumberedName(t: seq<Texture>, kind: string, k: nat)
    requires Numbered(kind)
    requires 1 <= k <= Count(t, kind)
    ensures exists j :: 0 <= j < |t| && t[j].kind == kind && Count(t[..j], kind) == k - 1
                        && SamplerName(t, j) == MaterialPrefix + kind + NatToString(k)
    decreases |t|
  {
    var last := |t| - 1;
    var before := t[..last];
    if k <= Count(before, kind) {
      KthNumberedName(before, kind, k);
      var j :| 0 <= j < last && before[j].kind == kind && Count(before[..j], kind) == k - 1
               && SamplerName(before, j) == MaterialPrefix + kind + NatToString(k);
      SamplerNameOfPrefix(t, last, j);
      assert before[..j] == t[..j];
      assert before[j] == t[j];
      assert t[j].kind == kind && Count(t[..j], kind) == k - 1
             && SamplerName(t, j) == MaterialPrefix + kind + NatToString(k);
    } else {
      NumberOfNumbered(before, kind);
      assert t[last].kind == kind && Count(t[..last], kind) == k - 1
             && SamplerName(t, last) == MaterialPrefix + kind + NatToString(k);
    }
  }

  lemma CountPrefixGrows(t: seq<Texture>, i: nat, j: nat)
    requires i < j <= |t|
    ensures Count(t[..j], t[i].kind) >= Count(t[..i], t[i].kind) + 1
  {
    var kind := t[i].kind;
    assert t[..j] == t[..i] + ([t[i]] + t[i + 1..j]);
    CountAppend(t[..i], [t[i]] + t[i + 1..j], kind);
    CountAppend([t[i]], t[i + 1..j], kind);
    assert [t[i]][..0] == [];
  }

  /** Two textures of the same numbered kind never share a uniform name in one draw. */
  lemma NumberedNamesDistinct(t: seq<Texture>, i: nat, j: nat)
    requires i < j < |t|
    requires t[i].kind == t[j].kind && Numbered(t[i].kind)
    ensures SamplerName(t, i) != SamplerName(t, j)
  {
    var kind := t[i].kind;
    var head := MaterialPrefix + kind;
    CountPrefixGrows(t, i, j);
    var a, b := Count(t[..i], kind) + 1, Count(t[..j], kind) + 1;
    NumberOfNumbered(t[..i], kind);
    NumberOfNumbered(t[..j], kind);
    assert SamplerName(t, i) == head + NatToString(a);
    assert SamplerName(t, j) == head + NatToString(b);
    if SamplerName(t, i) == SamplerName(t, j) {
      assert (head + NatToString(a))[|head|..] == NatToString(a);
      assert (head + NatToString(b))[|head|..] == NatToString(b);
      NatToStringInjective(a, b);
    }
  }

  /**
   * The running numbers of different kinds are independent: inserting a texture
   * of another kind anywhere before position j leaves the name of j unchanged.
   */
  lemma InsertOtherKind(t: seq<Texture>, p: nat, x: Texture, j: nat)
    requires p <= j < |t|
    requires x.kind != t[j].kind
    ensures SamplerName(t[..p] + [x] + t[p..], j + 1) == SamplerName(t, j)
  {
    var t' := t[..p] + [x] + t[p..];
    var kind := t[j].kind;
    assert t'[j + 1] == t[j];
    assert t'[..j + 1] == t[..p] + ([x] + t[p..j]);
    assert t[..j] == t[..p] + t[p..j];
    CountAppend(t[..p], [x] + t[p..j], kind);
    CountAppend([x], t[p..j], kind);
    CountAppend(t[..p], t[p..j], kind);
    assert [x][..0] == [];
  }

  /** A texture of any other kind is named by its tag alone, so equal tags give equal names. */
  lemma UnnumberedName(t: seq<Texture>, i: nat, j: nat)
    requires i < |t| && j < |t|
    requires !Numbered(t[j].kind) && t[i].kind == t[j].kind
    ensures SamplerName(t, j) == MaterialPrefix + t[j].kind
    ensures SamplerName(t, i) == SamplerName(t, j)
  {
  }

  /**
   * Tags are not checked, so a texture tagged "texture_diffuse1" takes the same
   * uniform as the first diffuse texture.
   */
  lemma TagCanShadowNumberedName()
    ensures var t := [Texture(1, Diffuse), Texture(2, "texture_diffuse1")];
            SamplerName(t, 0) == SamplerName(t, 1) == MaterialPrefix + "texture_diffuse1"
  {
    var tag := "texture_diffuse1";
    var t := [Texture(1, Diffuse), Texture(2, tag)];
    assert |tag| != |Diffuse| && tag[8] != Specular[8];
    assert SamplerName(t, 1) == MaterialPrefix + tag;
    assert t[..0] == [];
    assert NatToString(1) == "1";
    assert SamplerName(t, 0) == MaterialPrefix + Diffuse + "1";
    assert Diffuse + "1" == tag;
    assert MaterialPrefix + Diffuse + "1" == MaterialPrefix + (Diffuse + "1");
  }

  // ---------------------------------------------------------------------
  // Command sequences

  /** glGenVertexArrays and the two glGenBuffers calls of Mesh::setupMesh. */
  function GenCommands(vao: nat, vbo: nat, ebo: nat): seq<Command> {
    [Command.GenVertexArray(vao), Command.GenBuffer(vbo), Command.GenBuffer(ebo)]
  }

  /**
   * Binding the vertex array, uploading the vertex list to the vertex buffer
   * and the index list to the element buffer, which the vertex array records.
   */
  function LoadCommands(vao: nat, vbo: nat, ebo: nat, vertexCount: nat, indexCount: nat): seq<Command> {
    [ BindVertexArray(vao),
      BindBuffer(GL_ARRAY_BUFFER, vbo),
      BufferData(GL_ARRAY_BUFFER, VertexBytes(vertexCount), GL_STATIC_DRAW),
      BindBuffer(GL_ELEMENT_ARRAY_BUFFER, ebo),
      BufferData(GL_ELEMENT_ARRAY_BUFFER, IndexBytes(indexCount), GL_STATIC_DRAW) ]
  }

  /** Enabling attribute k and describing it as field k of a vertex. */
  function AttribCommands(k: nat): seq<Command>
    requires k < |FieldComponents|
  {
    [ EnableVertexAttribArray(k),
      VertexAttribPointer(k, FieldComponents[k], GL_FLOAT, false, SizeOfVertex, FieldOffsets[k]) ]
  }

  /** The last part of Mesh::setupMesh: describe the three attributes, unbind the vertex array. */
  function LayoutCommands(): seq<Command> {
    AttribCommands(0) + AttribCommands(1) + AttribCommands(2) + [BindVertexArray(0)]
  }

  /**
   * What Mesh::setupMesh issues, given the three names it generated: fifteen
   * commands, of which exactly the first three create names, ending with no
   * vertex array bound.
   */
  function SetupCommands(vao: nat, vbo: nat, ebo: nat, vertexCount: nat, indexCount: nat): (c: seq<Command>)
    ensures |c| == 15
    ensures forall k :: 0 <= k < |c| ==> (Generates(c[k]) <==> k < 3)
    ensures c[|c| - 1] == BindVertexArray(0)
  {
    GenCommands(vao, vbo, ebo) + LoadCommands(vao, vbo, ebo, vertexCount, indexCount) + LayoutCommands()
  }

  /** The log of the buffer-loading calls, built one call at a time. */
  lemma LoadLog(log0: seq<Command>, vao: nat, vbo: nat, ebo: nat, vertexCount: nat, indexCount: nat, log: seq<Command>)
    requires log == log0 + [BindVertexArray(vao)] + [BindBuffer(GL_ARRAY_BUFFER, vbo)]
                   + [BufferData(GL_ARRAY_BUFFER, VertexBytes(vertexCount), GL_STATIC_DRAW)]
                   + [BindBuffer(GL_ELEMENT_ARRAY_BUFFER, ebo)]
                   + [BufferData(GL_ELEMENT_ARRAY_BUFFER, IndexBytes(indexCount), GL_STATIC_DRAW)]
    ensures log == log0 + LoadCommands(vao, vbo, ebo, vertexCount, indexCount)
  {
  }

  /** The log of the attribute calls, built one call at a time. */
  lemma LayoutLog(log0: seq<Command>, log: seq<Command>)
    requires log == log0 + [EnableVertexAttribArray(0)] + [AttribCommands(0)[1]]
                   + [EnableVertexAttribArray(1)] + [AttribCommands(1)[1]]
                   + [EnableVertexAttribArray(2)] + [AttribCommands(2)[1]]
                   + [BindVertexArray(0)]
    ensures log == log0 + LayoutCommands()
  {
  }

  /** The log of setupMesh: the three generations, the two uploads, the layout. */
  lemma SetupLog(log0: seq<Command>, vao: nat, vbo: nat, ebo: nat, vertexCount: nat, indexCount: nat, log: seq<Command>)
    requires log == log0 + [Command.GenVertexArray(vao)] + [Command.GenBuffer(vbo)] + [Command.GenBuffer(ebo)]
                   + LoadCommands(vao, vbo, ebo, vertexCount, indexCount)
                   + LayoutCommands()
    ensures log == log0 + SetupCommands(vao, vbo, ebo, vertexCount, indexCount)
  {
  }

  /**
   * With running counters one past the diffuse and specular textures before
   * position i, the name built from texture i's type and the matching counter
   * (none for another type) is its sampler name.
   */
  lemma CounterName(t: seq<Texture>, i: nat, diffuseNr: nat, specularNr: nat, number: string)
    requires i < |t|
    requires diffuseNr == Count(t[..i], Diffuse) + 1 && specularNr == Count(t[..i], Specular) + 1
    requires number == if t[i].kind == Diffuse then NatToString(diffuseNr)
                       else if t[i].kind == Specular then NatToString(specularNr)
                       else ""
    ensures MaterialPrefix + t[i].kind + number == SamplerNames(t)[i]
  {
  }

  /** The sampler uniform of every texture, in list order. */
  function SamplerNames(t: seq<Texture>): (names: seq<string>)
    ensures |names| == |t|
  {
    seq(|t|, j requires 0 <= j < |t| => SamplerName(t, j))
  }

  /** One iteration of the texture loop of Mesh::Draw, given the uniform names. */
  function TextureCommands(names: seq<string>, t: seq<Texture>, program: nat, j: nat): seq<Command>
    requires |names| == |t| && j < |t|
  {
    [ ActiveTexture(GL_TEXTURE0 + j),
      SetFloat(program, names[j], j),
      BindTexture(GL_TEXTURE_2D, t[j].id) ]
  }

  /**
   * The first n iterations of the texture loop: three commands each, all of
   * them unit selections, uniform settings or texture bindings.
   */
  function BindingCommands(names: seq<string>, t: seq<Texture>, program: nat, n: nat): (c: seq<Command>)
    requires |names| == |t| && n <= |t|
    ensures |c| == 3 * n
    ensures forall k :: 0 <= k < |c| ==> c[k].ActiveTexture? || c[k].SetFloat? || c[k].BindTexture?
  {
    if n == 0 then [] else BindingCommands(names, t, program, n - 1) + TextureCommands(names, t, program, n - 1)
  }

  /** A log that holds the first i iterations, followed by iteration i, holds the first i + 1. */
  lemma BindingLogStep(log0: seq<Command>, names: seq<string>, t: seq<Texture>, program: nat, i: nat, log: seq<Command>)
    requires |names| == |t| && i < |t|
    requires log == log0 + BindingCommands(names, t, program, i) + TextureCommands(names, t, program, i)
    ensures log == log0 + BindingCommands(names, t, program, i + 1)
  {
    assert BindingCommands(names, t, program, i + 1)
        == BindingCommands(names, t, program, i) + TextureCommands(names, t, program, i);
  }

  /**
   * After the texture loop: back to unit 0, then one indexed draw of `count`
   * indices as triangles, issued while the mesh's vertex array is bound,
   * which is unbound after it.
   */
  function DrawTail(vao: nat, count: nat): (c: seq<Command>)
    ensures |c| == 4 && c[0] == ActiveTexture(GL_TEXTURE0) && c[|c| - 1] == BindVertexArray(0)
    ensures forall k :: 0 <= k < |c| && c[k].DrawElements? ==>
              0 < k && c[k - 1] == BindVertexArray(vao) && c[k] == DrawElements(GL_TRIANGLES, count, GL_UNSIGNED_INT, 0)
  {
    [ ActiveTexture(GL_TEXTURE0),
      BindVertexArray(vao),
      DrawElements(GL_TRIANGLES, count, GL_UNSIGNED_INT, 0),
      BindVertexArray(0) ]
  }

  /**
   * Everything Mesh::Draw issues for a mesh with vertex array `vao`, textures
   * `t` and `count` indices: three commands per texture and four more, none
   * of which creates a name, with exactly one draw among them.
   */
  function DrawCommands(vao: nat, t: seq<Texture>, program: nat, count: nat): (c: seq<Command>)
    ensures |c| == 3 * |t| + 4
    ensures forall k :: 0 <= k < |c| ==> !Generates(c[k])
    ensures forall k :: 0 <= k < |c| ==> (c[k].DrawElements? <==> k == 3 * |t| + 2)
  {
    BindingCommands(SamplerNames(t), t, program, |t|) + DrawTail(vao, count)
  }

  /** A log that holds the whole texture loop followed by the tail holds everything Mesh::Draw issues. */
  lemma DrawLog(log0: seq<Command>, vao: nat, t: seq<Texture>, program: nat, count: nat, log: seq<Command>)
    requires log == log0 + BindingCommands(SamplerNames(t), t, program, |t|) + DrawTail(vao, count)
    ensures log == log0 + DrawCommands(vao, t, program, count)
  {
  }

  lemma {:induction false} BindingCommandsAt(names: seq<string>, t: seq<Texture>, program: nat, n: nat, j: nat)
    requires |names| == |t| && j < n <= |t|
    ensures |BindingCommands(names, t, program, n)| == 3 * n
    ensures BindingCommands(names, t, program, n)[3 * j] == ActiveTexture(GL_TEXTURE0 + j)
    ensures BindingCommands(names, t, program, n)[3 * j + 1] == SetFloat(program, names[j], j)
    ensures BindingCommands(names, t, program, n)[3 * j + 2] == BindTexture(GL_TEXTURE_2D, t[j].id)
  {
    if j < n - 1 {
      BindingCommandsAt(names, t, program, n - 1, j);
    }
  }

  /**
   * Mesh::Draw issues exactly three commands per texture before the draw, in
   * list order: texture j selects unit j, sets its sampler uniform to j and
   * binds its id there.
   */
  lemma DrawCommandsAt(vao: nat, t: seq<Texture>, program: nat, count: nat, j: nat)
    requires j < |t|
    ensures |DrawCommands(vao, t, program, count)| == 3 * |t| + 4
    ensures DrawCommands(vao, t, program, count)[3 * j] == ActiveTexture(GL_TEXTURE0 + j)
    ensures DrawCommands(vao, t, program, count)[3 * j + 1] == SetFloat(program, SamplerName(t, j), j)
    ensures DrawCommands(vao, t, program, count)[3 * j + 2] == BindTexture(GL_TEXTURE_2D, t[j].id)
  {
    BindingCommandsAt(SamplerNames(t), t, program, |t|, j);
  }

  /** The four commands after the texture loop close the sequence. */
  lemma DrawCommandsEnd(vao: nat, t: seq<Texture>, program: nat, count: nat)
    ensures var c := DrawCommands(vao, t, program, count);
            && |c| == 3 * |t| + 4
            && c[3 * |t|..] == DrawTail(vao, count)
  {
  }
}
