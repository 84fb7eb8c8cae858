/**
 * What the command sequences of a mesh do to the graphics context: the state
 * after setupMesh, the state after a draw, and why drawing twice changes
 * nothing but the list of submitted draws.
 */
module MeshEffects {
  import opened GL
  import opened MeshSpec

  /** Unit j holds texture j, for the first n textures. */
  function UnitMap(t: seq<Texture>, n: nat): (m: map<nat, nat>)
    requires n <= |t|
    ensures forall u: nat :: u in m <==> u < n
    ensures forall j :: 0 <= j < n ==> m[j] == t[j].id
  {
    map j: nat | j < n :: t[j].id
  }

  /** The uniforms the first n iterations of the texture loop leave behind, for uniform names `names`. */
  function UniformMap(names: seq<string>, program: nat, n: nat): map<(nat, string), int>
    requires n <= |names|
  {
    if n == 0 then map[] else UniformMap(names, program, n - 1)[(program, names[n - 1]) := n - 1]
  }

  /** The uniforms set by the first n iterations are the first n names, for `program`. */
  lemma {:induction false} UniformMapKeys(names: seq<string>, program: nat, n: nat, key: (nat, string))
    requires n <= |names|
    ensures key in UniformMap(names, program, n) <==>
            key.0 == program && exists j :: 0 <= j < n && names[j] == key.1
  {
    if n > 0 {
      UniformMapKeys(names, program, n - 1, key);
    }
  }

  /**
   * The uniform called names[j] holds the unit of the LAST of the first n
   * textures that has that name.
   */
  lemma {:induction false} UniformMapValue(names: seq<string>, program: nat, n: nat, j: nat)
    requires j < n <= |names|
    ensures (program, names[j]) in UniformMap(names, program, n)
    ensures var v := UniformMap(names, program, n)[(program, names[j])];
            && j <= v < n && names[v] == names[j]
            && forall k :: v < k < n ==> names[k] != names[j]
  {
    if j < n - 1 && names[n - 1] != names[j] {
      UniformMapValue(names, program, n - 1, j);
    }
  }

  /** When no later texture shares its name, the uniform of texture j holds j, its unit number. */
  lemma UniformOfDistinctName(t: seq<Texture>, program: nat, j: nat)
    requires j < |t|
    requires forall k :: j < k < |t| ==> SamplerName(t, k) != SamplerName(t, j)
    ensures (program, SamplerName(t, j)) in UniformMap(SamplerNames(t), program, |t|)
    ensures UniformMap(SamplerNames(t), program, |t|)[(program, SamplerName(t, j))] == j
  {
    var names := SamplerNames(t);
    UniformMapValue(names, program, |t|, j);
    var v := UniformMap(names, program, |t|)[(program, names[j])];
    assert names[v] == SamplerName(t, v);
  }

  /**
   * The state after the first n iterations of the texture loop, started from
   * s: iteration j selects unit j, binds texture j to it and sets uniform
   * names[j] of `program` to j. Nothing but the texture units, the selected
   * unit and the uniforms changes.
   */
  function AfterBinding(s: GLState, names: seq<string>, t: seq<Texture>, program: nat, n: nat): (r: GLState)
    requires |names| == |t| && n <= |t|
    ensures r.boundVAO == s.boundVAO && r.arrayBuffer == s.arrayBuffer
    ensures r.vaos == s.vaos && r.buffers == s.buffers && r.draws == s.draws
    ensures n > 0 ==> r.activeUnit == n - 1
  {
    if n == 0 then s
    else
      var b := AfterBinding(s, names, t, program, n - 1);
      b.(activeUnit := n - 1,
         unitTex := b.unitTex[n - 1 := t[n - 1].id],
         uniforms := b.uniforms[(program, names[n - 1]) := n - 1])
  }

  /**
   * The state after Mesh::Draw, started from s: unit 0 selected, no vertex
   * array bound, texture j on unit j, the sampler uniforms of `program` set,
   * and one more draw submitted; vertex arrays and buffers are untouched.
   */
  function AfterDraw(s: GLState, vao: nat, t: seq<Texture>, program: nat, count: nat): (r: GLState)
    ensures r.activeUnit == 0 && r.boundVAO == 0
    ensures r.vaos == s.vaos && r.buffers == s.buffers && r.arrayBuffer == s.arrayBuffer
    ensures forall j :: 0 <= j < |t| ==> j in r.unitTex && r.unitTex[j] == t[j].id
  {
    s.(activeUnit := 0, boundVAO := 0,
       unitTex := s.unitTex + UnitMap(t, |t|),
       uniforms := s.uniforms + UniformMap(SamplerNames(t), program, |t|),
       draws := s.draws + [MeshDraw(vao, count)])
  }

  /** One iteration: unit j selected, its uniform set to j, texture j bound to it. */
  lemma TextureRun(s: GLState, names: seq<string>, t: seq<Texture>, program: nat, j: nat)
    requires |names| == |t| && j < |t|
    ensures Run(s, TextureCommands(names, t, program, j))
            == s.(activeUnit := j,
                  unitTex := s.unitTex[j := t[j].id],
                  uniforms := s.uniforms[(program, names[j]) := j])
  {
    var c := TextureCommands(names, t, program, j);
    Run3(s, c[0], c[1], c[2]);
    assert c == [c[0], c[1], c[2]];
  }

  /** Binding texture n - 1 to unit n - 1 extends the unit map of the first n - 1 textures. */
  lemma UnitMapStep(base: map<nat, nat>, t: seq<Texture>, n: nat)
    requires 0 < n <= |t|
    ensures (base + UnitMap(t, n - 1))[n - 1 := t[n - 1].id] == base + UnitMap(t, n)
  {
  }

  /** Setting the uniform of texture n - 1 extends the uniforms of the first n - 1 textures. */
  lemma UniformMapStep(base: map<(nat, string), int>, names: seq<string>, program: nat, n: nat)
    requires 0 < n <= |names|
    ensures (base + UniformMap(names, program, n - 1))[(program, names[n - 1]) := n - 1]
            == base + UniformMap(names, program, n)
  {
  }

  /**
   * The first n iterations of the texture loop leave unit n - 1 selected, the
   * first n textures on units 0..n-1 and the uniforms of their names set; the
   * rest of the state is untouched.
   */
  lemma {:induction false} AfterBindingClosed(s: GLState, names: seq<string>, t: seq<Texture>, program: nat, n: nat)
    requires |names| == |t| && n <= |t|
    ensures AfterBinding(s, names, t, program, n)
            == s.(activeUnit := if n == 0 then s.activeUnit else n - 1,
                  unitTex := s.unitTex + UnitMap(t, n),
                  uniforms := s.uniforms + UniformMap(names, program, n))
  {
    if n == 0 {
      assert s.unitTex + UnitMap(t, 0) == s.unitTex;
      assert s.uniforms + UniformMap(names, program, 0) == s.uniforms;
    } else {
      AfterBindingClosed(s, names, t, program, n - 1);
      var b := AfterBinding(s, names, t, program, n - 1);
      UnitMapStep(s.unitTex, t, n);
      UniformMapStep(s.uniforms, names, program, n);
      assert b.unitTex[n - 1 := t[n - 1].id] == s.unitTex + UnitMap(t, n);
      assert b.uniforms[(program, names[n - 1]) := n - 1] == s.uniforms + UniformMap(names, program, n);
    }
  }

  /** The three calls of iteration j, issued after the first j iterations, give the state after j + 1. */
  lemma IterationState(s: GLState, names: seq<string>, t: seq<Texture>, program: nat, j: nat)
    requires |names| == |t| && j < |t|
    ensures Exec(Exec(Exec(AfterBinding(s, names, t, program, j), ActiveTexture(GL_TEXTURE0 + j)),
                      SetFloat(program, names[j], j)),
                 BindTexture(GL_TEXTURE_2D, t[j].id))
            == AfterBinding(s, names, t, program, j + 1)
  {
    var before := AfterBinding(s, names, t, program, j);
    var s1 := Exec(before, ActiveTexture(GL_TEXTURE0 + j));
    assert s1 == before.(activeUnit := j);
    var s2 := Exec(s1, SetFloat(program, names[j], j));
    assert s2 == s1.(uniforms := before.uniforms[(program, names[j]) := j]);
  }

  lemma {:induction false} BindingRun(s: GLState, names: seq<string>, t: seq<Texture>, program: nat, n: nat)
    requires |names| == |t| && n <= |t|
    ensures Run(s, BindingCommands(names, t, program, n)) == AfterBinding(s, names, t, program, n)
  {
    if n > 0 {
      var before := BindingCommands(names, t, program, n - 1);
      var step := TextureCommands(names, t, program, n - 1);
      BindingRun(s, names, t, program, n - 1);
      TextureRun(AfterBinding(s, names, t, program, n - 1), names, t, program, n - 1);
      RunAppend(s, before, step);
    }
  }

  /** The call that Mesh::Draw submits for a mesh with vertex array `vao` and `count` indices. */
  function MeshDraw(vao: nat, count: nat): DrawCall {
    DrawCall(vao, GL_TRIANGLES, count, GL_UNSIGNED_INT, 0)
  }

  /**
   * After a draw: unit 0 is active, no vertex array is bound, one triangle-list
   * draw over all indices was submitted with the mesh's vertex array bound,
   * units 0..|t|-1 hold the textures in order, and buffers and vertex arrays
   * are as they were.
   */
  lemma DrawRun(s: GLState, vao: nat, t: seq<Texture>, program: nat, count: nat)
    ensures Run(s, DrawCommands(vao, t, program, count)) == AfterDraw(s, vao, t, program, count)
  {
    var names := SamplerNames(t);
    var binding := BindingCommands(names, t, program, |t|);
    BindingRun(s, names, t, program, |t|);
    AfterBindingClosed(s, names, t, program, |t|);
    DrawTailRun(Run(s, binding), vao, count);
    RunAppend(s, binding, DrawTail(vao, count));
  }

  /** The four calls after the texture loop: unit 0 selected, one draw with `vao` bound, nothing bound. */
  lemma TailState(s: GLState, vao: nat, count: nat)
    ensures Exec(Exec(Exec(Exec(s, ActiveTexture(GL_TEXTURE0)), BindVertexArray(vao)),
                      DrawElements(GL_TRIANGLES, count, GL_UNSIGNED_INT, 0)),
                 BindVertexArray(0))
            == s.(activeUnit := 0, boundVAO := 0, draws := s.draws + [MeshDraw(vao, count)])
  {
    var s1 := Exec(s, ActiveTexture(GL_TEXTURE0));
    assert s1 == s.(activeUnit := 0);
    var s3 := Exec(Exec(s1, BindVertexArray(vao)), DrawElements(GL_TRIANGLES, count, GL_UNSIGNED_INT, 0));
    assert s3 == s.(activeUnit := 0, boundVAO := vao, draws := s.draws + [MeshDraw(vao, count)]);
  }

  /**
   * The state after a draw: unit 0 is active and no vertex array is bound;
   * exactly one triangle-list draw over `count` indices was added, with `vao`
   * bound; units 0..|t|-1 hold the textures in list order and higher units keep
   * theirs; a texture whose sampler name no later texture shares leaves its
   * unit number in that uniform, uniforms of other programs and of names no
   * texture has are untouched; vertex arrays, buffers and the array-buffer
   * binding are as they were.
   */
  lemma DrawEffects(s: GLState, vao: nat, t: seq<Texture>, program: nat, count: nat)
    ensures var d := AfterDraw(s, vao, t, program, count);
            && d.activeUnit == 0 && d.boundVAO == 0
            && d.draws == s.draws + [DrawCall(vao, GL_TRIANGLES, count, GL_UNSIGNED_INT, 0)]
            && (forall j :: 0 <= j < |t| ==> j in d.unitTex && d.unitTex[j] == t[j].id)
            && (forall u :: u in d.unitTex && u >= |t| ==> u in s.unitTex && d.unitTex[u] == s.unitTex[u])
            && (forall j :: 0 <= j < |t| && (forall k :: j < k < |t| ==> SamplerName(t, k) != SamplerName(t, j)) ==>
                  (program, SamplerName(t, j)) in d.uniforms && d.uniforms[(program, SamplerName(t, j))] == j)
            && (forall p: nat, name: string ::
                  (p != program || forall j :: 0 <= j < |t| ==> SamplerName(t, j) != name) ==>
                  ((p, name) in d.uniforms ==> (p, name) in s.uniforms) &&
                  ((p, name) in s.uniforms ==> (p, name) in d.uniforms && d.uniforms[(p, name)] == s.uniforms[(p, name)]))
            && d.vaos == s.vaos && d.buffers == s.buffers && d.arrayBuffer == s.arrayBuffer
  {
    DistinctNameUniforms(t, program);
    OtherUniformsUnset(t, program);
  }

  /** Every texture whose sampler name no later texture shares leaves its unit number in that uniform. */
  lemma DistinctNameUniforms(t: seq<Texture>, program: nat)
    ensures forall j :: 0 <= j < |t| && (forall k :: j < k < |t| ==> SamplerName(t, k) != SamplerName(t, j)) ==>
              (program, SamplerName(t, j)) in UniformMap(SamplerNames(t), program, |t|) &&
              UniformMap(SamplerNames(t), program, |t|)[(program, SamplerName(t, j))] == j
  {
    forall j | 0 <= j < |t| && (forall k :: j < k < |t| ==> SamplerName(t, k) != SamplerName(t, j))
      ensures (program, SamplerName(t, j)) in UniformMap(SamplerNames(t), program, |t|)
      ensures UniformMap(SamplerNames(t), program, |t|)[(program, SamplerName(t, j))] == j
    {
      UniformOfDistinctName(t, program, j);
    }
  }

  /** The texture loop sets no uniform of another program, nor one whose name no texture has. */
  lemma OtherUniformsUnset(t: seq<Texture>, program: nat)
    ensures forall p: nat, name: string ::
              (p != program || forall j :: 0 <= j < |t| ==> SamplerName(t, j) != name) ==>
              (p, name) !in UniformMap(SamplerNames(t), program, |t|)
  {
    var names := SamplerNames(t);
    forall p: nat, name: string | p != program || forall j :: 0 <= j < |t| ==> SamplerName(t, j) != name
      ensures (p, name) !in UniformMap(names, program, |t|)
    {
      UniformMapKeys(names, program, |t|, (p, name));
      forall j | 0 <= j < |t|
        ensures p != program || names[j] != name
      {
        assert names[j] == SamplerName(t, j);
      }
    }
  }

  lemma DrawTailRun(s: GLState, vao: nat, count: nat)
    ensures Run(s, DrawTail(vao, count))
            == s.(activeUnit := 0, boundVAO := 0, draws := s.draws + [MeshDraw(vao, count)])
  {
    var c := DrawTail(vao, count);
    Run4(s, c[0], c[1], c[2], c[3]);
    assert c == [c[0], c[1], c[2], c[3]];
  }

  /** A draw from the state a draw left behind only submits one more draw. */
  lemma AfterDrawAgain(s: GLState, vao: nat, t: seq<Texture>, program: nat, count: nat)
    ensures var once := AfterDraw(s, vao, t, program, count);
            AfterDraw(once, vao, t, program, count) == once.(draws := once.draws + [MeshDraw(vao, count)])
  {
    var once := AfterDraw(s, vao, t, program, count);
    var units := UnitMap(t, |t|);
    var uniforms := UniformMap(SamplerNames(t), program, |t|);
    assert once.unitTex + units == once.unitTex;
    assert once.uniforms + uniforms == once.uniforms;
  }

  /**
   * Drawing a second time leaves the context exactly as the first draw left it,
   * apart from one more submitted draw: the counters start afresh each call.
   */
  lemma DrawTwice(s: GLState, vao: nat, t: seq<Texture>, program: nat, count: nat)
    ensures var once := Run(s, DrawCommands(vao, t, program, count));
            Run(once, DrawCommands(vao, t, program, count))
            == once.(draws := once.draws + [MeshDraw(vao, count)])
  {
    var once := Run(s, DrawCommands(vao, t, program, count));
    DrawRun(s, vao, t, program, count);
    DrawRun(once, vao, t, program, count);
    AfterDrawAgain(s, vao, t, program, count);
  }

  // ---------------------------------------------------------------------
  // setupMesh

  /** The three name generations of setupMesh, one at a time: empty objects under the new names. */
  lemma GenState(s: GLState, vao: nat, vbo: nat, ebo: nat)
    ensures Exec(Exec(Exec(s, Command.GenVertexArray(vao)), Command.GenBuffer(vbo)), Command.GenBuffer(ebo))
            == s.(vaos := s.vaos[vao := Vao(0, map[])], buffers := s.buffers[vbo := 0][ebo := 0])
  {
  }

  /**
   * The buffer-loading calls of setupMesh, one at a time, on generated names:
   * `vao` is bound and records `ebo` as its element buffer, `vbo` stays bound
   * to GL_ARRAY_BUFFER, and the vertex buffer is sized to `vertexCount`
   * vertices and the element buffer to `indexCount` indices.
   */
  lemma LoadState(s: GLState, vao: nat, vbo: nat, ebo: nat, vertexCount: nat, indexCount: nat)
    requires vao in s.vaos && vbo in s.buffers && ebo in s.buffers
    requires vbo != 0 && ebo != 0
    ensures
      var s3 := Exec(Exec(Exec(s, BindVertexArray(vao)), BindBuffer(GL_ARRAY_BUFFER, vbo)),
                     BufferData(GL_ARRAY_BUFFER, VertexBytes(vertexCount), GL_STATIC_DRAW));
      Exec(Exec(s3, BindBuffer(GL_ELEMENT_ARRAY_BUFFER, ebo)),
           BufferData(GL_ELEMENT_ARRAY_BUFFER, IndexBytes(indexCount), GL_STATIC_DRAW))
      == s.(boundVAO := vao, arrayBuffer := vbo,
            vaos := s.vaos[vao := s.vaos[vao].(elementBuffer := ebo)],
            buffers := s.buffers[vbo := VertexBytes(vertexCount)][ebo := IndexBytes(indexCount)])
  {
    var s3 := Exec(Exec(Exec(s, BindVertexArray(vao)), BindBuffer(GL_ARRAY_BUFFER, vbo)),
                   BufferData(GL_ARRAY_BUFFER, VertexBytes(vertexCount), GL_STATIC_DRAW));
    assert s3 == s.(boundVAO := vao, arrayBuffer := vbo, buffers := s.buffers[vbo := VertexBytes(vertexCount)]);
  }

  /** Attribute k of the bound vertex array becomes field k of a vertex, read from the bound vertex buffer. */
  lemma AttribState(s: GLState, k: nat)
    requires k < |FieldComponents|
    requires s.boundVAO in s.vaos
    ensures var v := s.vaos[s.boundVAO];
            Exec(Exec(s, EnableVertexAttribArray(k)),
                 VertexAttribPointer(k, FieldComponents[k], GL_FLOAT, false, SizeOfVertex, FieldOffsets[k]))
            == s.(vaos := s.vaos[s.boundVAO := v.(attribs := v.attribs[k := MeshAttrib(k, s.arrayBuffer)])])
  {
    var v := s.vaos[s.boundVAO];
    var enabled := Slot(s, k).(enabled := true);
    var s1 := Exec(s, EnableVertexAttribArray(k));
    assert s1 == s.(vaos := s.vaos[s.boundVAO := v.(attribs := v.attribs[k := enabled])]);
    assert Slot(s1, k).enabled;
    assert v.attribs[k := enabled][k := MeshAttrib(k, s.arrayBuffer)] == v.attribs[k := MeshAttrib(k, s.arrayBuffer)];
  }

  /**
   * The attribute calls of setupMesh, one at a time: the bound vertex array
   * gets the three vertex fields, read from the bound vertex buffer, and is
   * then unbound.
   */
  lemma LayoutState(s: GLState)
    requires s.boundVAO in s.vaos
    ensures
      var s2 := Exec(Exec(s, EnableVertexAttribArray(0)),
                     VertexAttribPointer(0, FieldComponents[0], GL_FLOAT, false, SizeOfVertex, FieldOffsets[0]));
      var s4 := Exec(Exec(s2, EnableVertexAttribArray(1)),
                     VertexAttribPointer(1, FieldComponents[1], GL_FLOAT, false, SizeOfVertex, FieldOffsets[1]));
      var s6 := Exec(Exec(s4, EnableVertexAttribArray(2)),
                     VertexAttribPointer(2, FieldComponents[2], GL_FLOAT, false, SizeOfVertex, FieldOffsets[2]));
      var v := s.vaos[s.boundVAO];
      Exec(s6, BindVertexArray(0))
      == s.(boundVAO := 0, vaos := s.vaos[s.boundVAO := v.(attribs := v.attribs + MeshAttribs(s.arrayBuffer))])
  {
    AttribState(s, 0);
    var s2 := Exec(Exec(s, EnableVertexAttribArray(0)),
                   VertexAttribPointer(0, FieldComponents[0], GL_FLOAT, false, SizeOfVertex, FieldOffsets[0]));
    AttribState(s2, 1);
    var s4 := Exec(Exec(s2, EnableVertexAttribArray(1)),
                   VertexAttribPointer(1, FieldComponents[1], GL_FLOAT, false, SizeOfVertex, FieldOffsets[1]));
    AttribState(s4, 2);
    var v := s.vaos[s.boundVAO];
    var vbo := s.arrayBuffer;
    SetMeshAttribs(v.attribs, vbo);
  }

  /** The generation, loading and layout steps of setupMesh compose to the state of SetupRun. */
  lemma SetupComposition(s: GLState, s1: GLState, s2: GLState, vao: nat, vbo: nat, ebo: nat, vertexCount: nat, indexCount: nat)
    requires s1 == s.(vaos := s.vaos[vao := Vao(0, map[])], buffers := s.buffers[vbo := 0][ebo := 0])
    requires s2 == s1.(boundVAO := vao, arrayBuffer := vbo,
                       vaos := s1.vaos[vao := s1.vaos[vao].(elementBuffer := ebo)],
                       buffers := s1.buffers[vbo := VertexBytes(vertexCount)][ebo := IndexBytes(indexCount)])
    ensures var v := s2.vaos[s2.boundVAO];
            s2.(boundVAO := 0, vaos := s2.vaos[s2.boundVAO := v.(attribs := v.attribs + MeshAttribs(s2.arrayBuffer))])
            == s.(boundVAO := 0, arrayBuffer := vbo,
                  vaos := s.vaos[vao := Vao(ebo, MeshAttribs(vbo))],
                  buffers := s.buffers[vbo := VertexBytes(vertexCount)][ebo := IndexBytes(indexCount)])
  {
    SetMeshAttribs(map[], vbo);
    assert s.buffers[vbo := 0][ebo := 0][vbo := VertexBytes(vertexCount)][ebo := IndexBytes(indexCount)]
        == s.buffers[vbo := VertexBytes(vertexCount)][ebo := IndexBytes(indexCount)];
  }

  /** Replaying the generations of setupMesh from a log. */
  lemma GenRun(s: GLState, vao: nat, vbo: nat, ebo: nat)
    ensures Run(s, GenCommands(vao, vbo, ebo))
            == s.(vaos := s.vaos[vao := Vao(0, map[])], buffers := s.buffers[vbo := 0][ebo := 0])
  {
    var c := GenCommands(vao, vbo, ebo);
    Run3(s, c[0], c[1], c[2]);
    assert c == [c[0], c[1], c[2]];
    GenState(s, vao, vbo, ebo);
  }

  /** Replaying the buffer-loading calls of setupMesh from a log. */
  lemma LoadRun(s: GLState, vao: nat, vbo: nat, ebo: nat, vertexCount: nat, indexCount: nat)
    requires vao in s.vaos && vbo in s.buffers && ebo in s.buffers
    requires vbo != 0 && ebo != 0
    ensures Run(s, LoadCommands(vao, vbo, ebo, vertexCount, indexCount))
            == s.(boundVAO := vao, arrayBuffer := vbo,
                  vaos := s.vaos[vao := s.vaos[vao].(elementBuffer := ebo)],
                  buffers := s.buffers[vbo := VertexBytes(vertexCount)][ebo := IndexBytes(indexCount)])
  {
    var c := LoadCommands(vao, vbo, ebo, vertexCount, indexCount);
    var a, b := c[..3], c[3..];
    assert c == a + b;
    assert a == [c[0], c[1], c[2]];
    assert b == [c[3], c[4]];
    RunAppend(s, a, b);
    Run3(s, c[0], c[1], c[2]);
    Run2(Run(s, a), c[3], c[4]);
    LoadState(s, vao, vbo, ebo, vertexCount, indexCount);
  }

  /** Replaying the attribute calls of setupMesh from a log. */
  lemma LayoutRun(s: GLState)
    requires s.boundVAO in s.vaos
    ensures var v := s.vaos[s.boundVAO];
            Run(s, LayoutCommands())
            == s.(boundVAO := 0,
                  vaos := s.vaos[s.boundVAO := v.(attribs := v.attribs + MeshAttribs(s.arrayBuffer))])
  {
    var c := LayoutCommands();
    var a, b := c[..4], c[4..];
    assert c == a + b;
    assert a == [c[0], c[1], c[2], c[3]];
    assert b == [c[4], c[5], c[6]];
    RunAppend(s, a, b);
    Run4(s, c[0], c[1], c[2], c[3]);
    Run3(Run(s, a), c[4], c[5], c[6]);
    LayoutState(s);
  }

  /**
   * After setupMesh: vertex array `vao` reads fields 0/1/2 from `vbo` with the
   * packed vertex layout and indices from `ebo`; the two buffers hold
   * vertexCount vertices and indexCount indices; `vao` is no longer bound.
   */
  lemma SetupRun(s: GLState, vao: nat, vbo: nat, ebo: nat, vertexCount: nat, indexCount: nat)
    requires vbo != 0 && ebo != 0
    ensures Run(s, SetupCommands(vao, vbo, ebo, vertexCount, indexCount))
            == s.(boundVAO := 0, arrayBuffer := vbo,
                  vaos := s.vaos[vao := Vao(ebo, MeshAttribs(vbo))],
                  buffers := s.buffers[vbo := VertexBytes(vertexCount)][ebo := IndexBytes(indexCount)])
  {
    var gen := GenCommands(vao, vbo, ebo);
    var load := LoadCommands(vao, vbo, ebo, vertexCount, indexCount);
    RunAppend(s, gen, load);
    RunAppend(s, gen + load, LayoutCommands());
    GenRun(s, vao, vbo, ebo);
    var s1 := Run(s, gen);
    LoadRun(s1, vao, vbo, ebo, vertexCount, indexCount);
    var s2 := Run(s1, load);
    LayoutRun(s2);
    SetupComposition(s, s1, s2, vao, vbo, ebo, vertexCount, indexCount);
  }
}
