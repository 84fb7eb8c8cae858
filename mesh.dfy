/**
 * The Mesh class: construction sizes a vertex buffer and an element buffer
 * to the vertex and index lists and describes the vertex layout; Draw binds the textures to consecutive units,
 * names their sampler uniforms, issues one indexed draw and restores the
 * shared state.
 */
module Meshes {
  import opened GL
  import opened Decimal
  import opened MeshSpec
  import opened MeshEffects

  class Mesh {
    var vertices: seq<Vertex>
    var textures: seq<Texture>
    var indices: seq<uint32>
    // render data
    var vao: nat
    var vbo: nat
    var ebo: nat

    /** Copies the three lists, then sets up the GPU objects. */
    constructor (v: seq<Vertex>, i: seq<uint32>, t: seq<Texture>, ctx: Context)
      requires ctx.Valid()
      requires |v| > 0 && |i| > 0
      modifies ctx
      ensures vertices == v && indices == i && textures == t
      ensures ctx.Valid()
      ensures vao != 0 && vbo != 0 && ebo != 0 && vbo != ebo
      ensures vao !in old(ctx.state.vaos) && vbo !in old(ctx.state.buffers) && ebo !in old(ctx.state.buffers)
      ensures ctx.log == old(ctx.log) + SetupCommands(vao, vbo, ebo, |v|, |i|)
      ensures ctx.state == old(ctx.state).(
                boundVAO := 0, arrayBuffer := vbo,
                vaos := old(ctx.state.vaos)[vao := Vao(ebo, MeshAttribs(vbo))],
                buffers := old(ctx.state.buffers)[vbo := VertexBytes(|v|)][ebo := IndexBytes(|i|)])
    {
      vertices := v;
      indices := i;
      textures := t;
      new;
      SetupMesh(ctx);
    }

    /**
     * Generates the vertex array and the two buffers, sizes them to the vertex
     * and index lists, describes attributes 0/1/2 and leaves no vertex array
     * bound.
     * Requires both lists to be non-empty: their first elements are addressed.
     */
    method SetupMesh(ctx: Context)
      requires ctx.Valid()
      requires |vertices| > 0 && |indices| > 0
      modifies this`vao, this`vbo, this`ebo, ctx
      ensures ctx.Valid()
      ensures vao != 0 && vbo != 0 && ebo != 0 && vbo != ebo
      ensures vao !in old(ctx.state.vaos) && vbo !in old(ctx.state.buffers) && ebo !in old(ctx.state.buffers)
      ensures ctx.log == old(ctx.log) + SetupCommands(vao, vbo, ebo, |vertices|, |indices|)
      ensures ctx.state == old(ctx.state).(
                boundVAO := 0, arrayBuffer := vbo,
                vaos := old(ctx.state.vaos)[vao := Vao(ebo, MeshAttribs(vbo))],
                buffers := old(ctx.state.buffers)[vbo := VertexBytes(|vertices|)][ebo := IndexBytes(|indices|)])
    {
      ghost var log0, state0 := ctx.log, ctx.state;
      vao := ctx.GenVertexArray();
      vbo := ctx.GenBuffer();
      ebo := ctx.GenBuffer();
      GenState(state0, vao, vbo, ebo);
      ghost var s1 := ctx.state;
      LoadBuffers(ctx);
      ghost var s2 := ctx.state;
      SetAttribPointers(ctx);
      SetupComposition(state0, s1, s2, vao, vbo, ebo, |vertices|, |indices|);
      SetupLog(log0, vao, vbo, ebo, |vertices|, |indices|, ctx.log);
    }

    /**
     * The first part of setupMesh: binds the mesh's vertex array, then sizes
     * the vertex buffer to |vertices| vertices and the element buffer, which
     * the bound vertex array records, to |indices| indices.
     */
    method LoadBuffers(ctx: Context)
      requires ctx.Valid()
      requires vao in ctx.state.vaos && vbo in ctx.state.buffers && ebo in ctx.state.buffers
      requires vbo != 0 && ebo != 0
      modifies ctx
      ensures ctx.Valid() && ctx.nextName == old(ctx.nextName)
      ensures ctx.log == old(ctx.log) + LoadCommands(vao, vbo, ebo, |vertices|, |indices|)
      ensures ctx.state == old(ctx.state).(
                boundVAO := vao, arrayBuffer := vbo,
                vaos := old(ctx.state.vaos)[vao := old(ctx.state.vaos)[vao].(elementBuffer := ebo)],
                buffers := old(ctx.state.buffers)[vbo := VertexBytes(|vertices|)][ebo := IndexBytes(|indices|)])
    {
      ghost var log0, state0 := ctx.log, ctx.state;
      ctx.Issue(BindVertexArray(vao));
      // load data into vertex buffers
      ctx.Issue(BindBuffer(GL_ARRAY_BUFFER, vbo));
      ctx.Issue(BufferData(GL_ARRAY_BUFFER, VertexBytes(|vertices|), GL_STATIC_DRAW));

      ctx.Issue(BindBuffer(GL_ELEMENT_ARRAY_BUFFER, ebo));
      ctx.Issue(BufferData(GL_ELEMENT_ARRAY_BUFFER, IndexBytes(|indices|), GL_STATIC_DRAW));
      LoadState(state0, vao, vbo, ebo, |vertices|, |indices|);
      LoadLog(log0, vao, vbo, ebo, |vertices|, |indices|, ctx.log);
    }

    /**
     * The second part of setupMesh: describes attributes 0, 1 and 2 of the
     * bound vertex array as the position, normal and texture coordinates of a
     * packed Vertex read from the array buffer, then unbinds the vertex array.
     */
    method SetAttribPointers(ctx: Context)
      requires ctx.Valid()
      requires ctx.state.boundVAO in ctx.state.vaos
      modifies ctx
      ensures ctx.Valid() && ctx.nextName == old(ctx.nextName)
      ensures ctx.log == old(ctx.log) + LayoutCommands()
      ensures var v := old(ctx.state.vaos[ctx.state.boundVAO]);
              ctx.state == old(ctx.state).(
                boundVAO := 0,
                vaos := old(ctx.state.vaos)[old(ctx.state.boundVAO) := v.(attribs := v.attribs + MeshAttribs(old(ctx.state.arrayBuffer)))])
    {
      ghost var log0, state0 := ctx.log, ctx.state;
      // set the vertex attribute pointers
      // vertex positions
      ctx.Issue(EnableVertexAttribArray(0));
      ctx.Issue(VertexAttribPointer(0, FieldComponents[0], GL_FLOAT, false, SizeOfVertex, FieldOffsets[0]));
      // vertex normals
      ctx.Issue(EnableVertexAttribArray(1));
      ctx.Issue(VertexAttribPointer(1, FieldComponents[1], GL_FLOAT, false, SizeOfVertex, FieldOffsets[1]));
      // vertex texture coords
      ctx.Issue(EnableVertexAttribArray(2));
      ctx.Issue(VertexAttribPointer(2, FieldComponents[2], GL_FLOAT, false, SizeOfVertex, FieldOffsets[2]));
      ctx.Issue(BindVertexArray(0));
      LayoutState(state0);
      LayoutLog(log0, ctx.log);
    }

    /**
     * Binds texture i to unit i and sets its sampler uniform to i, then draws
     * all indices as triangles with the mesh's vertex array bound, and leaves
     * unit 0 active and no vertex array bound.
     */
    method Draw(ctx: Context, program: nat)
      requires ctx.Valid()
      modifies ctx
      ensures ctx.Valid() && ctx.nextName == old(ctx.nextName)
      ensures ctx.log == old(ctx.log) + DrawCommands(vao, textures, program, |indices|)
      ensures ctx.state == AfterDraw(old(ctx.state), vao, textures, program, |indices|)
      ensures unchanged(this)
    {
      ghost var log0, state0 := ctx.log, ctx.state;
      BindTextures(ctx, program);

      // point again to texture unit 0 by default
      ghost var log2, looped := ctx.log, ctx.state;
      ctx.Issue(ActiveTexture(GL_TEXTURE0));

      // draw mesh
      ctx.Issue(BindVertexArray(vao));
      ctx.Issue(DrawElements(GL_TRIANGLES, |indices|, GL_UNSIGNED_INT, 0));
      ctx.Issue(BindVertexArray(0));

      ghost var tail := DrawTail(vao, |indices|);
      AppendFour(log2, tail[0], tail[1], tail[2], tail[3]);
      DrawLog(log0, vao, textures, program, |indices|, ctx.log);
      TailState(looped, vao, |indices|);
      AfterBindingClosed(state0, SamplerNames(textures), textures, program, |textures|);
    }

    /**
     * The texture loop of Draw: texture i goes to unit i, and its sampler
     * uniform, named from its type and the running count of that type, is set
     * to i.
     */
    method BindTextures(ctx: Context, program: nat)
      requires ctx.Valid()
      modifies ctx
      ensures ctx.Valid() && ctx.nextName == old(ctx.nextName)
      ensures ctx.log == old(ctx.log) + BindingCommands(SamplerNames(textures), textures, program, |textures|)
      ensures ctx.state == AfterBinding(old(ctx.state), SamplerNames(textures), textures, program, |textures|)
    {
      ghost var log0, state0 := ctx.log, ctx.state;
      ghost var names := SamplerNames(textures);
      var diffuseNr: nat := 1;
      var specularNr: nat := 1;

      var i := 0;
      while i < |textures|
        invariant 0 <= i <= |textures|
        invariant diffuseNr == Count(textures[..i], Diffuse) + 1
        invariant specularNr == Count(textures[..i], Specular) + 1
        invariant ctx.Valid() && ctx.nextName == old(ctx.nextName)
        invariant ctx.log == log0 + BindingCommands(names, textures, program, i)
        invariant ctx.state == AfterBinding(state0, names, textures, program, i)
      {
        diffuseNr, specularNr := BindTextureUnit(ctx, program, i, diffuseNr, specularNr);
        BindingLogStep(log0, names, textures, program, i, ctx.log);
        IterationState(state0, names, textures, program, i);
        i := i + 1;
      }
    }

    /**
     * One pass of the texture loop for texture i: activates unit i, names the
     * sampler from the texture's type and the counter of that type (which it
     * moves on), sets that uniform to i and binds the texture to the unit.
     */
    method BindTextureUnit(ctx: Context, program: nat, i: nat, diffuseNr: nat, specularNr: nat)
      returns (nextDiffuseNr: nat, nextSpecularNr: nat)
      requires ctx.Valid()
      requires i < |textures|
      requires diffuseNr == Count(textures[..i], Diffuse) + 1
      requires specularNr == Count(textures[..i], Specular) + 1
      modifies ctx
      ensures ctx.Valid() && ctx.nextName == old(ctx.nextName)
      ensures nextDiffuseNr == Count(textures[..i + 1], Diffuse) + 1
      ensures nextSpecularNr == Count(textures[..i + 1], Specular) + 1
      ensures ctx.log == old(ctx.log) + TextureCommands(SamplerNames(textures), textures, program, i)
      ensures ctx.state == Exec(Exec(Exec(old(ctx.state), ActiveTexture(GL_TEXTURE0 + i)),
                                     SetFloat(program, SamplerNames(textures)[i], i)),
                                BindTexture(GL_TEXTURE_2D, textures[i].id))
    {
      ghost var log0 := ctx.log;
      ctx.Issue(ActiveTexture(GL_TEXTURE0 + i));  // activate the unit first

      // retrieve the texture number (the N in texture_diffuseN)
      var number;
      number, nextDiffuseNr, nextSpecularNr := TextureNumber(i, diffuseNr, specularNr);
      ctx.Issue(SetFloat(program, MaterialPrefix + textures[i].kind + number, i));
      ctx.Issue(BindTexture(GL_TEXTURE_2D, textures[i].id));
      ghost var step := TextureCommands(SamplerNames(textures), textures, program, i);
      AppendThree(log0, step[0], step[1], step[2]);
    }

    /**
     * The number part of the sampler name of texture i (the N in
     * texture_diffuseN), read from the counter of its type, which moves on;
     * types other than diffuse and specular get no number.
     */
    method TextureNumber(i: nat, diffuseNr: nat, specularNr: nat)
      returns (number: string, nextDiffuseNr: nat, nextSpecularNr: nat)
      requires i < |textures|
      requires diffuseNr == Count(textures[..i], Diffuse) + 1
      requires specularNr == Count(textures[..i], Specular) + 1
      ensures MaterialPrefix + textures[i].kind + number == SamplerNames(textures)[i]
      ensures nextDiffuseNr == Count(textures[..i + 1], Diffuse) + 1
      ensures nextSpecularNr == Count(textures[..i + 1], Specular) + 1
    {
      nextDiffuseNr, nextSpecularNr := diffuseNr, specularNr;
      number := "";
      var name := textures[i].kind;
      if name == Diffuse {
        number := NatToString(diffuseNr);
        nextDiffuseNr := diffuseNr + 1;
      } else if name == Specular {
        number := NatToString(specularNr);
        nextSpecularNr := specularNr + 1;
      }
      CountersStep(textures, i, diffuseNr, specularNr, nextDiffuseNr, nextSpecularNr);
      CounterName(textures, i, diffuseNr, specularNr, number);
    }
  }
}
