# Mesh: upload and draw of a textured triangle mesh

This project models the `Mesh` class of `3-model-loading/mesh.h` and proves
properties of the model. A mesh holds a list of vertices (position, normal and
texture coordinates), a list of indices and a list of textures, each texture
being a GL texture name and a role tag such as `texture_diffuse`.

- **Construction** copies the three lists. `setupMesh` then generates a vertex
  array and two buffers. It uploads the vertices and indices, and describes
  vertex attributes 0/1/2: 3, 3 and 2 floats at byte offsets 0, 12 and 24,
  stride 32. It ends with no vertex array bound.
- **Draw** puts texture `i` on texture unit `i` and calls the shader's
  `setFloat` with the uniform name `"material." + type + N` and the value
  `i`. N comes from one running counter for diffuse textures and one for
  specular textures, both starting at 1. Any other type gets no number.
  (This holds for tags without a NUL character; see "## Left out".)
  Draw then selects unit 0 again, issues one indexed triangle draw over all
  indices with the mesh's vertex array bound, and unbinds it.

The graphics context is a mock. `GL.Context` is a class holding:
- the current `GLState` (active unit, bound vertex array, array-buffer
  binding, unit-to-texture map, uniforms, vertex arrays, buffer sizes,
  submitted draws);
- the log of every command issued;
- the next free object name.

`GL.Exec` gives the effect of each call on a `GLState`, and `GL.Run` replays a
log. `Mesh` is a class whose methods issue commands one at a time, as the
C++ does. Each method states the log it appends and the state it leaves. The
pure functions in `MeshSpec` give:
- the naming rule (`SamplerName`, a closed form by counting earlier textures
  of the same type);
- the command sequences (`SetupCommands`, `DrawCommands`).

`MeshEffects` states what those sequences do to the context (`AfterDraw` and
friends), and the lemmas there connect the two views.

The model follows the code as written on these points:
- **Uniform names.** The code builds `material.texture_diffuse1` (prefix plus
  the full type tag), not `material.diffuse1`.
- **Index validation.** The code does not check indices (neither a multiple
  of 3 nor below the vertex count), so the model does not either.
- **Destructor.** The class has none, so GPU objects are never deleted.
- **Constructor qualifier.** The constructor at mesh.h:27 is written without
  the `Mesh::` qualifier. The model takes it as the constructor of `Mesh`.

## Model

| member | source | states |
|---|---|---|
| Meshes.Mesh.constructor | 3-model-loading/mesh.h:27-30 | keeps the three given lists as they are; requires both the vertex and index lists non-empty (their first elements are addressed); then has the effect of setupMesh: fresh nonzero names, commands logged, state as in SetupRun |
| Meshes.Mesh.SetupMesh | 3-model-loading/mesh.h:32-56 | a new nonzero vertex array name and two distinct new nonzero buffer names; the log grows by exactly SetupCommands; the vertex array reads fields 0/1/2 from the vertex buffer and indices from the element buffer; the buffers hold vertices.size()*32 and indices.size()*4 bytes; no vertex array is bound afterwards; every other object is untouched |
| Meshes.Mesh.LoadBuffers | 3-model-loading/mesh.h:37-42 | binds the mesh's vertex array, sizes the vertex buffer to the vertex list and the element buffer to the index list, records the element buffer in the vertex array; leaves the array buffer bound |
| Meshes.Mesh.SetAttribPointers | 3-model-loading/mesh.h:44-55 | the bound vertex array gains the three mesh attribute slots, reading from the bound array buffer, and is then unbound; nothing else changes |
| GL.Context.GenVertexArray | 3-model-loading/mesh.h:33 | returns a nonzero name used by no vertex array or buffer yet, and creates an empty vertex array under it |
| GL.Context.GenBuffer | 3-model-loading/mesh.h:34-35 | returns a nonzero name used by no vertex array or buffer yet, and creates an empty buffer under it |
| Meshes.Mesh.Draw | 3-model-loading/mesh.h:58-89 | the log grows by exactly DrawCommands; the new state is AfterDraw; the mesh itself (lists, vertex array and buffer names) is unchanged, so a second call logs the same commands again |
| Meshes.Mesh.BindTextures | 3-model-loading/mesh.h:60-80 | the loop issues iteration j's three commands for every texture j in list order, with both counters local and starting at 1, and leaves the state AfterBinding |
| Meshes.Mesh.BindTextureUnit | 3-model-loading/mesh.h:65-79 | one iteration: activates unit i, sets the uniform SamplerName(textures, i) to i, binds texture i's id to the unit, and moves on the counter of its type only |
| Meshes.Mesh.TextureNumber | 3-model-loading/mesh.h:69-77 | given counters one past the earlier diffuse and specular textures, the number built is the one that makes "material." + type + number the sampler name of texture i, and both counters stay one past the textures up to i |
| MeshSpec.PackedLayout | 3-model-loading/mesh.h:1-5 | each attribute offset is 4 bytes times the float components declared before it (0, 12, 24), and sizeof(Vertex) = 32 is 4 times all eight floats |
| MeshSpec.MeshAttrib | 3-model-loading/mesh.h:44-54 | attribute k is enabled, of GL_FLOAT, not normalised, with stride sizeof(Vertex), 3/3/2 components, and reads from the given buffer; each field starts where the previous one ends, and the last one ends at the stride |
| MeshSpec.CountersStep | 3-model-loading/mesh.h:73-76 | after texture i, the diffuse counter has moved on exactly when it is diffuse, the specular counter exactly when it is specular, and both are one past the count of their type up to i |
| MeshSpec.NumberOfNumbered | 3-model-loading/mesh.h:73-76 | a diffuse or specular texture is numbered one past the textures of its own type before it |
| MeshSpec.SamplerNameOfPrefix | 3-model-loading/mesh.h:63-78 | a texture's name depends only on the textures up to it, never on later ones |
| MeshSpec.KthNumberedName | 3-model-loading/mesh.h:73-78 | for diffuse and for specular, the k-th texture of that type (k from 1) exists at some position and is named "material." + type + k |
| MeshSpec.NumberedNamesDistinct | 3-model-loading/mesh.h:73-78 | two different textures of the same numbered type never get the same uniform name |
| MeshSpec.InsertOtherKind | 3-model-loading/mesh.h:60-76 | inserting a texture of another type anywhere before a texture leaves that texture's name unchanged: each type's counter is independent of the others |
| MeshSpec.UnnumberedName | 3-model-loading/mesh.h:70-78 | a texture of any type other than diffuse or specular is named "material." + type with no number, so two such textures of one type share a name |
| MeshSpec.TagCanShadowNumberedName | 3-model-loading/mesh.h:72-78 | tags are not checked: a texture tagged "texture_diffuse1" gets the same name as the first diffuse texture |
| MeshSpec.CounterName | 3-model-loading/mesh.h:70-78 | the name built from the type and the counter of that type (none for another type) is the closed-form sampler name |
| MeshSpec.BindingCommandsAt | 3-model-loading/mesh.h:63-79 | the first n iterations issue 3n commands; iteration j's are, in order, select unit j, set uniform j to j, bind texture j |
| MeshSpec.DrawCommandsAt | 3-model-loading/mesh.h:63-79 | within Draw's commands, texture j selects unit GL_TEXTURE0 + j, sets its sampler uniform to j and binds its id, at positions 3j..3j+2 |
| MeshSpec.DrawCommandsEnd | 3-model-loading/mesh.h:82-88 | Draw's commands end, after the 3 per texture, with select unit 0, bind the mesh's vertex array, one GL_TRIANGLES / GL_UNSIGNED_INT draw of indices.size() elements, unbind |
| MeshEffects.UnitMap | 3-model-loading/mesh.h:63-79 | the texture units written by the first n iterations are exactly 0..n-1, and unit j holds texture j |
| MeshEffects.UniformMapKeys | 3-model-loading/mesh.h:78 | the uniforms set by the first n iterations are exactly the (program, name) pairs of those textures' names |
| MeshEffects.UniformMapValue | 3-model-loading/mesh.h:78 | a uniform set more than once holds the unit of the last texture with that name |
| MeshEffects.UniformOfDistinctName | 3-model-loading/mesh.h:78 | when no later texture shares its name, the uniform of texture j holds j, its unit number |
| MeshEffects.AfterBindingClosed | 3-model-loading/mesh.h:63-80 | after n iterations the last unit used is active, units 0..n-1 hold the first n textures, their uniforms are set, and nothing else changed |
| MeshEffects.IterationState | 3-model-loading/mesh.h:65-79 | issuing iteration j's three calls after j iterations gives the state after j + 1 |
| MeshEffects.BindingRun | 3-model-loading/mesh.h:63-80 | replaying the loop's commands from any state gives AfterBinding |
| MeshEffects.TailState | 3-model-loading/mesh.h:83-88 | the four calls after the loop leave unit 0 active, no vertex array bound, and one more draw submitted with the mesh's vertex array bound |
| MeshEffects.DrawTailRun | 3-model-loading/mesh.h:83-88 | the same for a replay of the tail commands |
| MeshEffects.DrawRun | 3-model-loading/mesh.h:58-89 | replaying everything Draw issues from any state gives AfterDraw |
| MeshEffects.DrawEffects | 3-model-loading/mesh.h:58-89 | after Draw: unit 0 active; no vertex array bound; exactly one draw added (triangles, indices.size() elements, unsigned ints, the mesh's vertex array); units below the texture count hold the textures in order and higher units keep theirs; a uniform whose name no later texture shares holds its unit number; uniforms of other programs and names are untouched; vertex arrays, buffers and the array-buffer binding are untouched |
| MeshEffects.AfterDrawAgain | 3-model-loading/mesh.h:58-63 | a draw from the state a draw left differs from it only by the new submitted draw |
| MeshEffects.DrawTwice | 3-model-loading/mesh.h:58-63 | the counters are local, so drawing twice leaves the context as one draw did, apart from one more submitted draw |
| MeshEffects.GenState | 3-model-loading/mesh.h:33-35 | the three generations create an empty vertex array and two empty buffers under the given names |
| MeshEffects.LoadState | 3-model-loading/mesh.h:37-42 | the five loading calls bind the vertex array and the array buffer, size both buffers to their lists, and record the element buffer in the vertex array |
| MeshEffects.AttribState | 3-model-loading/mesh.h:45-54 | enabling attribute k and setting its pointer gives slot k the mesh's layout for field k, reading from the bound array buffer |
| MeshEffects.LayoutState | 3-model-loading/mesh.h:44-55 | the seven attribute calls add the three mesh slots to the bound vertex array and unbind it |
| MeshEffects.SetupComposition | 3-model-loading/mesh.h:32-56 | generation, loading and layout together give the state after setupMesh |
| MeshEffects.GenRun | 3-model-loading/mesh.h:33-35 | the same as GenState, for a replay of the logged generations |
| MeshEffects.LoadRun | 3-model-loading/mesh.h:37-42 | the same as LoadState, for a replay of the logged loading calls |
| MeshEffects.LayoutRun | 3-model-loading/mesh.h:44-55 | the same as LayoutState, for a replay of the logged attribute calls |
| MeshEffects.SetupRun | 3-model-loading/mesh.h:32-56 | replaying setupMesh's commands: the vertex array reads fields 0/1/2 from the vertex buffer with the packed layout and indices from the element buffer; both buffers are sized to their lists; no vertex array is bound; other objects are untouched |
| MeshSpec.Number | 3-model-loading/mesh.h:69-77 | a number is appended exactly when the type is diffuse or specular, and it consists of decimal digits only |
| MeshSpec.SamplerName | 3-model-loading/mesh.h:70-78 | the uniform name starts with "material." followed by the texture's full type, and is exactly that when the type is neither diffuse nor specular |
| MeshSpec.SetupCommands | 3-model-loading/mesh.h:32-56 | setupMesh issues fifteen commands; exactly the first three create names, and the last unbinds the vertex array |
| MeshSpec.BindingCommands | 3-model-loading/mesh.h:63-80 | n iterations of the loop issue 3n commands, each a unit selection, a uniform setting or a texture binding, so the loop neither draws nor creates names |
| MeshSpec.DrawTail | 3-model-loading/mesh.h:83-88 | four commands that start by selecting unit 0 and end by unbinding the vertex array; the draw among them is of count indices as GL_TRIANGLES of GL_UNSIGNED_INT, right after the mesh's vertex array is bound |
| MeshSpec.DrawCommands | 3-model-loading/mesh.h:58-89 | three commands per texture and four more; none creates a name; exactly one is a draw, at position 3 times the texture count plus 2 |
| MeshEffects.AfterBinding | 3-model-loading/mesh.h:63-80 | the loop changes only the texture units, the selected unit and the uniforms: bound vertex array, array buffer, vertex arrays, buffers and draws are as they were; after n > 0 iterations unit n - 1 is selected |
| MeshEffects.AfterDraw | 3-model-loading/mesh.h:58-89 | after a draw unit 0 is selected and no vertex array is bound, texture j is on unit j, and vertex arrays, buffers and the array-buffer binding are as they were |
| MeshEffects.DistinctNameUniforms | 3-model-loading/mesh.h:78 | every texture whose sampler name no later texture shares leaves its unit number in that uniform |
| MeshEffects.OtherUniformsUnset | 3-model-loading/mesh.h:78 | the loop sets no uniform of another program and none whose name no texture has |
| GL.Exec | 3-model-loading/mesh.h:37-88 | no call other than glGenVertexArrays and glGenBuffers adds or removes a vertex array or buffer name |
| GL.Context.Issue | 3-model-loading/mesh.h:37-88 | each call other than a name generation: the state is its effect on the old state, the log grows by that call, the name counter stays and the names at or above it stay unused |
| Decimal.NatToString | 3-model-loading/mesh.h:74 | std::to_string of a counter: non-empty, digits only, no leading zero except for 0 itself, one digit exactly below 10 |
| Decimal.ParseNatToString | 3-model-loading/mesh.h:74 | reading the digits back gives the counter: the rendering loses nothing |
| Decimal.NatToStringInjective | 3-model-loading/mesh.h:74 | different counter values render differently |

## Left out

- Graphics and shader effects: nothing is rendered. Each `gl*` call and
  `Shader::setFloat` is an abstract command, and `GL.Exec` tracks only the
  bindings, sizes, slots and uniforms that these calls change. The `Shader`
  object is reduced to its program name.
- Buffer contents: a buffer is represented by its size in bytes. Vertex
  components are opaque `real` values that the model never computes with.
- Object names: the mock's `GL.Context.GenVertexArray` and
  `GL.Context.GenBuffer` hand out names from one shared counter (1, 2, 3, …),
  so a vertex array name is never also a buffer name. OpenGL keeps separate
  name spaces for vertex arrays and buffers and may return any unused nonzero
  name. The contracts of `Meshes.Mesh.constructor` and
  `Meshes.Mesh.SetupMesh` promise only names that are nonzero, unused before
  the call and, for the two buffers, distinct; they do not depend on the
  counter.
- Texture targets other than GL_TEXTURE_2D have no effect in the mock, since
  the mesh binds only 2D textures.
- Meshes.Mesh.BindTextures: the loop index and both counters are `unsigned
  int` in the source and wrap past 2^32 - 1; the model uses unbounded
  integers, so it does not cover meshes with 2^32 or more textures.
- Meshes.Mesh.TextureNumber: for the same reason, the counters never wrap, so
  numbers past 4294967295 are not modelled.
- Meshes.Mesh.Draw: `setFloat` receives the unit number converted to a
  float. The model records it as the integer `i`, which matches the float
  only for `i` below 2^24. The draw count is `indices.size()` as an unbounded
  number, without the conversion to the 32-bit `GLsizei` the call takes.
- Meshes.Mesh.Draw: the mock has no limit on texture units. A real context
  rejects `glActiveTexture(GL_TEXTURE0 + i)` with GL_INVALID_ENUM when `i` is
  at or above GL_MAX_COMBINED_TEXTURE_IMAGE_UNITS, and the texture is then
  bound to the unit selected before; the model puts every texture on its own
  unit.
- Meshes.Mesh.Draw: `setFloat` is taken to set whatever uniform it names. In
  OpenGL `glUniform1f` on a `sampler2D` uniform fails with
  GL_INVALID_OPERATION and leaves the sampler unchanged (samplers are set with
  `glUniform1i`); the model records the value `i` under the name.
- MeshEffects.DrawEffects: states the effect of a draw under the same two
  simplifications: every texture unit exists, and `setFloat` sets sampler
  uniforms.
- MeshEffects.AfterDraw: the same two simplifications.
- MeshSpec.SamplerName: tags are assumed to contain no NUL character. At
  mesh.h:78 the name reaches `setFloat` through `.c_str()`, so a tag such as
  `"texture_diffuse\0x"` would be cut at the NUL and name the uniform
  `material.texture_diffuse` (with no number, since the tag is not equal to
  `texture_diffuse`). The model's name keeps the whole tag.
- Meshes.Mesh.BindTextureUnit: the same assumption; the `SetFloat` it issues
  carries the whole string `"material." + type + number`, not the part
  before a NUL that `.c_str()` would pass.
- Meshes.Mesh.SetupMesh: every `glBufferData` succeeds. GL_OUT_OF_MEMORY,
  after which the buffer's data store is undefined, is not modelled.
- Meshes.Mesh.SetupMesh: the byte counts `vertices.size() * 32` and
  `indices.size() * 4` are unbounded here; a `size_t` overflow is not
  modelled.
- Destruction and copying of meshes: the class defines neither, so there is
  nothing to model.
- Windowing, input, asset loading, text rendering and matrix maths in the
  other files of the repository are not part of this model.
