# QuickVR core, modelled in Dafny

QuickVR is a Qt Quick plugin that renders a QML scene into an Oculus
headset through LibOVR and OpenGL. Its scene items (buffers, textures,
shaders, shader programs, skinned meshes, lights, moving nodes and the
headset) hand their work to the render thread: a setter records the new value
and notifies on change, and the next frame's `onUpdate` or `onRender` does
the GL work. The `Device` root item drives each frame: it polls the session,
broadcasts `update`, renders each eye and submits the frame.

This project models that core. Each C++ component is one Dafny module and
one file:

- `common.dfy` (Common): optional values, real 3-vectors, `%d` formatting.
- `gl.dfy` (Gl): the GL constants the code uses, and the GL calls as trace events.
- `vrtypes.dfy` (VRTypes): the bitmask vocabularies of `VRTypes.h`, and `SAFE_DELETE`.
- `paths.dfy` (Paths): turning a `qrc:` or `file:` source into a file name.
- `buffer.dfy` (Buffers): `Buffer`, with its dirty mask and its single upload per update.
- `texture.dfy` (Textures): `Texture`, with its status machine, decode completion, sample modes and upload.
- `shader.dfy` (Shaders): `Shader`, compiled on the frame after its source or stage changes.
- `shaderprogram.dfy` (ShaderPrograms): `ShaderProgram`, covering list edits, linking, validation and uniform-location lookup.
- `skinning.dfy` (Skinning): pure computations over the imported scene, such as key search, interpolation and the bone walk.
- `skinnedmesh.dfy` (SkinnedMeshes): `SkinnedMesh`, covering import completion, bone tables, vertex assembly and drawing.
- `node.dfy` (Nodes): `Node`, covering its device lookup, subscription and kinematic step.
- `lights.dfy` (Lights): the base, point, spot and directional light properties.
- `headset.dfy` (Headsets): `VRHeadset` and its per-frame motion.
- `device.dfy` (Devices): `Device`, covering the LibOVR session setup, the frame loop and the desktop fallback.
- `debugcallback.dfy` (DebugCallback): the GL debug-message tables and the driver hook installation.
- `roomscene.dfy` (RoomScenes): the demo room's models, boxes, procedural textures and container.
- `vrrenderer.dfy` (VRRenderers): the older LibOVR renderer's init, paint and cleanup, and its RAII wrappers.

Objects whose methods update fields are classes. Fixed-size arrays stay
arrays (`RoomScene.h`'s vertex, index and model arrays). Everything the
driver, LibOVR, the file system or the decoders answer is a parameter. The
handles they hand out are parameters too. Every call the code makes into
them is appended to a trace, and every Qt signal it emits is appended to a
signal list. Methods are specified against functions of their inputs and old
state, and the lemmas state the properties of those functions.

## Model

| member | source | states |
|---|---|---|
| Buffers.TargetEnum | src/Buffer.h:19-24 | every Target is declared as one of the three buffer binding points GL_ELEMENT_ARRAY_BUFFER, GL_UNIFORM_BUFFER, GL_ARRAY_BUFFER |
| Buffers.UsageEnum | src/Buffer.h:27-32 | every Usage is declared as one of GL_DYNAMIC_DRAW, GL_STATIC_DRAW, GL_STREAM_DRAW |
| Buffers.EnumsAreFaithful | src/Buffer.h:19-32 | distinct enumerators stand for distinct GLenums, three of each kind |
| Buffers.DirtyFlagsAreDistinctBits | src/Buffer.h:35-41 | DirtyNone is 0 and DirtyTarget, DirtyUsage, DirtyData are disjoint single bits |
| Buffers.StagedBits | src/Buffer.cpp:56-60 | for a mask holding only staging bits, testing against the three flags is the same as comparing with DirtyNone, and clearing them leaves DirtyNone |
| Buffers.UpdateUploadsCurrentState | src/Buffer.cpp:44-62 | an update with a clean mask issues no call; otherwise a name is generated only when the buffer has none, then one bind and one glBufferData of the current target, data and usage follow |
| Buffers.Buffer.constructor | src/Buffer.h:71-76 | a new buffer has no name, targets the vertex buffer, is static-draw, holds no data and is clean |
| Buffers.Buffer.SetTarget | src/Buffer.cpp:6-15 | a different target is stored, marks DirtyTarget and emits targetChanged; the same target changes nothing |
| Buffers.Buffer.SetUsage | src/Buffer.cpp:17-26 | a different usage is stored, marks DirtyUsage and emits usageChanged; the same usage changes nothing |
| Buffers.Buffer.SetData | src/Buffer.cpp:28-34 | the bytes are stored, DirtyData is marked and dataChanged is emitted even for equal bytes |
| Buffers.Buffer.Bind | src/Buffer.cpp:36-42 | glBindBuffer with the target's GLenum is issued only when the buffer has a name |
| Buffers.Buffer.Upload | src/Buffer.cpp:56-61 | bind then glBufferData of target, data and usage, and the staging bits are cleared |
| Buffers.Buffer.OnUpdate | src/Buffer.cpp:44-62 | the calls are exactly the update's calls for the old state, the mask ends clean, and the name is the generated one only when the buffer was dirty and unnamed |
| Buffers.Buffer.OnShutdown | src/Buffer.cpp:64-71 | glDeleteBuffers only for a named buffer, the name becomes 0, nothing else changes |
| Buffers.UpdateTwice | src/Buffer.cpp:44-47 | two updates in a row issue exactly the first update's calls, leave the mask clear, keep the name the first one gave (generating one only when the buffer had none and something was staged), and change neither target, usage nor data |
| Paths.ResourceKeepsColon | src/Texture.cpp:131-134 | a source starting with qrc: in any case opens the name that drops the first three characters and keeps the ':'; Shader.cpp and SkinnedMesh.cpp branch the same way |
| Paths.SchemePrefixes | src/Texture.cpp:131-142 | for every source: it is a resource exactly when its first four characters fold to "qrc:", and a local URL exactly when its first five fold to "file:", so a shorter prefix such as "qr:" is neither |
| Paths.SchemeIgnoresCase | src/Texture.cpp:131-142 | any two sources of equal length whose first five characters agree up to ASCII case take the same branch |
| Paths.PlainNameVerbatim | src/Texture.cpp:139-142 | a source with neither prefix is opened under its own name |
| VRTypes.SampleModeSplits | src/VRTypes.h:29-42 | filter modes lie inside Sample_FilterMask, addressing modes inside Sample_AddressMask, the masks are disjoint, so a combined sample mode splits back into its filter and its addressing mode |
| VRTypes.UsageAndMapFlagsAreBits | src/VRTypes.h:10-27 | every non-default BufferUsage and MapFlags value is a distinct single bit, and the Unknown/Default values are 0 |
| VRTypes.FormatClasses | src/VRTypes.h:55-90 | depth formats lie inside Texture_DepthMask, colour and block formats outside it, block compressed formats carry Texture_Compressed and colour formats do not, and RGBA/BGRA alias RGBA8/BGRA8 |
| VRTypes.FlagsAboveFormat | src/VRTypes.h:87-111 | the type and sample-count masks cover the low 16 bits and every flag from Texture_RenderTarget up lies above them |
| VRTypes.SafeDelete | src/VRTypes.h:8 | the pointer is null afterwards, and exactly the object it held (none for a null pointer) is deleted |
| Common.IfChanged | src/Shader.cpp:28-35 | a change-detecting setter emits exactly one notification when the value differs and none when it is equal |
| Common.NatToStringIsDecimal | src/ShaderProgram.cpp:290 | the `%d` text of a light or bone index is a non-empty string of decimal digits whose value is the index |
| Common.NatToStringInjective | src/ShaderProgram.cpp:286-345 | distinct indices give distinct `%d` texts, so the per-index uniform names never collide |
| Shaders.TypeEnum | src/Shader.h:18-22 | a shader stage stands for GL_VERTEX_SHADER or GL_FRAGMENT_SHADER |
| Shaders.TypeHasTwoValues | src/Shader.h:18-22 | the two stages map to distinct GLenums, so the enum is injective |
| Shaders.SourceCodeOrigin | src/Shader.cpp:74-105 | a source without a scheme is compiled as its own text in the local 8-bit encoding, a scheme source whose file is missing yields no code, and a `qrc:` source reads the resource named by the text after `qrc` with its colon kept |
| Shaders.Shader.constructor | src/Shader.h:54-58 | a new shader has an empty source, the Vertex stage, status GL_FALSE, an empty log and handle 0 |
| Shaders.Shader.SetCompileStatus | src/Shader.cpp:37-44 | the status is stored and compileStatusChanged is emitted only when it changed |
| Shaders.Shader.SetHandle | src/Shader.cpp:28-35 | the handle is stored and handleChanged is emitted only when it changed |
| Shaders.Shader.SetCompileInfoLog | src/Shader.cpp:46-53 | the log is stored and compileInfoLogChanged is emitted only when it changed |
| Shaders.Shader.SetSource | src/Shader.cpp:8-16 | a different source is stored, sourceChanged is emitted and the shader is marked uncompiled; an equal source changes nothing |
| Shaders.Shader.SetType | src/Shader.cpp:18-26 | a different stage is stored, typeChanged is emitted and the shader is marked uncompiled; an equal stage changes nothing |
| Shaders.Shader.OnInit | src/Shader.cpp:55-58 | initialisation marks the shader uncompiled |
| Shaders.Shader.OnShutdown | src/Shader.cpp:60-65 | shutdown issues glDeleteShader on the current handle (even 0), then resets handle and status with their notifications |
| Shaders.Shader.OnUpdate | src/Shader.cpp:67-147 | a compiled shader does nothing; empty code marks it uncompiled with an empty log and no GL call; otherwise the old handle (if any) is deleted, a new shader of the stage is created, given the code and compiled, and status, handle and log (cleared on success, the driver's log on failure) are stored with their notifications |
| Shaders.CompileOnce | src/Shader.cpp:67-72 | after a successful compile a second update issues no GL call, whatever the driver would answer |
| ShaderPrograms.SlotsLayout | src/ShaderProgram.cpp:275-346 | a successful link looks up 176 uniforms: the 12 fixed names, then the 7 members of each of the 4 point lights, the 9 members of each of the 4 spot lights and the 100 bones, each at its stated position and each a slot the header declares |
| ShaderPrograms.NamesFitBuffer | src/ShaderProgram.cpp:271-346 | every formatted name, with its terminating NUL, fits the 128-byte `Name` buffer, so `snprintf` never truncates one |
| ShaderPrograms.TextInjective | src/ShaderProgram.cpp:275-346 | two different declared slots are given two different uniform names |
| ShaderPrograms.RelinkCalls | src/ShaderProgram.cpp:245-257 | a relink ends with glLinkProgram on the new program |
| ShaderPrograms.ValidateCalls | src/ShaderProgram.cpp:265-346 | validation starts with glValidateProgram and, when it succeeds, is followed by exactly one lookup per declared slot |
| ShaderPrograms.PointUploads | src/ShaderProgram.cpp:167-180 | `setPointLights(n, …)` issues one upload for the count and seven per light |
| ShaderPrograms.SpotUploads | src/ShaderProgram.cpp:182-198 | `setSpotLights(n, …)` issues one upload for the count and nine per light |
| ShaderPrograms.PointUploadsStayInSlots | src/ShaderProgram.cpp:167-180 | the count is uploaded first and every later upload goes to a location of one of lights 0..n-1 |
| ShaderPrograms.SpotUploadsStayInSlots | src/ShaderProgram.cpp:182-198 | the count is uploaded first and every later upload goes to a location of one of spot lights 0..n-1 |
| ShaderPrograms.ShaderProgram.constructor | src/ShaderProgram.h:80-83 | a new program has no shaders, handle 0, status GL_FALSE and an empty log |
| ShaderPrograms.ShaderProgram.SetHandle | src/ShaderProgram.cpp:91-98 | the handle is stored and handleChanged is emitted only when it changed |
| ShaderPrograms.ShaderProgram.SetLinkStatus | src/ShaderProgram.cpp:100-107 | the status is stored and linkStatusChanged is emitted only when it changed |
| ShaderPrograms.ShaderProgram.SetLinkInfoLog | src/ShaderProgram.cpp:109-116 | the log is stored and linkInfoLogChanged is emitted only when it changed |
| ShaderPrograms.ShaderProgram.AppendShader | src/ShaderProgram.cpp:59-62 | the shader is appended and the program is marked unlinked |
| ShaderPrograms.ShaderProgram.ClearShaders | src/ShaderProgram.cpp:74-77 | the list is emptied and the program is marked unlinked |
| ShaderPrograms.ShaderProgram.ReplaceShader | src/ShaderProgram.cpp:79-83 | entry `index` (which must exist) is replaced, nothing else in the list changes, and the program is marked unlinked |
| ShaderPrograms.ShaderProgram.RemoveLastShader | src/ShaderProgram.cpp:85-89 | the last shader (of a non-empty list) is dropped and the program is marked unlinked |
| ShaderPrograms.ShaderProgram.Bind | src/ShaderProgram.cpp:118-121 | glUseProgram is issued on the current handle |
| ShaderPrograms.ShaderProgram.OnInit | src/ShaderProgram.cpp:220-223 | initialisation marks the program unlinked |
| ShaderPrograms.ShaderProgram.OnShutdown | src/ShaderProgram.cpp:225-230 | glDeleteProgram is issued on the current handle (even 0), then handle and status are reset with their notifications |
| ShaderPrograms.ShaderProgram.AllShadersCompiled | src/ShaderProgram.cpp:240-243 | the loop answers true iff every shader has a non-zero handle and is compiled |
| ShaderPrograms.ShaderProgram.AttachShaders | src/ShaderProgram.cpp:252-255 | every shader's handle is attached to the program, in list order |
| ShaderPrograms.ShaderProgram.UniformLocation | src/ShaderProgram.cpp:123-133 | one glGetUniformLocation call on the program with the slot's name, returning the driver's answer |
| ShaderPrograms.ShaderProgram.LookUpPointLight | src/ShaderProgram.cpp:289-309 | one iteration looks up the seven names of point light i, in source order, and stores each answer in the matching field |
| ShaderPrograms.ShaderProgram.LookUpPointLights | src/ShaderProgram.cpp:288-310 | the loop looks up all point-light names, light 0 first, and fills every point-light slot |
| ShaderPrograms.ShaderProgram.LookUpSpotLight | src/ShaderProgram.cpp:313-339 | one iteration looks up the nine names of spot light i, in source order, and stores each answer in the matching field |
| ShaderPrograms.ShaderProgram.LookUpSpotLights | src/ShaderProgram.cpp:312-340 | the loop looks up all spot-light names, light 0 first, and fills every spot-light slot |
| ShaderPrograms.ShaderProgram.LookUpBones | src/ShaderProgram.cpp:342-346 | the loop looks up `uBones[0]` to `uBones[99]` in order and stores each answer |
| ShaderPrograms.ShaderProgram.LookUpLocations | src/ShaderProgram.cpp:275-346 | the fixed names and the three loops issue exactly the lookups of all slots, in order, and the location fields become what the driver answered |
| ShaderPrograms.ShaderProgram.OnUpdate | src/ShaderProgram.cpp:232-372 | a linked program, or one with fewer than two shaders or an uncompiled or handle-less shader, is left exactly as it was; otherwise the old program is deleted, a new one created with every shader attached and linked, the status ends as the validation result after a successful link (the link result otherwise), the log is cleared only when link and validation both succeed, and the locations are looked up only then |
| ShaderPrograms.ShaderProgram.Link | src/ShaderProgram.cpp:245-371 | once the gate is open: relink, store the link status, then validate on success and store the driver's log on failure |
| ShaderPrograms.ShaderProgram.Relink | src/ShaderProgram.cpp:245-257 | the old program (if any) is deleted, the new handle stored, every shader attached and the program linked |
| ShaderPrograms.ShaderProgram.ReplaceProgramObject | src/ShaderProgram.cpp:245-250 | the old program object is deleted only when the handle is non-zero, and then a new one is created and stored |
| ShaderPrograms.ShaderProgram.Validate | src/ShaderProgram.cpp:263-358 | glValidateProgram is issued and its result stored; on success the log is cleared and every location looked up, on failure the driver's log is stored and the locations kept |
| ShaderPrograms.ShaderProgram.SetPointLights | src/ShaderProgram.cpp:167-180 | the loop's uploads are exactly PointUploads for n ≤ 4 lights |
| ShaderPrograms.ShaderProgram.SetSpotLights | src/ShaderProgram.cpp:182-198 | the loop's uploads are exactly SpotUploads for n ≤ 4 lights |
| ShaderPrograms.GlobalLocationsMatchNames | src/ShaderProgram.cpp:275-286 | after a link the fixed-name fields (uMVP, uColorMap, the directional light's direction and diffuse intensity, uSpecularPower, uNumSpotLights) hold the driver's answer for those very names |
| ShaderPrograms.PointLocationsMatchNames | src/ShaderProgram.cpp:296-309 | point light i's position, diffuse intensity and exponential attenuation fields hold the answer for `uPointLights[i].…` with the matching member |
| ShaderPrograms.SpotLocationsMatchNames | src/ShaderProgram.cpp:323-330 | spot light i's direction, cutoff and diffuse intensity fields hold the answer for `uSpotLights[i].…` with the matching member |
| ShaderPrograms.BoneLocationsMatchNames | src/ShaderProgram.cpp:342-346 | bone i's field holds the answer for `uBones[i]` |
| ShaderPrograms.LinkOnce | src/ShaderProgram.cpp:234 | after a link that succeeds with a successful validation the program is linked with an empty log and the driver's locations, and the GL calls of both updates together are only the first one's relink and validation: the second issues none |
| Skinning.KeyIndexFromIsFirst | src/SkinnedMesh.cpp:433-444 | the search loop from a given key returns the first i with t earlier than key i + 1 when such a key exists, and 0 (the fall-through after `assert(0)`) when none does |
| Skinning.KeyIndexIsFirst | src/SkinnedMesh.cpp:433-476 | FindPosition, FindRotation and FindScaling return the smallest i with t < time of key i + 1, so i + 1 is a key; with no later key they return 0 |
| Skinning.KeyIndexInRange | src/SkinnedMesh.cpp:486-488 | with at least two keys the found index and its successor are both keys, the condition the interpolation asserts |
| Skinning.FactorInUnitInterval | src/SkinnedMesh.cpp:489-491 | for a time inside the span of the keys the interpolation factor lies in [0, 1), as the factor assertion requires |
| Skinning.SingleKeyRule | src/SkinnedMesh.cpp:481-484 | a channel with a single position, rotation or scaling key yields that key at every time |
| Skinning.InterpolationHitsKeys | src/SkinnedMesh.cpp:479-496 | at the time of a key that has a successor the interpolated position (or scaling) is that key's value |
| Skinning.ChannelForIsFirst | src/SkinnedMesh.cpp:611-622 | FindNodeAnim finds no channel iff none is named after the node, and otherwise returns the first channel so named |
| Skinning.TicksPerSecond | src/SkinnedMesh.cpp:597 | the clip's tick rate is used when it is non-zero and 25 otherwise, so the rate is never 0 |
| Skinning.VisitKeepsOffsets | src/SkinnedMesh.cpp:572-575 | the walk changes no bone's offset matrix, and a bone that no name of the mapping points to is left entirely unchanged |
| Skinning.VisitChildrenKeepOffsets | src/SkinnedMesh.cpp:577-579 | visiting the children changes no bone's offset matrix and leaves every bone no name points to unchanged |
| Skinning.RootBoneTransform | src/SkinnedMesh.cpp:570-575 | a bone named after a leaf root node gets the global inverse times the root's global transformation times the bone's offset |
| Skinning.LastSlash | src/SkinnedMesh.cpp:381 | `lastIndexOf("/")` is the position of the last '/', and -1 when there is none |
| Skinning.MaterialDirWithoutSlash | src/SkinnedMesh.cpp:384-386 | without a '/' in the source, textures are looked up in "." |
| Skinning.MaterialDirAtRoot | src/SkinnedMesh.cpp:387-389 | when the source's last '/' is its first character, textures are looked up in "/" |
| Skinning.MaterialDirBesideSource | src/SkinnedMesh.cpp:390-412 | otherwise the directory is the source up to its last '/', and every texture path starts with the source up to and including that '/' |
| Skinning.TexturePathStripsDotBackslash | src/SkinnedMesh.cpp:406-412 | a leading `.\` is dropped from the material's path and any other path is kept whole, then joined to the directory with '/' |
| Skinning.ToInt32 | src/SkinnedMesh.h:141 | storing a uint32_t in the int32_t MaterialIndex gives a value in the int32_t range, unchanged below 2^31 |
| Skinning.DefaultEntry | src/SkinnedMesh.h:130-136 | a default MeshEntry has no indices, bases 0 and INVALID_MATERIAL, which the int32_t field holds as -1 |
| Skinning.EntriesAreContiguous | src/SkinnedMesh.cpp:256-265 | each mesh's base vertex and base index are where the previous mesh's vertices and indices end |
| Skinning.FirstEntryAtZero | src/SkinnedMesh.cpp:252-261 | the first mesh starts at vertex 0 and index 0 |
| SkinnedMeshes.ZeroBoneData | src/SkinnedMesh.h:85-92 | a fresh (or Reset) VertexBoneData has four slots, every id and weight zero |
| SkinnedMeshes.FreeSlotFromIsLowest | src/SkinnedMesh.cpp:208-216 | the slot search from a given slot finds the lowest slot whose weight is 0.0, and none iff every slot from there on is taken |
| SkinnedMeshes.AddWeightFillsLowestFreeSlot | src/SkinnedMesh.cpp:206-220 | AddBoneData writes (id, weight) into the lowest slot whose weight is 0.0 and leaves the other slots alone; there is no result (the qFatal) iff all four slots are taken |
| SkinnedMeshes.AddBoneData | src/SkinnedMesh.cpp:206-216 | the slot loop produces exactly AddWeight's result |
| SkinnedMeshes.FindKey | src/SkinnedMesh.cpp:433-476 | the search loop of FindPosition, FindRotation and FindScaling returns KeyIndex: the first i with t < time of key i + 1, else 0 |
| SkinnedMeshes.CalcInterpolatedVector | src/SkinnedMesh.cpp:479-496 | CalcInterpolatedPosition (and Scaling) returns the single key, or Start + Factor * (End - Start) between the found key and the next |
| SkinnedMeshes.CalcInterpolatedRotation | src/SkinnedMesh.cpp:499-516 | the single key, or the normalised slerp from the found key to the next by the factor |
| SkinnedMeshes.FindNodeAnim | src/SkinnedMesh.cpp:611-622 | the loop returns the first channel named after the node, and null when none is |
| SkinnedMeshes.RegisterAssignsInInsertionOrder | src/SkinnedMesh.cpp:350-368 | a new bone name takes the next index and its offset matrix, a known name keeps its index and leaves the table unchanged, and no name or entry already in the table moves |
| SkinnedMeshes.LoadBonesExtendsTable | src/SkinnedMesh.cpp:348-376 | loading a mesh's bones keeps the table valid and only extends it: every earlier name keeps its index, every earlier entry stays, and every bone of the mesh ends up named in it |
| SkinnedMeshes.FaceIndicesInOrder | src/SkinnedMesh.cpp:339-345 | face f's three indices are entries 3f, 3f + 1 and 3f + 2 of the mesh's indices |
| SkinnedMeshes.EntriesLocateMeshes | src/SkinnedMesh.cpp:256-279 | the entry of mesh k locates it in the shared buffers: the positions from BaseVertex are that mesh's, and the indices from BaseIndex are its faces' |
| SkinnedMeshes.MaterialTextureRule | src/SkinnedMesh.cpp:397-428 | a material keeps a texture iff it lists a diffuse texture whose path resolves and loads, the texture then being Dir + "/" + that path; a material without diffuse textures keeps none and does not fail |
| SkinnedMeshes.ImportResult | src/SkinnedMesh.cpp:59-90 | the worker returns a null importer exactly when the file named by the source cannot be opened |
| SkinnedMeshes.DrawEntriesDrawEveryEntry | src/SkinnedMesh.cpp:184-196 | every entry is drawn once, each draw preceded by at most one texture bind, and without textures the draws are exactly the entries' in order |
| SkinnedMeshes.AppendVertices | src/SkinnedMesh.cpp:325-334 | the vertex loop appends every position, normal and (x, y) texture coordinate of the mesh, (0, 0) when it has no coordinates |
| SkinnedMeshes.AppendFaces | src/SkinnedMesh.cpp:339-345 | the face loop appends the three indices of every face, in order |
| SkinnedMeshes.AddBoneWeights | src/SkinnedMesh.cpp:370-374 | the weight loop adds every weight of the bone to vertex BaseVertex + mVertexId, as AddWeights specifies |
| SkinnedMeshes.NodeTransformation | src/SkinnedMesh.cpp:545-568 | a node without a channel keeps its own matrix; an animated node gets the interpolated translation, rotation and scaling applied to it |
| SkinnedMeshes.SceneEntriesIndexTextures | src/SkinnedMesh.cpp:188 | every entry built from a well-formed scene names one of the kept textures, so the draw loop's material assertion holds |
| SkinnedMeshes.SkinnedMesh.constructor | src/SkinnedMesh.h:71-75 | a new mesh has an empty source, status None, no scene, VAO 0, five zero buffer handles, no bones and no shader program |
| SkinnedMeshes.SkinnedMesh.SetStatus | src/SkinnedMesh.cpp:94-101 | the status is stored and statusChanged is emitted only when it changed |
| SkinnedMeshes.SkinnedMesh.SetShaderProgram | src/SkinnedMesh.cpp:582-589 | the program is stored and shaderProgramChanged is emitted only when it changed |
| SkinnedMeshes.SkinnedMesh.SetSource | src/SkinnedMesh.cpp:49-92 | a different source is stored, sourceChanged emitted, the status becomes Loading and an import of the new source is started; an equal source changes nothing |
| SkinnedMeshes.SkinnedMesh.OnSceneLoadingComplete | src/SkinnedMesh.cpp:103-116 | an import that produced a scene makes the mesh Processing, one that produced none makes it Error; a null importer is reported as such and changes nothing |
| SkinnedMeshes.SkinnedMesh.OnInit | src/SkinnedMesh.cpp:118-121 | onRender is connected to the device's render broadcast |
| SkinnedMeshes.SkinnedMesh.Clear | src/SkinnedMesh.cpp:222-239 | every texture pointer becomes null, the buffers are deleted when the first handle is set (the handles are kept), and the VAO is deleted when named and zeroed |
| SkinnedMeshes.SkinnedMesh.OnShutdown | src/SkinnedMesh.cpp:123-126 | shutdown is Clear |
| SkinnedMeshes.SkinnedMesh.RegisterBone | src/SkinnedMesh.cpp:351-368 | the table afterwards and the index are what Register gives, and the bone count stays the table's length |
| SkinnedMeshes.SkinnedMesh.LoadBones | src/SkinnedMesh.cpp:348-376 | the bone loop leaves the table and the vertices' bone data that LoadBonesOf specifies for the mesh's bones from its BaseVertex |
| SkinnedMeshes.SkinnedMesh.InitMesh | src/SkinnedMesh.cpp:315-346 | the mesh's positions, normals, texture coordinates and face indices are appended and its bones loaded |
| SkinnedMeshes.SkinnedMesh.InitMaterials | src/SkinnedMesh.cpp:378-431 | each material's slot holds the texture MaterialTexture names for it (using the directory of the source), and the result is true iff no listed texture fails to load |
| SkinnedMeshes.SkinnedMesh.FillEntries | src/SkinnedMesh.cpp:243 | the entries are resized to one per mesh, each with 3 indices per face and the vertex and index counts of the meshes before it as bases (see also src/SkinnedMesh.cpp:256-265) |
| SkinnedMeshes.SkinnedMesh.InitMeshes | src/SkinnedMesh.cpp:246-279 | from empty vectors and zeroed bone data the mesh loop yields the concatenated positions, normals, coordinates and indices of all meshes, and the bones ImportedBones specifies |
| SkinnedMeshes.SkinnedMesh.InitFromScene | src/SkinnedMesh.cpp:241-313 | entries, textures and bone table are built from the scene, the result is true iff every texture loads, and only then are the five buffers filled, each into its own slot |
| SkinnedMeshes.SkinnedMesh.ReadNodeHierarchy | src/SkinnedMesh.cpp:539-580 | the recursive walk leaves exactly the bone table VisitNode specifies |
| SkinnedMeshes.SkinnedMesh.BoneTransform | src/SkinnedMesh.cpp:591-608 | without animations nothing changes; otherwise the walk runs at the first animation's time (seconds times the tick rate, wrapped by fmod into the clip) and one final transformation per bone is returned |
| SkinnedMeshes.SkinnedMesh.Regenerate | src/SkinnedMesh.cpp:135-142 | Clear, then a new vertex array generated and bound and five buffers generated |
| SkinnedMeshes.SkinnedMesh.Install | src/SkinnedMesh.cpp:144-154 | the imported scene becomes m_pScene, the global inverse is the inverse of its root's matrix, the scene is initialised and the vertex array unbound |
| SkinnedMeshes.SkinnedMesh.Rebuild | src/SkinnedMesh.cpp:132-157 | onRender while Processing regenerates the buffers, installs the imported scene and ends Ready whether or not every texture loaded |
| SkinnedMeshes.SkinnedMesh.InstallReady | src/SkinnedMesh.cpp:151-156 | Install, then the status becomes Ready with its notification |
| SkinnedMeshes.SkinnedMesh.PoseBones | src/SkinnedMesh.cpp:165-170 | the bones are posed at the given time and each final transformation is set as a uniform, bone 0 first |
| SkinnedMeshes.SkinnedMesh.DrawMeshes | src/SkinnedMesh.cpp:182-198 | the vertex array is bound, every entry drawn after binding its material's texture when there is one, and the array unbound |
| SkinnedMeshes.SkinnedMesh.Draw | src/SkinnedMesh.cpp:159-199 | a mesh with no program is reported as the null dereference of src/SkinnedMesh.cpp:161 and changes nothing; with an unlinked program nothing happens; otherwise the program is bound, the bones posed and uploaded, the eye position, MVP and model matrix set and every entry drawn |
| SkinnedMeshes.SkinnedMesh.OnRender | src/SkinnedMesh.cpp:128-204 | Processing ends Ready with the imported scene, the driver's new vertex array and buffers, the scene's entries, material textures and bone table, and the regenerate-then-install events; Ready with no shader program is reported as a null dereference exactly then, and changes nothing; Ready with an unlinked program changes nothing; Ready with a linked program poses the bones at the frame time and appends the program bind, bone uploads, eye/MVP/model uniforms and the mesh draws, keeping status, scene, entries, textures, buffers and bone table; every other status does nothing |
| Textures.StatusValue | src/Texture.h:15-22 | each Status enumerator has its integer value, None being 0 and the others following in declaration order |
| Textures.StatusValuesAreOrdered | src/Texture.h:15-22 | the enumerator values are distinct, start at 0 and rise in declaration order |
| Textures.EmptyBitmap | src/Texture.cpp:127-128 | the worker's fresh Bitmap has zero size and channels, no pixels, and the requested target |
| Textures.WorkerBitmapHasData | src/Texture.cpp:126-162 | the worker's bitmap keeps the requested target and has pixels exactly when the resolved file opens and decodes with the requested channel count |
| Textures.ChannelFormat | src/Texture.cpp:188-206 | channel counts 1 to 4 map to RED, RG, RGB and RGBA; any other count is rejected |
| Textures.GlTarget | src/Texture.cpp:209-223 | only TargetTexture2D and TargetTextureCubeMap are accepted, each as itself |
| Textures.Anisotropy | src/Texture.cpp:78-100 | the filter half of a sample mode sets anisotropy 4 for Anisotropic and 1 for Linear and Nearest, and nothing when it names no filter |
| Textures.SampleModeDecodesIndependently | src/Texture.cpp:72-119 | a combined mode f or a sets exactly f's three filter parameters and a's two wrap parameters, with the wrap mode Repeat, Clamp or ClampBorder names |
| Textures.Texture.constructor | src/Texture.h:58-62 | a new texture has an empty source, status None, target 0, handle 0, no load in flight and no calls or signals |
| Textures.Texture.SetSource | src/Texture.cpp:25-33 | a different source is stored, sourceChanged emitted and one loadImage queued; an equal source changes nothing (see also src/Texture.cpp:19) |
| Textures.Texture.SetTarget | src/Texture.cpp:35-42 | a different target is stored, targetChanged emitted and one loadImage queued; an equal target changes nothing (see also src/Texture.cpp:20) |
| Textures.Texture.SetFormat | src/Texture.cpp:44-51 | a different format is stored, formatChanged emitted and one loadImage queued; an equal format changes nothing (see also src/Texture.cpp:21) |
| Textures.Texture.SetStatus | src/Texture.cpp:53-60 | the status is stored and statusChanged is emitted only when it changed |
| Textures.Texture.Bind | src/Texture.cpp:63-70 | a named texture activates unit GL_TEXTURE0 + slot and binds itself there; an unnamed one issues nothing |
| Textures.Texture.SetSampleMode | src/Texture.cpp:72-119 | on a named texture: bound to unit 0, then the filter and the wrap parameters the mode selects; nothing on an unnamed one |
| Textures.Texture.LoadImage | src/Texture.cpp:121-164 | outside Loading the status becomes Loading and a worker run starts on the current source, target and format; while Loading nothing changes |
| Textures.Texture.DeliverQueuedLoad | src/Texture.cpp:19-21 | one queued loadImage is consumed and runs as LoadImage specifies (see also src/Texture.cpp:121-164) |
| Textures.Texture.OnImageDecodingComplete | src/Texture.cpp:166-177 | the finished run's bitmap becomes the result, and the status becomes Processing when it has pixels and Error when not |
| Textures.Texture.OnUpdate | src/Texture.cpp:179-243 | only Processing does anything: an unknown channel count or target gives Error and no calls; otherwise the texture is named on first use, uploaded, sampled Anisotropic and Clamp, its pixels dropped, and the status stays Processing |
| Textures.Texture.Upload | src/Texture.cpp:225-237 | the upload calls with the handle named on first use, and the result's pixels dropped |
| Textures.Texture.UploadPixels | src/Texture.cpp:208-232 | target enabled, texture generated when unnamed, bound, filled with the bitmap's pixels and mipmapped |
| Textures.Texture.OnShutdown | src/Texture.cpp:245-252 | a named texture is deleted and its handle zeroed; an unnamed one issues nothing |
| Textures.UploadRepeatsWithoutPixels | src/Texture.cpp:179-243 | nothing moves a texture out of Processing: the next update uploads again, now with no pixels, and the status is still Processing |
| Lights.Light.constructor | src/BaseLight.h:34-36 | a new light has an invalid colour, zero intensities, attenuation (1, 0, 0), a zero direction and cutoff 0, and has emitted nothing (see also src/PointLight.h:33-35, src/SpotLight.h:29-30) |
| Lights.Light.SetColor | src/BaseLight.cpp:3-10 | the colour is stored and colorChanged is emitted only when it differs from the old one |
| Lights.Light.SetAmbientIntensity | src/BaseLight.cpp:12-19 | the ambient intensity is stored and its notification emitted only when it changed |
| Lights.Light.SetDiffuseIntensity | src/BaseLight.cpp:21-28 | the diffuse intensity is stored and its notification emitted only when it changed |
| Lights.Light.SetAttenuationConstant | src/PointLight.cpp:3-10 | on point and spot lights, the constant term is stored and its notification emitted only when it changed |
| Lights.Light.SetAttenuationLinear | src/PointLight.cpp:12-19 | on point and spot lights, the linear term is stored and its notification emitted only when it changed |
| Lights.Light.SetAttenuationExp | src/PointLight.cpp:21-28 | on point and spot lights, the quadratic term is stored and its notification emitted only when it changed |
| Lights.Light.SetDirection | src/SpotLight.cpp:3-10 | on spot and directional lights, the direction is stored and directionChanged emitted only when it changed (see also src/DirectionalLight.cpp:3-10) |
| Lights.Light.SetCutoff | src/SpotLight.cpp:12-19 | on spot lights, the cutoff is stored and its notification emitted only when it changed |
| Lights.SetColorTwice | src/BaseLight.cpp:3-10 | setting the same colour twice emits at most once: the second call changes nothing |
| Lights.SetDirectionTwice | src/SpotLight.cpp:3-10 | setting the same direction twice emits at most once: the second call changes nothing |
| Headsets.Disconnect | src/VRHeadset.cpp:49-52 | disconnecting a window removes every connection to it and keeps every other connection |
| Headsets.SyncIsUnitStep | src/VRHeadset.cpp:36-45 | one sync is the node motion step with a frame time of one: the rotation advances by angular.y, the position moves by the linear velocity yawed through the new angle, the height changes by linear.y only, and zero velocities leave the pose unchanged |
| Headsets.VRHeadset.constructor | src/VRHeadset.cpp:8-16 | a new headset is in no window, at the origin with rotation 0 and zero velocities, and has emitted nothing (see also src/VRHeadset.h:39-41) |
| Headsets.VRHeadset.SetAngularVelocity | src/VRHeadset.cpp:18-25 | the angular velocity is stored and its notification emitted only when it changed |
| Headsets.VRHeadset.SetLinearVelocity | src/VRHeadset.cpp:27-34 | the linear velocity is stored and its notification emitted only when it changed |
| Headsets.VRHeadset.SetX | src/VRHeadset.cpp:12 | x is stored, xChanged fires only on a change, and the window's renderer keeps the item's position (see also src/VRHeadset.cpp:64-70) |
| Headsets.VRHeadset.SetY | src/VRHeadset.cpp:13 | y is stored, yChanged fires only on a change, and the window's renderer keeps the item's position (see also src/VRHeadset.cpp:72-78) |
| Headsets.VRHeadset.SetZ | src/VRHeadset.cpp:14 | z is stored, zChanged fires only on a change, and the window's renderer keeps the item's position (see also src/VRHeadset.cpp:80-86) |
| Headsets.VRHeadset.SetRotation | src/VRHeadset.cpp:15 | the rotation is stored, rotationChanged fires only on a change, and the window's renderer keeps the item's orientation (see also src/VRHeadset.cpp:88-94) |
| Headsets.VRHeadset.Sync | src/VRHeadset.cpp:36-45 | the pose afterwards is SyncStep of the pose before, the renderer follows it, and x, y, z and rotation notify in that order, each only if it moved |
| Headsets.VRHeadset.HandleWindowChanged | src/VRHeadset.cpp:47-62 | sync is connected to exactly the new window, whose renderer receives the current position and rotation; the pose itself is unchanged |
| Nodes.RotateYProperties | src/Node.cpp:63 | the yaw rotation of QQuaternion::fromAxisAndAngle(0, 1, 0, angle) keeps the y component, maps zero to zero, is the identity at angle zero and keeps the horizontal length |
| Nodes.RotateYScales | src/Node.cpp:63 | rotating the scaled velocity is scaling the rotated one |
| Nodes.DirectConnect | src/Node.h:7 | a unique connection is present afterwards, every earlier connection stays, nothing else is added, and at most one entry is added |
| Nodes.DirectConnectIdempotent | src/Node.h:7 | making the same unique connection twice is making it once, and making one already present changes nothing |
| Nodes.DeviceSlot.constructor | src/Node.cpp:8 | the shared device pointer starts null |
| Nodes.StepProperties | src/Node.cpp:57-71 | an update step changes the height by exactly linear.y * dt, leaves the position with zero linear velocity or zero dt, leaves the rotation with zero angular.y or zero dt, and moves the node the horizontal distance of linear * dt whatever the angle, given a proper cosine and sine of the new angle |
| Nodes.Node.constructor | src/Node.cpp:10-13 | a new node shares the device slot, sits at the origin with rotation 0 and zero velocities, and has no subscriptions or events (see also src/Node.h:49-50) |
| Nodes.Node.SetAngularVelocity | src/Node.cpp:15-22 | the angular velocity is stored and its notification emitted only when it changed |
| Nodes.Node.SetLinearVelocity | src/Node.cpp:24-31 | the linear velocity is stored and its notification emitted only when it changed |
| Nodes.Node.SetX | src/Node.cpp:65 | QQuickItem::setX: stored, notifying only on a change |
| Nodes.Node.SetY | src/Node.cpp:66 | QQuickItem::setY: stored, notifying only on a change |
| Nodes.Node.SetZ | src/Node.cpp:67 | QQuickItem::setZ: stored, notifying only on a change |
| Nodes.Node.SetRotation | src/Node.cpp:69 | QQuickItem::setRotation: stored, notifying only on a change |
| Nodes.Node.ComponentComplete | src/Node.cpp:33-74 | the ancestor walk never changes the shared device pointer; without a device the node logs the error and exits, with one it subscribes to init, shutdown and update in that order and completes the item |
| Nodes.Node.OnInit | src/Node.cpp:49-51 | the init broadcast runs the node's onInit hook |
| Nodes.Node.OnShutdown | src/Node.cpp:53-55 | the shutdown broadcast runs the node's onShutdown hook |
| Nodes.Node.OnUpdateStep | src/Node.cpp:57-71 | the pose afterwards is Step of the pose before with the device's dt; x, y, z and rotation notify in that order when they moved, and the onUpdate hook runs last |
| DebugCallback.TokenGroupsAreContiguous | src/DebugCallback.cpp:13 | the facts the static_asserts check hold of the GL tokens: each group is contiguous and AMD's low severity is KHR's (see also src/DebugCallback.cpp:35, src/DebugCallback.cpp:50, src/DebugCallback.cpp:66, src/DebugCallback.cpp:110) |
| DebugCallback.SourceTable | src/DebugCallback.cpp:11-29 | the guarded table lookup names every source token as the comment beside its row says, and gives a name other than "Unknown" exactly inside the guarded range |
| DebugCallback.TypeTable | src/DebugCallback.cpp:33-62 | both guarded lookups together name every type token as its row says, and "Unknown" exactly outside the two ranges |
| DebugCallback.CategoryTable | src/DebugCallback.cpp:64-83 | the AMD category lookup names every category token as its row says, and "Unknown" exactly outside the guarded range |
| DebugCallback.SourceNamesDistinct | src/DebugCallback.cpp:15-26 | no two source tokens in range share a name |
| DebugCallback.KhrMessage | src/DebugCallback.cpp:85-106 | the KHR hook logs the source and type names, the id and the message |
| DebugCallback.AmdMessage | src/DebugCallback.cpp:108-130 | the AMD hook logs the category name, the id and the message |
| DebugCallback.SeverityGrading | src/DebugCallback.cpp:90-105 | HIGH logs as critical, MEDIUM and LOW as warnings, every other severity (the default case) as information, and the AMD hook grades and tags each severity as the KHR hook does (see also src/DebugCallback.cpp:114-129) |
| DebugCallback.FirstClear | src/DebugCallback.cpp:136 | the drain stops at the first GL_NO_ERROR answer, every answer before it being an error |
| DebugCallback.ErrorCalls | src/DebugCallback.cpp:136 | one glGetError per answer, in order |
| DebugCallback.TryArbOutcome | src/DebugCallback.cpp:161-204 | the ARB attempt starts by looking up its entry point, succeeds iff it is found and both checks pass, and ends in qFatal exactly when it fails, after registering with every extension that was found |
| DebugCallback.InstallDrainsFirst | src/DebugCallback.cpp:135-139 | install's first calls are one glGetError per pending error and one that answers GL_NO_ERROR, then the KHR_debug registration |
| DebugCallback.InstallOrder | src/DebugCallback.cpp:133-205 | KHR_debug succeeds iff its two checks pass; ARB is looked up only after KHR failed and succeeds only then; install is fatal iff every extension failed, and then it tried each one that was found |
| DebugCallback.DrainErrors | src/DebugCallback.cpp:136 | the drain loop issues exactly the glGetError calls up to and including the first GL_NO_ERROR |
| DebugCallback.RegisterCallback | src/DebugCallback.cpp:139-157 | one registration attempt issues the calls Register gives, succeeds iff both checks answer GL_NO_ERROR, and consumes the answers it read (see also src/DebugCallback.cpp:165-183) |
| DebugCallback.AttemptAmd | src/DebugCallback.cpp:187-204 | the AMD attempt succeeds iff its entry point is found and its one check passes; otherwise it ends in qFatal |
| DebugCallback.Install | src/DebugCallback.cpp:133-205 | install issues exactly InstallTrace's calls and outcome |
| Devices.InitOrder | src/Device.cpp:244-318 | init is emitted exactly when every VALIDATE passes, after the session, both eye buffers, the mirror framebuffer and the tracking origin, and is followed by the timer start; otherwise the process exits at the first failing step, and a failed left eye buffer stops before the right one is made |
| Devices.ConnectWindow | src/Device.cpp:218-225 | a new window has its three scene-graph signals connected, no earlier connection is lost, and nothing is connected to any other window |
| Devices.ConnectWindowIdempotent | src/Device.cpp:221-223 | moving into the same window twice connects nothing more, because the connections are unique (see also src/Node.h:7) |
| Devices.EyePasses | src/Device.cpp:369-396 | the eye loop issues four steps per eye |
| Devices.QuitFrame | src/Device.cpp:324-336 | a frame asked to quit begins the external commands, asks the application to quit and does nothing else: no update, no render, no submit |
| Devices.EyePassesTwo | src/Device.cpp:369-396 | the eye loop is eye 0's pass followed by eye 1's |
| Devices.RecenterFirst | src/Device.cpp:338-353 | the tracking origin is recentred exactly when a frame that does not quit is asked to, and before the eye poses are fetched |
| Devices.RenderedFrameOrder | src/Device.cpp:340-422 | a visible frame fetches the eye poses, emits update once, runs eye 0's and eye 1's passes with one render each, and submits; no other update or render occurs in the frame |
| Devices.FailedSubmitEndsFrame | src/Device.cpp:416-419 | a failed submit is the frame's last step: no mirror blit, no end of the external commands, no request for the next frame, and frameIndex does not advance |
| Devices.HiddenFrame | src/Device.cpp:340-432 | a frame of a session that is not visible emits no update or render and submits nothing, but still blits the mirror and ends the frame (see also src/Device.cpp:460-468) |
| Devices.DesktopFrameRendersOnce | src/Device.cpp:433-468 | without LibOVR a frame renders exactly once, emits no update, and lies between the begin and end of the external commands |
| Devices.TickProperties | src/Device.cpp:357-360 | t is the running time in seconds and becomes prev_t; consecutive dts add up to the time since the earlier sample, the first dt equals its t, and dt is never negative for a timer that does not run backwards |
| Devices.Device.constructor | src/Device.cpp:210-226 | the new device becomes the shared device of every node, selects a new default headset, and starts with zero time, frame 0, identity matrices, no eye buffers, no mirror and no connections (see also src/Device.h:63-82) |
| Devices.Device.SetHeadset | src/Device.cpp:228-242 | an argument differing from the current headset is selected (null selecting the default) and headsetChanged emitted with the argument, including null while the default is current; an equal one changes nothing |
| Devices.Device.OnWindowChanged | src/Device.cpp:218-225 | a window's three scene-graph signals are connected uniquely; no window connects nothing |
| Devices.Device.OnSceneGraphInitialized | src/Device.cpp:244-318 | the setup steps are InitTrace's, and a successful run leaves both eye buffers and the mirror framebuffer made, a failed one leaves the mirror framebuffer as it was, and a run that exits before the eye-buffer loop leaves the eye buffers as they were |
| Devices.Device.OnSceneGraphInitializedDesktop | src/Device.cpp:244-318 | without LibOVR the handler validates nothing: it emits init and starts the timer |
| Devices.Device.MakeEyeBuffers | src/Device.cpp:276-285 | each eye buffer is stored, then validated; the loop succeeds iff both buffers were created and leaves them both present |
| Devices.Device.OnBeforeRenderPassRecording | src/Device.cpp:320-469 | the frame's steps are FrameTrace's; frameIndex advances by one iff the frame rendered and its submit succeeded; t, dt, the view and the projection change only in a rendered frame, eye 1's matrices remaining |
| Devices.Device.RenderVisibleFrame | src/Device.cpp:340-422 | the visible branch samples the clock, issues VisiblePart and advances frameIndex iff the submit succeeded |
| Devices.Device.RenderEyes | src/Device.cpp:369-396 | the eye loop issues both passes; eye 0's render broadcast sees eye 0's view and projection and eye 1's sees eye 1's, and eye 1's remain afterwards |
| Devices.Device.OnBeforeRenderPassRecordingDesktop | src/Device.cpp:433-468 | without LibOVR the eye sits at the headset's position, the view looks along its yaw with a 45 degree perspective, and the frame renders once |
| Devices.Device.OnSceneGraphAboutToStop | src/Device.cpp:471-474 | stopping the scene graph emits shutdown and nothing else |
| RoomScenes.ToUshort | src/RoomScene.h:289 | the GLushort conversion yields a value below 2^16 and keeps any value already in range (see also src/RoomScene.h:332) |
| RoomScenes.FaceQuad | src/RoomScene.h:321-329 | each row of CubeIndices uses exactly the four vertices of its own quad |
| RoomScenes.CubeIndicesStayOnTheirFace | src/RoomScene.h:321-329 | every CubeIndices entry k lies in quad k / 6, so every entry lies below 24, and each quad's four vertices all appear in its row |
| RoomScenes.BoxCorners | src/RoomScene.h:305-319 | the Vert table has 24 corners |
| RoomScenes.BoxCornersFormFaces | src/RoomScene.h:305-319 | each group of four corners lies on one face of the box (top, bottom, left, right, back, front), and the texture coordinates are (z, x) on the top and bottom, (z, y) on the sides and (x, y) on the back and front |
| RoomScenes.Channel | src/RoomScene.h:346-352 | a scaled colour byte is clamped to 255 and otherwise truncated: it is at most the scaled value and within one below it |
| RoomScenes.PackBytes | src/RoomScene.h:349-352 | packing four bytes and selecting them again gives the same bytes back |
| RoomScenes.UnpackBytes | src/RoomScene.h:349-352 | every DWORD colour is the packing of its four bytes |
| RoomScenes.ShadeBytes | src/RoomScene.h:346-352 | a shaded vertex colour keeps c's alpha, puts the scaled bits 16-23 in the low byte and the scaled low byte in bits 16-23, green staying in the middle, each clamped; at brightness 1 it is c with red and blue exchanged |
| RoomScenes.BoxVertices | src/RoomScene.h:335-354 | one box appends 24 vertices |
| RoomScenes.BoxIndices | src/RoomScene.h:331-332 | one box appends 36 indices |
| RoomScenes.BoxIndicesAreOffset | src/RoomScene.h:331-332 | each appended index is its CubeIndices entry plus the vertex count before the box, staying inside the box's own 24 vertices and its entry's quad |
| RoomScenes.BoxKeepsIndicesInRange | src/RoomScene.h:303-355 | when every earlier index names an existing vertex, after a box every index still names an existing vertex |
| RoomScenes.Model.constructor | src/RoomScene.h:265-275 | a new model holds no vertices or indices, its position and its fill |
| RoomScenes.Model.AddVertex | src/RoomScene.h:288 | the vertex is written at numVertices, which goes up by one, and no other slot changes (see also src/VRRenderer.cpp:453) |
| RoomScenes.Model.AddIndex | src/RoomScene.h:289 | the index, truncated to 16 bits, is written at numIndices, which goes up by one, and no other slot changes (see also src/VRRenderer.cpp:454) |
| RoomScenes.Model.AddSolidColorBox | src/RoomScene.h:303-355 | 36 offset indices and 24 shaded vertices are appended to what the model already held (see also src/VRRenderer.cpp:468-517) |
| RoomScenes.Model.AddBoxIndices | src/RoomScene.h:331-332 | the index loop appends BoxIndices for the current vertex count |
| RoomScenes.Model.AddBoxVertices | src/RoomScene.h:335-354 | the vertex loop appends BoxVertices |
| RoomScenes.XorBit | src/RoomScene.h:476-477 | the xor of two bits is a bit, set iff they differ |
| RoomScenes.FloorPicture | src/RoomScene.h:476 | the floor is a checkerboard of four 128-pixel squares, the light ones where exactly one coordinate is in the upper half |
| RoomScenes.CeilingPicture | src/RoomScene.h:479-480 | the ceiling is light with a dark border of the first four rows and columns; the blank material is opaque white |
| RoomScenes.WallPicture | src/RoomScene.h:477-478 | the wall is bricks: a mortar row every 64 pixels, and vertical joints every 64 pixels that shift by 64 from one brick row to the next |
| RoomScenes.PatternImage | src/RoomScene.h:471-482 | a material's image has 256 x 256 pixels |
| RoomScenes.FillPattern | src/RoomScene.h:472-482 | the j and i loops leave exactly material k's image in tex_pixels |
| RoomScenes.MakeMaterials | src/RoomScene.h:467-485 | the four materials receive the floor, wall, ceiling and blank images, in that order |
| RoomScenes.ReversedAt | src/RoomScene.h:563-564 | position k of the deletion order is model numModels - 1 - k |
| RoomScenes.RoomScene.constructor | src/RoomScene.h:554 | a new scene has ten empty model slots and no models |
| RoomScenes.RoomScene.Add | src/RoomScene.h:402-405 | the model goes into slot numModels, which goes up by one, and no other slot changes (see also src/VRRenderer.cpp:563-566) |
| RoomScenes.RoomScene.Render | src/RoomScene.h:407-411 | models 0 to numModels - 1 are rendered once each, in order (see also src/VRRenderer.cpp:568-572) |
| RoomScenes.RoomScene.CreateShader | src/RoomScene.h:413-433 | a shader is created, given its source, compiled and queried; the result is its handle when it compiled and 0 after fetching the info log when not |
| RoomScenes.RoomScene.Release | src/RoomScene.h:561-565 | every model is deleted once, newest first, and the counter ends one below zero, so a second Release deletes nothing (see also src/VRRenderer.cpp:725-729) |
| VRRenderers.OculusTextureBuffer.constructor | src/VRRenderer.cpp:26-99 | each swap chain is held exactly when its creation produced one, the framebuffer is the one glGenFramebuffers returned, and nothing has been released yet |
| VRRenderers.OculusTextureBuffer.Destroy | src/VRRenderer.cpp:101-118 | the colour chain, then the depth chain, then the framebuffer are released, each once and only if it was held, and all three end null |
| VRRenderers.TextureBuffer.constructor | src/VRRenderer.cpp:236-273 | the texture is always generated; a framebuffer is held only for a render target |
| VRRenderers.TextureBuffer.Destroy | src/VRRenderer.cpp:275-287 | the texture and then the framebuffer are deleted, each only if nonzero, and both end zero |
| VRRenderers.DestroyTwice | src/VRRenderer.cpp:101-118 | running the destructor body a second time releases nothing more, because every handle was reset to null |
| VRRenderers.DestroyPlainTexture | src/VRRenderer.cpp:236-287 | a texture that is not a render target deletes its texture (when nonzero) and never a framebuffer |
| VRRenderers.InitGuards | src/VRRenderer.cpp:760-831 | init generates m_fboId exactly when m_fboId is already nonzero (the guard is inverted), creates a session exactly when none exists, stops right after a failed ovr_Create, and builds the room exactly when no session existed and creation, the adapter check, both eye textures and the mirror texture all succeed |
| VRRenderers.EyePasses | src/VRRenderer.cpp:877-904 | the eye loop issues four steps per eye |
| VRRenderers.QuitPaint | src/VRRenderer.cpp:839-850 | a session asked to quit ends paint right after beginExternalCommands, without endExternalCommands, and the frame index does not advance |
| VRRenderers.EyePassesTwo | src/VRRenderer.cpp:877-904 | the eye loop is eye 0's pass followed by eye 1's |
| VRRenderers.EyePassesOnly | src/VRRenderer.cpp:877-904 | the eye loop only sets and clears, renders, unsets and commits |
| VRRenderers.VisiblePaintOrder | src/VRRenderer.cpp:833-951 | a visible frame recentres when asked, animates the cube only with input focus, fetches the eye poses for the current frame index, runs set-and-clear, render, unset, commit for eye 0 then eye 1, submits the same frame index, and blits and ends only when the submit succeeded |
| VRRenderers.FailedSubmitPaint | src/VRRenderer.cpp:924-927 | a failed submit is the last thing paint does: no blit, no endExternalCommands and no update request |
| VRRenderers.HiddenPaint | src/VRRenderer.cpp:854 | a frame that is not visible renders nothing, does not advance the frame index, and still blits the mirror, resets the GL state, ends the external commands and requests an update (see also src/VRRenderer.cpp:932-950) |
| VRRenderers.VRRenderer.constructor | src/ovr/VRRenderer.h:35-43 | a new renderer holds no framebuffer, eye textures, mirror texture, mirror framebuffer, room or session, and its frame index is 0 |
| VRRenderers.VRRenderer.Init | src/VRRenderer.cpp:760-831 | init records the events InitTrace gives for the fields it starts from; a session exists afterwards when one did before or ovr_Create succeeded; a full setup holds both eye textures, the mirror texture and framebuffer and the room; an existing session, or a failed ovr_Create that makes init return early, leaves the eye textures, mirror texture and framebuffer and room as they were |
| VRRenderers.VRRenderer.CreateSessionResources | src/VRRenderer.cpp:767-830 | the session block records the session setup for LibOVR's answers, holds a session exactly when ovr_Create succeeded, and holds every resource when every step succeeded, and changes no resource when ovr_Create failed |
| VRRenderers.VRRenderer.MakeEyeTextures | src/VRRenderer.cpp:790-799 | the loop creates and then validates each eye texture in turn, stopping at the first failure, and succeeds exactly when both eyes' chains exist, holding both textures |
| VRRenderers.VRRenderer.Paint | src/VRRenderer.cpp:833-951 | paint appends the frame PaintTrace gives for the current frame index and session status, and advances the frame index by one exactly when the session is visible, not quitting, and the submit succeeded |
| VRRenderers.VRRenderer.RenderVisible | src/VRRenderer.cpp:854-927 | the visible block animates with input focus, fetches the poses, renders both eyes and submits, all for the current frame index |
| VRRenderers.VRRenderer.RenderEyes | src/VRRenderer.cpp:877-904 | the eye loop renders eyes 0 and 1 in order |
| VRRenderers.VRRenderer.Cleanup | src/VRRenderer.cpp:953-985 | cleanup releases what TeardownTrace gives for the held resources and leaves nothing held: no room, mirror framebuffer, mirror texture, eye textures, m_fboId or session |
| VRRenderers.VRRenderer.DeleteEyeTextures | src/VRRenderer.cpp:971-975 | the loop deletes each eye texture that was held, in eye order, and leaves both null |
| VRRenderers.EyeDeletions | src/VRRenderer.cpp:971-975 | the first n eyes cause at most n deletions |
| VRRenderers.EyeDeletionsHeld | src/VRRenderer.cpp:971-975 | an eye texture is deleted exactly when it was held |
| VRRenderers.EyeDeletionsOnly | src/VRRenderer.cpp:971-975 | the eye loop of cleanup deletes nothing but eye textures |
| VRRenderers.TeardownReleasesHeld | src/VRRenderer.cpp:953-985 | cleanup deletes the room, the mirror texture, the mirror framebuffer and m_fboId each exactly when held, and destroys the session last, even when there is none |
| VRRenderers.InitThenCleanup | src/VRRenderer.cpp:762-765 | starting from m_fboId = 0, init never generates that framebuffer and cleanup never deletes it (see also src/VRRenderer.cpp:977-981, src/ovr/VRRenderer.h:35) |

## Left out

- The meaning of the GL, LibOVR and DXGI calls themselves is left out: swap chains, blits, `LookAtRH`, `ovrMatrix4f_Projection`, `ovr_GetEyePoses`, `ovr_GetFovTextureSize`. The model keeps the order of the calls that act in a trace. The handles they return are parameters. The queries whose answers the code branches on are inputs only and leave no trace entry: `glGetShaderiv`/`glGetShaderInfoLog` (src/Shader.cpp:123-137), `glGetProgramiv`/`glGetProgramInfoLog` (src/ShaderProgram.cpp:260-367) and `ovr_GetSessionStatus`.
- Threading is left out: the `QtConcurrent::run` workers (src/SkinnedMesh.cpp:59-90, src/Texture.cpp:126-162), `QFutureWatcher`, `QMutex`/`QAtomicInteger` (src/Buffer.cpp:8, 49) and the queued connection of src/Texture.cpp:19-21. A worker's completion is an explicit later method call, and locking is not modelled.
- File reading, stb_image decoding and Assimp importing are oracles passed in as parameters. `QUrl::toLocalFile` is an opaque function of the file system value.
- Floating point is left out. `qreal`/`float` values are mathematical reals, and comparisons of them are exact equality with no NaN. The float step of src/Node.cpp:61 and the float `m_t` of Device are unbounded reals.
- Matrix arithmetic is not carried out. A matrix is the symbolic expression that computes it: glm TRS, inverse, quaternion slerp/normalise, `ReadNodeHeirarchy` products and `fmod` of the animation time.
- The light uniform uploads of src/ShaderProgram.cpp:143-218 are left out, since they are float data handed to GL. Only the location lookups that feed them are modelled.
- The distance-based brightness of `AddSolidColorBox` (src/RoomScene.h:342-347, including its `rand()` term) is given as the per-vertex `shade` factor rather than computed from the light positions.
- The cube orbit in src/VRRenderer.cpp:859 is one `AnimateCube` event. Its argument evaluation order is unspecified and its arithmetic is float.
- Qt and QML plumbing is left out: src/QuickVR_plugin.cpp, src/VRWindow.cpp and examples/RoomTiny/main.cpp, the QQmlListProperty adaptors (src/ShaderProgram.cpp:9-57, 374-422), which only forward to the modelled list edits, and the Assimp logger reference count (src/SkinnedMesh.cpp:18-46). Signal delivery is modelled as an appended signal value, and log text is not modelled.
- src/VertexAttribute.h is an enum with no behaviour and is not modelled.
- The property getters are not modelled separately; they return the stored fields, which the model exposes directly.
- `VALIDATE` (`exit(-1)`) becomes an `Exit` event that ends the modelled trace. `qFatal` in `AddBoneData` becomes a `None` result of `AddWeights` and a precondition of the methods using it. The `assert(0)` fall-through of `FindPosition`/`FindRotation`/`FindScaling` is the release build's return of 0.
- Where a header and its implementation disagree, the model follows the .cpp: src/Node.h:54 `s_device` vs src/Node.cpp:8 `m_device`; src/Texture.h:29 and the `setTarget`/`setFormat` members missing from Texture.h; src/ShaderProgram.h:127 vs `.Bone` at src/ShaderProgram.cpp:217 (bones are plain locations); src/ovr/VRRenderer.h:40 `Scene*` vs the local `SkinnedMesh` of src/VRRenderer.cpp:558.
- `Headset.h` is not part of this model. The `Devices.Headset` class keeps only the pose fields the device reads. Its constructor has no row because the header it would cite is absent.
- `Model::Render` and the `AllocateBuffers`/`FreeBuffers` GL bodies (src/RoomScene.h, src/VRRenderer.cpp) are not modelled beyond the render call itself. Neither is the demo room's `Init` geometry, which is a fixed list of `AddSolidColorBox` calls.
- The destructors of `ShaderFill`, `VertexBuffer`, `IndexBuffer` and `DepthBuffer` in src/VRRenderer.cpp only delete GL names and are not modelled. The `OculusTextureBuffer` constructor's loop over the swap-chain textures (src/VRRenderer.cpp:51-93) reduces to whether each chain was created.
- The `VRRenderer` constructor's LibOVR initialisation and graphics-API checks (src/VRRenderer.cpp:740-753) are not modelled. Nor is the debug-build `DebugCallback::install` call there and in `Device::onSceneGraphInitialized`; `DebugCallback.Install` models what that call does.
- The `HAVE_LIBOVR` choice in src/Device.cpp is a choice between two pairs of methods: `OnSceneGraphInitialized` and `OnBeforeRenderPassRecording` with LibOVR, and `OnSceneGraphInitializedDesktop` and `OnBeforeRenderPassRecordingDesktop` without it.
- DebugCallback.Install: the `#ifdef GL_KHR_debug`, `GL_ARB_debug_output` and `GL_AMD_debug_output` blocks (src/DebugCallback.cpp:138-202) are all taken as compiled in. A build without one of those headers would skip that attempt, and the model does not cover that build.
- ShaderPrograms.ShaderProgram.SetPointLights: the requires `n <= MAX_POINT_LIGHTS` rules out the out-of-bounds read of `m_pointLightsLocation[i]` that the loop at src/ShaderProgram.cpp:171-179 makes for more than four lights. That read is undefined behaviour, so the model does not say what it does.
- ShaderPrograms.ShaderProgram.SetSpotLights: the requires `n <= MAX_SPOT_LIGHTS` rules out the same out-of-bounds read of `m_spotLightsLocation[i]` in the loop at src/ShaderProgram.cpp:186-197.
- SkinnedMeshes.SkinnedMesh.FillEntries: the running `uint32_t` vertex and index counts of src/SkinnedMesh.cpp:252-265 are unbounded naturals. The model does not capture their wrap-around past 2^32 - 1, which only a scene with more than four billion vertices or indices could reach.
- Skinning.EntriesAreContiguous: states the bases for unbounded counts, so it likewise leaves out the 32-bit wrap-around.
- SkinnedMeshes.SkinnedMesh.Draw: a Ready mesh with no shader program is dereferenced at src/SkinnedMesh.cpp:161. The model reports this as `nullProgram` and changes nothing, rather than modelling a crash. SkinnedMeshes.SkinnedMesh.OnRender passes the same outcome on.
- Devices.Device.OnBeforeRenderPassRecording: `prev_t` is function-static in src/Device.cpp:357-360, so it is shared by every Device. The model keeps it per device.
- Textures.Anisotropy: the model takes `GL_EXT_texture_filter_anisotropic` as always available, because src/Texture.cpp:78-100 tests only the extension's macro, which is always nonzero where it is defined.
- RoomScenes.RoomScene.CreateShader: the info-log check on `msg[0]` only decides whether text is logged. The failed shader is not deleted (src/RoomScene.h:424-431), and the model records no deletion either.
- What the importer is assumed to deliver is stated by `Skinning.MeshWellFormed`, `Skinning.ChannelWellFormed`, `Skinning.AnimationWellFormed` and `Skinning.SceneWellFormed`, which the SkinnedMesh methods require of the scene. These are assumptions, not proved facts: one normal per vertex and texture coordinates covering every vertex, material indices and bone weights that point at existing materials and vertices, at least one key of each kind per channel at strictly increasing times, and fewer than 2^31 materials. The code relies on Assimp's `aiProcessPreset_TargetRealtime_MaxQuality` post-processing (src/SkinnedMesh.cpp:87) to deliver such a scene, and Assimp is not part of this model.
- VRRenderers.VRRenderer.Paint: after an init whose `ovr_Create` failed (src/VRRenderer.cpp:769-771), no eye texture and no room scene exist, yet a visible frame dereferences `eyeRenderTexture[eye]` and `roomScene` (src/VRRenderer.cpp:880 and :894). The model records the `SetAndClear` and `RenderScene` steps whatever the renderer holds, rather than modelling that crash.
- SkinnedMeshes.SkinnedMesh.OnSceneLoadingComplete: when the file could not be opened, the source dereferences a null importer. The model reports this outcome as `nullImporter` and changes nothing, rather than modelling a crash.
