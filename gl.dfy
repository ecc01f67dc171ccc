// The OpenGL surface the components talk to. Every GL entry point the
// modelled code calls becomes one `Call` value appended to a trace; the
// handles the driver hands out (glGen*, glCreate*) and the answers of its
// queries (glGetShaderiv, glGetProgramiv, glGetError) are inputs of the
// operations that issue them.
module Gl {
  import opened Common

  type Bytes = seq<bv8>

  // Boolean results of glGet*iv.
  const GL_FALSE: int := 0
  const GL_TRUE: int := 1

  // Buffer binding points and usage hints.
  const GL_ARRAY_BUFFER: int := 0x8892
  const GL_ELEMENT_ARRAY_BUFFER: int := 0x8893
  const GL_UNIFORM_BUFFER: int := 0x8A11
  const GL_STREAM_DRAW: int := 0x88E0
  const GL_STATIC_DRAW: int := 0x88E4
  const GL_DYNAMIC_DRAW: int := 0x88E8

  // Texture targets, pixel formats and sampler parameters.
  const GL_TEXTURE0: int := 0x84C0
  const GL_TEXTURE_2D: int := 0x0DE1
  const GL_TEXTURE_CUBE_MAP: int := 0x8513
  const GL_RED: int := 0x1903
  const GL_RG: int := 0x8227
  const GL_RGB: int := 0x1907
  const GL_RGBA: int := 0x1908
  const GL_UNSIGNED_BYTE: int := 0x1401
  const GL_TEXTURE_MAG_FILTER: int := 0x2800
  const GL_TEXTURE_MIN_FILTER: int := 0x2801
  const GL_TEXTURE_WRAP_S: int := 0x2802
  const GL_TEXTURE_WRAP_T: int := 0x2803
  const GL_NEAREST: int := 0x2600
  const GL_LINEAR: int := 0x2601
  const GL_LINEAR_MIPMAP_LINEAR: int := 0x2703
  const GL_REPEAT: int := 0x2901
  const GL_CLAMP_TO_BORDER: int := 0x812D
  const GL_CLAMP_TO_EDGE: int := 0x812F
  const GL_TEXTURE_MAX_ANISOTROPY_EXT: int := 0x84FE

  // Shader stages.
  const GL_FRAGMENT_SHADER: int := 0x8B30
  const GL_VERTEX_SHADER: int := 0x8B31

  // Primitive and index types used by the mesh draw.
  const GL_TRIANGLES: int := 0x0004
  const GL_UNSIGNED_INT: int := 0x1405

  /** One GL call, with the arguments the model keeps. */
  datatype Call =
    | GenBuffers(handle: nat)
    | BindBuffer(target: int, handle: nat)
    | BufferData(target: int, data: Bytes, usage: int)
    | DeleteBuffers(handles: seq<nat>)
    | GenTextures(handle: nat)
    | ActiveTexture(unit: int)
    | BindTexture(target: int, handle: nat)
    | Enable(capability: int)
    | TexImage2D(target: int, format: int, width: int, height: int, pixels: Option<Bytes>)
    | GenerateMipmap(target: int)
    | TexParameteri(target: int, parameter: int, value: int)
    | DeleteTextures(handle: nat)
    | CreateShader(stage: int, handle: nat)
    | ShaderSource(shader: nat, code: Bytes)
    | CompileShader(shader: nat)
    | DeleteShader(shader: nat)
    | CreateProgram(program: nat)
    | AttachShader(program: nat, shader: nat)
    | LinkProgram(program: nat)
    | ValidateProgram(program: nat)
    | DeleteProgram(program: nat)
    | UseProgram(program: nat)
    | GetUniformLocation(program: nat, uniform: string)
    /** A glUniform* upload to `location`; the uploaded value is not modelled. */
    | Uniform(location: int)
    | GenVertexArrays(vao: nat)
    | BindVertexArray(vao: nat)
    | DeleteVertexArrays(vao: nat)
    /** `offset` is the byte offset of the first index in the bound index buffer. */
    | DrawElementsBaseVertex(mode: int, count: nat, indexType: int, offset: nat, baseVertex: nat)
}
