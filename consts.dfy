/**
 * The numeric constants of the OpenGL ES 2.0 C interface that the modelled
 * enums and wrapper calls use, with the values the Khronos header `GLES2/gl2.h`
 * publishes.
 */
module GLConsts {
  import opened GLTypes

  const GL_FALSE: GLboolean := 0
  const GL_TRUE: GLboolean := 1

  // Errors (section 2.5 of the OpenGL ES 2.0 specification)
  const GL_NO_ERROR: GLenum := 0
  const GL_INVALID_ENUM: GLenum := 0x0500
  const GL_INVALID_VALUE: GLenum := 0x0501
  const GL_INVALID_OPERATION: GLenum := 0x0502
  const GL_OUT_OF_MEMORY: GLenum := 0x0505
  const GL_INVALID_FRAMEBUFFER_OPERATION: GLenum := 0x0506

  // Framebuffer completeness (section 4.4.5 of the OpenGL ES 2.0 specification)
  const GL_FRAMEBUFFER_COMPLETE: GLenum := 0x8CD5
  const GL_FRAMEBUFFER_INCOMPLETE_ATTACHMENT: GLenum := 0x8CD6
  const GL_FRAMEBUFFER_INCOMPLETE_MISSING_ATTACHMENT: GLenum := 0x8CD7
  const GL_FRAMEBUFFER_INCOMPLETE_DIMENSIONS: GLenum := 0x8CD9
  const GL_FRAMEBUFFER_UNSUPPORTED: GLenum := 0x8CDD

  // Data types
  const GL_BYTE: GLenum := 0x1400
  const GL_UNSIGNED_BYTE: GLenum := 0x1401
  const GL_SHORT: GLenum := 0x1402
  const GL_UNSIGNED_SHORT: GLenum := 0x1403
  const GL_INT: GLenum := 0x1404
  const GL_FLOAT: GLenum := 0x1406
  const GL_FIXED: GLenum := 0x140C
  const GL_FLOAT_VEC2: GLenum := 0x8B50
  const GL_FLOAT_VEC3: GLenum := 0x8B51
  const GL_FLOAT_VEC4: GLenum := 0x8B52
  const GL_INT_VEC2: GLenum := 0x8B53
  const GL_INT_VEC3: GLenum := 0x8B54
  const GL_INT_VEC4: GLenum := 0x8B55
  const GL_BOOL: GLenum := 0x8B56
  const GL_BOOL_VEC2: GLenum := 0x8B57
  const GL_BOOL_VEC3: GLenum := 0x8B58
  const GL_BOOL_VEC4: GLenum := 0x8B59
  const GL_FLOAT_MAT2: GLenum := 0x8B5A
  const GL_FLOAT_MAT3: GLenum := 0x8B5B
  const GL_FLOAT_MAT4: GLenum := 0x8B5C
  const GL_SAMPLER_2D: GLenum := 0x8B5E
  const GL_SAMPLER_CUBE: GLenum := 0x8B60

  // Buffer objects
  const GL_ARRAY_BUFFER: GLenum := 0x8892
  const GL_ELEMENT_ARRAY_BUFFER: GLenum := 0x8893
  const GL_ARRAY_BUFFER_BINDING: GLenum := 0x8894
  const GL_ELEMENT_ARRAY_BUFFER_BINDING: GLenum := 0x8895
  const GL_STREAM_DRAW: GLenum := 0x88E0
  const GL_STATIC_DRAW: GLenum := 0x88E4
  const GL_DYNAMIC_DRAW: GLenum := 0x88E8

  // Textures
  const GL_TEXTURE_2D: GLenum := 0x0DE1
  const GL_TEXTURE_CUBE_MAP: GLenum := 0x8513
  const GL_TEXTURE_BINDING_2D: GLenum := 0x8069
  const GL_TEXTURE_BINDING_CUBE_MAP: GLenum := 0x8514

  // Framebuffer objects
  const GL_FRAMEBUFFER: GLenum := 0x8D40

  // Implementation strings
  const GL_VENDOR: GLenum := 0x1F00
  const GL_RENDERER: GLenum := 0x1F01
  const GL_VERSION: GLenum := 0x1F02
  const GL_EXTENSIONS: GLenum := 0x1F03
  const GL_SHADING_LANGUAGE_VERSION: GLenum := 0x8B8C

  // Capabilities
  const GL_CULL_FACE: GLenum := 0x0B44
  const GL_DEPTH_TEST: GLenum := 0x0B71
  const GL_STENCIL_TEST: GLenum := 0x0B90
  const GL_DITHER: GLenum := 0x0BD0
  const GL_BLEND: GLenum := 0x0BE2
  const GL_SCISSOR_TEST: GLenum := 0x0C11
  const GL_POLYGON_OFFSET_FILL: GLenum := 0x8037
  const GL_SAMPLE_ALPHA_TO_COVERAGE: GLenum := 0x809E
  const GL_SAMPLE_COVERAGE: GLenum := 0x80A0
}
