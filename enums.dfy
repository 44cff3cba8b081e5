/**
 * The typed enums of src/enums.rs. Each variant carries a GL constant as its
 * Rust discriminant; `ToCode` is the `variant as GLenum` cast the wrapper
 * applies at every call site. Three enums also decode driver replies
 * (`From<GLenum>` / `From<GLuint>`), each by a total match whose last arm
 * silently falls back to a default variant.
 */
module Enums {
  import opened GLTypes
  import opened GLConsts

  // ---------------------------------------------------------------------------
  // ErrorType (src/enums.rs:438-460)
  // ---------------------------------------------------------------------------

  /** The six error codes of section 2.5 of the OpenGL ES 2.0 specification. */
  predicate IsErrorCode(code: GLenum) {
    code == GL_NO_ERROR || code == GL_INVALID_ENUM || code == GL_INVALID_VALUE ||
    code == GL_INVALID_OPERATION || code == GL_INVALID_FRAMEBUFFER_OPERATION ||
    code == GL_OUT_OF_MEMORY
  }

  datatype ErrorType =
    | NoError
    | InvalidEnum
    | InvalidValue
    | InvalidOperation
    | InvalidFramebufferOperation
    | OutOfMemory
  {
    function ToCode(): (code: GLenum)
      ensures IsErrorCode(code)
    {
      match this
      case NoError => GL_NO_ERROR
      case InvalidEnum => GL_INVALID_ENUM
      case InvalidValue => GL_INVALID_VALUE
      case InvalidOperation => GL_INVALID_OPERATION
      case InvalidFramebufferOperation => GL_INVALID_FRAMEBUFFER_OPERATION
      case OutOfMemory => GL_OUT_OF_MEMORY
    }

    /**
     * `ErrorType::from`: total; a standard code gives the variant carrying it,
     * any other code gives `NoError`.
     */
    static function FromCode(code: GLenum): (e: ErrorType)
      ensures IsErrorCode(code) ==> e.ToCode() == code
      ensures !IsErrorCode(code) ==> e == NoError
    {
      if code == GL_NO_ERROR then NoError
      else if code == GL_INVALID_ENUM then InvalidEnum
      else if code == GL_INVALID_VALUE then InvalidValue
      else if code == GL_INVALID_OPERATION then InvalidOperation
      else if code == GL_INVALID_FRAMEBUFFER_OPERATION then InvalidFramebufferOperation
      else if code == GL_OUT_OF_MEMORY then OutOfMemory
      else NoError
    }
  }

  /** Decoding the discriminant of any variant gives that variant back. */
  lemma ErrorTypeRoundTrip(e: ErrorType)
    ensures ErrorType.FromCode(e.ToCode()) == e
  {
  }

  /** No two variants share a code. */
  lemma ErrorTypeCodesDistinct(a: ErrorType, b: ErrorType)
    ensures a.ToCode() == b.ToCode() <==> a == b
  {
    ErrorTypeRoundTrip(a);
    ErrorTypeRoundTrip(b);
  }

  /**
   * The fallback arm makes an unknown driver code indistinguishable from
   * "no error": the decoder says `NoError` exactly for `GL_NO_ERROR` and for
   * every code outside the six.
   */
  lemma UnknownErrorReadsAsNoError(code: GLenum)
    ensures ErrorType.FromCode(code) == NoError <==> (code == GL_NO_ERROR || !IsErrorCode(code))
    ensures ErrorType.FromCode(code).ToCode() == code <==> IsErrorCode(code)
  {
  }

  // ---------------------------------------------------------------------------
  // FrameBufferStatus (src/enums.rs:113-132)
  // ---------------------------------------------------------------------------

  /** The four codes `FrameBufferStatus::from` matches explicitly. */
  predicate IsListedStatusCode(code: GLenum) {
    code == GL_FRAMEBUFFER_COMPLETE || code == GL_FRAMEBUFFER_INCOMPLETE_ATTACHMENT ||
    code == GL_FRAMEBUFFER_INCOMPLETE_MISSING_ATTACHMENT ||
    code == GL_FRAMEBUFFER_INCOMPLETE_DIMENSIONS
  }

  datatype FrameBufferStatus =
    | FramebufferComplete
    | FramebufferIncompleteAttachment
    | FramebufferIncompleteMissingAttachment
    | FramebufferIncompleteDimensions
    | FramebufferUnsupported
  {
    function ToCode(): (code: GLenum)
      ensures IsListedStatusCode(code) || code == GL_FRAMEBUFFER_UNSUPPORTED
    {
      match this
      case FramebufferComplete => GL_FRAMEBUFFER_COMPLETE
      case FramebufferIncompleteAttachment => GL_FRAMEBUFFER_INCOMPLETE_ATTACHMENT
      case FramebufferIncompleteMissingAttachment => GL_FRAMEBUFFER_INCOMPLETE_MISSING_ATTACHMENT
      case FramebufferIncompleteDimensions => GL_FRAMEBUFFER_INCOMPLETE_DIMENSIONS
      case FramebufferUnsupported => GL_FRAMEBUFFER_UNSUPPORTED
    }

    /**
     * `FrameBufferStatus::from`: the four listed codes give their variants;
     * every other code, `GL_FRAMEBUFFER_UNSUPPORTED` included, reaches the
     * fallback arm and gives `FramebufferUnsupported`.
     */
    static function FromCode(code: GLuint): (s: FrameBufferStatus)
      ensures IsListedStatusCode(code) ==> s.ToCode() == code
      ensures !IsListedStatusCode(code) ==> s == FramebufferUnsupported
    {
      if code == GL_FRAMEBUFFER_COMPLETE then FramebufferComplete
      else if code == GL_FRAMEBUFFER_INCOMPLETE_ATTACHMENT then FramebufferIncompleteAttachment
      else if code == GL_FRAMEBUFFER_INCOMPLETE_MISSING_ATTACHMENT then FramebufferIncompleteMissingAttachment
      else if code == GL_FRAMEBUFFER_INCOMPLETE_DIMENSIONS then FramebufferIncompleteDimensions
      else FramebufferUnsupported
    }
  }

  lemma FrameBufferStatusRoundTrip(s: FrameBufferStatus)
    ensures FrameBufferStatus.FromCode(s.ToCode()) == s
  {
  }

  lemma FrameBufferStatusCodesDistinct(a: FrameBufferStatus, b: FrameBufferStatus)
    ensures a.ToCode() == b.ToCode() <==> a == b
  {
    FrameBufferStatusRoundTrip(a);
    FrameBufferStatusRoundTrip(b);
  }

  /**
   * A status code survives decoding exactly when it is one of the four listed
   * codes or `GL_FRAMEBUFFER_UNSUPPORTED`, which the fallback happens to hit.
   */
  lemma FrameBufferStatusFixedPoints(code: GLuint)
    ensures FrameBufferStatus.FromCode(code).ToCode() == code <==>
            (IsListedStatusCode(code) || code == GL_FRAMEBUFFER_UNSUPPORTED)
    ensures FrameBufferStatus.FromCode(code) == FramebufferUnsupported <==> !IsListedStatusCode(code)
  {
  }

  // ---------------------------------------------------------------------------
  // DataType (src/enums.rs:594-648)
  // ---------------------------------------------------------------------------

  /** The 22 codes `DataType::from` matches explicitly. */
  predicate IsDataTypeCode(code: GLenum) {
    code == GL_BYTE || code == GL_UNSIGNED_BYTE || code == GL_SHORT || code == GL_UNSIGNED_SHORT ||
    code == GL_FIXED || code == GL_FLOAT || code == GL_FLOAT_VEC2 || code == GL_FLOAT_VEC3 ||
    code == GL_FLOAT_VEC4 || code == GL_FLOAT_MAT2 || code == GL_FLOAT_MAT3 || code == GL_FLOAT_MAT4 ||
    code == GL_INT || code == GL_INT_VEC2 || code == GL_INT_VEC3 || code == GL_INT_VEC4 ||
    code == GL_BOOL || code == GL_BOOL_VEC2 || code == GL_BOOL_VEC3 || code == GL_BOOL_VEC4 ||
    code == GL_SAMPLER_2D || code == GL_SAMPLER_CUBE
  }

  datatype DataType =
    | Byte | UnsignedByte | Short | UnsignedShort | Fixed | Float
    | FloatVec2 | FloatVec3 | FloatVec4 | FloatMat2 | FloatMat3 | FloatMat4
    | Int | IntVec2 | IntVec3 | IntVec4
    | Bool | BoolVec2 | BoolVec3 | BoolVec4
    | Sampler2D | SamplerCube
  {
    function ToCode(): (code: GLenum)
      ensures IsDataTypeCode(code)
    {
      match this
      case Byte => GL_BYTE
      case UnsignedByte => GL_UNSIGNED_BYTE
      case Short => GL_SHORT
      case UnsignedShort => GL_UNSIGNED_SHORT
      case Fixed => GL_FIXED
      case Float => GL_FLOAT
      case FloatVec2 => GL_FLOAT_VEC2
      case FloatVec3 => GL_FLOAT_VEC3
      case FloatVec4 => GL_FLOAT_VEC4
      case FloatMat2 => GL_FLOAT_MAT2
      case FloatMat3 => GL_FLOAT_MAT3
      case FloatMat4 => GL_FLOAT_MAT4
      case Int => GL_INT
      case IntVec2 => GL_INT_VEC2
      case IntVec3 => GL_INT_VEC3
      case IntVec4 => GL_INT_VEC4
      case Bool => GL_BOOL
      case BoolVec2 => GL_BOOL_VEC2
      case BoolVec3 => GL_BOOL_VEC3
      case BoolVec4 => GL_BOOL_VEC4
      case Sampler2D => GL_SAMPLER_2D
      case SamplerCube => GL_SAMPLER_CUBE
    }

    /**
     * `DataType::from`: each of the 22 listed codes gives its variant; any
     * other code (`GL_UNSIGNED_INT`, say) gives `Byte`.
     */
    static function FromCode(code: GLenum): (t: DataType)
      ensures IsDataTypeCode(code) ==> t.ToCode() == code
      ensures !IsDataTypeCode(code) ==> t == Byte
    {
      if code == GL_BYTE then Byte
      else if code == GL_UNSIGNED_BYTE then UnsignedByte
      else if code == GL_SHORT then Short
      else if code == GL_UNSIGNED_SHORT then UnsignedShort
      else if code == GL_FIXED then Fixed
      else if code == GL_FLOAT then Float
      else if code == GL_FLOAT_VEC2 then FloatVec2
      else if code == GL_FLOAT_VEC3 then FloatVec3
      else if code == GL_FLOAT_VEC4 then FloatVec4
      else if code == GL_FLOAT_MAT2 then FloatMat2
      else if code == GL_FLOAT_MAT3 then FloatMat3
      else if code == GL_FLOAT_MAT4 then FloatMat4
      else if code == GL_INT then Int
      else if code == GL_INT_VEC2 then IntVec2
      else if code == GL_INT_VEC3 then IntVec3
      else if code == GL_INT_VEC4 then IntVec4
      else if code == GL_BOOL then Bool
      else if code == GL_BOOL_VEC2 then BoolVec2
      else if code == GL_BOOL_VEC3 then BoolVec3
      else if code == GL_BOOL_VEC4 then BoolVec4
      else if code == GL_SAMPLER_2D then Sampler2D
      else if code == GL_SAMPLER_CUBE then SamplerCube
      else Byte
    }
  }

  lemma DataTypeRoundTrip(t: DataType)
    ensures DataType.FromCode(t.ToCode()) == t
  {
  }

  lemma DataTypeCodesDistinct(a: DataType, b: DataType)
    ensures a.ToCode() == b.ToCode() <==> a == b
  {
    DataTypeRoundTrip(a);
    DataTypeRoundTrip(b);
  }

  /** Only `GL_BYTE` and the unlisted codes decode to `Byte`. */
  lemma UnknownDataTypeReadsAsByte(code: GLenum)
    ensures DataType.FromCode(code) == Byte <==> (code == GL_BYTE || !IsDataTypeCode(code))
  {
  }

  // ---------------------------------------------------------------------------
  // Encode-only enums taken by the modelled wrapper calls
  // ---------------------------------------------------------------------------

  /**
   * `BufferTarget` (src/enums.rs:44-48). Its discriminants are the
   * `*_BINDING` query names, not the buffer targets themselves.
   */
  datatype BufferTarget = ArrayBuffer | ElementArrayBuffer
  {
    function ToCode(): (code: GLenum)
      ensures code == GL_ARRAY_BUFFER_BINDING || code == GL_ELEMENT_ARRAY_BUFFER_BINDING
    {
      match this
      case ArrayBuffer => GL_ARRAY_BUFFER_BINDING
      case ElementArrayBuffer => GL_ELEMENT_ARRAY_BUFFER_BINDING
    }
  }

  /**
   * `TextureBindTarget` (src/enums.rs:60-65). Its discriminants are the
   * `TEXTURE_BINDING_*` query names, not the texture targets themselves.
   */
  datatype TextureBindTarget = Texture2D | TextureCubeMap
  {
    function ToCode(): (code: GLenum)
      ensures code == GL_TEXTURE_BINDING_2D || code == GL_TEXTURE_BINDING_CUBE_MAP
    {
      match this
      case Texture2D => GL_TEXTURE_BINDING_2D
      case TextureCubeMap => GL_TEXTURE_BINDING_CUBE_MAP
    }
  }

  /**
   * Both binding enums encode to query names: no variant of either encodes
   * to a target that `glBindBuffer` or `glBindTexture` accepts.
   */
  lemma BindingTargetsEncodeQueryNames(b: BufferTarget, t: TextureBindTarget)
    ensures BufferTarget.ArrayBuffer.ToCode() == GL_ARRAY_BUFFER_BINDING
    ensures BufferTarget.ElementArrayBuffer.ToCode() == GL_ELEMENT_ARRAY_BUFFER_BINDING
    ensures TextureBindTarget.Texture2D.ToCode() == GL_TEXTURE_BINDING_2D
    ensures TextureBindTarget.TextureCubeMap.ToCode() == GL_TEXTURE_BINDING_CUBE_MAP
    ensures b.ToCode() != GL_ARRAY_BUFFER && b.ToCode() != GL_ELEMENT_ARRAY_BUFFER
    ensures t.ToCode() != GL_TEXTURE_2D && t.ToCode() != GL_TEXTURE_CUBE_MAP
  {
  }

  /** `FrameBufferTarget` (src/enums.rs:50-53). */
  datatype FrameBufferTarget = FrameBuffer
  {
    function ToCode(): (code: GLenum)
      ensures code == GL_FRAMEBUFFER
    {
      GL_FRAMEBUFFER
    }
  }

  /** `BufferUsage` (src/enums.rs:106-111). */
  datatype BufferUsage = StreamDraw | StaticDraw | DynamicDraw
  {
    function ToCode(): (code: GLenum)
      ensures code == GL_STREAM_DRAW || code == GL_STATIC_DRAW || code == GL_DYNAMIC_DRAW
    {
      match this
      case StreamDraw => GL_STREAM_DRAW
      case StaticDraw => GL_STATIC_DRAW
      case DynamicDraw => GL_DYNAMIC_DRAW
    }
  }

  /** `ConstantType` (src/enums.rs:515-522): the names `glGetString` accepts. */
  datatype ConstantType = Vendor | Renderer | Version | ShadingLanguageVersion | Extensions
  {
    function ToCode(): (code: GLenum)
      ensures code == GL_VENDOR || code == GL_RENDERER || code == GL_VERSION ||
              code == GL_SHADING_LANGUAGE_VERSION || code == GL_EXTENSIONS
    {
      match this
      case Vendor => GL_VENDOR
      case Renderer => GL_RENDERER
      case Version => GL_VERSION
      case ShadingLanguageVersion => GL_SHADING_LANGUAGE_VERSION
      case Extensions => GL_EXTENSIONS
    }
  }

  /** `FeatureType` (src/enums.rs:220-231): the capabilities `glIsEnabled` accepts. */
  datatype FeatureType =
    | Blend | CullFace | DepthTest | Dither | PolygonOffsetFill
    | SampleAlphaToCoverage | SampleCoverage | ScissorTest | StencilTest
  {
    function ToCode(): (code: GLenum)
      ensures code == GL_BLEND || code == GL_CULL_FACE || code == GL_DEPTH_TEST ||
              code == GL_DITHER || code == GL_POLYGON_OFFSET_FILL ||
              code == GL_SAMPLE_ALPHA_TO_COVERAGE || code == GL_SAMPLE_COVERAGE ||
              code == GL_SCISSOR_TEST || code == GL_STENCIL_TEST
    {
      match this
      case Blend => GL_BLEND
      case CullFace => GL_CULL_FACE
      case DepthTest => GL_DEPTH_TEST
      case Dither => GL_DITHER
      case PolygonOffsetFill => GL_POLYGON_OFFSET_FILL
      case SampleAlphaToCoverage => GL_SAMPLE_ALPHA_TO_COVERAGE
      case SampleCoverage => GL_SAMPLE_COVERAGE
      case ScissorTest => GL_SCISSOR_TEST
      case StencilTest => GL_STENCIL_TEST
    }
  }

  /** Within each encode-only enum, distinct variants carry distinct codes. */
  lemma EncodeOnlyCodesDistinct(
    b1: BufferTarget, b2: BufferTarget,
    t1: TextureBindTarget, t2: TextureBindTarget,
    u1: BufferUsage, u2: BufferUsage,
    c1: ConstantType, c2: ConstantType,
    f1: FeatureType, f2: FeatureType)
    ensures b1.ToCode() == b2.ToCode() ==> b1 == b2
    ensures t1.ToCode() == t2.ToCode() ==> t1 == t2
    ensures u1.ToCode() == u2.ToCode() ==> u1 == u2
    ensures c1.ToCode() == c2.ToCode() ==> c1 == c2
    ensures f1.ToCode() == f2.ToCode() ==> f1 == f2
  {
  }
}
