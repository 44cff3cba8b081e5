/**
 * The argument and result shaping of `Wrapper` (src/es20/wrapper.rs).
 *
 * Every method issues one call into the OpenGL ES 2.0 C interface. Here it
 * returns that call, as a `Call` value holding the arguments the binding
 * computes, together with the `Result` the Rust method returns. Whatever the
 * driver hands back (a filled buffer and a reported length or count, a return
 * code, a possibly null string pointer) is a parameter, so the methods state
 * what the binding makes of any reply. `Wrapper` has no fields, so no state is
 * kept between calls.
 */
module Wrapper {
  import opened GLTypes
  import opened GLConsts
  import opened Enums
  import Utf8
  import CStr

  /** `Error` (src/es20/wrapper.rs:64-66): it carries no information. */
  datatype Error = Error

  datatype Result<T> = Ok(value: T) | Err(error: Error)

  /** Rust's unit value `()`. */
  datatype Unit = Unit

  /** `Active` (src/es20/wrapper.rs:52-57): an active attribute or uniform. */
  datatype Active = Active(name: seq<u8>, size: i32, dataType: DataType, length: i32)

  /** The objects `gl_gen_*` creates names for. */
  datatype NameKind = Buffers | Framebuffers | Renderbuffers | Textures

  /** The objects `gl_is_*` asks about. */
  datatype ObjectKind = BufferObject | FramebufferObject | ProgramObject | RenderbufferObject | ShaderObject | TextureObject

  /** `gl_get_active_attrib` or `gl_get_active_uniform`. */
  datatype ActiveKind = Attrib | Uniform

  /** The three getters that copy driver text into a caller-sized buffer. */
  datatype TextQuery = ProgramInfoLog | ShaderInfoLog | ShaderSource

  /** `f32` or `i32` elements, for the `gl_uniform{1,2,3,4}{f,i}v` family. */
  datatype Scalars = Floats | Ints

  /** What `glGetString` returned: a null pointer, or the memory it points to. */
  datatype StringReply = Null | Points(mem: seq<u8>)

  /**
   * One call into the C interface with its non-pointer arguments; `width`
   * and `order` pick the member of the uniform-call families
   * (`glUniform3iv`: `UniformVector(Ints, 3, ..)`).
   */
  datatype Call =
    | BindBuffer(target: GLenum, buffer: GLuint)
    | BindTexture(target: GLenum, texture: GLuint)
    | BufferData(target: GLenum, size: GLsizeiptr, usage: GLenum)
    | BufferSubData(target: GLenum, offset: GLintptr, size: GLsizeiptr)
    | CheckFramebufferStatus(target: GLenum)
    | GenNames(kind: NameKind, n: GLsizei)
    | GetActive(which: ActiveKind, program: GLuint, index: GLuint, bufSize: GLsizei)
    | GetAttachedShaders(program: GLuint, maxCount: GLsizei)
    | GetBooleanv(pname: GLenum)
    | GetError
    | GetText(query: TextQuery, obj: GLuint, bufSize: GLsizei)
    | GetString(name: GLenum)
    | IsEnabled(cap: GLenum)
    | IsObject(objectKind: ObjectKind, obj: GLuint)
    | UniformVector(scalars: Scalars, width: nat, location: GLint, count: GLsizei)
    | UniformMatrix(order: nat, location: GLint, count: GLsizei, transpose: GLboolean)

  /** The name buffer `gl_get_active_*` allocates and passes as `bufSize`. */
  const ACTIVE_NAME_CAPACITY: int := 256

  // ---------------------------------------------------------------------------
  // Pure argument arithmetic
  // ---------------------------------------------------------------------------

  /** `b as GLboolean`: one of the two GL boolean values, `GL_TRUE` exactly for `true`. */
  function FromBool(b: bool): (v: GLboolean)
    ensures v == GL_TRUE || v == GL_FALSE
    ensures v == GL_TRUE <==> b
  {
    if b then GL_TRUE else GL_FALSE
  }

  /**
   * The `== GL_TRUE` test the boolean getters apply to a driver reply. A
   * non-zero reply other than `GL_TRUE`, true to a C reader, reads false.
   */
  function IsGLTrue(v: GLboolean): (b: bool)
    ensures b ==> v != GL_FALSE
    ensures v != GL_FALSE && v != GL_TRUE ==> !b
  {
    v == GL_TRUE
  }

  /**
   * `(offset * (t_size as u32)) as GLintptr` in `gl_buffer_sub_data`: a
   * 32-bit value, which is the exact byte offset whenever that fits.
   */
  function SubDataOffset(offset: u32, elemSize: nat): (r: GLintptr)
    ensures 0 <= r < U32_LIMIT
    ensures offset * elemSize < U32_LIMIT ==> r == offset * elemSize
  {
    assert offset * elemSize < U32_LIMIT && elemSize >= U32_LIMIT ==> offset == 0;
    WrappingMulU32(offset, AsU32(elemSize))
  }

  /**
   * `(values.len() / width) as GLsizei` in `gl_uniform{1,2,3,4}{f,i}v` (no
   * division for width 1): never negative and never above the slice length
   * while that fits in `i32`, and the length itself for width 1.
   */
  function VectorCount(len: nat, width: nat): (count: GLsizei)
    requires 1 <= width <= 4
    ensures len < I32_LIMIT ==> 0 <= count <= len
    ensures width == 1 && len < I32_LIMIT ==> count == len
  {
    AsI32(len / width)
  }

  /**
   * `(values.len() / order*order) as GLsizei` in `gl_uniform_matrix{2,3,4}fv`.
   * `/` and `*` bind equally tight and associate to the left, so this is
   * `(len / order) * order`.
   */
  function MatrixCount(len: nat, order: nat): (count: GLsizei)
    requires 2 <= order <= 4
    ensures len < I32_LIMIT ==> 0 <= count <= len && len - order < count
  {
    AsI32(len / order * order)
  }

  /** Boolean marshalling round-trips: `true` goes out as `GL_TRUE` and reads back as `true`. */
  lemma BoolRoundTrip(b: bool)
    ensures IsGLTrue(FromBool(b)) == b
    ensures FromBool(b) == GL_FALSE <==> !b
  {
  }

  /**
   * A vector count covers exactly the whole vectors in the slice: it asks
   * for `count * width` values, never more than the slice holds, and the
   * ignored tail is shorter than one vector.
   */
  lemma VectorCountCoversWholeVectors(len: nat, width: nat)
    requires 1 <= width <= 4
    requires len / width < I32_LIMIT
    ensures var count := VectorCount(len, width);
            0 <= count && count * width <= len < (count + 1) * width
  {
  }

  /**
   * The matrix count keeps `len` rounded down to a multiple of the order;
   * once a slice holds `order` values it exceeds the number of whole
   * matrices `len / (order * order)`.
   */
  lemma MatrixCountIsRoundedLength(len: nat, order: nat)
    requires 2 <= order <= 4
    requires len < I32_LIMIT
    ensures MatrixCount(len, order) == len - len % order
    ensures order <= len ==> MatrixCount(len, order) > len / (order * order)
  {
    if order == 2 {
      RoundedLength2(len);
    } else if order == 3 {
      RoundedLength3(len);
    } else {
      RoundedLength4(len);
    }
  }

  lemma RoundedLength2(len: nat)
    requires len < I32_LIMIT
    ensures MatrixCount(len, 2) == len - len % 2
    ensures 2 <= len ==> MatrixCount(len, 2) > len / 4
  {
    assert len / 2 * 2 == len - len % 2;
  }

  lemma RoundedLength3(len: nat)
    requires len < I32_LIMIT
    ensures MatrixCount(len, 3) == len - len % 3
    ensures 3 <= len ==> MatrixCount(len, 3) > len / 9
  {
    assert len / 3 * 3 == len - len % 3;
  }

  lemma RoundedLength4(len: nat)
    requires len < I32_LIMIT
    ensures MatrixCount(len, 4) == len - len % 4
    ensures 4 <= len ==> MatrixCount(len, 4) > len / 16
  {
    assert len / 4 * 4 == len - len % 4;
  }

  /**
   * A count of `count` matrices asks for `count * order * order` floats.
   * With the matrix count as written, that is more than the slice holds for
   * every slice of at least `order` values.
   */
  lemma {:induction false} MatrixCountOverreads(len: nat, order: nat)
    requires 2 <= order <= 4
    requires order <= len < I32_LIMIT
    ensures MatrixCount(len, order) * (order * order) > len
  {
    MatrixCountIsRoundedLength(len, order);
    var count := MatrixCount(len, order);
    assert count >= order;
    assert count > len - order;
    if order == 2 {
      assert count * 4 > len;
    } else if order == 3 {
      assert count * 9 > len;
    } else {
      assert count * 16 > len;
    }
  }

  /**
   * The scaled offset of `gl_buffer_sub_data` is the exact byte offset while
   * it fits in 32 bits and wraps modulo 2^32 past that: `2^30` four-byte
   * elements in, the driver is told offset 0.
   */
  lemma SubDataOffsetWraps(offset: u32, elemSize: nat)
    requires elemSize < U32_LIMIT
    ensures offset * elemSize < U32_LIMIT ==> SubDataOffset(offset, elemSize) == offset * elemSize
    ensures 0 <= SubDataOffset(offset, elemSize) < U32_LIMIT
    ensures SubDataOffset(0x4000_0000, 4) == 0
  {
  }

  // ---------------------------------------------------------------------------
  // Calls with typed arguments
  // ---------------------------------------------------------------------------

  /** `gl_bind_buffer` (src/es20/wrapper.rs:103-109). */
  method GlBindBuffer(target: BufferTarget, buffer: GLuint) returns (call: Call, r: Result<Unit>)
    ensures call.BindBuffer? && call.buffer == buffer
    ensures call.target == target.ToCode()
    ensures call.target != GL_ARRAY_BUFFER && call.target != GL_ELEMENT_ARRAY_BUFFER
    ensures r == Ok(Unit)
  {
    call := BindBuffer(target.ToCode(), buffer);
    r := Ok(Unit);
  }

  /** `gl_bind_texture` (src/es20/wrapper.rs:127-133). */
  method GlBindTexture(target: TextureBindTarget, texture: GLuint) returns (call: Call, r: Result<Unit>)
    ensures call.BindTexture? && call.texture == texture
    ensures call.target == target.ToCode()
    ensures call.target != GL_TEXTURE_2D && call.target != GL_TEXTURE_CUBE_MAP
    ensures r == Ok(Unit)
  {
    call := BindTexture(target.ToCode(), texture);
    r := Ok(Unit);
  }

  /**
   * `gl_buffer_data` (src/es20/wrapper.rs:180-194). `elemSize` is
   * `size_of::<T>()`; no Rust slice spans more than `isize::MAX` bytes.
   */
  method GlBufferData<T>(target: BufferTarget, buffer: seq<T>, elemSize: nat, usage: BufferUsage)
    returns (call: Call, r: Result<Unit>)
    requires |buffer| * elemSize < ISIZE_LIMIT
    ensures call.BufferData? && call.target == target.ToCode() && call.usage == usage.ToCode()
    ensures call.size == |buffer| * elemSize
    ensures r == Ok(Unit)
  {
    call := BufferData(target.ToCode(), |buffer| * elemSize, usage.ToCode());
    r := Ok(Unit);
  }

  /**
   * `gl_buffer_sub_data` (src/es20/wrapper.rs:196-210): the size is scaled
   * in `usize`, the offset in `u32`, so the offset wraps where the size
   * cannot.
   */
  method GlBufferSubData<T>(target: BufferTarget, offset: u32, buffer: seq<T>, elemSize: nat)
    returns (call: Call, r: Result<Unit>)
    requires |buffer| * elemSize < ISIZE_LIMIT
    ensures call.BufferSubData? && call.target == target.ToCode()
    ensures call.size == |buffer| * elemSize
    ensures call.offset == SubDataOffset(offset, elemSize)
    ensures offset * elemSize < U32_LIMIT ==> call.offset == offset * elemSize
    ensures 0 <= call.offset < U32_LIMIT
    ensures r == Ok(Unit)
  {
    call := BufferSubData(target.ToCode(), SubDataOffset(offset, elemSize), |buffer| * elemSize);
    r := Ok(Unit);
  }

  /** `gl_check_framebuffer_status` (src/es20/wrapper.rs:212-218). */
  method GlCheckFramebufferStatus(target: FrameBufferTarget, status: GLenum)
    returns (call: Call, r: Result<FrameBufferStatus>)
    ensures call == CheckFramebufferStatus(GL_FRAMEBUFFER)
    ensures r.Ok? && r.value == FrameBufferStatus.FromCode(status)
    ensures IsListedStatusCode(status) ==> r.value.ToCode() == status
    ensures !IsListedStatusCode(status) ==> r.value == FramebufferUnsupported
  {
    call := CheckFramebufferStatus(target.ToCode());
    r := Ok(FrameBufferStatus.FromCode(status));
  }

  // ---------------------------------------------------------------------------
  // Calls whose result the driver writes into a buffer
  // ---------------------------------------------------------------------------

  /**
   * `gl_gen_buffers`, `gl_gen_framebuffers`, `gl_gen_renderbuffers` and
   * `gl_gen_textures` (src/es20/wrapper.rs:601-652). `slots` is the
   * `count`-element buffer after the driver wrote into it; `set_len(count)`
   * hands all of it back. A count of 2^31 or more reaches the driver as a
   * negative `GLsizei`, yet the result still claims `count` names.
   */
  method GlGen(kind: NameKind, count: u32, slots: seq<GLuint>) returns (call: Call, r: Result<seq<GLuint>>)
    requires |slots| == count
    ensures call.GenNames? && call.kind == kind
    ensures count < I32_LIMIT ==> call.n == count
    ensures count >= I32_LIMIT ==> call.n == count - U32_LIMIT < 0
    ensures r.Ok? && |r.value| == count && r.value == slots
  {
    call := GenNames(kind, AsI32(count));
    r := Ok(slots[..count]);
  }

  /**
   * `gl_get_active_attrib` and `gl_get_active_uniform`
   * (src/es20/wrapper.rs:654-726). The driver writes at most
   * `ACTIVE_NAME_CAPACITY` bytes into `nameBuf` and reports `length`, `size`
   * and the type code.
   */
  method GlGetActive(
    kind: ActiveKind, program: u32, index: u32,
    length: GLsizei, size: GLint, typeCode: GLenum, nameBuf: seq<u8>)
    returns (call: Call, r: Result<Active>)
    requires |nameBuf| == ACTIVE_NAME_CAPACITY
    requires length <= ACTIVE_NAME_CAPACITY
    ensures call == GetActive(kind, program, index, ACTIVE_NAME_CAPACITY)
    ensures r.Err? <==> length <= 0
    ensures r.Ok? ==> |r.value.name| == r.value.length == length
    ensures r.Ok? ==> r.value.name == nameBuf[..length]
    ensures r.Ok? ==> r.value.size == size && r.value.dataType == DataType.FromCode(typeCode)
  {
    call := GetActive(kind, program, index, ACTIVE_NAME_CAPACITY);
    if length > 0 {
      r := Ok(Active(nameBuf[..length], size, DataType.FromCode(typeCode), length));
    } else {
      r := Err(Error);
    }
  }

  /**
   * `gl_get_attached_shaders` (src/es20/wrapper.rs:728-741). `slots` is the
   * `max_count`-element buffer after the call and `count` the number of
   * names the driver reports; a negative `max_count` makes
   * `Vec::with_capacity` panic.
   */
  method GlGetAttachedShaders(program: u32, maxCount: i32, count: GLsizei, slots: seq<GLuint>)
    returns (call: Call, r: Result<seq<GLuint>>)
    requires 0 <= maxCount && |slots| == maxCount
    requires 0 <= count <= maxCount
    ensures call == GetAttachedShaders(program, maxCount)
    ensures r.Ok? && |r.value| == count && r.value == slots[..count]
  {
    call := GetAttachedShaders(program, maxCount);
    r := Ok(slots[..count]);
  }

  /**
   * `gl_get_program_info_log`, `gl_get_shader_info_log` and
   * `gl_get_shader_source` (src/es20/wrapper.rs:833-863, 888-917, 942-963).
   * `buf` is the `max_length`-byte buffer after the call and `length` the
   * length the driver reports; a negative `max_length` makes
   * `String::with_capacity` panic. The bytes are not checked for UTF-8.
   */
  method GlGetText(query: TextQuery, obj: u32, maxLength: i32, length: GLsizei, buf: seq<u8>)
    returns (call: Call, r: Result<seq<u8>>)
    requires 0 <= maxLength && |buf| == maxLength
    requires length <= maxLength
    ensures call == GetText(query, obj, maxLength)
    ensures r.Ok?
    ensures length > 0 ==> |r.value| == length && r.value == buf[..length]
    ensures length <= 0 ==> r.value == []
  {
    call := GetText(query, obj, maxLength);
    if length > 0 {
      r := Ok(buf[..length]);
    } else {
      r := Ok([]);
    }
  }

  // ---------------------------------------------------------------------------
  // Calls whose result is a return value
  // ---------------------------------------------------------------------------

  /**
   * `gl_get_string` (src/es20/wrapper.rs:965-980): a null pointer gives the
   * empty string; otherwise the bytes before the terminator are the result
   * when they are UTF-8 and an error when they are not.
   */
  method GlGetString(name: ConstantType, reply: StringReply) returns (call: Call, r: Result<seq<u8>>)
    requires reply.Points? ==> 0 in reply.mem
    ensures call == GetString(name.ToCode())
    ensures reply.Null? ==> r == Ok([])
    ensures reply.Points? ==> (r.Ok? <==> Utf8.Valid(CStr.ToBytes(reply.mem)))
    ensures reply.Points? && r.Ok? ==> r.value == CStr.ToBytes(reply.mem)
    ensures r.Ok? ==> 0 !in r.value && Utf8.Valid(r.value)
  {
    call := GetString(name.ToCode());
    if reply.Points? {
      var bytes := CStr.ToBytes(reply.mem);
      if Utf8.Valid(bytes) {
        r := Ok(bytes);
      } else {
        r := Err(Error);
      }
    } else {
      r := Ok([]);
    }
  }

  /**
   * `gl_get_error` (src/es20/wrapper.rs:775-783): the code the driver
   * returns, decoded by `ErrorType::from`, so an unknown code reads as
   * `NoError`.
   */
  method GlGetError(code: GLenum) returns (call: Call, e: ErrorType)
    ensures call == GetError
    ensures e == ErrorType.FromCode(code)
    ensures IsErrorCode(code) ==> e.ToCode() == code
    ensures !IsErrorCode(code) ==> e == NoError
  {
    call := GetError;
    e := ErrorType.FromCode(code);
  }

  /**
   * `gl_is_buffer`, `gl_is_framebuffer`, `gl_is_program`,
   * `gl_is_renderbuffer`, `gl_is_shader` and `gl_is_texture`
   * (src/es20/wrapper.rs:1061-1129, less `gl_is_enabled`): true exactly when
   * the driver answers `GL_TRUE`, so any other non-zero answer reads false.
   */
  method GlIsObject(kind: ObjectKind, obj: u32, reply: GLboolean) returns (call: Call, r: Result<bool>)
    ensures call == IsObject(kind, obj)
    ensures r.Ok? && (r.value <==> reply == GL_TRUE)
    ensures reply != GL_FALSE && reply != GL_TRUE ==> r.value == false
  {
    call := IsObject(kind, obj);
    r := Ok(IsGLTrue(reply));
  }

  /** `gl_is_enabled` (src/es20/wrapper.rs:1071-1079). */
  method GlIsEnabled(feature: FeatureType, reply: GLboolean) returns (call: Call, r: Result<bool>)
    ensures call == IsEnabled(feature.ToCode())
    ensures r.Ok? && (r.value <==> reply == GL_TRUE)
  {
    call := IsEnabled(feature.ToCode());
    r := Ok(IsGLTrue(reply));
  }

  /**
   * `gl_get_booleanv` (src/es20/wrapper.rs:753-761). `pname` is the code of
   * the `StateType` variant asked for; `value` is what the driver wrote into
   * the out-parameter.
   */
  method GlGetBooleanv(pname: GLenum, value: GLboolean) returns (call: Call, r: Result<bool>)
    ensures call == GetBooleanv(pname)
    ensures r.Ok? && (r.value <==> value == GL_TRUE)
  {
    call := GetBooleanv(pname);
    r := Ok(IsGLTrue(value));
  }

  // ---------------------------------------------------------------------------
  // Uniform arrays
  // ---------------------------------------------------------------------------

  /**
   * `gl_uniform1fv` ... `gl_uniform4iv` (src/es20/wrapper.rs:1418-1540):
   * `width` values make one vector, and the count passed is the number of
   * whole vectors in the slice (the slice length itself for width 1).
   */
  method GlUniformVector<T>(scalars: Scalars, width: nat, location: i32, values: seq<T>)
    returns (call: Call, r: Result<Unit>)
    requires 1 <= width <= 4
    ensures call.UniformVector? && call.scalars == scalars && call.width == width
    ensures call.location == location && call.count == VectorCount(|values|, width)
    ensures width == 1 && |values| < I32_LIMIT ==> call.count == |values|
    ensures |values| / width < I32_LIMIT ==>
              call.count * width <= |values| < (call.count + 1) * width
    ensures r == Ok(Unit)
  {
    call := UniformVector(scalars, width, location, VectorCount(|values|, width));
    if |values| / width < I32_LIMIT {
      VectorCountCoversWholeVectors(|values|, width);
    }
    r := Ok(Unit);
  }

  /**
   * `gl_uniform_matrix2fv`, `gl_uniform_matrix3fv` and
   * `gl_uniform_matrix4fv` (src/es20/wrapper.rs:1542-1580): the count passed
   * is the slice length rounded down to a multiple of the order.
   */
  method GlUniformMatrix<T>(order: nat, location: i32, transpose: bool, values: seq<T>)
    returns (call: Call, r: Result<Unit>)
    requires 2 <= order <= 4
    ensures call.UniformMatrix? && call.order == order && call.location == location
    ensures call.count == MatrixCount(|values|, order)
    ensures call.transpose == FromBool(transpose)
    ensures |values| < I32_LIMIT ==> call.count == |values| - |values| % order
    ensures order <= |values| < I32_LIMIT ==> call.count * (order * order) > |values|
    ensures r == Ok(Unit)
  {
    call := UniformMatrix(order, location, MatrixCount(|values|, order), FromBool(transpose));
    if |values| < I32_LIMIT {
      MatrixCountIsRoundedLength(|values|, order);
      if order <= |values| {
        MatrixCountOverreads(|values|, order);
      }
    }
    r := Ok(Unit);
  }
}
