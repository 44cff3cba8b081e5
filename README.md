# OpenGL ES 2.0 Rust binding: enum codes and wrapper result shaping

This project models the Rust binding to the OpenGL ES 2.0 C interface. It
covers the binding's own logic, which is everything except the driver calls.
There are two parts.

- **Typed enums** (`src/enums.rs`). Each variant carries a GL constant, which
  `ToCode` produces. Three enums also decode driver replies: `ErrorType`,
  `FrameBufferStatus` and `DataType`. Each decoder is total and falls back
  silently to a default variant. The model proves:
  - the round trip from variant to code and back to the variant;
  - that the codes within each enum are distinct;
  - what each fallback does to an unlisted code.
- **`Wrapper`** (`src/es20/wrapper.rs`). Each method issues one driver call
  and returns two things: a `Call` value with the arguments the binding
  computes, and the Rust `Result`. The driver's reply is an input: a filled
  buffer plus a reported length or count, a return code, or a possibly null
  string pointer. So each contract covers every reply the driver could give.
  `Wrapper` has no fields and keeps no state between calls.

Integer widths come from `src/types.rs`. Rust's `as` casts are written out
as explicit wrap-around (module `GLTypes`).

Numeric constants come from the Khronos header `GLES2/gl2.h` (module
`GLConsts`). `consts.rs` is not part of this model.

`gl_get_string` runs two library steps on the string pointer it receives:
- `CStr::from_ptr(..).to_bytes()`, the NUL scan, modelled in module `CStr`;
- `str::from_utf8`, modelled in module `Utf8` as the well-formed sequences of
  table 3-7 of the Unicode Standard.

The UTF-8 check is paired with an encoder. The model proves that a byte
string passes the check exactly when it encodes a sequence of Unicode scalar
values.

Quirks of the code the model keeps:
- The info-log and shader-source getters do no UTF-8 check. They never
  return an error: a reported length of zero or less gives `Ok("")`.
- `gl_get_string` is the only text getter that checks UTF-8. It reads the
  reply as a NUL-terminated C string.
- `BufferTarget` and `TextureBindTarget` encode to the `*_BINDING` query
  names, and `gl_bind_buffer`/`gl_bind_texture` pass those names on.
- The matrix uniform calls pass `(len / n) * n` as the count, because `/`
  and `*` have equal precedence. That value is not the number of whole
  matrices.

## Model

| member | source | states |
|---|---|---|
| GLTypes.AsI32 | src/es20/wrapper.rs:605 | `count as GLsizei`: the value unchanged when it fits in `i32`, and always congruent to it modulo 2^32 |
| GLTypes.AsU32 | src/es20/wrapper.rs:203 | `t_size as u32`: the value unchanged when it fits in `u32`, and always congruent to it modulo 2^32 |
| GLTypes.WrappingMulU32 | src/es20/wrapper.rs:203 | the `u32` product is exact when it does not overflow and congruent to the true product modulo 2^32 |
| GLTypes.AsI32OfLargeCount | src/es20/wrapper.rs:605 | a `u32` count of at least 2^31 reaches the driver as the negative value count - 2^32 |
| Enums.ErrorType.ToCode | src/enums.rs:439-446 | every variant's discriminant is one of the six standard error codes |
| Enums.ErrorType.FromCode | src/enums.rs:448-459 | each standard code decodes to the variant carrying it; every other code decodes to `NoError` |
| Enums.ErrorTypeRoundTrip | src/enums.rs:439-459 | decoding the discriminant of any variant gives that variant back |
| Enums.ErrorTypeCodesDistinct | src/enums.rs:439-446 | two variants share a code if and only if they are the same variant |
| Enums.UnknownErrorReadsAsNoError | src/enums.rs:457 | an unlisted code reads exactly as `GL_NO_ERROR` does, so the two cannot be told apart |
| Enums.FrameBufferStatus.ToCode | src/enums.rs:114-120 | every discriminant is one of the five completeness codes |
| Enums.FrameBufferStatus.FromCode | src/enums.rs:122-131 | the four listed codes decode to their variants; every other `GLuint`, `GL_FRAMEBUFFER_UNSUPPORTED` included, decodes to `FramebufferUnsupported` |
| Enums.FrameBufferStatusRoundTrip | src/enums.rs:114-131 | decoding the discriminant of any variant gives that variant back, including `FramebufferUnsupported` by the fallback arm |
| Enums.FrameBufferStatusCodesDistinct | src/enums.rs:114-120 | two variants share a code if and only if they are the same variant |
| Enums.FrameBufferStatusFixedPoints | src/enums.rs:122-131 | a code decodes to a variant carrying that same code exactly when it is one of the four listed codes or `GL_FRAMEBUFFER_UNSUPPORTED` |
| Enums.DataType.ToCode | src/enums.rs:595-618 | every discriminant is one of the 22 listed type codes |
| Enums.DataType.FromCode | src/enums.rs:620-647 | each of the 22 listed codes decodes to its variant; every other code decodes to `Byte` |
| Enums.DataTypeRoundTrip | src/enums.rs:595-647 | decoding the discriminant of any variant gives that variant back |
| Enums.DataTypeCodesDistinct | src/enums.rs:595-618 | two variants share a code if and only if they are the same variant |
| Enums.UnknownDataTypeReadsAsByte | src/enums.rs:645 | an unlisted type code reads exactly as `GL_BYTE` does |
| Enums.BufferTarget.ToCode | src/enums.rs:45-48 | the two variants encode to `GL_ARRAY_BUFFER_BINDING` and `GL_ELEMENT_ARRAY_BUFFER_BINDING` |
| Enums.TextureBindTarget.ToCode | src/enums.rs:61-65 | the two variants encode to `GL_TEXTURE_BINDING_2D` and `GL_TEXTURE_BINDING_CUBE_MAP` |
| Enums.BindingTargetsEncodeQueryNames | src/enums.rs:45-65 | each binding-target variant encodes to its `*_BINDING` query name and never to a buffer or texture target |
| Enums.FrameBufferTarget.ToCode | src/enums.rs:51-53 | the only variant encodes to `GL_FRAMEBUFFER` |
| Enums.BufferUsage.ToCode | src/enums.rs:107-111 | each variant encodes to one of the three draw-usage codes |
| Enums.ConstantType.ToCode | src/enums.rs:516-522 | each variant encodes to one of the five `glGetString` names |
| Enums.FeatureType.ToCode | src/enums.rs:221-231 | each variant encodes to one of the nine capability codes `glIsEnabled` accepts |
| Enums.EncodeOnlyCodesDistinct | src/enums.rs:45-522 | within each encode-only enum, distinct variants carry distinct codes |
| Utf8.Valid | src/es20/wrapper.rs:970 | the byte strings `from_utf8` accepts; none starts with a continuation byte, 0xC0, 0xC1 or a byte above 0xF4 |
| Utf8.Encode | src/es20/wrapper.rs:970 | the partner encoder: one to four bytes per scalar value |
| Utf8.HeadWidth | src/es20/wrapper.rs:970 | the width of a well-formed head sequence is at most 4 and at most the input length |
| Utf8.EncodeScalar | src/es20/wrapper.rs:970 | a scalar value encodes to between 1 and 4 bytes |
| Utf8.DecodeHead | src/es20/wrapper.rs:970 | a well-formed head decodes to a Unicode scalar value |
| Utf8.Decode | src/es20/wrapper.rs:970 | valid bytes decode to scalar values, never more values than bytes |
| Utf8.EncodeScalarIsHead | src/es20/wrapper.rs:970 | an encoded scalar value is a well-formed head of its own width that decodes back to it |
| Utf8.EncodeTwo | src/es20/wrapper.rs:970 | the encoding of a value in U+0080..U+07FF is a well-formed two-byte head that decodes back to it |
| Utf8.EncodeThree | src/es20/wrapper.rs:970 | the encoding of a non-surrogate value in U+0800..U+FFFF is a well-formed three-byte head that decodes back to it |
| Utf8.EncodeFour | src/es20/wrapper.rs:970 | the encoding of a value in U+10000..U+10FFFF is a well-formed four-byte head that decodes back to it |
| Utf8.DecodeHeadEncodes | src/es20/wrapper.rs:970 | a well-formed head is exactly the encoding of the value it decodes to |
| Utf8.TwoByteHead | src/es20/wrapper.rs:970 | a well-formed two-byte sequence is the encoding of the scalar value it stands for |
| Utf8.ThreeByteHead | src/es20/wrapper.rs:970 | a well-formed three-byte sequence, surrogates excluded, is the encoding of the scalar value it stands for |
| Utf8.FourByteHead | src/es20/wrapper.rs:970 | a well-formed four-byte sequence, up to U+10FFFF, is the encoding of the scalar value it stands for |
| Utf8.EncodeIsValid | src/es20/wrapper.rs:970 | every encoding of scalar values passes the UTF-8 check and decodes back to those values |
| Utf8.DecodeThenEncode | src/es20/wrapper.rs:970 | every byte string that passes the check is the encoding of its decoding |
| Utf8.ValidIffEncoding | src/es20/wrapper.rs:970 | bytes pass the check if and only if they encode some sequence of scalar values |
| Utf8.AsciiIsValid | src/es20/wrapper.rs:970 | pure ASCII always passes the check |
| CStr.NulIndex | src/es20/wrapper.rs:970 | the position found holds a NUL and no earlier byte does |
| CStr.ToBytes | src/es20/wrapper.rs:970 | the result holds no NUL and, followed by a NUL, is a prefix of the memory |
| CStr.ToBytesOfTerminated | src/es20/wrapper.rs:970 | NUL-free bytes laid out as a C string read back unchanged |
| Wrapper.FromBool | src/es20/wrapper.rs:1547 | `transpose as GLboolean` is one of the two GL boolean values, `GL_TRUE` exactly for `true` |
| Wrapper.IsGLTrue | src/es20/wrapper.rs:1065 | the `== GL_TRUE` test: a true answer is never `GL_FALSE`, and any non-zero reply other than `GL_TRUE` reads false |
| Wrapper.SubDataOffset | src/es20/wrapper.rs:203 | `(offset * (t_size as u32)) as GLintptr` lies in [0, 2^32) and is the exact byte offset whenever that fits |
| Wrapper.VectorCount | src/es20/wrapper.rs:1418-1540 | the vector count is never negative nor above the slice length while that fits in `i32`, and is the length itself for width 1 |
| Wrapper.MatrixCount | src/es20/wrapper.rs:1542-1580 | `(values.len() / n*n) as GLsizei` is never negative, never above the slice length, and more than `len - n`, while the length fits in `i32` |
| Wrapper.BoolRoundTrip | src/es20/wrapper.rs:1546-1548 | `transpose as GLboolean` followed by the `== GL_TRUE` test gives the original bool back |
| Wrapper.VectorCountCoversWholeVectors | src/es20/wrapper.rs:1450-1540 | the count `len / k` covers whole vectors only: `count * k <= len < (count + 1) * k` |
| Wrapper.MatrixCountIsRoundedLength | src/es20/wrapper.rs:1542-1580 | the matrix count is `len` rounded down to a multiple of the order, and it exceeds `len / (n*n)` once `len >= n` |
| Wrapper.RoundedLength2 | src/es20/wrapper.rs:1546 | `len / 2*2` is `len` rounded down to even and exceeds `len / 4` once `len >= 2` |
| Wrapper.RoundedLength3 | src/es20/wrapper.rs:1559 | `len / 3*3` is `len` rounded down to a multiple of 3 and exceeds `len / 9` once `len >= 3` |
| Wrapper.RoundedLength4 | src/es20/wrapper.rs:1573 | `len / 4*4` is `len` rounded down to a multiple of 4 and exceeds `len / 16` once `len >= 4` |
| Wrapper.MatrixCountOverreads | src/es20/wrapper.rs:1542-1580 | that count asks for `count * n * n` floats, more than the slice holds whenever `len >= n` |
| Wrapper.SubDataOffsetWraps | src/es20/wrapper.rs:196-210 | the byte offset is exact while it fits in 32 bits and always lies in [0, 2^32); 2^30 four-byte elements in, it wraps to 0 |
| Wrapper.GlBindBuffer | src/es20/wrapper.rs:103-109 | the driver receives the `*_BINDING` code of the target, never `GL_ARRAY_BUFFER` or `GL_ELEMENT_ARRAY_BUFFER`; the result is `Ok(())` |
| Wrapper.GlBindTexture | src/es20/wrapper.rs:127-133 | the driver receives the `TEXTURE_BINDING_*` code, never a texture target; the result is `Ok(())` |
| Wrapper.GlBufferData | src/es20/wrapper.rs:180-194 | the byte size passed is `buffer.len() * size_of::<T>()`, with the target and usage codes |
| Wrapper.GlBufferSubData | src/es20/wrapper.rs:196-210 | the size is `buffer.len() * size_of::<T>()`; the offset is `offset * size_of::<T>()` wrapped to 32 bits, exact when it fits |
| Wrapper.GlCheckFramebufferStatus | src/es20/wrapper.rs:212-218 | the call targets `GL_FRAMEBUFFER`; the result is `Ok(FrameBufferStatus::from(status))` with its fallback |
| Wrapper.GlGen | src/es20/wrapper.rs:601-652 | the result is `Ok` and holds exactly `count` names, the driver-filled slots (none for `count = 0`); the driver is asked for `count` names, or a negative number once `count >= 2^31` |
| Wrapper.GlGetActive | src/es20/wrapper.rs:654-726 | `Err` if and only if the reported length is at most 0; otherwise the name is the first `length` bytes of the buffer, the `length` field equals the name's length, and the type is `DataType::from` of the reported code |
| Wrapper.GlGetAttachedShaders | src/es20/wrapper.rs:728-741 | the result is `Ok` and holds exactly the first `count` slots the driver reports |
| Wrapper.GlGetText | src/es20/wrapper.rs:833-863 | never an error: a reported length above 0 gives exactly the first `length` bytes of the buffer, otherwise the empty string |
| Wrapper.GlGetString | src/es20/wrapper.rs:965-980 | a null pointer gives `Ok("")`; otherwise `Ok` if and only if the bytes before the NUL are valid UTF-8, and then the result is exactly those bytes |
| Wrapper.GlGetError | src/es20/wrapper.rs:775-783 | the result is `ErrorType::from` of the driver's code: its variant for a standard code, `NoError` otherwise |
| Wrapper.GlIsObject | src/es20/wrapper.rs:1061-1129 | `Ok(true)` exactly when the driver answers `GL_TRUE`; any other non-zero answer reads as false |
| Wrapper.GlIsEnabled | src/es20/wrapper.rs:1071-1079 | the capability's code goes to the driver; `Ok(true)` exactly when the driver answers `GL_TRUE` |
| Wrapper.GlGetBooleanv | src/es20/wrapper.rs:753-761 | `Ok(true)` exactly when the value the driver wrote is `GL_TRUE` |
| Wrapper.GlUniformVector | src/es20/wrapper.rs:1418-1540 | the count is `len` for width 1 and `len / k` otherwise, covering only whole vectors |
| Wrapper.GlUniformMatrix | src/es20/wrapper.rs:1542-1580 | the count is `len` rounded down to a multiple of `n`, which asks for more floats than the slice holds once `len >= n`; `transpose` goes out as `GL_TRUE`/`GL_FALSE` |

## Left out

- The effect of each driver call on driver state (bound objects, programs, GPU memory) is not modelled. That state belongs to the external driver, which this code neither holds nor observes. Driver replies are method parameters instead.
- Whether an object handle stays valid after a delete call depends on that driver state, so it is not modelled.
- Float-valued entry points are not modelled (`gl_blend_color`, `gl_clear_color`, `gl_depth_rangef`, `gl_uniform*f`, `gl_get_floatv`, `gl_tex_parameterf` and the rest). For float slices, only the count arithmetic is modelled.
- The integer getters that return a driver out-parameter unchanged are not modelled (`gl_get_integerv`, `gl_get_programiv`, `gl_get_shaderiv` and the rest). They have no local logic.
- The remaining one-line forwarding methods are not modelled (`gl_bind_framebuffer`, `gl_enable`, `gl_draw_*`, `gl_tex_image_2d` and the rest). Their only logic is an `as` cast.
- The remaining constant-table enums are not modelled (`TextureUnit`, `StateType`, `BlendFactor` and the rest). `gl_get_booleanv` therefore takes the `StateType` code directly.
- Raw-pointer and allocation details are not modelled: `Vec::with_capacity`/`set_len` memory safety, `as_ptr` pinning, and the placeholder pointer in `gl_vertex_attrib_pointer`. Buffers are sequences.
- `Wrapper.GlGetAttachedShaders`, `Wrapper.GlGetText`: a negative `max_count`/`max_length` makes `Vec::with_capacity`/`String::with_capacity` panic, so it is a precondition. So is the driver's promise that the reported count or length fits the buffer.
- `Wrapper.GlGetActive`: the driver's promise that the reported length fits the 256-byte buffer is a precondition.
- `Wrapper.GlGetString`: it returns the accepted bytes, not a Rust `String`, which holds the same bytes. A non-null pointer is modelled as memory that holds a NUL, as C strings do.
- `Wrapper.GlGetText`: the bytes are returned unchecked, as the code does; `String`'s UTF-8 invariant is not modelled for them.
- `Wrapper.GlBufferSubData`: the `u32` offset product wraps, as in a release build. A debug build panics on that overflow instead, and this is not modelled.
- `Wrapper.GlBufferData`, `Wrapper.GlBufferSubData`: the requirement that the byte size stays below `isize::MAX` is a precondition. Rust guarantees it for every slice.
- `CString::new(name).unwrap()` panics on interior NULs in the methods that take a `&str`. Those methods are forwarding methods and are not modelled.
- The platform `#[cfg(target_os = ...)]` branches of the info-log getters issue the same call and are modelled as one path. On any target other than ios or android neither branch is compiled: `gl_get_program_info_log` and `gl_get_shader_info_log` then make no driver call and always return `Ok("")`. The result contract of `Wrapper.GlGetText` still holds there, but the call it names is not issued.
- `src/types.rs` contributes only the integer widths (module `GLTypes`). Its `extern fn` pointer types have no behaviour.
