/**
 * `CStr::from_ptr(p).to_bytes()`, which `gl_get_string` applies to the
 * pointer the driver returns (src/es20/wrapper.rs:970): the bytes from `p` up
 * to, and not including, the first NUL. Memory from `p` onward is given as a
 * byte sequence that holds a NUL somewhere, as a C string does.
 */
module CStr {
  import opened GLTypes

  /** The position of the terminator: the first NUL byte. */
  function NulIndex(mem: seq<u8>): (i: nat)
    requires 0 in mem
    ensures i < |mem| && mem[i] == 0
    ensures forall j :: 0 <= j < i ==> mem[j] != 0
  {
    if mem[0] == 0 then 0 else 1 + NulIndex(mem[1..])
  }

  /** The bytes of the C string starting at the head of `mem`. */
  function ToBytes(mem: seq<u8>): (s: seq<u8>)
    requires 0 in mem
    ensures 0 !in s
    ensures |s| < |mem| && s + [0] == mem[..|s| + 1]
  {
    mem[..NulIndex(mem)]
  }

  /** Laying out NUL-free bytes as a C string and reading it back gives those bytes. */
  lemma {:induction false} ToBytesOfTerminated(s: seq<u8>, rest: seq<u8>)
    requires 0 !in s
    ensures 0 in s + [0] + rest
    ensures ToBytes(s + [0] + rest) == s
  {
    var mem := s + [0] + rest;
    assert mem[|s|] == 0;
    if s != [] {
      assert mem[1..] == s[1..] + [0] + rest;
      ToBytesOfTerminated(s[1..], rest);
      assert NulIndex(mem) == 1 + NulIndex(mem[1..]);
    }
  }
}
