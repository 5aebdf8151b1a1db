/** memcpy and memset. */
module Memory {
  /** memcpy of src into dst at offset. */
  method MemCopy<T>(dst: array<T>, offset: nat, src: seq<T>)
    requires offset + |src| <= dst.Length
    modifies dst
    ensures dst[..] == old(dst[..offset]) + src + old(dst[offset + |src|..])
  {
    var i := 0;
    while i < |src|
      invariant i <= |src|
      invariant dst[..] == old(dst[..offset]) + src[..i] + old(dst[offset + i..])
    {
      dst[offset + i] := src[i];
      i := i + 1;
    }
  }

  /** clear_buffer of unit_lib.c. */
  method ClearBuffer(buffer: array<int>, length: nat)
    requires length <= buffer.Length
    modifies buffer
    ensures buffer[..] == seq(length, _ => 0) + old(buffer[length..])
  {
    var i := 0;
    while i < length
      invariant i <= length
      invariant buffer[..] == seq(i, _ => 0) + old(buffer[i..])
    {
      buffer[i] := 0;
      i := i + 1;
    }
  }
}
