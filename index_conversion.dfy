/** The conversion behind the untyped `MeshData::indices()`: every index of
    an 8-, 16- or 32-bit index buffer, widened to a 32-bit `UnsignedInt`, in
    a newly allocated array. The indices are read in little-endian byte
    order. */
module IndexConversion {
  import opened Magnum
  import opened MeshTypes

  lemma WidthBound(t: MeshIndexType)
    ensures t.Width() > 0 && Pow256(t.Width()) <= UNSIGNED_INT_LIMIT
  {
    assert Pow256(4) == UNSIGNED_INT_LIMIT;
  }

  /** Index `i` of an index buffer of type `t`. */
  function Decode(t: MeshIndexType, bytes: seq<byte>, i: nat): (x: uint32)
    requires (i + 1) * t.Width() <= |bytes|
    ensures x < Pow256(t.Width())
  {
    WidthBound(t);
    ReadLittleEndian(bytes, t.Width(), i)
  }

  /** Every complete index of the buffer, first to last, widened to 32
      bits. */
  function Widen(t: MeshIndexType, bytes: seq<byte>): (r: seq<uint32>)
    ensures |r| == |bytes| / t.Width()
    decreases |bytes|
  {
    if |bytes| < t.Width() then []
    else [Decode(t, bytes, 0)] + Widen(t, bytes[t.Width()..])
  }

  /** The buffer that stores `values` as indices of type `t`. */
  function Narrow(t: MeshIndexType, values: seq<nat>): (bytes: seq<byte>)
    ensures |bytes| == |values| * t.Width()
  {
    if values == [] then [] else ToLittleEndian(values[0], t.Width()) + Narrow(t, values[1..])
  }

  /** The index arithmetic of one step of `Widen`, made linear by fixing
      the width. */
  lemma ChunkStep(t: MeshIndexType, n: nat, i: nat)
    requires 0 < i < n / t.Width()
    ensures t.Width() <= n && i - 1 < (n - t.Width()) / t.Width()
    ensures i * t.Width() == (i - 1) * t.Width() + t.Width()
    ensures (i + 1) * t.Width() == i * t.Width() + t.Width()
    ensures (i + 1) * t.Width() <= n
  {
    match t
    case UnsignedByte =>
    case UnsignedShort =>
    case UnsignedInt =>
  }

  lemma SliceOfSuffix(s: seq<byte>, w: nat, lo: nat, hi: nat)
    requires w <= |s| && lo <= hi && hi + w <= |s|
    ensures s[w..][lo..hi] == s[lo + w .. hi + w]
  {
  }

  /** Element `i` of the widened indices is index `i` of the buffer. */
  lemma {:induction false} WidenAt(t: MeshIndexType, bytes: seq<byte>, i: nat)
    requires i < |bytes| / t.Width()
    ensures (i + 1) * t.Width() <= |bytes|
    ensures Widen(t, bytes)[i] == Decode(t, bytes, i)
    decreases i
  {
    var w := t.Width();
    if i > 0 {
      ChunkStep(t, |bytes|, i);
      var rest := bytes[w..];
      WidenAt(t, rest, i - 1);
      SliceOfSuffix(bytes, w, (i - 1) * w, i * w);
    }
  }

  /** Widening loses nothing: storing the widened indices back at the
      buffer's width gives the original buffer. */
  lemma {:induction false} NarrowWiden(t: MeshIndexType, bytes: seq<byte>)
    requires |bytes| % t.Width() == 0
    ensures Narrow(t, Widen(t, bytes)) == bytes
    decreases |bytes|
  {
    var w := t.Width();
    if |bytes| >= w {
      var rest := bytes[w..];
      assert |rest| % w == 0;
      LittleEndianRoundTrip(bytes[..w]);
      NarrowWiden(t, rest);
      assert bytes == bytes[..w] + rest;
    }
  }

  /** Conversely, widening a buffer that stores indices gives those
      indices. */
  lemma {:induction false} WidenNarrow(t: MeshIndexType, values: seq<nat>)
    requires forall i :: 0 <= i < |values| ==> values[i] < Pow256(t.Width())
    ensures Widen(t, Narrow(t, values)) == values
  {
    var w := t.Width();
    if values != [] {
      var bytes := Narrow(t, values);
      ToLittleEndianRoundTrip(values[0], w);
      assert bytes[..w] == ToLittleEndian(values[0], w);
      assert bytes[w..] == Narrow(t, values[1..]);
      WidenNarrow(t, values[1..]);
    }
  }

  /** 8-bit indices widen to their own values. */
  lemma {:induction false} WidenByteIndices(bytes: seq<byte>)
    ensures Widen(MeshIndexType.UnsignedByte, bytes) == bytes
    decreases |bytes|
  {
    if bytes != [] {
      assert bytes[0..1] == [bytes[0]];
      WidenByteIndices(bytes[1..]);
    }
  }

  /** The byte indices 1, 2, 255 widen to 1, 2, 255. */
  lemma WidenByteExample()
    ensures Widen(MeshIndexType.UnsignedByte, [1, 2, 255]) == [1, 2, 255]
  {
    WidenByteIndices([1, 2, 255]);
  }

  /** `convertIndices<T>()`: allocates an array of one `UnsignedInt` per
      index and copies every index into it in order. Casting the bytes to
      `T` demands a whole number of indices. */
  method ConvertIndices(t: MeshIndexType, data: seq<byte>) returns (output: array<uint32>)
    requires |data| % t.Width() == 0
    ensures fresh(output)
    ensures output[..] == Widen(t, data)
  {
    var count := |data| / t.Width();
    output := new uint32[count];
    for i := 0 to count
      invariant forall k :: 0 <= k < i ==> output[k] == Widen(t, data)[k]
    {
      WidenAt(t, data, i);
      output[i] := Decode(t, data, i);
    }
  }
}
