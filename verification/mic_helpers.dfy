/**
 The Python helpers of the `matrix_lite` package: the int16 <-> bytes codec,
 list flattening, and the defaults of `setup_microphone`.

 `bytearray_to_int16_list` goes through the hexadecimal text of the bytes and
 cuts it every four hex digits; since `bytes.fromhex(b.hex())` is the identity,
 that is the same as cutting the bytes into pairs from the front, the last
 piece being a single byte when the length is odd. `sys.byteorder` is taken to
 be little-endian, as on the target.
 */
module MicHelpers {
  import opened Common
  import opened Pcm

  /** `int.from_bytes(b, 'little', signed=True)` for a one-byte `b`. */
  function SignedByte(b: Byte): (x: int)
    ensures -128 <= x < 128
    ensures (if x < 0 then x + 256 else x) == b
  {
    if b >= 128 then b - 256 else b
  }

  /** `bytearray_to_int16_list`: pairs of bytes, from the front, as little-endian signed values. */
  function BytesToInt16List(bs: seq<Byte>): (xs: seq<Int16>)
    ensures |xs| == (|bs| + 1) / 2
    ensures forall k :: 0 <= k < |bs| / 2 ==> xs[k] == DecodeSample(bs[2 * k], bs[2 * k + 1])
    ensures |bs| % 2 == 1 ==> xs[|xs| - 1] == SignedByte(bs[|bs| - 1])
  {
    if |bs| == 0 then []
    else if |bs| == 1 then [SignedByte(bs[0])]
    else [DecodeSample(bs[0], bs[1])] + BytesToInt16List(bs[2..])
  }

  /** Every value `int16_list_to_bytearray` accepts. */
  predicate IsInt16(x: int) { -32768 <= x <= 32767 }

  /** `int16_list_to_bytearray`: fails with the first value outside the int16 range
      (the `RuntimeError` names it); otherwise two little-endian bytes per value. */
  function Int16ListToBytes(xs: seq<int>): (r: Result<seq<Byte>, int>)
    ensures r.Failure? <==> exists k :: 0 <= k < |xs| && !IsInt16(xs[k])
    ensures r.Failure? ==> exists k :: 0 <= k < |xs| && xs[k] == r.error && !IsInt16(xs[k])
                             && forall j :: 0 <= j < k ==> IsInt16(xs[j])
    ensures r.Success? ==> Encodes(r.value, xs)
  {
    if |xs| == 0 then Success([])
    else if !IsInt16(xs[0]) then Failure(xs[0])
    else
      match Int16ListToBytes(xs[1..])
      case Failure(e) =>
        assert forall k :: 1 <= k < |xs| ==> xs[k] == xs[1..][k - 1];
        Failure(e)
      case Success(rest) =>
        EncodesCons(xs[0], xs, rest);
        Success(SampleBytes(xs[0]) + rest)
  }

  /** `bs` holds two little-endian bytes per value of `xs`, in order. */
  predicate Encodes(bs: seq<Byte>, xs: seq<int>)
  {
    |bs| == 2 * |xs| && forall k :: 0 <= k < |xs| ==> DecodeSample(bs[2 * k], bs[2 * k + 1]) == xs[k]
  }

  lemma EncodesCons(x: Int16, xs: seq<int>, rest: seq<Byte>)
    requires |xs| > 0 && xs[0] == x && Encodes(rest, xs[1..])
    ensures Encodes(SampleBytes(x) + rest, xs)
  {
    DecodeSampleBytes(x);
    var bs := SampleBytes(x) + rest;
    forall k | 1 <= k < |xs|
      ensures DecodeSample(bs[2 * k], bs[2 * k + 1]) == xs[k]
    {
      assert bs[2 * k] == rest[2 * (k - 1)] && bs[2 * k + 1] == rest[2 * (k - 1) + 1];
      assert xs[k] == xs[1..][k - 1];
    }
  }

  /** On in-range input the encoder produces the same bytes as the in-memory image of an `int16_t` array. */
  lemma {:induction false} Int16ListToBytesIsMemoryImage(xs: seq<Int16>)
    ensures Int16ListToBytes(xs) == Success(SamplesBytes(xs))
  {
    if |xs| > 0 {
      Int16ListToBytesIsMemoryImage(xs[1..]);
      assert xs == [xs[0]] + xs[1..];
      SamplesBytesAppend([xs[0]], xs[1..]);
      assert SamplesBytes([xs[0]]) == SampleBytes(xs[0]) by {
        assert [xs[0]][..0] == [];
      }
    }
  }

  /** Round trip: decoding the encoding of an in-range list gives the list back. */
  lemma {:induction false} DecodeEncode(xs: seq<int>)
    requires forall k :: 0 <= k < |xs| ==> IsInt16(xs[k])
    ensures Int16ListToBytes(xs).Success?
    ensures BytesToInt16List(Int16ListToBytes(xs).value) == xs
  {
    var bs := Int16ListToBytes(xs).value;
    var ys := BytesToInt16List(bs);
    assert |ys| == |xs|;
    forall k | 0 <= k < |xs|
      ensures ys[k] == xs[k]
    {
      assert k < |bs| / 2;
    }
  }

  /** Round trip: encoding the decoding of an even-length byte array gives the bytes back. */
  lemma {:induction false} EncodeDecode(bs: seq<Byte>)
    requires |bs| % 2 == 0
    ensures Int16ListToBytes(BytesToInt16List(bs)) == Success(bs)
  {
    var xs := BytesToInt16List(bs);
    Int16ListToBytesIsMemoryImage(xs);
    var out := SamplesBytes(xs);
    var half := |bs| / 2;
    assert |xs| == half && |out| == |bs| == 2 * half;
    forall k | 0 <= k < half
      ensures out[2 * k] == bs[2 * k] && out[2 * k + 1] == bs[2 * k + 1]
    {
      assert xs[k] == DecodeSample(bs[2 * k], bs[2 * k + 1]);
      SampleBytesDecode(bs[2 * k], bs[2 * k + 1]);
    }
    PairwiseEqual(out, bs, half);
  }

  /** Two byte arrays that agree pair by pair are equal. */
  lemma PairwiseEqual(a: seq<Byte>, b: seq<Byte>, half: nat)
    requires |a| == |b| == 2 * half
    requires forall k :: 0 <= k < half ==> a[2 * k] == b[2 * k] && a[2 * k + 1] == b[2 * k + 1]
    ensures a == b
  {
    forall i | 0 <= i < |a|
      ensures a[i] == b[i]
    {
      var k := i / 2;
      assert i == 2 * k || i == 2 * k + 1;
    }
  }

  /** `flatten_list` and `list_bytes_to_bytearray`: the parts joined in order. */
  function Flatten<T>(xss: seq<seq<T>>): (r: seq<T>)
    ensures |r| == Sum(seq(|xss|, i requires 0 <= i < |xss| => |xss[i]|))
    ensures forall i :: 0 <= i < |xss| ==> |Concat(xss[..i])| + |xss[i]| <= |r|
    ensures forall i :: 0 <= i < |xss| ==> r[|Concat(xss[..i])|..|Concat(xss[..i])| + |xss[i]|] == xss[i]
  {
    ConcatLength(xss);
    forall i | 0 <= i < |xss|
      ensures |Concat(xss[..i])| + |xss[i]| <= |Concat(xss)|
      ensures Concat(xss)[|Concat(xss[..i])|..|Concat(xss[..i])| + |xss[i]|] == xss[i]
    {
      ConcatPiece(xss, i);
    }
    Concat(xss)
  }

  /** Part `i` sits in the join right after parts `0` .. `i - 1`. */
  lemma ConcatPiece<T>(xss: seq<seq<T>>, i: nat)
    requires i < |xss|
    ensures |Concat(xss[..i])| + |xss[i]| <= |Concat(xss)|
    ensures Concat(xss)[|Concat(xss[..i])|..|Concat(xss[..i])| + |xss[i]|] == xss[i]
  {
    assert xss == xss[..i] + ([xss[i]] + xss[i + 1..]);
    ConcatSplit(xss[..i], [xss[i]] + xss[i + 1..]);
    ConcatSplit([xss[i]], xss[i + 1..]);
    assert Concat([xss[i]]) == xss[i] by { ConcatAppend([], xss[i]); assert [] + [xss[i]] == [xss[i]]; }
  }

  /** The arguments `setup_microphone` passes to the `microphone` constructor. */
  datatype MicSettings = MicSettings(frequency: int, gain: int)

  /** `setup_microphone`: a missing sampling rate defaults to 16000 Hz and a missing gain to 0. */
  function SetupMicrophone(fs: Option<int>, gain: Option<int>): (m: MicSettings)
    ensures m.frequency == fs.GetOr(16000)
    ensures m.gain == gain.GetOr(0)
  {
    if fs.None? && gain.None? then MicSettings(16000, 0)
    else if fs.None? then MicSettings(16000, gain.value)
    else if gain.None? then MicSettings(fs.value, 0)
    else MicSettings(fs.value, gain.value)
  }
}
