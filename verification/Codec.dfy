/** internal/protocol/codec.go: framed messages on a byte stream, with payloads as opaque bytes. */
module Codec {

  type byte = x: int | 0 <= x < 256

  const MAX_MESSAGE_SIZE: int := 10 * 1024 * 1024
  const TWO_32: int := 0x1_0000_0000

  /** A 32-bit length, most significant byte first. */
  function U32(n: int): (s: seq<byte>)
    requires 0 <= n < TWO_32
    ensures |s| == 4
  {
    [n / 0x100_0000, n / 0x1_0000 % 0x100, n / 0x100 % 0x100, n % 0x100]
  }

  function FromU32(s: seq<byte>): (n: int)
    requires |s| == 4
    ensures 0 <= n < TWO_32
  {
    (s[0] as int) * 0x100_0000 + (s[1] as int) * 0x1_0000 + (s[2] as int) * 0x100 + (s[3] as int)
  }

  lemma U32RoundTrip(n: int)
    requires 0 <= n < TWO_32
    ensures FromU32(U32(n)) == n
  {
    assert n == n / 0x100 * 0x100 + n % 0x100;
    assert n / 0x100 == n / 0x1_0000 * 0x100 + n / 0x100 % 0x100;
    assert n / 0x1_0000 == n / 0x100_0000 * 0x100 + n / 0x1_0000 % 0x100;
  }

  lemma U32Onto(s: seq<byte>)
    requires |s| == 4
    ensures U32(FromU32(s)) == s
  {
    var n := FromU32(s);
    var a, b, c: int := s[0], s[1], s[2];
    assert n / 0x100 == a * 0x1_0000 + b * 0x100 + c;
    assert n / 0x1_0000 == a * 0x100 + b;
    assert n / 0x100_0000 == a;
  }

  datatype Frame = Frame(kind: byte, payload: seq<byte>)

  predicate Fits(f: Frame) { |f.payload| <= MAX_MESSAGE_SIZE }

  function EncodeFrame(f: Frame): seq<byte>
    requires Fits(f)
  {
    [f.kind] + U32(|f.payload|) + f.payload
  }

  datatype Decoded = Got(frame: Frame) | NoType | NoLength | TooLarge(length: int) | NoData

  /** One `Decode`: what it returns, and what is left of the stream, which a failed read has drained. */
  function DecodeOne(input: seq<byte>): (Decoded, seq<byte>) {
    if input == [] then (NoType, [])
    else if |input| < 5 then (NoLength, [])
    else
      var n := FromU32(input[1..5]);
      if n > MAX_MESSAGE_SIZE then (TooLarge(n), input[5..])
      else if |input| < 5 + n then (NoData, [])
      else (Got(Frame(input[0], input[5..5 + n])), input[5 + n..])
  }

  /** `WriteJSON`: there is no size check, and the length is cut to 32 bits. */
  function JsonBytes(data: seq<byte>): seq<byte> { U32(|data| % TWO_32) + data }

  datatype Read = Ok(data: seq<byte>) | ShortLength | LengthTooLarge(length: int) | ShortData

  /** `ReadJSON`, up to the point where the payload is unmarshalled. */
  function JsonRead(input: seq<byte>): (Read, seq<byte>) {
    if |input| < 4 then (ShortLength, [])
    else
      var n := FromU32(input[..4]);
      if n > MAX_MESSAGE_SIZE then (LengthTooLarge(n), input[4..])
      else if |input| < 4 + n then (ShortData, [])
      else (Ok(input[4..4 + n]), input[4 + n..])
  }

  // ---------- the layout ----------

  function Length(a: byte, b: byte, c: byte, d: byte): int {
    (a as int) * 16777216 + (b as int) * 65536 + (c as int) * 256 + (d as int)
  }

  /** A frame is one byte of type, four of length with the most significant first, and the payload, up to 10 MiB. */
  lemma FrameLayout(f: Frame)
    ensures Fits(f) <==> |f.payload| <= 10485760
    ensures Fits(f) ==>
              var s := EncodeFrame(f);
              && |s| == 5 + |f.payload| && s[0] == f.kind && s[5..] == f.payload
              && Length(s[1], s[2], s[3], s[4]) == |f.payload|
  {
    if Fits(f) {
      U32RoundTrip(|f.payload|);
      assert EncodeFrame(f)[1..5] == U32(|f.payload|);
    }
  }

  /** The form without a type byte: four bytes of length and the payload. */
  lemma JsonLayout(data: seq<byte>)
    ensures var s := JsonBytes(data);
            && |s| == 4 + |data| && s[4..] == data
            && Length(s[0], s[1], s[2], s[3]) == |data| % 4294967296
  {
    U32RoundTrip(|data| % TWO_32);
    assert JsonBytes(data)[..4] == U32(|data| % TWO_32);
  }

  /** Every answer of `Decode`, when it is given, and what it leaves of the stream. */
  lemma DecodeAnswers(input: seq<byte>)
    ensures var (r, rest) := DecodeOne(input);
            && (r == NoType <==> input == [])
            && (r == NoLength <==> 1 <= |input| < 5)
            && (|input| < 5 ==> rest == [])
            && (|input| >= 5 ==>
                var n := Length(input[1], input[2], input[3], input[4]);
                && (r.TooLarge? <==> n > 10485760) && (r.TooLarge? ==> r.length == n && rest == input[5..])
                && (r == NoData <==> n <= 10485760 && |input| - 5 < n) && (r == NoData ==> rest == [])
                && (r.Got? <==> n <= 10485760 && n <= |input| - 5)
                && (r.Got? ==>
                    r.frame.kind == input[0] && r.frame.payload == input[5..5 + n] && rest == input[5 + n..]))
  {
    if |input| >= 5 {
      assert input[1..5] == [input[1], input[2], input[3], input[4]];
    }
  }

  /** Every answer of `ReadJSON`. */
  lemma JsonAnswers(input: seq<byte>)
    ensures var (r, rest) := JsonRead(input);
            && (r == ShortLength <==> |input| < 4) && (r == ShortLength ==> rest == [])
            && (|input| >= 4 ==>
                var n := Length(input[0], input[1], input[2], input[3]);
                && (r.LengthTooLarge? <==> n > 10485760) && (r.LengthTooLarge? ==> r.length == n && rest == input[4..])
                && (r == ShortData <==> n <= 10485760 && |input| - 4 < n) && (r == ShortData ==> rest == [])
                && (r.Ok? <==> n <= 10485760 && n <= |input| - 4)
                && (r.Ok? ==> r.data == input[4..4 + n] && rest == input[4 + n..]))
  {
    if |input| >= 4 {
      assert input[..4] == [input[0], input[1], input[2], input[3]];
    }
  }

  class Encoder {
    var written: seq<byte>

    constructor ()
      ensures written == []
    {
      written := [];
    }

    /** `Encode` of a message that marshals to `data`, onto a stream that takes what is written. */
    method Encode(kind: byte, data: seq<byte>) returns (ok: bool)
      modifies this
      ensures ok == Fits(Frame(kind, data))
      ensures written == if ok then old(written) + EncodeFrame(Frame(kind, data)) else old(written)
    {
      if |data| > MAX_MESSAGE_SIZE {
        return false;
      }
      written := written + [kind];
      written := written + U32(|data|);
      written := written + data;
      assert written == old(written) + EncodeFrame(Frame(kind, data));
      return true;
    }

    method WriteJson(data: seq<byte>)
      modifies this
      ensures written == old(written) + JsonBytes(data)
    {
      written := written + U32(|data| % TWO_32);
      written := written + data;
      assert written == old(written) + JsonBytes(data);
    }
  }

  class Decoder {
    var input: seq<byte>

    constructor (input: seq<byte>)
      ensures this.input == input
    {
      this.input := input;
    }

    /** `io.ReadFull` of `n` bytes: too short a stream is an error that drains it. */
    method ReadFull(n: nat) returns (ok: bool, data: seq<byte>)
      modifies this
      ensures ok == (n <= |old(input)|)
      ensures ok ==> data == old(input)[..n] && input == old(input)[n..]
      ensures !ok ==> input == []
    {
      if |input| < n {
        input := [];
        return false, [];
      }
      data := input[..n];
      input := input[n..];
      return true, data;
    }

    method ReadJson() returns (r: Read)
      modifies this
      ensures (r, input) == JsonRead(old(input))
    {
      var ok, length := ReadFull(4);
      if !ok {
        return ShortLength;
      }
      var n := FromU32(length);
      if n > MAX_MESSAGE_SIZE {
        return LengthTooLarge(n);
      }
      var data;
      ok, data := ReadFull(n);
      if !ok {
        return ShortData;
      }
      assert data == old(input)[4..4 + n] && input == old(input)[4 + n..];
      return Ok(data);
    }

    method Decode() returns (r: Decoded)
      modifies this
      ensures (r, input) == DecodeOne(old(input))
    {
      var ok, kind := ReadFull(1);
      if !ok {
        return NoType;
      }
      var length;
      ok, length := ReadFull(4);
      if !ok {
        return NoLength;
      }
      assert length == old(input)[1..5] && input == old(input)[5..];
      var n := FromU32(length);
      if n > MAX_MESSAGE_SIZE {
        return TooLarge(n);
      }
      var data;
      ok, data := ReadFull(n);
      if !ok {
        return NoData;
      }
      assert data == old(input)[5..5 + n] && input == old(input)[5 + n..];
      return Got(Frame(kind[0], data));
    }
  }

  // ---------- streams ----------

  function EncodeAll(fs: seq<Frame>): seq<byte>
    requires forall f :: f in fs ==> Fits(f)
  {
    if fs == [] then [] else EncodeFrame(fs[0]) + EncodeAll(fs[1..])
  }

  /** Decode until something other than a frame comes back: the frames, and what came back then. */
  function DecodeAll(input: seq<byte>): (seq<Frame>, Decoded)
    decreases |input|
  {
    var (r, rest) := DecodeOne(input);
    if r.Got? then
      assert |rest| < |input|;
      var (fs, end) := DecodeAll(rest);
      ([r.frame] + fs, end)
    else ([], r)
  }

  /**
   `Decode` yields a frame exactly when the stream starts with that frame's encoding, and consumes exactly that.
   */
  lemma DecodeIffEncoded(input: seq<byte>, f: Frame, rest: seq<byte>)
    ensures DecodeOne(input) == (Got(f), rest) <==> Fits(f) && input == EncodeFrame(f) + rest
  {
    if Fits(f) && input == EncodeFrame(f) + rest {
      U32RoundTrip(|f.payload|);
      assert input == [f.kind] + (U32(|f.payload|) + (f.payload + rest));
      assert input[1..5] == U32(|f.payload|);
      assert input[5..5 + |f.payload|] == f.payload;
    }
    if DecodeOne(input) == (Got(f), rest) {
      U32Onto(input[1..5]);
      assert input == [input[0]] + input[1..5] + input[5..5 + |f.payload|] + rest;
    }
  }

  /** How many of the frames `fs` lie wholly within the first `n` bytes of their stream. */
  function Complete(fs: seq<Frame>, n: nat): (k: nat)
    requires forall f :: f in fs ==> Fits(f)
    ensures k <= |fs|
  {
    if fs == [] || n < |EncodeFrame(fs[0])| then 0
    else 1 + Complete(fs[1..], n - |EncodeFrame(fs[0])|)
  }

  /** A proper part of one frame's encoding decodes to no frame. */
  lemma CutFrame(f: Frame, cut: seq<byte>)
    requires Fits(f) && |cut| < |EncodeFrame(f)| && cut == EncodeFrame(f)[..|cut|]
    ensures DecodeOne(cut).0 == if cut == [] then NoType else if |cut| < 5 then NoLength else NoData
  {
    if |cut| >= 5 {
      U32RoundTrip(|f.payload|);
      assert cut[1..5] == EncodeFrame(f)[1..5] == U32(|f.payload|);
    }
  }

  /** Of what a cut stream decodes to: exactly the frames `fs`, and a clean end exactly if they are all of it. */
  ghost predicate CutsTo(input: seq<byte>, fs: seq<Frame>) {
    && (forall f :: f in fs ==> Fits(f))
    && DecodeAll(input).0 == fs
    && (DecodeAll(input).1 == NoType <==> EncodeAll(fs) == input)
    && !DecodeAll(input).1.Got? && !DecodeAll(input).1.TooLarge?
  }

  lemma CutsToNext(f: Frame, input: seq<byte>, fs: seq<Frame>)
    requires Fits(f) && CutsTo(input, fs)
    ensures CutsTo(EncodeFrame(f) + input, [f] + fs)
  {
    DecodeIffEncoded(EncodeFrame(f) + input, f, input);
    assert ([f] + fs)[1..] == fs;
    assert EncodeAll([f] + fs) == EncodeFrame(f) + EncodeAll(fs);
    if EncodeFrame(f) + EncodeAll(fs) == EncodeFrame(f) + input {
      assert EncodeAll(fs) == (EncodeFrame(f) + EncodeAll(fs))[|EncodeFrame(f)|..] == input;
    }
  }

  lemma CutsToNothing(f: Frame, cut: seq<byte>)
    requires Fits(f) && |cut| < |EncodeFrame(f)| && cut == EncodeFrame(f)[..|cut|]
    ensures CutsTo(cut, [])
  {
    CutFrame(f, cut);
  }

  /**
   Cutting a stream of frames anywhere yields its complete frames and no other, and then an error that is the
   clean end of the stream exactly if the cut falls between two frames.
   */
  lemma {:induction false} CutStream(fs: seq<Frame>, n: nat)
    requires (forall f :: f in fs ==> Fits(f)) && n <= |EncodeAll(fs)|
    ensures CutsTo(EncodeAll(fs)[..n], fs[..Complete(fs, n)])
    decreases |fs|
  {
    var input := EncodeAll(fs)[..n];
    if fs == [] {
      assert DecodeAll(input) == ([], NoType);
    } else {
      var first := EncodeFrame(fs[0]);
      if n < |first| {
        assert input == first[..n];
        CutsToNothing(fs[0], input);
      } else {
        var m := n - |first|;
        assert input == first + EncodeAll(fs[1..])[..m];
        CutStream(fs[1..], m);
        var k := Complete(fs[1..], m);
        assert fs[..k + 1] == [fs[0]] + fs[1..][..k];
        CutsToNext(fs[0], EncodeAll(fs[1..])[..m], fs[1..][..k]);
      }
    }
  }

  /** A stream of frames decodes back to them, with nothing left over. */
  lemma {:induction false} StreamRoundTrip(fs: seq<Frame>)
    requires forall f :: f in fs ==> Fits(f)
    ensures DecodeAll(EncodeAll(fs)) == (fs, NoType)
    decreases |fs|
  {
    if fs != [] {
      DecodeIffEncoded(EncodeAll(fs), fs[0], EncodeAll(fs[1..]));
      StreamRoundTrip(fs[1..]);
      assert [fs[0]] + fs[1..] == fs;
    } else {
      assert DecodeAll([]) == ([], NoType);
    }
  }

  /** And the other way: a stream that decodes cleanly is the encoding of what it decodes to. */
  lemma {:induction false} CleanStreamIsEncoding(input: seq<byte>)
    requires DecodeAll(input).1 == NoType
    ensures forall f :: f in DecodeAll(input).0 ==> Fits(f)
    ensures EncodeAll(DecodeAll(input).0) == input
    decreases |input|
  {
    var (r, rest) := DecodeOne(input);
    if r.Got? {
      DecodeIffEncoded(input, r.frame, rest);
      CleanStreamIsEncoding(rest);
      assert DecodeAll(input).0[1..] == DecodeAll(rest).0;
    }
  }

  // ---------- the form without a type byte ----------

  /**
   What is written is read back exactly up to 10 MiB; every longer payload whose length fits 32 bits is rejected.
   */
  lemma JsonRoundTripIff(data: seq<byte>, rest: seq<byte>)
    ensures JsonRead(JsonBytes(data) + rest) == (Ok(data), rest) <==> |data| <= MAX_MESSAGE_SIZE
    ensures MAX_MESSAGE_SIZE < |data| < TWO_32 ==> JsonRead(JsonBytes(data) + rest).0 == LengthTooLarge(|data|)
  {
    JsonReads(data, rest);
    if |data| <= MAX_MESSAGE_SIZE {
      assert data[..|data|] == data;
      assert (data + rest)[|data|..] == rest;
    }
  }

  /**
   In general the reader goes by the length modulo 2^32: a payload of 2^32 bytes and a few more is silently cut to
   those few.
   */
  lemma JsonReads(data: seq<byte>, rest: seq<byte>)
    ensures var n := |data| % TWO_32;
            JsonRead(JsonBytes(data) + rest) ==
            if n > MAX_MESSAGE_SIZE then (LengthTooLarge(n), data + rest) else (Ok(data[..n]), (data + rest)[n..])
  {
    var n := |data| % TWO_32;
    var input := JsonBytes(data) + rest;
    U32RoundTrip(n);
    assert input[..4] == U32(n);
    assert input[4..] == data + rest;
    if n <= MAX_MESSAGE_SIZE {
      assert input[4..4 + n] == (data + rest)[..n] == data[..n];
      assert input[4 + n..] == (data + rest)[n..];
    }
  }
}
