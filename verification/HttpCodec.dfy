/** The request envelope the engine queues for HTTP sessions
    (src/Net/Async/HttpRequestCodec.cpp): 32 header bytes, little-endian 32-bit
    fields, then method, target, headers and body back to back. */
module HttpCodec {
  import opened Prelude

  const ENVELOPE_BYTES: nat := 32
  const HEADER_LIMIT: nat := 16 * 1024
  const U32_RANGE: nat := 0x1_0000_0000

  const MAGIC: Bytes := [83, 69, 72, 1] // 'S' 'E' 'H' 1

  // ------------------------------------------------------ little-endian words

  function Shift(i: nat): (p: nat)
    ensures p > 0
  {
    if i == 0 then 1 else 256 * Shift(i - 1)
  }

  // static_cast<uint8_t>(value >> (8 * i))
  function ByteAt(value: nat, i: nat): Byte
  {
    ((value / Shift(i)) % 256) as Byte
  }

  function U32(value: nat): (r: Bytes)
    ensures |r| == 4
  {
    [ByteAt(value, 0), ByteAt(value, 1), ByteAt(value, 2), ByteAt(value, 3)]
  }

  function FromU32(bytes: Bytes): (v: nat)
    requires |bytes| == 4
    ensures v < U32_RANGE
  {
    bytes[0] as nat + 256 * (bytes[1] as nat) + 65536 * (bytes[2] as nat) + 16777216 * (bytes[3] as nat)
  }

  lemma Shifts()
    ensures Shift(0) == 1 && Shift(1) == 256 && Shift(2) == 65536 && Shift(3) == 16777216
  {
    assert Shift(1) == 256 * Shift(0);
    assert Shift(2) == 256 * Shift(1);
    assert Shift(3) == 256 * Shift(2);
  }

  lemma WordRoundTrip(value: nat)
    requires value < U32_RANGE
    ensures FromU32(U32(value)) == value
  {
    Shifts();
    var high := value / 256;
    assert value == 256 * high + value % 256;
    assert high == 256 * (high / 256) + high % 256;
    assert value / 65536 == high / 256;
    assert value / 16777216 == high / 256 / 256;
  }

  lemma BytesRoundTrip(bytes: Bytes)
    requires |bytes| == 4
    ensures U32(FromU32(bytes)) == bytes
  {
    Shifts();
    var q3 := bytes[3] as nat;
    var q2 := bytes[2] as nat + 256 * q3;
    var q1 := bytes[1] as nat + 256 * q2;
    var v := FromU32(bytes);
    assert v == bytes[0] as nat + 256 * q1;
    LowByte(bytes[0], q1);
    LowByte(bytes[1], q2);
    LowByte(bytes[2], q3);
    assert v / 65536 == q1 / 256;
    assert v / 16777216 == q2 / 256;
  }

  lemma LowByte(b: Byte, q: nat)
    ensures (b as nat + 256 * q) % 256 == b as nat && (b as nat + 256 * q) / 256 == q
  {
  }

  // ------------------------------------------------------------------- format

  datatype Parts = Parts(id: nat, verb: Bytes, target: Bytes, headers: Bytes, body: Bytes)

  datatype View = View(id: nat, verbOffset: nat, verbSize: nat, targetOffset: nat, targetSize: nat,
                       headersOffset: nat, headersSize: nat, bodyOffset: nat, bodySize: nat)

  function Total(p: Parts): nat
  {
    ENVELOPE_BYTES + |p.verb| + |p.target| + |p.headers| + |p.body|
  }

  // The seven words after the magic: total, id low, id high and the four sizes.
  function Words(p: Parts): seq<nat>
  {
    [Total(p), p.id % U32_RANGE, p.id / U32_RANGE, |p.verb|, |p.target|, |p.headers|, |p.body|]
  }

  function Pack(words: seq<nat>): (r: Bytes)
    ensures |r| == 4 * |words|
  {
    if words == [] then [] else Pack(words[..|words| - 1]) + U32(words[|words| - 1])
  }

  function Envelope(p: Parts): (r: Bytes)
    ensures |r| == ENVELOPE_BYTES
  {
    MAGIC + Pack(Words(p))
  }

  // None is the length_error of a total that 32 bits cannot hold.
  function Encode(p: Parts): Option<Bytes>
  {
    if Total(p) >= U32_RANGE then None
    else Some(Envelope(p) + p.verb + p.target + p.headers + p.body)
  }

  function Word(payload: Bytes, at: nat): nat
    requires at + 4 <= |payload|
  {
    FromU32(payload[at..at + 4])
  }

  // uint32_t addition
  function Add32(a: nat, b: nat): nat { (a + b) % U32_RANGE }

  function Decode(payload: Bytes): Option<View>
  {
    if |payload| < ENVELOPE_BYTES || |payload| >= U32_RANGE then None
    else if payload[..4] != MAGIC || Word(payload, 4) != |payload| then None
    else
      var id := Word(payload, 8) + U32_RANGE * Word(payload, 12);
      var verbSize, targetSize := Word(payload, 16), Word(payload, 20);
      var headersSize, bodySize := Word(payload, 24), Word(payload, 28);
      if id == 0 || ENVELOPE_BYTES + verbSize + targetSize + headersSize + bodySize != |payload|
         || verbSize == 0 || verbSize > 32 || targetSize == 0 || targetSize > 2048
         || headersSize > HEADER_LIMIT
      then None
      else
        var verbOffset := ENVELOPE_BYTES;
        var targetOffset := Add32(verbOffset, verbSize);
        var headersOffset := Add32(targetOffset, targetSize);
        var bodyOffset := Add32(headersOffset, headersSize);
        Some(View(id, verbOffset, verbSize, targetOffset, targetSize,
                  headersOffset, headersSize, bodyOffset, bodySize))
  }

  // The sizes a request may have, as the server's own checks allow them.
  ghost predicate Legal(p: Parts)
  {
    && p.id != 0
    && 1 <= |p.verb| <= 32
    && 1 <= |p.target| <= 2048
    && |p.headers| <= HEADER_LIMIT
  }

  // The four slices lie back to back and fill [32, size): no offset wrapped.
  ghost predicate Tiles(v: View, size: nat)
  {
    && v.verbOffset == ENVELOPE_BYTES
    && v.targetOffset == v.verbOffset + v.verbSize
    && v.headersOffset == v.targetOffset + v.targetSize
    && v.bodyOffset == v.headersOffset + v.headersSize
    && size == v.bodyOffset + v.bodySize
  }

  function Slices(payload: Bytes, v: View): Parts
    requires Tiles(v, |payload|)
  {
    Parts(v.id,
          payload[v.verbOffset..v.targetOffset], payload[v.targetOffset..v.headersOffset],
          payload[v.headersOffset..v.bodyOffset], payload[v.bodyOffset..])
  }

  lemma DecodedTiles(payload: Bytes)
    requires Decode(payload).Some?
    ensures Tiles(Decode(payload).value, |payload|)
  {
    var v := Decode(payload).value;
    NoWrap(ENVELOPE_BYTES, v.verbSize);
    NoWrap(v.targetOffset, v.targetSize);
    NoWrap(v.headersOffset, v.headersSize);
  }

  lemma NoWrap(a: nat, b: nat)
    requires a + b < U32_RANGE
    ensures Add32(a, b) == a + b
  {
  }

  // Splitting an id into words and joining words into an id are inverse.
  lemma IdWords(low: nat, high: nat)
    requires low < U32_RANGE
    ensures (low + U32_RANGE * high) % U32_RANGE == low && (low + U32_RANGE * high) / U32_RANGE == high
  {
  }

  lemma {:induction false} PackedWord(words: seq<nat>, k: nat, tail: Bytes)
    requires k < |words| && words[k] < U32_RANGE
    ensures Word(MAGIC + Pack(words) + tail, 4 + 4 * k) == words[k]
  {
    var n := |words| - 1;
    var last := U32(words[n]);
    var payload := MAGIC + Pack(words) + tail;
    assert payload == MAGIC + Pack(words[..n]) + (last + tail);
    if k == n {
      assert payload[4 + 4 * k..4 + 4 * k + 4] == last;
      WordRoundTrip(words[k]);
    } else {
      PackedWord(words[..n], k, last + tail);
    }
  }

  lemma {:induction false} PackedBytes(words: seq<nat>, bytes: Bytes)
    requires |bytes| == 4 * |words|
    requires forall k :: 0 <= k < |words| ==> words[k] == Word(bytes, 4 * k)
    ensures Pack(words) == bytes
  {
    if words != [] {
      var n := |words| - 1;
      forall k | 0 <= k < n
        ensures words[k] == Word(bytes[..4 * n], 4 * k)
      {
        assert bytes[..4 * n][4 * k..4 * k + 4] == bytes[4 * k..4 * k + 4];
      }
      PackedBytes(words[..n], bytes[..4 * n]);
      BytesRoundTrip(bytes[4 * n..4 * n + 4]);
      assert bytes == bytes[..4 * n] + bytes[4 * n..4 * n + 4];
    }
  }

  // What the decoder reads from the fixed positions of the envelope.
  function ReadWords(payload: Bytes): seq<nat>
    requires |payload| >= ENVELOPE_BYTES
  {
    seq(7, k requires 0 <= k < 7 => Word(payload, 4 + 4 * k))
  }

  lemma EnvelopeWords(p: Parts, tail: Bytes)
    requires Total(p) < U32_RANGE && p.id < U32_RANGE * U32_RANGE
    ensures (Envelope(p) + tail)[..4] == MAGIC
    ensures ReadWords(Envelope(p) + tail) == Words(p)
  {
    assert p.id / U32_RANGE < U32_RANGE;
    forall k | 0 <= k < 7
      ensures Word(Envelope(p) + tail, 4 + 4 * k) == Words(p)[k]
    {
      PackedWord(Words(p), k, tail);
    }
  }

  lemma EnvelopeFromWords(p: Parts, payload: Bytes)
    requires |payload| >= ENVELOPE_BYTES && payload[..4] == MAGIC
    requires ReadWords(payload) == Words(p)
    ensures payload[..ENVELOPE_BYTES] == Envelope(p)
  {
    var bytes := payload[4..ENVELOPE_BYTES];
    forall k | 0 <= k < 7
      ensures Words(p)[k] == Word(bytes, 4 * k)
    {
      assert bytes[4 * k..4 * k + 4] == payload[4 + 4 * k..8 + 4 * k];
    }
    PackedBytes(Words(p), bytes);
    assert payload[..ENVELOPE_BYTES] == payload[..4] + bytes;
  }

  // The little-endian number at an offset.
  function LittleEndian(payload: Bytes, at: nat): nat
    requires at + 4 <= |payload|
  {
    payload[at] as nat + 256 * (payload[at + 1] as nat) + 65536 * (payload[at + 2] as nat)
    + 16777216 * (payload[at + 3] as nat)
  }

  /** Where everything is on the wire. A request is encoded exactly when its size can
      be written in 32 bits: the letters S, E, H and the version 1, then little-endian
      the size, the low and the high half of the id and the four lengths, and from byte
      32 on the method, the target, the headers and the body. */
  lemma EncodedLayout(p: Parts)
    requires p.id < U32_RANGE * U32_RANGE
    ensures Encode(p).Some? <==> 32 + |p.verb| + |p.target| + |p.headers| + |p.body| < 0x1_0000_0000
    ensures Encode(p).Some? ==>
              var e := Encode(p).value;
              && |e| == 32 + |p.verb| + |p.target| + |p.headers| + |p.body|
              && e[0] == 83 && e[1] == 69 && e[2] == 72 && e[3] == 1
              && LittleEndian(e, 4) == |e|
              && LittleEndian(e, 8) + 0x1_0000_0000 * LittleEndian(e, 12) == p.id
              && LittleEndian(e, 16) == |p.verb| && LittleEndian(e, 20) == |p.target|
              && LittleEndian(e, 24) == |p.headers| && LittleEndian(e, 28) == |p.body|
              && e[32..] == p.verb + p.target + p.headers + p.body
  {
    if Encode(p).Some? {
      EncodedMagic(p);
      EncodedNumbers(p);
      assert ENVELOPE_BYTES == 32;
    }
  }

  lemma EncodedMagic(p: Parts)
    requires Encode(p).Some?
    ensures
      var e := Encode(p).value;
      && e[0] == 83 && e[1] == 69 && e[2] == 72 && e[3] == 1
      && e[ENVELOPE_BYTES..] == p.verb + p.target + p.headers + p.body
  {
    var e := Encode(p).value;
    assert e == Envelope(p) + (p.verb + p.target + p.headers + p.body);
    assert Envelope(p)[..4] == MAGIC;
    assert e[0] == MAGIC[0] && e[1] == MAGIC[1] && e[2] == MAGIC[2] && e[3] == MAGIC[3];
  }

  lemma EncodedNumber(p: Parts, k: nat)
    requires Encode(p).Some? && p.id < U32_RANGE * U32_RANGE && k < 7
    ensures LittleEndian(Encode(p).value, 4 + 4 * k) == Words(p)[k]
  {
    EncodedWords(p);
    WordIsLittleEndian(Encode(p).value, 4 + 4 * k);
    assert ReadWords(Encode(p).value)[k] == Word(Encode(p).value, 4 + 4 * k);
  }

  lemma EncodedNumbers(p: Parts)
    requires Encode(p).Some? && p.id < U32_RANGE * U32_RANGE
    ensures
      var e := Encode(p).value;
      && LittleEndian(e, 4) == |e|
      && LittleEndian(e, 8) + U32_RANGE * LittleEndian(e, 12) == p.id
      && LittleEndian(e, 16) == |p.verb| && LittleEndian(e, 20) == |p.target|
      && LittleEndian(e, 24) == |p.headers| && LittleEndian(e, 28) == |p.body|
  {
    EncodedNumber(p, 0);
    EncodedNumber(p, 1);
    EncodedNumber(p, 2);
    EncodedNumber(p, 3);
    EncodedNumber(p, 4);
    EncodedNumber(p, 5);
    EncodedNumber(p, 6);
  }

  lemma WordIsLittleEndian(payload: Bytes, at: nat)
    requires at + 4 <= |payload|
    ensures Word(payload, at) == LittleEndian(payload, at)
  {
    var bytes := payload[at..at + 4];
    assert bytes[0] == payload[at] && bytes[1] == payload[at + 1];
    assert bytes[2] == payload[at + 2] && bytes[3] == payload[at + 3];
  }

  /** Decoding an encoded request succeeds for exactly the legal sizes and gives
      back the id and the four slices. */
  lemma DecodeOfEncode(p: Parts)
    requires p.id < U32_RANGE * U32_RANGE
    requires Encode(p).Some?
    ensures Decode(Encode(p).value).Some? <==> Legal(p)
    ensures Legal(p) ==>
      var v := Decode(Encode(p).value).value;
      Tiles(v, |Encode(p).value|) && Slices(Encode(p).value, v) == p
  {
    var payload := Encode(p).value;
    EncodedWords(p);
    var read := ReadWords(payload);
    assert read[0] == Word(payload, 4) && read[1] == Word(payload, 8) && read[2] == Word(payload, 12);
    assert read[3] == Word(payload, 16) && read[4] == Word(payload, 20);
    assert read[5] == Word(payload, 24) && read[6] == Word(payload, 28);
    if Legal(p) {
      DecodedTiles(payload);
      SlicesOfEncoded(p);
    }
  }

  lemma EncodedWords(p: Parts)
    requires Total(p) < U32_RANGE && p.id < U32_RANGE * U32_RANGE
    ensures
      var payload := Envelope(p) + p.verb + p.target + p.headers + p.body;
      payload[..4] == MAGIC && ReadWords(payload) == Words(p)
  {
    var tail := p.verb + p.target + p.headers + p.body;
    assert Envelope(p) + p.verb + p.target + p.headers + p.body == Envelope(p) + tail;
    EnvelopeWords(p, tail);
  }

  lemma SlicesOfEncoded(p: Parts)
    ensures
      var payload := Envelope(p) + p.verb + p.target + p.headers + p.body;
      var target := ENVELOPE_BYTES + |p.verb|;
      var headers := target + |p.target|;
      var body := headers + |p.headers|;
      && payload[ENVELOPE_BYTES..target] == p.verb && payload[target..headers] == p.target
      && payload[headers..body] == p.headers && payload[body..] == p.body
  {
  }

  lemma FiveParts(s: Bytes, a: nat, b: nat, c: nat, d: nat)
    requires a <= b <= c <= d <= |s|
    ensures s[..a] + s[a..b] + s[b..c] + s[c..d] + s[d..] == s
  {
  }

  /** Every accepted payload is the encoding of the slices it decodes to, so the
      codec is a bijection between legal requests and accepted payloads. */
  lemma EncodeOfDecode(payload: Bytes)
    requires Decode(payload).Some?
    ensures Tiles(Decode(payload).value, |payload|)
    ensures
      var p := Slices(payload, Decode(payload).value);
      Legal(p) && Encode(p) == Some(payload)
  {
    DecodedTiles(payload);
    var v := Decode(payload).value;
    var p := Slices(payload, v);
    IdWords(Word(payload, 8), Word(payload, 12));
    assert ReadWords(payload) == Words(p);
    EnvelopeFromWords(p, payload);
    FiveParts(payload, ENVELOPE_BYTES, v.targetOffset, v.headersOffset, v.bodyOffset);
  }

  // ------------------------------------------------------- the imperative form

  method WriteU32(bytes: array<Byte>, at: nat, value: nat)
    requires at + 4 <= bytes.Length
    modifies bytes
    ensures bytes[..] == old(bytes[..at]) + U32(value) + old(bytes[at + 4..])
  {
    var i := 0;
    while i < 4
      invariant 0 <= i <= 4
      invariant bytes[..at] == old(bytes[..at]) && bytes[at + 4..] == old(bytes[at + 4..])
      invariant bytes[at..at + i] == U32(value)[..i]
    {
      bytes[at + i] := ByteAt(value, i);
      i := i + 1;
    }
    assert bytes[..] == bytes[..at] + bytes[at..at + 4] + bytes[at + 4..];
  }

  // The next word of the envelope, after the k already written.
  method PutWord(bytes: array<Byte>, k: nat, value: nat, ghost words: seq<nat>)
    requires k < |words| && value == words[k] && 8 + 4 * k <= bytes.Length
    requires bytes[..4 + 4 * k] == MAGIC + Pack(words[..k])
    modifies bytes
    ensures bytes[..8 + 4 * k] == MAGIC + Pack(words[..k + 1])
  {
    WriteU32(bytes, 4 + 4 * k, value);
    assert words[..k + 1][..k] == words[..k];
    assert bytes[..8 + 4 * k] == bytes[..4 + 4 * k] + U32(value);
  }

  method WriteSizes(bytes: array<Byte>, p: Parts, ghost words: seq<nat>)
    requires bytes.Length >= ENVELOPE_BYTES && bytes[..4] == MAGIC && words == Words(p)
    modifies bytes
    ensures bytes[..ENVELOPE_BYTES] == Envelope(p)
  {
    PutWord(bytes, 0, Total(p), words);
    PutWord(bytes, 1, p.id % U32_RANGE, words);
    PutWord(bytes, 2, p.id / U32_RANGE, words);
    PutWord(bytes, 3, |p.verb|, words);
    PutWord(bytes, 4, |p.target|, words);
    PutWord(bytes, 5, |p.headers|, words);
    PutWord(bytes, 6, |p.body|, words);
    assert words[..7] == words;
  }

  // The shifted bytes have no bit in common, so |= is addition.
  method ReadU32(bytes: Bytes, at: nat) returns (value: nat)
    requires at + 4 <= |bytes|
    ensures value == Word(bytes, at)
  {
    Shifts();
    value := 0;
    var i := 0;
    while i < 4
      invariant 0 <= i <= 4
      invariant value == (if i >= 1 then bytes[at] as nat else 0)
                       + (if i >= 2 then 256 * (bytes[at + 1] as nat) else 0)
                       + (if i >= 3 then 65536 * (bytes[at + 2] as nat) else 0)
                       + (if i >= 4 then 16777216 * (bytes[at + 3] as nat) else 0)
    {
      value := value + bytes[at + i] as nat * Shift(i);
      i := i + 1;
    }
  }

  method CopyInto(bytes: array<Byte>, cursor: nat, part: Bytes) returns (next: nat)
    requires cursor + |part| <= bytes.Length
    modifies bytes
    ensures next == cursor + |part|
    ensures bytes[..cursor] == old(bytes[..cursor])
    ensures bytes[cursor..next] == part
    ensures bytes[next..] == old(bytes[next..])
  {
    next := cursor;
    while next < cursor + |part|
      invariant cursor <= next <= cursor + |part|
      invariant bytes[..cursor] == old(bytes[..cursor])
      invariant bytes[cursor..next] == part[..next - cursor]
      invariant forall k :: next <= k < bytes.Length ==> bytes[k] == old(bytes[k])
    {
      bytes[next] := part[next - cursor];
      next := next + 1;
    }
  }

  method EncodeHttpRequest(p: Parts) returns (result: Option<Bytes>)
    ensures result == Encode(p)
  {
    var total := Total(p);
    if total >= U32_RANGE {
      return None;
    }
    var bytes := new Byte[total](_ => 0);
    bytes[0], bytes[1], bytes[2], bytes[3] := 83, 69, 72, 1;
    assert bytes[..4] == MAGIC;
    WriteSizes(bytes, p, Words(p));
    var cursor := AppendPart(bytes, ENVELOPE_BYTES, p.verb, Envelope(p));
    cursor := AppendPart(bytes, cursor, p.target, Envelope(p) + p.verb);
    cursor := AppendPart(bytes, cursor, p.headers, Envelope(p) + p.verb + p.target);
    cursor := AppendPart(bytes, cursor, p.body, Envelope(p) + p.verb + p.target + p.headers);
    assert bytes[..cursor] == bytes[..];
    return Some(bytes[..]);
  }

  // A copy after a known prefix, for the running cursor of the encoder.
  method AppendPart(bytes: array<Byte>, cursor: nat, part: Bytes, ghost written: Bytes) returns (next: nat)
    requires cursor + |part| <= bytes.Length && bytes[..cursor] == written
    modifies bytes
    ensures next == cursor + |part| && bytes[..next] == written + part
  {
    next := CopyInto(bytes, cursor, part);
    assert bytes[..next] == bytes[..cursor] + bytes[cursor..next];
  }

  method DecodeHttpRequest(payload: Bytes) returns (view: Option<View>)
    ensures view == Decode(payload)
  {
    if |payload| < ENVELOPE_BYTES || |payload| >= U32_RANGE {
      return None;
    }
    var size := ReadU32(payload, 4);
    if payload[..4] != MAGIC || size != |payload| {
      return None;
    }
    var low := ReadU32(payload, 8);
    var high := ReadU32(payload, 12);
    var id := low + U32_RANGE * high;
    var verbSize := ReadU32(payload, 16);
    var targetSize := ReadU32(payload, 20);
    var headersSize := ReadU32(payload, 24);
    var bodySize := ReadU32(payload, 28);
    var total := ENVELOPE_BYTES + verbSize + targetSize + headersSize + bodySize;
    if id == 0 || total != |payload| || verbSize == 0 || verbSize > 32
       || targetSize == 0 || targetSize > 2048 || headersSize > HEADER_LIMIT {
      return None;
    }
    var targetOffset := Add32(ENVELOPE_BYTES, verbSize);
    var headersOffset := Add32(targetOffset, targetSize);
    var bodyOffset := Add32(headersOffset, headersSize);
    return Some(View(id, ENVELOPE_BYTES, verbSize, targetOffset, targetSize,
                     headersOffset, headersSize, bodyOffset, bodySize));
  }
}
