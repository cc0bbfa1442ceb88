/**
 The bytes of log.bin and of a wrapped key list.

 A log frame is a little-endian 32-bit length, a 16-byte entry id and a blob. The length is
 truncated to 32 bits when it is written, so a frame reads back exactly when it fits.
 */
module LogCodec {
  import opened Wrappers

  type Byte = x: int | 0 <= x < 256

  type Bytes = seq<Byte>

  type EntryId = s: Bytes | |s| == 16 witness seq(16, _ => 0)

  datatype RawFrame = RawFrame(id: EntryId, blob: Bytes)

  datatype CorruptLog = TruncatedFrame | TrailingBytes

  const TWO_32 := 0x1_0000_0000

  // ---- writing --------------------------------------------------------------

  function Le32(n: nat): (b: Bytes)
    ensures |b| == 4
  {
    [n % 256, n / 0x100 % 256, n / 0x1_0000 % 256, n / 0x100_0000 % 256]
  }

  function FromLe32(b: Bytes): nat
    requires |b| == 4
  {
    b[0] as int + 0x100 * (b[1] as int) + 0x1_0000 * (b[2] as int) + 0x100_0000 * (b[3] as int)
  }

  /** The bytes one append writes; the cast to 32 bits drops the high bits of the length. */
  function FrameBytes(f: RawFrame): Bytes {
    Le32((16 + |f.blob|) % TWO_32) + f.id + f.blob
  }

  function LogBytes(fs: seq<RawFrame>): Bytes {
    if fs == [] then [] else FrameBytes(fs[0]) + LogBytes(fs[1..])
  }

  predicate Fits(f: RawFrame) {
    16 + |f.blob| < TWO_32
  }

  predicate AllFit(fs: seq<RawFrame>) {
    forall f | f in fs :: Fits(f)
  }

  /** Where the bytes of a frame that fits stand: the length of the rest, lowest byte first, the id, the blob. */
  lemma FrameLayout(f: RawFrame)
    requires Fits(f)
    ensures var b := FrameBytes(f);
            && |b| == 20 + |f.blob| && b[4..20] == f.id && b[20..] == f.blob
            && b[0] as int + 256 * (b[1] as int) + 65536 * (b[2] as int) + 16777216 * (b[3] as int) == |b| - 4
  {
    Le32RoundTrip((16 + |f.blob|) % TWO_32);
  }

  // ---- reading --------------------------------------------------------------

  function Parse(data: Bytes): Result<seq<RawFrame>, CorruptLog> {
    if |data| < 4 then
      if data == [] then Ok([]) else Err(TrailingBytes)
    else
      var len := FromLe32(data[..4]);
      if len < 16 || 4 + len > |data| then Err(TruncatedFrame)
      else
        match Parse(data[4 + len..])
        case Err(e) => Err(e)
        case Ok(rest) => Ok([RawFrame(data[4..20], data[20..4 + len])] + rest)
  }

  lemma PrependNothing(r: Result<seq<RawFrame>, CorruptLog>)
    ensures Prepend([], r) == r
  {
    if r.Ok? {
      assert [] + r.value == r.value;
    }
  }

  function Prepend(front: seq<RawFrame>, rest: Result<seq<RawFrame>, CorruptLog>): Result<seq<RawFrame>, CorruptLog> {
    match rest
    case Err(e) => Err(e)
    case Ok(fs) => Ok(front + fs)
  }

  lemma PrependTwice(a: seq<RawFrame>, b: seq<RawFrame>, r: Result<seq<RawFrame>, CorruptLog>)
    ensures Prepend(a, Prepend(b, r)) == Prepend(a + b, r)
  {
    if r.Ok? {
      assert a + (b + r.value) == a + b + r.value;
    }
  }

  /** One turn of the loop: the frame at an offset, and what is left after it. */
  lemma ParseAt(data: Bytes, off: nat)
    requires off + 4 <= |data|
    ensures var len := FromLe32(data[off..off + 4]);
            Parse(data[off..]) ==
            if len < 16 || off + 4 + len > |data| then Err(TruncatedFrame)
            else Prepend([RawFrame(data[off + 4..off + 20], data[off + 20..off + 4 + len])],
                         Parse(data[off + 4 + len..]))
  {
    var rest, len := data[off..], FromLe32(data[off..off + 4]);
    assert rest[..4] == data[off..off + 4];
    if len >= 16 && off + 4 + len <= |data| {
      assert rest[4..20] == data[off + 4..off + 20];
      assert rest[20..4 + len] == data[off + 20..off + 4 + len];
      assert rest[4 + len..] == data[off + 4 + len..];
    }
  }

  /** `out` are the frames before the offset. */
  ghost predicate ReadSoFar(data: Bytes, off: nat, out: seq<RawFrame>) {
    off <= |data| && Parse(data) == Prepend(out, Parse(data[off..]))
  }

  lemma NothingRead(data: Bytes)
    ensures ReadSoFar(data, 0, [])
  {
    assert data[0..] == data;
    PrependNothing(Parse(data));
  }

  /** A turn of the loop that finds no whole frame. */
  lemma BadTurn(data: Bytes, off: nat, out: seq<RawFrame>)
    requires ReadSoFar(data, off, out) && off + 4 <= |data|
    requires var len := FromLe32(data[off..off + 4]); len < 16 || off + 4 + len > |data|
    ensures Parse(data) == Err(TruncatedFrame)
  {
    ParseAt(data, off);
  }

  /** A turn of the loop that reads one more frame. */
  lemma GoodTurn(data: Bytes, off: nat, out: seq<RawFrame>, len: nat)
    requires ReadSoFar(data, off, out) && off + 4 <= |data| && len == FromLe32(data[off..off + 4])
    requires len >= 16 && off + 4 + len <= |data|
    ensures ReadSoFar(data, off + 4 + len,
                      out + [RawFrame(data[off + 4..off + 20], data[off + 20..off + 4 + len])])
  {
    ParseAt(data, off);
    PrependTwice(out, [RawFrame(data[off + 4..off + 20], data[off + 20..off + 4 + len])], Parse(data[off + 4 + len..]));
  }

  /** What is left when no length fits any more. */
  lemma LastTurn(data: Bytes, off: nat, out: seq<RawFrame>)
    requires ReadSoFar(data, off, out) && |data| < off + 4
    ensures Parse(data) == if off == |data| then Ok(out) else Err(TrailingBytes)
  {
    assert out + [] == out;
  }

  /** Splits raw log bytes into frames without decrypting. */
  method ParseFrames(data: Bytes) returns (r: Result<seq<RawFrame>, CorruptLog>)
    ensures r == Parse(data)
  {
    var out: seq<RawFrame> := [];
    var off := 0;
    NothingRead(data);
    while off + 4 <= |data|
      invariant ReadSoFar(data, off, out)
    {
      var len := FromLe32(data[off..off + 4]);
      off := off + 4;
      if len < 16 || off + len > |data| {
        BadTurn(data, off - 4, out);
        return Err(TruncatedFrame);
      }
      GoodTurn(data, off - 4, out, len);
      out := out + [RawFrame(data[off..off + 16], data[off + 16..off + len])];
      off := off + len;
    }
    LastTurn(data, off, out);
    if off != |data| {
      return Err(TrailingBytes);
    }
    return Ok(out);
  }

  // ---- round trips ----------------------------------------------------------

  lemma Le32RoundTrip(n: nat)
    requires n < TWO_32
    ensures FromLe32(Le32(n)) == n
  {
    var a, b, c := n / 0x100, n / 0x1_0000, n / 0x100_0000;
    assert a / 0x100 == b && b / 0x100 == c;
    assert n == 0x100 * a + n % 256 && a == 0x100 * b + a % 256 && b == 0x100 * c + b % 256;
    assert c % 256 == c;
  }

  lemma LowByte(low: Byte, high: nat)
    ensures (low as int + 0x100 * high) % 256 == low && (low as int + 0x100 * high) / 0x100 == high
  {
  }

  lemma Le32Unique(b: Bytes)
    requires |b| == 4
    ensures FromLe32(b) < TWO_32 && Le32(FromLe32(b)) == b
  {
    var n := FromLe32(b);
    var hi2: nat := b[2] as int + 0x100 * (b[3] as int);
    var hi1: nat := b[1] as int + 0x100 * hi2;
    LowByte(b[0], hi1);
    LowByte(b[1], hi2);
    LowByte(b[2], b[3] as int);
    assert n == b[0] as int + 0x100 * hi1;
    assert n / 0x1_0000 == hi1 / 0x100 && n / 0x100_0000 == hi2 / 0x100;
  }

  /** Reading a written frame gives it back, followed by whatever the rest parses to. */
  lemma ParseFrameThenRest(f: RawFrame, rest: Bytes)
    requires Fits(f)
    ensures Parse(FrameBytes(f) + rest) == Prepend([f], Parse(rest))
  {
    var data, len := FrameBytes(f) + rest, 16 + |f.blob|;
    assert data[..4] == Le32(len);
    Le32RoundTrip(len);
    assert data[4..20] == f.id && data[20..4 + len] == f.blob && data[4 + len..] == rest;
  }

  /** Parsing the concatenation of written frames returns exactly those frames. */
  lemma {:induction false} ParseInvertsWrite(fs: seq<RawFrame>)
    requires AllFit(fs)
    ensures Parse(LogBytes(fs)) == Ok(fs)
  {
    if fs != [] {
      assert fs[0] in fs && forall f | f in fs[1..] :: f in fs;
      ParseInvertsWrite(fs[1..]);
      ParseFrameThenRest(fs[0], LogBytes(fs[1..]));
      assert [fs[0]] + fs[1..] == fs;
    }
  }

  /** Every accepted byte string is the writing of the frames read from it. */
  lemma {:induction false} WriteInvertsParse(data: Bytes)
    requires Parse(data).Ok?
    ensures AllFit(Parse(data).value) && LogBytes(Parse(data).value) == data
    decreases |data|
  {
    if |data| >= 4 {
      var len := FromLe32(data[..4]);
      WriteInvertsParse(data[4 + len..]);
      var f := RawFrame(data[4..20], data[20..4 + len]);
      var rest := Parse(data[4 + len..]).value;
      FirstFrame(data);
      LogBytesCons(f, rest);
    }
  }

  lemma FirstFrame(data: Bytes)
    requires |data| >= 4
    requires var len := FromLe32(data[..4]); len >= 16 && 4 + len <= |data|
    ensures var len := FromLe32(data[..4]); var f := RawFrame(data[4..20], data[20..4 + len]);
            Fits(f) && data == FrameBytes(f) + data[4 + len..]
  {
    var len := FromLe32(data[..4]);
    Le32Unique(data[..4]);
    assert data[..4 + len] == data[..4] + data[4..20] + data[20..4 + len];
  }

  lemma LogBytesCons(f: RawFrame, rest: seq<RawFrame>)
    ensures LogBytes([f] + rest) == FrameBytes(f) + LogBytes(rest)
  {
    assert ([f] + rest)[1..] == rest && ([f] + rest)[0] == f;
  }

  lemma {:induction false} LogBytesSplit(fs: seq<RawFrame>, gs: seq<RawFrame>)
    ensures LogBytes(fs + gs) == LogBytes(fs) + LogBytes(gs)
  {
    if fs == [] {
      assert fs + gs == gs;
    } else {
      LogBytesSplit(fs[1..], gs);
      assert fs + gs == [fs[0]] + (fs[1..] + gs);
      LogBytesCons(fs[0], fs[1..] + gs);
      Regroup(FrameBytes(fs[0]), LogBytes(fs[1..]), LogBytes(gs));
    }
  }

  lemma Regroup(a: Bytes, b: Bytes, c: Bytes)
    ensures a + (b + c) == a + b + c
  {
  }

  /** Appending one frame keeps every earlier frame and adds the new one. */
  lemma AppendKeepsFrames(data: Bytes, f: RawFrame)
    requires Parse(data).Ok? && Fits(f)
    ensures Parse(data + FrameBytes(f)) == Ok(Parse(data).value + [f])
  {
    var fs := Parse(data).value;
    WriteInvertsParse(data);
    LogBytesSplit(fs, [f]);
    assert LogBytes([f]) == FrameBytes(f) + LogBytes([]) == FrameBytes(f);
    ParseInvertsWrite(fs + [f]);
  }

  lemma ReadBackFits(f: RawFrame)
    requires Parse(FrameBytes(f)) == Ok([f])
    ensures Fits(f)
  {
    WriteInvertsParse(FrameBytes(f));
    assert f in [f];
  }

  /** A single written frame reads back exactly when its length fits 32 bits. */
  lemma FrameReadsBackIff(f: RawFrame)
    ensures Parse(FrameBytes(f)) == Ok([f]) <==> Fits(f)
  {
    if Fits(f) {
      ParseFrameThenRest(f, []);
      assert FrameBytes(f) + [] == FrameBytes(f);
      assert [f] + [] == [f];
    } else if Parse(FrameBytes(f)) == Ok([f]) {
      ReadBackFits(f);
    }
  }

  lemma CutOnBoundary(fs: seq<RawFrame>, k: nat)
    requires AllFit(fs) && k <= |fs|
    ensures LogBytes(fs[..k]) <= LogBytes(fs) && Parse(LogBytes(fs[..k])) == Ok(fs[..k])
  {
    assert fs == fs[..k] + fs[k..];
    LogBytesSplit(fs[..k], fs[k..]);
    ParseInvertsWrite(fs[..k]);
  }

  lemma AcceptedCut(fs: seq<RawFrame>, cut: nat) returns (k: nat)
    requires AllFit(fs) && cut <= |LogBytes(fs)| && Parse(LogBytes(fs)[..cut]).Ok?
    ensures k <= |fs| && |LogBytes(fs[..k])| == cut
  {
    var data := LogBytes(fs);
    var gs := Parse(data[..cut]).value;
    WriteInvertsParse(data[..cut]);
    assert data == data[..cut] + data[cut..];
    PrefixOfLog(gs, data[cut..], fs);
    assert fs[..|gs|] == gs;
    k := |gs|;
  }

  /** A cut of a valid log is accepted exactly when it falls on a frame boundary, and yields the frames before it. */
  lemma TruncationAcceptedIff(fs: seq<RawFrame>, cut: nat)
    requires AllFit(fs) && cut <= |LogBytes(fs)|
    ensures Parse(LogBytes(fs)[..cut]).Ok? <==> exists k :: 0 <= k <= |fs| && |LogBytes(fs[..k])| == cut
    ensures forall k | 0 <= k <= |fs| && |LogBytes(fs[..k])| == cut :: Parse(LogBytes(fs)[..cut]) == Ok(fs[..k])
  {
    if Parse(LogBytes(fs)[..cut]).Ok? {
      var k := AcceptedCut(fs, cut);
    }
    forall k | 0 <= k <= |fs| && |LogBytes(fs[..k])| == cut
      ensures Parse(LogBytes(fs)[..cut]) == Ok(fs[..k])
    {
      CutOnBoundary(fs, k);
      assert LogBytes(fs)[..cut] == LogBytes(fs[..k]);
    }
  }

  lemma {:induction false} PrefixOfLog(gs: seq<RawFrame>, tail: Bytes, fs: seq<RawFrame>)
    requires AllFit(fs) && AllFit(gs) && LogBytes(fs) == LogBytes(gs) + tail
    ensures gs <= fs
  {
    if gs != [] {
      var rest := LogBytes(gs[1..]) + tail;
      assert LogBytes(gs) + tail == FrameBytes(gs[0]) + rest;
      assert gs[0] in gs && forall g | g in gs[1..] :: g in gs;
      ParseFrameThenRest(gs[0], rest);
      ParseInvertsWrite(fs);
      assert fs != [] && fs[0] == gs[0] by {
        assert Prepend([gs[0]], Parse(rest)) == Ok(fs);
      }
      assert forall f | f in fs[1..] :: f in fs;
      assert LogBytes(fs[1..]) == rest by {
        assert LogBytes(fs) == FrameBytes(fs[0]) + LogBytes(fs[1..]);
        assert LogBytes(fs)[|FrameBytes(fs[0])|..] == rest;
      }
      PrefixOfLog(gs[1..], tail, fs[1..]);
      PrefixCons(gs, fs);
    }
  }

  lemma PrefixCons(gs: seq<RawFrame>, fs: seq<RawFrame>)
    requires gs != [] && fs != [] && gs[0] == fs[0] && gs[1..] <= fs[1..]
    ensures gs <= fs
  {
    forall i | 0 <= i < |gs| ensures gs[i] == fs[i] {
      if i > 0 {
        assert gs[1..][i - 1] == fs[1..][i - 1];
      }
    }
  }

  // ---- key lists ------------------------------------------------------------

  type KeyBytes = s: Bytes | |s| == 32 witness seq(32, _ => 0)

  datatype BadKeyList = MalformedKeyList

  function Concatenated(keys: seq<KeyBytes>): Bytes {
    if keys == [] then [] else Concatenated(keys[..|keys| - 1]) + keys[|keys| - 1]
  }

  /** Splits a concatenated key list into 32-byte keys; only a positive multiple of 32 is a key list. */
  method SplitKeyList(list: Bytes) returns (r: Result<seq<KeyBytes>, BadKeyList>)
    ensures r.Ok? <==> list != [] && |list| % 32 == 0
    ensures r.Ok? ==> r.value != [] && Concatenated(r.value) == list
  {
    if list == [] || |list| % 32 != 0 {
      return Err(MalformedKeyList);
    }
    var keys: seq<KeyBytes> := [];
    var i := 0;
    while i < |list|
      invariant 0 <= i <= |list| && i % 32 == 0
      invariant i > 0 ==> keys != []
      invariant Concatenated(keys) == list[..i]
    {
      var key: KeyBytes := list[i..i + 32];
      assert (keys + [key])[..|keys|] == keys;
      assert list[..i + 32] == list[..i] + key;
      keys := keys + [key];
      i := i + 32;
    }
    assert list[..i] == list;
    return Ok(keys);
  }

  lemma {:induction false} ConcatenatedLength(keys: seq<KeyBytes>)
    ensures |Concatenated(keys)| == 32 * |keys|
  {
    if keys != [] {
      ConcatenatedLength(keys[..|keys| - 1]);
    }
  }

  /** A key list is determined by its bytes, so splitting what a device wrapped gives its keys back. */
  lemma {:induction false} KeyListDetermined(ks: seq<KeyBytes>, js: seq<KeyBytes>)
    requires Concatenated(ks) == Concatenated(js)
    ensures ks == js
  {
    ConcatenatedLength(ks);
    ConcatenatedLength(js);
    if ks != [] {
      var n := |ks| - 1;
      ConcatenatedLength(ks[..n]);
      ConcatenatedLength(js[..n]);
      var whole := Concatenated(ks);
      assert whole[..32 * n] == Concatenated(ks[..n]) == Concatenated(js[..n]);
      assert whole[32 * n..] == ks[n] == js[n];
      KeyListDetermined(ks[..n], js[..n]);
      assert ks == ks[..n] + [ks[n]] && js == js[..n] + [js[n]];
    }
  }
}
