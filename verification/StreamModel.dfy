/**
 * The encrypted blob stream: chunks sealed under streamID || counter, with the counter and the last flag in their
 * associated data, written as length-prefixed frames.
 */
module StreamModel {
  import opened Types
  import opened Bytes

  const KEY_SIZE := 32
  const STREAM_ID_SIZE := 16
  const NONCE_SIZE := 24
  const TAG_SIZE := 16
  const COUNTER_LIMIT := 0x1_0000_0000_0000_0000
  const MAX_FRAME_SIZE := 16 * 1024 * 1024
  const CHUNK_SIZE := 256 * 1024
  const UPLOAD_CHUNK_SIZE := 64 * 1024

  // ----- an ideal AEAD over bytes -----

  /** One sealing that took place. Nothing else ever opens. */
  datatype Sealing = Sealing(key: Bytes, nonce: Bytes, ad: Bytes, text: Bytes, cipher: Bytes)

  type Ledger = seq<Sealing>

  predicate Matches(r: Sealing, key: Bytes, nonce: Bytes, ad: Bytes, cipher: Bytes) {
    r.key == key && r.nonce == nonce && r.ad == ad && r.cipher == cipher
  }

  function OpenSealed(ledger: Ledger, key: Bytes, nonce: Bytes, ad: Bytes, cipher: Bytes): (text: Option<Bytes>)
    ensures text.Some? ==> exists r :: r in ledger && Matches(r, key, nonce, ad, cipher) && r.text == text.value
    ensures text.None? ==> forall r :: r in ledger ==> !Matches(r, key, nonce, ad, cipher)
  {
    if ledger == [] then None
    else if Matches(ledger[0], key, nonce, ad, cipher) then Some(ledger[0].text)
    else OpenSealed(ledger[1..], key, nonce, ad, cipher)
  }

  // ----- chunks -----

  function ChunkNonce(id: Bytes, counter: nat): Bytes {
    id + BigEndian(counter, 8)
  }

  function ChunkAD(base: Bytes, counter: nat, last: bool): Bytes {
    base + BigEndian(counter, 8) + [if last then 1 else 0]
  }

  function NextCounter(counter: nat): nat {
    (counter + 1) % COUNTER_LIMIT
  }

  /** A stream as it was sealed; complete says that its last chunk carries the last flag. */
  datatype Stream = Stream(id: Bytes, chunks: seq<Bytes>, ciphers: seq<Bytes>, complete: bool)

  function Record(key: Bytes, ad: Bytes, s: Stream, i: nat): Sealing
    requires i < |s.chunks| == |s.ciphers|
  {
    Sealing(key, ChunkNonce(s.id, i), ChunkAD(ad, i, s.complete && i == |s.chunks| - 1), s.chunks[i], s.ciphers[i])
  }

  // ----- frames -----

  function Frame(data: Bytes): Bytes {
    BigEndian(|data|, 4) + data
  }

  function Frames(datas: seq<Bytes>): Bytes {
    if datas == [] then [] else Frame(datas[0]) + Frames(datas[1..])
  }

  function Encoding(s: Stream): Bytes {
    Frame(s.id) + Frames(s.ciphers)
  }

  /** End stands for io.EOF, also when it comes wrapped after a bare length; Broken for every other error. */
  datatype FrameRead = Got(data: Bytes, rest: Bytes) | End | Broken

  /** b is all that is left to read; cut says that the connection fails after it instead of ending. */
  function ReadFrame(b: Bytes, cut: bool): (r: FrameRead)
    ensures r.Got? ==> |r.rest| < |b|
  {
    if |b| < 4 then if b == [] && !cut then End else Broken
    else
      var size := FromBigEndian(b[..4]);
      if size > MAX_FRAME_SIZE then Broken
      else if size <= |b| - 4 then Got(b[4..4 + size], b[4 + size..])
      else if |b| == 4 && !cut then End
      else Broken
  }

  // ----- decoding -----

  /** What was written, and whether decoding ended well. */
  datatype Decoded = Decoded(out: Bytes, ok: bool)

  /** One chunk is held back until the next read tells whether it is the last. */
  function DecodeFrom(
      ledger: Ledger, key: Bytes, ad: Bytes, id: Bytes, counter: nat, pending: Bytes, b: Bytes, cut: bool)
    : Decoded
    decreases |b|
  {
    var next := ReadFrame(b, cut);
    if next.Broken? then Decoded([], false)
    else
      var text := OpenSealed(ledger, key, ChunkNonce(id, counter), ChunkAD(ad, counter, next.End?), pending);
      if text.None? then Decoded([], false)
      else if next.End? then Decoded(text.value, true)
      else
        var tail := DecodeFrom(ledger, key, ad, id, NextCounter(counter), next.data, next.rest, cut);
        Decoded(text.value + tail.out, tail.ok)
  }

  function Decode(ledger: Ledger, key: Bytes, ad: Bytes, b: Bytes, cut: bool): Decoded {
    var head := ReadFrame(b, cut);
    if !head.Got? || |key| != KEY_SIZE || |head.data| != STREAM_ID_SIZE then Decoded([], false)
    else
      var first := ReadFrame(head.rest, cut);
      if !first.Got? then Decoded([], false)
      else DecodeFrom(ledger, key, ad, head.data, 0, first.data, first.rest, cut)
  }

  // ----- what a reader delivers -----

  /** One result of Read: data may come together with io.EOF, and may be empty without it. */
  datatype Ending = More | Eof | Failure
  datatype Piece = Piece(data: Bytes, ending: Ending)

  /** The chunks that the encoder makes of a schedule, one per read, and whether it reaches the end of the file. */
  datatype Plan = Plan(chunks: seq<Bytes>, complete: bool)

  function PlanOf(script: seq<Piece>): Plan
    decreases |script|
  {
    if script == [] then Plan([[]], true)
    else match script[0].ending
    case Failure => Plan([], false)
    case Eof => Plan([script[0].data], true)
    case More => var tail := PlanOf(script[1..]); Plan([script[0].data] + tail.chunks, tail.complete)
  }

  /** The file: everything up to io.EOF, or None if reading it fails. */
  function FileOf(script: seq<Piece>): Option<Bytes>
    decreases |script|
  {
    if script == [] then Some([])
    else match script[0].ending
    case Failure => None
    case Eof => Some(script[0].data)
    case More =>
      match FileOf(script[1..])
      case None => None
      case Some(tail) => Some(script[0].data + tail)
  }

  /** A read never returns more than the buffer holds. */
  predicate WithinBuffer(script: seq<Piece>, size: nat) {
    forall i :: 0 <= i < |script| ==> |script[i].data| <= size
  }
}
