/** The stream encrypter and decrypter, the frame reader and writer, and the two codec loops. */
module StreamCodec {
  import opened Types
  import opened Bytes
  import opened BlobTransport
  import opened StreamModel
  import opened StreamIntegrity
  import opened StreamLaws

  /** The cipher: it remembers what it sealed and opens nothing else. */
  class Aead {
    var ledger: Ledger

    constructor ()
      ensures ledger == []
    {
      ledger := [];
    }

    /** Which ciphertext comes out is left open; only its length is known. */
    method Seal(key: Bytes, nonce: Bytes, ad: Bytes, text: Bytes) returns (cipher: Bytes)
      modifies this
      ensures |cipher| == |text| + TAG_SIZE
      ensures ledger == old(ledger) + [Sealing(key, nonce, ad, text, cipher)]
    {
      var noise: Bytes := *;
      cipher := seq(|text| + TAG_SIZE, i requires 0 <= i => if i < |noise| then noise[i] else 0);
      ledger := ledger + [Sealing(key, nonce, ad, text, cipher)];
    }

    method Open(key: Bytes, nonce: Bytes, ad: Bytes, cipher: Bytes) returns (text: Option<Bytes>)
      ensures text == OpenSealed(ledger, key, nonce, ad, cipher)
    {
      text := OpenSealed(ledger, key, nonce, ad, cipher);
    }
  }

  class StreamEncrypter {
    const aead: Aead
    const key: Bytes
    const baseAD: Bytes
    const streamID: Bytes
    var counter: nat

    /** The identifier is drawn at random by the caller's environment. */
    constructor (aead: Aead, key: Bytes, baseAD: Bytes, streamID: Bytes)
      requires |key| == KEY_SIZE && |streamID| == STREAM_ID_SIZE
      ensures this.aead == aead && this.key == key && this.baseAD == baseAD && this.streamID == streamID
      ensures counter == 0
    {
      this.aead, this.key, this.baseAD, this.streamID, counter := aead, key, baseAD, streamID, 0;
    }

    method SealChunk(plaintext: Bytes, last: bool) returns (ciphertext: Bytes)
      modifies this, aead
      ensures counter == NextCounter(old(counter))
      ensures |ciphertext| == |plaintext| + TAG_SIZE
      ensures aead.ledger == old(aead.ledger) + [Sealing(key, ChunkNonce(streamID, old(counter)),
                                                         ChunkAD(baseAD, old(counter), last), plaintext, ciphertext)]
    {
      ciphertext := aead.Seal(key, ChunkNonce(streamID, counter), ChunkAD(baseAD, counter, last), plaintext);
      counter := NextCounter(counter);
    }
  }

  class StreamDecrypter {
    const aead: Aead
    const key: Bytes
    const baseAD: Bytes
    const streamID: Bytes
    var counter: nat
    var done: bool

    constructor (aead: Aead, key: Bytes, baseAD: Bytes, streamID: Bytes)
      requires |key| == KEY_SIZE && |streamID| == STREAM_ID_SIZE
      ensures this.aead == aead && this.key == key && this.baseAD == baseAD && this.streamID == streamID
      ensures counter == 0 && !done
    {
      this.aead, this.key, this.baseAD, this.streamID, counter, done := aead, key, baseAD, streamID, 0, false;
    }

    /** After the last chunk every further chunk is an error; a chunk that does not open leaves the state alone. */
    method OpenChunk(ciphertext: Bytes, last: bool) returns (plaintext: Option<Bytes>)
      modifies this
      ensures plaintext == if old(done) then None
                           else OpenSealed(aead.ledger, key, ChunkNonce(streamID, old(counter)),
                                           ChunkAD(baseAD, old(counter), last), ciphertext)
      ensures counter == if plaintext.Some? then NextCounter(old(counter)) else old(counter)
      ensures done == (old(done) || (plaintext.Some? && last))
    {
      if done { return None; }
      plaintext := aead.Open(key, ChunkNonce(streamID, counter), ChunkAD(baseAD, counter, last), ciphertext);
      if plaintext.None? { return; }
      counter := NextCounter(counter);
      if last { done := true; }
    }
  }

  // ----- frames -----

  /** io.ReadFull: all of p, or io.EOF if there was nothing at all, or another error. */
  method ReadFull(r: BlobStreamReader, p: array<byte>) returns (err: ReadError)
    modifies r, p
    ensures var all := old(r.Remaining());
            if p.Length <= |all| then err == NoError && p[..] == all[..p.Length] && r.Remaining() == all[p.Length..]
            else err == if all == [] && !r.cut then IsEof else OtherError
  {
    var n := 0;
    err := NoError;
    while n < p.Length && err == NoError
      invariant n <= p.Length
      invariant old(r.Remaining()) == p[..n] + r.Remaining()
      invariant err != NoError ==> r.Remaining() == [] && n < p.Length && err == if r.cut then OtherError else IsEof
      decreases p.Length - n, err == NoError
    {
      var nn;
      nn, err := r.Read(p, n);
      assert p[..n + nn] == p[..n] + p[n..n + nn];
      AppendAssociates(p[..n], p[n..n + nn], r.Remaining());
      n := n + nn;
    }
    if n >= p.Length {
      assert p[..n] == p[..];
      err := NoError;
    } else if n > 0 && err == IsEof {
      err := OtherError;
    }
  }

  method ReadFrame(r: BlobStreamReader) returns (data: Bytes, err: ReadError)
    modifies r
    ensures match StreamModel.ReadFrame(old(r.Remaining()), r.cut)
            case Got(d, rest) => err == NoError && data == d && r.Remaining() == rest
            case End => err == IsEof
            case Broken => err == OtherError
  {
    ghost var all := r.Remaining();
    data := [];
    var header := new byte[4];
    err := ReadFull(r, header);
    if err != NoError { return; }
    var size := FromBigEndian(header[..]);
    assert header[..] == all[..4];
    if size > MAX_FRAME_SIZE { return [], OtherError; }
    var body := new byte[size];
    err := ReadFull(r, body);
    if err != NoError { return; }
    data := body[..];
    assert all[4..][..size] == all[4..4 + size] && all[4..][size..] == all[4 + size..];
  }

  method WriteFrame(w: Sink, data: Bytes)
    modifies w
    ensures w.written == old(w.written) + Frame(data)
  {
    w.Write(BigEndian(|data|, 4));
    w.Write(data);
  }

  // ----- the codec -----

  lemma {:induction false} FramesAppend(datas: seq<Bytes>, last: Bytes)
    ensures Frames(datas + [last]) == Frames(datas) + Frame(last)
    decreases |datas|
  {
    if datas == [] {
      assert datas + [last] == [last];
      assert Frames([last]) == Frame(last) + Frames([]);
    } else {
      assert (datas + [last])[1..] == datas[1..] + [last];
      FramesAppend(datas[1..], last);
    }
  }

  /** A stream with one more chunk. */
  function Grown(s: Stream, chunk: Bytes, cipher: Bytes, last: bool): Stream {
    Stream(s.id, s.chunks + [chunk], s.ciphers + [cipher], last)
  }

  lemma RecordsAppend(key: Bytes, ad: Bytes, s: Stream, chunk: Bytes, cipher: Bytes, last: bool)
    requires |s.chunks| == |s.ciphers| && !s.complete
    ensures Records(key, ad, Grown(s, chunk, cipher, last))
         == Records(key, ad, s)
            + [Sealing(key, ChunkNonce(s.id, |s.chunks|), ChunkAD(ad, |s.chunks|, last), chunk, cipher)]
  {
  }

  lemma EncodingAppend(before: Bytes, s: Stream, chunk: Bytes, cipher: Bytes, last: bool)
    ensures before + Encoding(Grown(s, chunk, cipher, last)) == before + Encoding(s) + Frame(cipher)
  {
    FramesAppend(s.ciphers, cipher);
  }

  /** The plan is: these chunks, and then what the piece that was read ahead and the rest of the schedule give. */
  ghost predicate Ahead(plan: Plan, chunks: seq<Bytes>, pending: Bytes, ending: Ending, script: seq<Piece>) {
    var rest := PlanOf([Piece(pending, ending)] + script);
    plan == Plan(chunks + rest.chunks, rest.complete)
  }

  /** The same with nothing read ahead. */
  ghost predicate Follows(plan: Plan, chunks: seq<Bytes>, script: seq<Piece>) {
    plan == Plan(chunks + PlanOf(script).chunks, PlanOf(script).complete)
  }

  lemma AheadAppends(plan: Plan, chunks: seq<Bytes>, pending: Bytes, script: seq<Piece>)
    requires Ahead(plan, chunks, pending, More, script)
    ensures Follows(plan, chunks + [pending], script)
  {
    assert ([Piece(pending, More)] + script)[1..] == script;
    AppendAssociates(chunks, [pending], PlanOf(script).chunks);
  }

  lemma AheadStops(plan: Plan, chunks: seq<Bytes>, pending: Bytes, ending: Ending, script: seq<Piece>)
    requires Ahead(plan, chunks, pending, ending, script)
    ensures ending == Failure ==> plan == Plan(chunks, false)
    ensures ending == Eof ==> plan == Plan(chunks + [pending], true)
  {
  }

  lemma FollowsReads(plan: Plan, chunks: seq<Bytes>, script: seq<Piece>)
    requires Follows(plan, chunks, script)
    ensures if script == [] then Ahead(plan, chunks, [], Eof, [])
            else Ahead(plan, chunks, script[0].data, script[0].ending, script[1..])
  {
    if script != [] { assert [script[0]] + script[1..] == script; }
  }

  ghost predicate Encoded(s: Stream, w: Bytes, ledger: Ledger, key: Bytes, ad: Bytes, w0: Bytes, ledger0: Ledger) {
    && |s.ciphers| == |s.chunks|
    && (forall i :: 0 <= i < |s.ciphers| ==> |s.ciphers[i]| == |s.chunks[i]| + TAG_SIZE)
    && w == w0 + Encoding(s)
    && ledger == ledger0 + Records(key, ad, s)
  }

  lemma EncodedStarts(s: Stream, w0: Bytes, ledger: Ledger, key: Bytes, ad: Bytes)
    requires s.chunks == [] && s.ciphers == []
    ensures Encoded(s, w0 + Frame(s.id), ledger, key, ad, w0, ledger)
  {
    assert Encoding(s) == Frame(s.id) && Records(key, ad, s) == [];
  }

  lemma EncodedGrows(s: Stream, w: Bytes, ledger: Ledger, key: Bytes, ad: Bytes, w0: Bytes, ledger0: Ledger,
      chunk: Bytes, cipher: Bytes, last: bool)
    requires Encoded(s, w, ledger, key, ad, w0, ledger0) && !s.complete
    requires |cipher| == |chunk| + TAG_SIZE
    ensures Encoded(Grown(s, chunk, cipher, last), w + Frame(cipher),
                    ledger + [Sealing(key, ChunkNonce(s.id, |s.chunks|), ChunkAD(ad, |s.chunks|, last), chunk, cipher)],
                    key, ad, w0, ledger0)
  {
    EncodingAppend(w0, s, chunk, cipher, last);
    RecordsAppend(key, ad, s, chunk, cipher, last);
  }

  /** s is the stream so far; the chunk is added to it. */
  method SealAndWrite(
      enc: StreamEncrypter, w: Sink, pending: Bytes, last: bool,
      ghost s: Stream, ghost w0: Bytes, ghost ledger0: Ledger)
    returns (ghost s': Stream)
    requires s.id == enc.streamID && !s.complete && |s.chunks| == enc.counter
    requires Encoded(s, w.written, enc.aead.ledger, enc.key, enc.baseAD, w0, ledger0)
    modifies enc, enc.aead, w
    ensures s'.id == s.id && s'.chunks == s.chunks + [pending] && s'.complete == last
    ensures Encoded(s', w.written, enc.aead.ledger, enc.key, enc.baseAD, w0, ledger0)
    ensures enc.counter == NextCounter(old(enc.counter))
  {
    var ct := enc.SealChunk(pending, last);
    WriteFrame(w, ct);
    EncodedGrows(s, old(w.written), old(enc.aead.ledger), enc.key, enc.baseAD, w0, ledger0, pending, ct, last);
    s' := Grown(s, pending, ct, last);
  }

  /**
   * One piece is always read ahead, because the last chunk is flagged: a chunk is sealed only once it is known whether
   * the file goes on behind it. The buffer is reused, so what is pending has to be a copy.
   */
  method EncodeStream(enc: StreamEncrypter, data: FileReader, w: Sink) returns (ok: bool, ghost s: Stream)
    requires enc.counter == 0
    requires WithinBuffer(data.script, CHUNK_SIZE) && |data.script| < COUNTER_LIMIT
    modifies enc, enc.aead, data, w
    ensures s.id == enc.streamID
    ensures Encoded(s, w.written, enc.aead.ledger, enc.key, enc.baseAD, old(w.written), old(enc.aead.ledger))
    ensures Plan(s.chunks, s.complete) == PlanOf(old(data.script)) && ok == s.complete
  {
    ghost var plan := PlanOf(data.script);
    assert Follows(plan, [], data.script);
    FollowsReads(plan, [], data.script);
    WriteFrame(w, enc.streamID);
    s := Stream(enc.streamID, [], [], false);
    EncodedStarts(s, old(w.written), old(enc.aead.ledger), enc.key, enc.baseAD);
    var buf := new byte[CHUNK_SIZE];
    var n, pendingErr := data.Read(buf);
    var pending := buf[..n];
    while true
      invariant fresh(buf) && buf.Length == CHUNK_SIZE && WithinBuffer(data.script, CHUNK_SIZE)
      invariant Ahead(plan, s.chunks, pending, pendingErr, data.script)
      invariant s.id == enc.streamID && !s.complete && |s.chunks| == enc.counter
      invariant enc.counter + |data.script| + (if pendingErr == More then 1 else 0) <= |old(data.script)|
      invariant Encoded(s, w.written, enc.aead.ledger, enc.key, enc.baseAD, old(w.written), old(enc.aead.ledger))
      decreases |data.script|, pendingErr.More?
    {
      AheadStops(plan, s.chunks, pending, pendingErr, data.script);
      if pendingErr == Failure {
        return false, s;
      }
      ghost var chunks := s.chunks + [pending];
      var nextN, nextErr := 0, Eof;
      if pendingErr != Eof {
        AheadAppends(plan, s.chunks, pending, data.script);
        FollowsReads(plan, chunks, data.script);
        nextN, nextErr := data.Read(buf);
        NextCounterCounts(enc.counter);
      }
      var last := pendingErr == Eof;
      s := SealAndWrite(enc, w, pending, last, s, old(w.written), old(enc.aead.ledger));
      if last {
        return true, s;
      }
      pending := buf[..nextN];
      pendingErr := nextErr;
    }
  }

  /** Decoding from here gives the rest of what the whole gives. */
  ghost predicate Goes(whole: Decoded, out: Bytes, d: Decoded) {
    whole == Decoded(out + d.out, d.ok)
  }

  lemma GoesOn(whole: Decoded, out: Bytes, text: Bytes, tail: Decoded)
    requires Goes(whole, out, Decoded(text + tail.out, tail.ok))
    ensures Goes(whole, out + text, tail)
  {
    AppendAssociates(out, text, tail.out);
  }

  /** One chunk is held back until the next frame, or the end, tells whether it is the last. */
  method DecodeStream(aead: Aead, key: Bytes, ad: Bytes, r: BlobStreamReader, w: Sink)
    returns (ok: bool, ghost out: Bytes)
    modifies r, w
    ensures w.written == old(w.written) + out
    ensures Decode(aead.ledger, key, ad, old(r.Remaining()), r.cut) == Decoded(out, ok)
  {
    ghost var whole := Decode(aead.ledger, key, ad, r.Remaining(), r.cut);
    out := [];
    var streamID, err := ReadFrame(r);
    if err != NoError { return false, out; }
    if |key| != KEY_SIZE || |streamID| != STREAM_ID_SIZE { return false, out; }
    var dec := new StreamDecrypter(aead, key, ad, streamID);
    var pending;
    pending, err := ReadFrame(r);
    if err != NoError { return false, out; }
    while true
      invariant fresh(dec)
      invariant dec.aead == aead && dec.key == key && dec.baseAD == ad && dec.streamID == streamID && !dec.done
      invariant w.written == old(w.written) + out
      invariant Goes(whole, out, DecodeFrom(aead.ledger, key, ad, streamID, dec.counter, pending, r.Remaining(), r.cut))
      decreases |r.Remaining()|
    {
      var next, nextErr := ReadFrame(r);
      var last := nextErr == IsEof;
      if nextErr != NoError && !last { return false, out; }
      ghost var counter := dec.counter;
      var pt := dec.OpenChunk(pending, last);
      if pt.None? { return false, out; }
      w.Write(pt.value);
      AppendAssociates(old(w.written), out, pt.value);
      if last { return true, out + pt.value; }
      GoesOn(whole, out, pt.value, DecodeFrom(aead.ledger, key, ad, streamID, dec.counter, next, r.Remaining(), r.cut));
      out := out + pt.value;
      pending := next;
    }
  }
}
