/** What decoding accepts, for every input whatsoever, and what it writes until it stops. */
module StreamLaws {
  import opened Types
  import opened Bytes
  import opened StreamModel

  // ----- the sealings that a receiver can meet -----

  ghost predicate StreamOk(s: Stream) {
    && |s.id| == STREAM_ID_SIZE
    && |s.chunks| == |s.ciphers| < COUNTER_LIMIT
    && (s.complete ==> s.chunks != [])
    && (forall i :: 0 <= i < |s.ciphers| ==> |s.ciphers[i]| <= MAX_FRAME_SIZE)
  }

  /** The record could be met while decoding under this context. */
  ghost predicate InContext(r: Sealing, key: Bytes, ad: Bytes) {
    r.key == key && |r.nonce| == NONCE_SIZE && |r.ad| == |ad| + 9 && r.ad[..|ad|] == ad
  }

  ghost predicate RecordOf(r: Sealing, key: Bytes, ad: Bytes, s: Stream) {
    |s.chunks| == |s.ciphers| && exists i :: 0 <= i < |s.chunks| && r == Record(key, ad, s, i)
  }

  /** Under this key and associated data exactly these streams were sealed, each under an identifier of its own. */
  ghost predicate Published(ledger: Ledger, key: Bytes, ad: Bytes, streams: map<Bytes, Stream>) {
    && (forall id :: id in streams ==> StreamOk(streams[id]) && streams[id].id == id)
    && (forall id, i :: id in streams && 0 <= i < |streams[id].chunks| ==> Record(key, ad, streams[id], i) in ledger)
    && (forall r :: r in ledger && InContext(r, key, ad) ==>
          r.nonce[..STREAM_ID_SIZE] in streams && RecordOf(r, key, ad, streams[r.nonce[..STREAM_ID_SIZE]]))
  }

  function Text(s: Stream): Bytes {
    Concat(s.chunks)
  }

  // ----- opening one chunk -----

  lemma ContextOf(key: Bytes, ad: Bytes, id: Bytes, counter: nat, last: bool, r: Sealing, cipher: Bytes)
    requires |id| == STREAM_ID_SIZE && Matches(r, key, ChunkNonce(id, counter), ChunkAD(ad, counter, last), cipher)
    ensures InContext(r, key, ad) && r.nonce[..STREAM_ID_SIZE] == id
  {
  }

  lemma SameNonceSamePlace(id: Bytes, m: nat, n: nat)
    requires ChunkNonce(id, m) == ChunkNonce(id, n) && m < COUNTER_LIMIT && n < COUNTER_LIMIT
    ensures m == n
  {
    Power256Values();
    assert ChunkNonce(id, m)[|id|..] == BigEndian(m, 8);
    assert ChunkNonce(id, n)[|id|..] == BigEndian(n, 8);
    BigEndianInjective(m, n, 8);
  }

  lemma SameADSameFlag(ad: Bytes, counter: nat, a: bool, b: bool)
    requires ChunkAD(ad, counter, a) == ChunkAD(ad, counter, b)
    ensures a == b
  {
    assert ChunkAD(ad, counter, a)[|ad| + 8] == if a then 1 else 0;
    assert ChunkAD(ad, counter, b)[|ad| + 8] == if b then 1 else 0;
  }

  /** A chunk opens exactly at its own place in its own stream, with the flag it was sealed with. */
  lemma OpensExactly(
      ledger: Ledger, key: Bytes, ad: Bytes, streams: map<Bytes, Stream>, id: Bytes, k: nat, last: bool, cipher: Bytes)
    requires Published(ledger, key, ad, streams) && |id| == STREAM_ID_SIZE && k < COUNTER_LIMIT
    ensures OpenSealed(ledger, key, ChunkNonce(id, k), ChunkAD(ad, k, last), cipher)
         == if id in streams && k < |streams[id].chunks| && streams[id].ciphers[k] == cipher
               && last == (streams[id].complete && k == |streams[id].chunks| - 1)
            then Some(streams[id].chunks[k]) else None
  {
    var nonce, chunkAD := ChunkNonce(id, k), ChunkAD(ad, k, last);
    var text := OpenSealed(ledger, key, nonce, chunkAD, cipher);
    if text.Some? {
      var r :| r in ledger && Matches(r, key, nonce, chunkAD, cipher) && r.text == text.value;
      ContextOf(key, ad, id, k, last, r, cipher);
      var s := streams[id];
      var i :| 0 <= i < |s.chunks| && r == Record(key, ad, s, i);
      SameNonceSamePlace(id, i, k);
      SameADSameFlag(ad, k, last, s.complete && k == |s.chunks| - 1);
    } else if id in streams && k < |streams[id].chunks| {
      assert Record(key, ad, streams[id], k) in ledger;
    }
  }

  // ----- reading frames -----

  lemma FrameReads(data: Bytes, rest: Bytes, cut: bool)
    requires |data| <= MAX_FRAME_SIZE
    ensures ReadFrame(Frame(data) + rest, cut) == Got(data, rest)
  {
    Power256Values();
    BigEndianRoundTrip(|data|, 4);
    var b := Frame(data) + rest;
    assert b[..4] == BigEndian(|data|, 4);
    assert b[4..4 + |data|] == data;
    assert b[4 + |data|..] == rest;
  }

  lemma {:induction false} FromBigEndianBound(b: Bytes)
    ensures FromBigEndian(b) < Power256(|b|)
    decreases |b|
  {
    if b != [] {
      FromBigEndianBound(b[..|b| - 1]);
    }
  }

  lemma {:induction false} ToBigEndian(b: Bytes)
    ensures BigEndian(FromBigEndian(b), |b|) == b
    decreases |b|
  {
    if b != [] {
      ToBigEndian(b[..|b| - 1]);
      assert b == b[..|b| - 1] + [b[|b| - 1]];
    }
  }

  /** Whatever a read returns is what a frame was written from. */
  lemma ReadIsFrame(b: Bytes, cut: bool)
    ensures var r := ReadFrame(b, cut);
            r.Got? ==> b == Frame(r.data) + r.rest && |r.data| <= MAX_FRAME_SIZE
  {
    var r := ReadFrame(b, cut);
    if r.Got? {
      ToBigEndian(b[..4]);
      assert b == b[..4] + b[4..4 + |r.data|] + b[4 + |r.data|..];
    }
  }

  /** A length header that announces data, and nothing after it. */
  ghost predicate BareHeader(b: Bytes) {
    |b| == 4 && 0 < FromBigEndian(b) <= MAX_FRAME_SIZE
  }

  /** The two ways in which a stream is taken to be over. */
  ghost predicate AtEnd(b: Bytes, cut: bool) {
    !cut && (b == [] || BareHeader(b))
  }

  lemma EndsExactly(b: Bytes, cut: bool)
    ensures ReadFrame(b, cut).End? <==> AtEnd(b, cut)
  {
    assert |b| == 4 ==> b[..4] == b;
  }

  // ----- decoding -----

  /** b reads as these frames and then as an end of the stream. */
  predicate ReadsAs(b: Bytes, cut: bool, ciphers: seq<Bytes>)
    decreases |ciphers|
  {
    var r := ReadFrame(b, cut);
    if ciphers == [] then r.End? else r.Got? && r.data == ciphers[0] && ReadsAs(r.rest, cut, ciphers[1..])
  }

  /** b is these frames, followed by nothing or by one bare length header. */
  ghost predicate ConsistsOf(b: Bytes, cut: bool, ciphers: seq<Bytes>) {
    Frames(ciphers) <= b && AtEnd(b[|Frames(ciphers)|..], cut)
  }

  lemma {:induction false} ReadsAsConsists(b: Bytes, cut: bool, ciphers: seq<Bytes>)
    requires forall i :: 0 <= i < |ciphers| ==> |ciphers[i]| <= MAX_FRAME_SIZE
    ensures ReadsAs(b, cut, ciphers) <==> ConsistsOf(b, cut, ciphers)
    decreases |ciphers|
  {
    EndsExactly(b, cut);
    if ciphers == [] {
      assert b[0..] == b;
    } else {
      var r := ReadFrame(b, cut);
      assert forall i :: 0 <= i < |ciphers[1..]| ==> ciphers[1..][i] == ciphers[i + 1];
      if r.Got? && r.data == ciphers[0] {
        ReadIsFrame(b, cut);
        ReadsAsConsists(r.rest, cut, ciphers[1..]);
        FramesBehind(b, r.rest, ciphers);
      } else if ConsistsOf(b, cut, ciphers) {
        var rest := b[|Frame(ciphers[0])|..];
        assert b == Frame(ciphers[0]) + rest;
        FrameReads(ciphers[0], rest, cut);
      }
    }
  }

  lemma FramesBehind(b: Bytes, rest: Bytes, ciphers: seq<Bytes>)
    requires ciphers != [] && b == Frame(ciphers[0]) + rest
    ensures Frames(ciphers) <= b <==> Frames(ciphers[1..]) <= rest
    ensures Frames(ciphers) <= b ==> b[|Frames(ciphers)|..] == rest[|Frames(ciphers[1..])|..]
  {
    var f, g := Frame(ciphers[0]), Frames(ciphers[1..]);
    assert b[|f|..] == rest;
    if Frames(ciphers) <= b {
      assert b[..|f + g|] == f + g;
      assert rest[..|g|] == b[|f|..|f + g|] == g;
    }
  }

  /** Decoding ends well from chunk k on. */
  predicate EndsWell(s: Stream, k: nat, pending: Bytes, b: Bytes, cut: bool) {
    s.complete && k < |s.ciphers| && pending == s.ciphers[k] && ReadsAs(b, cut, s.ciphers[k + 1..])
  }

  /** out starts the text from chunk k on, and is all of it if decoding ended well. */
  predicate WritesFrom(s: Stream, k: nat, d: Decoded)
    requires k <= |s.chunks|
  {
    d.out <= Concat(s.chunks[k..]) && (d.ok ==> d.out == Concat(s.chunks[k..]))
  }

  lemma NextCounterCounts(k: nat)
    requires k + 1 < COUNTER_LIMIT
    ensures NextCounter(k) == k + 1
  {
  }

  /** The chunk at k opened; tail is what decoding goes on to do. */
  lemma ConsWrites(s: Stream, k: nat, tail: Decoded)
    requires k < |s.chunks| && WritesFrom(s, k + 1, tail)
    ensures WritesFrom(s, k, Decoded(s.chunks[k] + tail.out, tail.ok))
  {
    assert s.chunks[k..][1..] == s.chunks[k + 1..];
    assert Concat(s.chunks[k..]) == s.chunks[k] + Concat(s.chunks[k + 1..]);
  }

  lemma LastWrites(s: Stream, k: nat)
    requires k == |s.chunks| - 1
    ensures WritesFrom(s, k, Decoded(s.chunks[k], true))
  {
    assert s.chunks[k..] == [s.chunks[k]];
    assert Concat([s.chunks[k]]) == s.chunks[k] + Concat([]);
  }

  /** A chunk that another follows: it is its own, not flagged as the last, or nothing is written. */
  lemma DecodeMore(
      ledger: Ledger, key: Bytes, ad: Bytes, streams: map<Bytes, Stream>, id: Bytes, k: nat,
      pending: Bytes, b: Bytes, cut: bool)
    requires Published(ledger, key, ad, streams) && id in streams && k <= |streams[id].chunks|
    requires ReadFrame(b, cut).Got?
    ensures var s, next := streams[id], ReadFrame(b, cut);
            DecodeFrom(ledger, key, ad, id, k, pending, b, cut) ==
            if k < |s.chunks| && pending == s.ciphers[k] && !(s.complete && k == |s.chunks| - 1) then
              var tail := DecodeFrom(ledger, key, ad, id, k + 1, next.data, next.rest, cut);
              Decoded(s.chunks[k] + tail.out, tail.ok)
            else Decoded([], false)
  {
    OpensExactly(ledger, key, ad, streams, id, k, false, pending);
    if k < |streams[id].chunks| { NextCounterCounts(k); }
  }

  /** The chunk before the end of the input is taken for the last. */
  lemma DecodeLast(
      ledger: Ledger, key: Bytes, ad: Bytes, streams: map<Bytes, Stream>, id: Bytes, k: nat,
      pending: Bytes, b: Bytes, cut: bool)
    requires Published(ledger, key, ad, streams) && id in streams && k <= |streams[id].chunks|
    requires !ReadFrame(b, cut).Got?
    ensures var s := streams[id];
            var d := DecodeFrom(ledger, key, ad, id, k, pending, b, cut);
            WritesFrom(s, k, d) && (d.ok <==> EndsWell(s, k, pending, b, cut))
  {
    OpensExactly(ledger, key, ad, streams, id, k, true, pending);
    if k == |streams[id].chunks| - 1 { LastWrites(streams[id], k); }
  }

  lemma {:induction false} DecodeFromExactly(
      ledger: Ledger, key: Bytes, ad: Bytes, streams: map<Bytes, Stream>, id: Bytes, k: nat,
      pending: Bytes, b: Bytes, cut: bool)
    requires Published(ledger, key, ad, streams) && id in streams && k <= |streams[id].chunks|
    ensures var s := streams[id];
            var d := DecodeFrom(ledger, key, ad, id, k, pending, b, cut);
            WritesFrom(s, k, d) && (d.ok <==> EndsWell(s, k, pending, b, cut))
    decreases |b|
  {
    var s := streams[id];
    var next := ReadFrame(b, cut);
    if next.Got? {
      DecodeMore(ledger, key, ad, streams, id, k, pending, b, cut);
      if k < |s.chunks| {
        DecodeFromExactly(ledger, key, ad, streams, id, k + 1, next.data, next.rest, cut);
        ConsWrites(s, k, DecodeFrom(ledger, key, ad, id, k + 1, next.data, next.rest, cut));
        EndsWellGoesOn(s, k, pending, b, cut);
      }
    } else {
      DecodeLast(ledger, key, ad, streams, id, k, pending, b, cut);
    }
  }

  lemma EndsWellGoesOn(s: Stream, k: nat, pending: Bytes, b: Bytes, cut: bool)
    requires k < |s.ciphers| && ReadFrame(b, cut).Got?
    ensures var next := ReadFrame(b, cut);
            EndsWell(s, k, pending, b, cut) <==>
            pending == s.ciphers[k] && EndsWell(s, k + 1, next.data, next.rest, cut)
  {
    if k + 1 < |s.ciphers| {
      assert s.ciphers[k + 1..][1..] == s.ciphers[k + 2..];
    }
  }

  lemma DecodeUnknown(
      ledger: Ledger, key: Bytes, ad: Bytes, streams: map<Bytes, Stream>, id: Bytes,
      pending: Bytes, b: Bytes, cut: bool)
    requires Published(ledger, key, ad, streams) && |id| == STREAM_ID_SIZE
    requires id !in streams || streams[id].chunks == []
    ensures DecodeFrom(ledger, key, ad, id, 0, pending, b, cut) == Decoded([], false)
  {
    OpensExactly(ledger, key, ad, streams, id, 0, ReadFrame(b, cut).End?, pending);
  }

  /** b carries this stream whole: its encoding, and after it nothing or one bare length header. */
  ghost predicate Carries(b: Bytes, cut: bool, s: Stream) {
    s.complete && Encoding(s) <= b && AtEnd(b[|Encoding(s)|..], cut)
  }

  /** The stream that the input names in its first frame. */
  ghost predicate Names(b: Bytes, id: Bytes) {
    |id| == STREAM_ID_SIZE && Frame(id) <= b
  }

  lemma NamesReads(b: Bytes, cut: bool, id: Bytes)
    requires |id| == STREAM_ID_SIZE
    ensures Names(b, id) <==> ReadFrame(b, cut).Got? && ReadFrame(b, cut).data == id
  {
    if Names(b, id) {
      assert b == Frame(id) + b[|Frame(id)|..];
      FrameReads(id, b[|Frame(id)|..], cut);
    }
    ReadIsFrame(b, cut);
  }

  lemma CarriesReads(b: Bytes, cut: bool, s: Stream)
    requires StreamOk(s)
    ensures Carries(b, cut, s) <==> s.complete && ReadsAs(b, cut, [s.id] + s.ciphers)
  {
    ReadsAsConsists(b, cut, [s.id] + s.ciphers);
    assert ([s.id] + s.ciphers)[1..] == s.ciphers;
  }

  /**
   * For every input: what is written is a prefix of the text of the stream that the input names, and nothing if that
   * stream is unknown; and decoding ends well exactly on the whole encoding of a completed stream, with its whole
   * text. One bare length header behind the encoding is the only thing that goes unnoticed.
   */
  lemma DecodeExactly(
      ledger: Ledger, key: Bytes, ad: Bytes, streams: map<Bytes, Stream>, b: Bytes, cut: bool, id: Bytes)
    requires Published(ledger, key, ad, streams) && |key| == KEY_SIZE && Names(b, id)
    ensures var d := Decode(ledger, key, ad, b, cut);
            if id in streams then
              && d.out <= Text(streams[id])
              && (d.ok <==> Carries(b, cut, streams[id]))
              && (d.ok ==> d.out == Text(streams[id]))
            else d == Decoded([], false)
  {
    NamesReads(b, cut, id);
    var head := ReadFrame(b, cut);
    var first := ReadFrame(head.rest, cut);
    if id in streams && streams[id].chunks != [] {
      var s := streams[id];
      CarriesReads(b, cut, s);
      assert ([s.id] + s.ciphers)[1..] == s.ciphers && s.chunks[0..] == s.chunks;
      if first.Got? {
        DecodeFromExactly(ledger, key, ad, streams, id, 0, first.data, first.rest, cut);
      }
    } else if first.Got? {
      DecodeUnknown(ledger, key, ad, streams, id, first.data, first.rest, cut);
    }
  }

  /** An input that names no stream is refused before anything is written. */
  lemma NamelessFails(ledger: Ledger, key: Bytes, ad: Bytes, b: Bytes, cut: bool)
    requires forall id :: !Names(b, id)
    ensures Decode(ledger, key, ad, b, cut) == Decoded([], false)
  {
    var head := ReadFrame(b, cut);
    if head.Got? && |head.data| == STREAM_ID_SIZE {
      NamesReads(b, cut, head.data);
    }
  }
}
