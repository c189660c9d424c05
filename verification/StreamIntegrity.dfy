/** Round trip and integrity of the blob stream. */
module StreamIntegrity {
  import opened Types
  import opened Bytes
  import opened StreamModel
  import opened StreamLaws

  // ----- the whole stream and its mutilations -----

  lemma EncodingNames(s: Stream)
    requires |s.id| == STREAM_ID_SIZE
    ensures Names(Encoding(s), s.id)
    ensures |Frame(s.id)| == 4 + STREAM_ID_SIZE
  {
    assert Encoding(s)[..|Frame(s.id)|] == Frame(s.id);
  }

  /** A stream that the receiver knows: sealed to its end, under the key in use. */
  ghost predicate Known(ledger: Ledger, key: Bytes, ad: Bytes, streams: map<Bytes, Stream>, s: Stream) {
    Published(ledger, key, ad, streams) && |key| == KEY_SIZE && s.id in streams && streams[s.id] == s && s.complete
  }

  /** After the encoding of a stream only silence, or one bare length header, goes unnoticed. */
  lemma TrailingBytes(ledger: Ledger, key: Bytes, ad: Bytes, streams: map<Bytes, Stream>, s: Stream, tail: Bytes)
    requires Known(ledger, key, ad, streams, s)
    ensures var d := Decode(ledger, key, ad, Encoding(s) + tail, false);
            && d.out <= Text(s)
            && (d.ok <==> tail == [] || BareHeader(tail))
            && (d.ok ==> d.out == Text(s))
  {
    var b := Encoding(s) + tail;
    EncodingNames(s);
    assert b[..|Frame(s.id)|] == Frame(s.id);
    DecodeExactly(ledger, key, ad, streams, b, false, s.id);
    assert b[|Encoding(s)|..] == tail;
  }

  /** Decoding undoes encoding. */
  lemma RoundTrip(ledger: Ledger, key: Bytes, ad: Bytes, streams: map<Bytes, Stream>, s: Stream)
    requires Known(ledger, key, ad, streams, s)
    ensures Decode(ledger, key, ad, Encoding(s), false) == Decoded(Text(s), true)
  {
    TrailingBytes(ledger, key, ad, streams, s, []);
    assert Encoding(s) + [] == Encoding(s);
  }

  /** A stream cut off anywhere, even right behind a length header, is refused; what was written is a prefix. */
  lemma TruncationIsDetected(
      ledger: Ledger, key: Bytes, ad: Bytes, streams: map<Bytes, Stream>, s: Stream, b: Bytes, cut: bool)
    requires Known(ledger, key, ad, streams, s) && b < Encoding(s)
    ensures var d := Decode(ledger, key, ad, b, cut);
            !d.ok && d.out <= Text(s)
  {
    EncodingNames(s);
    if |Frame(s.id)| <= |b| {
      assert b[..|Frame(s.id)|] == Encoding(s)[..|Frame(s.id)|];
      DecodeExactly(ledger, key, ad, streams, b, cut, s.id);
    } else {
      NamelessFails(ledger, key, ad, b, cut);
    }
  }

  /** A failing connection never passes for the end of the stream. */
  lemma BrokenConnectionIsDetected(ledger: Ledger, key: Bytes, ad: Bytes, streams: map<Bytes, Stream>, b: Bytes)
    requires Published(ledger, key, ad, streams) && |key| == KEY_SIZE
    ensures !Decode(ledger, key, ad, b, true).ok
  {
    if id :| Names(b, id) {
      DecodeExactly(ledger, key, ad, streams, b, true, id);
    } else {
      NamelessFails(ledger, key, ad, b, true);
    }
  }

  lemma {:induction false} FramesReadBack(datas: seq<Bytes>, ciphers: seq<Bytes>)
    requires forall i :: 0 <= i < |datas| ==> |datas[i]| <= MAX_FRAME_SIZE
    ensures ReadsAs(Frames(datas), false, ciphers) <==> datas == ciphers
    decreases |datas|
  {
    if datas != [] {
      FrameReads(datas[0], Frames(datas[1..]), false);
      assert forall i :: 0 <= i < |datas[1..]| ==> datas[1..][i] == datas[i + 1];
      if ciphers != [] {
        FramesReadBack(datas[1..], ciphers[1..]);
        HeadAndTail(datas);
        HeadAndTail(ciphers);
      }
    }
  }

  /**
   * Whatever whole frames are put together (reordered, repeated, left out, taken from other streams), decoding ends
   * well exactly on the frames of one completed stream in their order, and writes a prefix of the stream it names.
   */
  lemma OnlyTheRightFrames(ledger: Ledger, key: Bytes, ad: Bytes, streams: map<Bytes, Stream>, datas: seq<Bytes>)
    requires Published(ledger, key, ad, streams) && |key| == KEY_SIZE
    requires datas != [] && forall i :: 0 <= i < |datas| ==> |datas[i]| <= MAX_FRAME_SIZE
    ensures var d := Decode(ledger, key, ad, Frames(datas), false);
            if datas[0] in streams then
              && d.out <= Text(streams[datas[0]])
              && (d.ok <==> streams[datas[0]].complete && datas[1..] == streams[datas[0]].ciphers)
            else d == Decoded([], false)
  {
    var b := Frames(datas);
    FrameReads(datas[0], Frames(datas[1..]), false);
    if |datas[0]| == STREAM_ID_SIZE {
      NamesReads(b, false, datas[0]);
      DecodeExactly(ledger, key, ad, streams, b, false, datas[0]);
      if datas[0] in streams {
        var s := streams[datas[0]];
        CarriesReads(b, false, s);
        FramesReadBack(datas, [s.id] + s.ciphers);
        assert datas == [datas[0]] + datas[1..];
        assert ([s.id] + s.ciphers)[1..] == s.ciphers;
      }
    }
  }

  // ----- from a file to a stream -----

  /** The chunks of a schedule make up the file, whatever the reads were like, and there is always a last one. */
  lemma {:induction false} PlanIsFile(script: seq<Piece>)
    ensures var plan := PlanOf(script);
            && plan.complete == FileOf(script).Some?
            && (plan.complete ==> plan.chunks != [] && Concat(plan.chunks) == FileOf(script).value)
    decreases |script|
  {
    if script == [] || !script[0].ending.More? {
      var plan := PlanOf(script);
      if plan.complete {
        assert plan.chunks[1..] == [];
        assert Concat(plan.chunks) == plan.chunks[0] + Concat([]);
      }
    } else {
      PlanIsFile(script[1..]);
      var tail := PlanOf(script[1..]);
      assert PlanOf(script).chunks[1..] == tail.chunks;
    }
  }

  lemma {:induction false} PlanFits(script: seq<Piece>, size: nat)
    requires WithinBuffer(script, size)
    ensures |PlanOf(script).chunks| <= |script| + 1
    ensures forall i :: 0 <= i < |PlanOf(script).chunks| ==> |PlanOf(script).chunks[i]| <= size
    decreases |script|
  {
    if script != [] && script[0].ending.More? {
      assert WithinBuffer(script[1..], size);
      PlanFits(script[1..], size);
    }
  }

  /** The sealings of a stream, in the order in which the encoder makes them. */
  function Records(key: Bytes, ad: Bytes, s: Stream): seq<Sealing>
    requires |s.chunks| == |s.ciphers|
  {
    seq(|s.chunks|, i requires 0 <= i < |s.chunks| => Record(key, ad, s, i))
  }

  predicate Flagged(r: Sealing) {
    r.ad != [] && r.ad[|r.ad| - 1] == 1
  }

  function FlagsIn(records: seq<Sealing>): nat {
    if records == [] then 0 else (if Flagged(records[0]) then 1 else 0) + FlagsIn(records[1..])
  }

  lemma {:induction false} FlagsFrom(key: Bytes, ad: Bytes, s: Stream, from: nat)
    requires from <= |s.chunks| == |s.ciphers|
    ensures FlagsIn(Records(key, ad, s)[from..]) == if s.complete && from < |s.chunks| then 1 else 0
    decreases |s.chunks| - from
  {
    if from < |s.chunks| {
      var records := Records(key, ad, s);
      assert records[from..][1..] == records[from + 1..];
      assert Flagged(records[from]) <==> s.complete && from == |s.chunks| - 1;
      FlagsFrom(key, ad, s, from + 1);
    }
  }

  /** However a file is read, one sealing of its stream is flagged, the last; if reading it fails, none is. */
  lemma OneLastFlag(key: Bytes, ad: Bytes, s: Stream, script: seq<Piece>)
    requires |s.chunks| == |s.ciphers| && s.chunks == PlanOf(script).chunks && s.complete == PlanOf(script).complete
    ensures var records := Records(key, ad, s);
            && FlagsIn(records) == (if FileOf(script).Some? then 1 else 0)
            && (FileOf(script).Some? ==> records != [] && Flagged(records[|records| - 1]))
  {
    PlanIsFile(script);
    FlagsFrom(key, ad, s, 0);
    assert Records(key, ad, s)[0..] == Records(key, ad, s);
  }

  lemma RecordInContext(key: Bytes, ad: Bytes, s: Stream, i: nat, otherAd: Bytes)
    requires |s.id| == STREAM_ID_SIZE && i < |s.chunks| == |s.ciphers|
    ensures InContext(Record(key, ad, s, i), key, otherAd) ==> otherAd == ad
    ensures Record(key, ad, s, i).nonce[..STREAM_ID_SIZE] == s.id
  {
    var r := Record(key, ad, s, i);
    assert r.ad[..|ad|] == ad;
  }

  /** A stream sealed under a fresh identifier joins those already published. */
  lemma PublishingExtends(ledger: Ledger, key: Bytes, ad: Bytes, streams: map<Bytes, Stream>, s: Stream)
    requires Published(ledger, key, ad, streams) && StreamOk(s) && s.id !in streams
    ensures Published(ledger + Records(key, ad, s), key, ad, streams[s.id := s])
  {
    var ledger', streams' := ledger + Records(key, ad, s), streams[s.id := s];
    forall i | 0 <= i < |s.chunks| ensures Record(key, ad, s, i) in ledger' {
      assert ledger'[|ledger| + i] == Record(key, ad, s, i);
    }
    forall r | r in ledger' && InContext(r, key, ad)
      ensures r.nonce[..STREAM_ID_SIZE] in streams' && RecordOf(r, key, ad, streams'[r.nonce[..STREAM_ID_SIZE]])
    {
      if r in ledger {
        assert r.nonce[..STREAM_ID_SIZE] in streams;
      } else {
        var i :| 0 <= i < |s.chunks| && Records(key, ad, s)[i] == r;
        RecordInContext(key, ad, s, i, ad);
      }
    }
  }

  /** Streams under other associated data do not concern this receiver. */
  lemma OtherContextsDoNotMatter(
      ledger: Ledger, key: Bytes, ad: Bytes, streams: map<Bytes, Stream>, s: Stream, otherAd: Bytes)
    requires Published(ledger, key, ad, streams) && StreamOk(s) && otherAd != ad
    ensures Published(ledger + Records(key, otherAd, s), key, ad, streams)
  {
    var ledger' := ledger + Records(key, otherAd, s);
    forall r | r in ledger' && InContext(r, key, ad) ensures r in ledger {
      if r !in ledger {
        var i :| 0 <= i < |s.chunks| && Records(key, otherAd, s)[i] == r;
        RecordInContext(key, otherAd, s, i, ad);
      }
    }
  }

  /** A stream that this receiver does not know does not open: nothing is written at all. */
  lemma UnknownStreamFails(ledger: Ledger, key: Bytes, ad: Bytes, streams: map<Bytes, Stream>, s: Stream)
    requires Published(ledger, key, ad, streams) && |key| == KEY_SIZE && |s.id| == STREAM_ID_SIZE && s.id !in streams
    ensures Decode(ledger, key, ad, Encoding(s), false) == Decoded([], false)
  {
    EncodingNames(s);
    DecodeExactly(ledger, key, ad, streams, Encoding(s), false, s.id);
  }

  /** A stream that was sealed under other associated data, to its end and under this key, does not open either. */
  lemma WrongContextFails(
      ledger: Ledger, key: Bytes, ad: Bytes, streams: map<Bytes, Stream>, s: Stream, otherAd: Bytes)
    requires Published(ledger, key, ad, streams) && |key| == KEY_SIZE
    requires StreamOk(s) && s.id !in streams && otherAd != ad
    ensures Decode(ledger + Records(key, otherAd, s), key, ad, Encoding(s), false) == Decoded([], false)
  {
    OtherContextsDoNotMatter(ledger, key, ad, streams, s, otherAd);
    UnknownStreamFails(ledger + Records(key, otherAd, s), key, ad, streams, s);
  }
}
