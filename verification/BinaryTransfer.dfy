/** Uploading and downloading the file of a binary secret, and under which versions it comes back. */
module BinaryTransfer {
  import opened Types
  import opened Bytes
  import opened AadFormat
  import opened BlobTransport
  import opened StreamModel
  import opened StreamLaws
  import opened StreamIntegrity
  import opened StreamCodec

  /** The version that a created secret has, and under which its blob is always sealed. */
  const CREATE_VERSION := 1

  function TextBytes(s: string): Bytes {
    seq(|s|, i requires 0 <= i < |s| => s[i] as int % 256)
  }

  function BlobAd(vault: VaultId, secret: SecretId, version: int): Bytes {
    TextBytes(SecretAad(vault, secret, version, BLOB_LABEL))
  }

  // ----- the server side of a transfer -----

  class BlobServer {
    var stored: map<SecretId, Bytes>

    constructor ()
      ensures stored == map[]
    {
      stored := map[];
    }

    /** The end of an upload stores what its messages carried, under the secret that the first one names. */
    method Receive(stream: UploadStream)
      requires stream.sent != []
      modifies this
      ensures stored == old(stored)[stream.sent[0].secretId := Concat(Datas(stream.sent))]
    {
      var all: Bytes := [];
      var i := 0;
      while i < |stream.sent|
        invariant i <= |stream.sent| && all == Concat(Datas(stream.sent[..i]))
        invariant stored == old(stored)
      {
        all := all + stream.sent[i].data;
        assert Datas(stream.sent[..i + 1]) == Datas(stream.sent[..i]) + [stream.sent[i].data];
        ConcatAppend(Datas(stream.sent[..i]), stream.sent[i].data);
        i := i + 1;
      }
      assert i == |stream.sent| && stream.sent[..i] == stream.sent;
      assert all == Concat(Datas(stream.sent));
      stored := stored[stream.sent[0].secretId := all];
    }
  }

  /** A pipe hands over what was written in pieces of any size that fits the buffer; this is one way to do so. */
  function Pieces(b: Bytes, size: nat): (script: seq<Piece>)
    requires size > 0
    ensures WithinBuffer(script, size) && FileOf(script) == Some(b)
    decreases |b|
  {
    if |b| <= size then [Piece(b, Eof)]
    else
      var tail := Pieces(b[size..], size);
      assert ([Piece(b[..size], More)] + tail)[1..] == tail && b[..size] + b[size..] == b;
      [Piece(b[..size], More)] + tail
  }

  method OpenPipe(written: Bytes) returns (r: FileReader)
    ensures fresh(r) && WithinBuffer(r.script, UPLOAD_CHUNK_SIZE) && FileOf(r.script) == Some(written)
  {
    var script: seq<Piece> := *;
    if !WithinBuffer(script, UPLOAD_CHUNK_SIZE) || FileOf(script) != Some(written) {
      script := Pieces(written, UPLOAD_CHUNK_SIZE);
    }
    r := new FileReader(script);
  }

  // ----- the client side -----

  /**
   * If reading the file fails, the pipe is closed all the same: the server stores a stream without its last chunk, and
   * the caller gets the error.
   */
  method UploadBinaryData(aead: Aead, key: Bytes, id: Bytes, vault: VaultId, secret: SecretId, data: FileReader,
      server: BlobServer, room: nat)
    returns (ok: bool, ghost s: Stream)
    requires |id| == STREAM_ID_SIZE && WithinBuffer(data.script, CHUNK_SIZE) && |data.script| < COUNTER_LIMIT
    modifies aead, data, server
    ensures |key| != KEY_SIZE ==> !ok && aead.ledger == old(aead.ledger) && server.stored == old(server.stored)
    ensures |key| == KEY_SIZE ==>
      && s.id == id && |s.chunks| == |s.ciphers|
      && Plan(s.chunks, s.complete) == PlanOf(old(data.script))
      && (forall i :: 0 <= i < |s.ciphers| ==> |s.ciphers[i]| == |s.chunks[i]| + TAG_SIZE)
      && aead.ledger == old(aead.ledger) + Records(key, BlobAd(vault, secret, CREATE_VERSION), s)
      && (server.stored == old(server.stored) || server.stored == old(server.stored)[secret := Encoding(s)])
    ensures ok ==> s.complete && server.stored == old(server.stored)[secret := Encoding(s)]
  {
    s := Stream(id, [], [], false);
    if |key| != KEY_SIZE { return false, s; }
    var enc := new StreamEncrypter(aead, key, BlobAd(vault, secret, CREATE_VERSION), id);
    var pipe := new Sink();
    var encoded;
    encoded, s := EncodeStream(enc, data, pipe);
    assert pipe.written == Encoding(s);
    var r := OpenPipe(pipe.written);
    var stream := new UploadStream(room);
    var sent := UploadBlob(stream, secret, r);
    if !sent { return false, s; }
    server.Receive(stream);
    ok := encoded;
  }

  /** The blob is opened under the version that the cache holds, and under version 1 if it holds none. */
  method DownloadBinary(
      aead: Aead, key: Bytes, vault: VaultId, secret: SecretId, cached: Option<int>, server: BlobServer,
      w: Sink, messages: seq<Bytes>, cut: bool)
    returns (ok: bool, ghost out: Bytes)
    requires secret in server.stored ==> Concat(messages) == server.stored[secret]
    modifies w
    ensures w.written == old(w.written) + out
    ensures if secret !in server.stored then !ok && out == []
            else
              var ad := BlobAd(vault, secret, OpenedUnder(cached));
              Decoded(out, ok) == Decode(aead.ledger, key, ad, server.stored[secret], cut)
  {
    if secret !in server.stored { return false, []; }
    var version := if cached.Some? then cached.value else CREATE_VERSION;
    var rc := new BlobStreamReader(messages, cut);
    ok, out := DecodeStream(aead, key, BlobAd(vault, secret, version), rc, w);
  }

  function OpenedUnder(cached: Option<int>): int {
    if cached.Some? then cached.value else CREATE_VERSION
  }

  // ----- what the clients of a vault key seal -----

  predicate PlainIds(vault: VaultId, secret: SecretId) {
    PlainId(vault) && PlainId(secret)
  }

  /** A chunk of some blob, always under version 1. */
  ghost predicate ChunkSealing(r: Sealing) {
    exists v, s, i, last :: PlainIds(v, s) && r.ad == ChunkAD(BlobAd(v, s, CREATE_VERSION), i, last)
  }

  /** One tier of some secret. */
  ghost predicate TierSealing(r: Sealing) {
    exists v, s, n, t :: PlainIds(v, s) && r.ad == TextBytes(SecretAad(v, s, n, Label(t)))
  }

  /** All that was ever sealed under the key is chunks and tiers. */
  ghost predicate ClientLedger(ledger: Ledger, key: Bytes) {
    forall r :: r in ledger && r.key == key ==> ChunkSealing(r) || TierSealing(r)
  }

  /** Every character is a byte of its own. */
  predicate Bytewise(s: string) {
    forall i :: 0 <= i < |s| ==> s[i] as int < 256
  }

  lemma AadIsBytewise(v: VaultId, s: SecretId, n: int, slot: string)
    requires PlainIds(v, s) && Bytewise(slot)
    ensures Bytewise(SecretAad(v, s, n, slot))
  {
    DecimalIsPlain(n);
    assert Bytewise(HEAD) && Bytewise(BEFORE_SECRET) && Bytewise(BEFORE_VERSION) && Bytewise(BEFORE_TIER);
    assert Bytewise(VersionPart(n, slot));
    assert Bytewise(s + VersionPart(n, slot));
    assert Bytewise(BEFORE_SECRET + (s + VersionPart(n, slot)));
  }

  lemma LabelsAreBytewise(t: Tier)
    ensures Bytewise(Label(t)) && Bytewise(BLOB_LABEL)
  {
  }

  lemma SameBytesSameText(a: string, b: string)
    requires Bytewise(a) && Bytewise(b) && TextBytes(a) == TextBytes(b)
    ensures a == b
  {
    forall i | 0 <= i < |a| ensures a[i] == b[i] {
      assert TextBytes(a)[i] == TextBytes(b)[i];
    }
  }

  /** Behind the label more text can follow without touching the rest. */
  lemma AadExtends(v: VaultId, s: SecretId, n: int, slot: string, z: string)
    ensures SecretAad(v, s, n, slot) + z == SecretAad(v, s, n, slot + z)
  {
    var d := Decimal(n);
    assert (BEFORE_TIER + slot) + z == BEFORE_TIER + (slot + z);
    assert (d + (BEFORE_TIER + slot)) + z == d + (BEFORE_TIER + (slot + z));
    assert VersionPart(n, slot) + z == VersionPart(n, slot + z);
    assert (s + VersionPart(n, slot)) + z == s + VersionPart(n, slot + z);
    assert (BEFORE_SECRET + (s + VersionPart(n, slot))) + z == BEFORE_SECRET + (s + VersionPart(n, slot + z));
  }

  /** A chunk is met under one version only: the one its blob was sealed under. */
  lemma ChunkContext(r: Sealing, key: Bytes, vault: VaultId, secret: SecretId, version: int)
    requires ChunkSealing(r) && PlainIds(vault, secret) && InContext(r, key, BlobAd(vault, secret, version))
    ensures version == CREATE_VERSION
  {
    var v, s, i, last :| PlainIds(v, s) && r.ad == ChunkAD(BlobAd(v, s, CREATE_VERSION), i, last);
    var ad, ad' := BlobAd(vault, secret, version), BlobAd(v, s, CREATE_VERSION);
    assert |ad| == |ad'| && r.ad[..|ad|] == ad' == ad;
    LabelsAreBytewise(RowTier);
    AadIsBytewise(vault, secret, version, BLOB_LABEL);
    AadIsBytewise(v, s, CREATE_VERSION, BLOB_LABEL);
    SameBytesSameText(SecretAad(vault, secret, version, BLOB_LABEL), SecretAad(v, s, CREATE_VERSION, BLOB_LABEL));
    Parses(vault, secret, version, BLOB_LABEL, v, s, CREATE_VERSION, BLOB_LABEL);
  }

  /** A tier is never met as a chunk. */
  lemma TierIsNoChunk(r: Sealing, key: Bytes, vault: VaultId, secret: SecretId, version: int)
    requires TierSealing(r) && PlainIds(vault, secret)
    ensures !InContext(r, key, BlobAd(vault, secret, version))
  {
    if InContext(r, key, BlobAd(vault, secret, version)) {
      var v, s, n, t :| PlainIds(v, s) && r.ad == TextBytes(SecretAad(v, s, n, Label(t)));
      var a, b := SecretAad(vault, secret, version, BLOB_LABEL), SecretAad(v, s, n, Label(t));
      LabelsAreBytewise(t);
      AadIsBytewise(vault, secret, version, BLOB_LABEL);
      AadIsBytewise(v, s, n, Label(t));
      assert TextBytes(b[..|a|]) == TextBytes(b)[..|a|];
      SameBytesSameText(a, b[..|a|]);
      var z := b[|a|..];
      assert b == a + z;
      AadExtends(vault, secret, version, BLOB_LABEL, z);
      Parses(vault, secret, version, BLOB_LABEL + z, v, s, n, Label(t));
      LabelsDiffer(t, t);
    }
  }

  lemma NothingUnderOtherVersions(ledger: Ledger, key: Bytes, vault: VaultId, secret: SecretId, version: int)
    requires ClientLedger(ledger, key) && PlainIds(vault, secret) && version != CREATE_VERSION
    ensures Published(ledger, key, BlobAd(vault, secret, version), map[])
  {
    forall r | r in ledger ensures !InContext(r, key, BlobAd(vault, secret, version)) {
      if InContext(r, key, BlobAd(vault, secret, version)) {
        if ChunkSealing(r) {
          ChunkContext(r, key, vault, secret, version);
        } else {
          TierIsNoChunk(r, key, vault, secret, version);
        }
      }
    }
  }

  /** An upload keeps the ledger in order. */
  lemma UploadKeepsLedger(ledger: Ledger, key: Bytes, vault: VaultId, secret: SecretId, s: Stream)
    requires ClientLedger(ledger, key) && PlainIds(vault, secret) && |s.chunks| == |s.ciphers|
    ensures ClientLedger(ledger + Records(key, BlobAd(vault, secret, CREATE_VERSION), s), key)
  {
    var records := Records(key, BlobAd(vault, secret, CREATE_VERSION), s);
    forall r | r in records ensures ChunkSealing(r) {
      var i :| 0 <= i < |records| && records[i] == r;
      assert r == Record(key, BlobAd(vault, secret, CREATE_VERSION), s, i);
    }
  }

  /** What an upload seals stays far below the frame limit, and always holds at least a last chunk. */
  lemma UploadedStreamIsOk(s: Stream, script: seq<Piece>)
    requires WithinBuffer(script, CHUNK_SIZE) && |script| + 1 < COUNTER_LIMIT
    requires |s.id| == STREAM_ID_SIZE && |s.chunks| == |s.ciphers| && Plan(s.chunks, s.complete) == PlanOf(script)
    requires forall i :: 0 <= i < |s.ciphers| ==> |s.ciphers[i]| == |s.chunks[i]| + TAG_SIZE
    ensures StreamOk(s)
    ensures forall i :: 0 <= i < |s.ciphers| ==> |Frame(s.ciphers[i])| <= 4 + CHUNK_SIZE + TAG_SIZE
  {
    PlanFits(script, CHUNK_SIZE);
    PlanIsFile(script);
  }

  /**
   * After any upload, and whatever else the clients sealed before: a download gives the uploaded file if it is opened
   * under version 1 and the upload reached the end of the file. Otherwise it fails, and under every other version it
   * does not write a single byte.
   */
  lemma DownloadGivesTheFile(ledger: Ledger, key: Bytes, vault: VaultId, secret: SecretId, streams: map<Bytes, Stream>,
      s: Stream, script: seq<Piece>, cached: Option<int>)
    requires ClientLedger(ledger, key) && PlainIds(vault, secret) && |key| == KEY_SIZE
    requires Published(ledger, key, BlobAd(vault, secret, CREATE_VERSION), streams) && s.id !in streams && StreamOk(s)
    requires Plan(s.chunks, s.complete) == PlanOf(script)
    ensures var ledger' := ledger + Records(key, BlobAd(vault, secret, CREATE_VERSION), s);
            var d := Decode(ledger', key, BlobAd(vault, secret, OpenedUnder(cached)), Encoding(s), false);
            && (d.ok <==> FileOf(script).Some? && (cached.None? || cached.value == CREATE_VERSION))
            && (d.ok ==> d.out == FileOf(script).value)
            && (cached.Some? && cached.value != CREATE_VERSION ==> d.out == [])
  {
    var ad := BlobAd(vault, secret, CREATE_VERSION);
    var ledger' := ledger + Records(key, ad, s);
    PlanIsFile(script);
    EncodingNames(s);
    if OpenedUnder(cached) == CREATE_VERSION {
      PublishingExtends(ledger, key, ad, streams, s);
      DecodeExactly(ledger', key, ad, streams[s.id := s], Encoding(s), false, s.id);
      assert Encoding(s)[|Encoding(s)|..] == [];
    } else {
      UploadKeepsLedger(ledger, key, vault, secret, s);
      NothingUnderOtherVersions(ledger', key, vault, secret, OpenedUnder(cached));
      UnknownStreamFails(ledger', key, BlobAd(vault, secret, OpenedUnder(cached)), map[], s);
    }
  }

  /** After one edit of the secret its file can no longer be downloaded: the cached version is then 2. */
  lemma EditedBinaryIsLost(key: Bytes, id: Bytes, chunk: Bytes, cipher: Bytes)
    requires |key| == KEY_SIZE && |id| == STREAM_ID_SIZE && |cipher| <= MAX_FRAME_SIZE
    ensures var s := Stream(id, [chunk], [cipher], true);
            var ledger := Records(key, BlobAd("v", "s", CREATE_VERSION), s);
            && Decode(ledger, key, BlobAd("v", "s", OpenedUnder(Some(1))), Encoding(s), false) == Decoded(chunk, true)
            && Decode(ledger, key, BlobAd("v", "s", OpenedUnder(Some(2))), Encoding(s), false) == Decoded([], false)
  {
    var s := Stream(id, [chunk], [cipher], true);
    var records := Records(key, BlobAd("v", "s", CREATE_VERSION), s);
    var script := [Piece(chunk, Eof)];
    assert PlanOf(script) == Plan([chunk], true) && FileOf(script) == Some(chunk);
    DownloadGivesTheFile([], key, "v", "s", map[], s, script, Some(1));
    DownloadGivesTheFile([], key, "v", "s", map[], s, script, Some(2));
    assert [] + records == records;
  }
}
