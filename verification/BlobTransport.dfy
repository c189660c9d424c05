/** The byte streams between client and server, and how a file is cut into messages and put together again. */
module BlobTransport {
  import opened Types
  import opened Bytes
  import opened StreamModel

  // ----- readers and writers -----

  class Sink {
    var written: Bytes

    constructor ()
      ensures written == []
    {
      written := [];
    }

    method Write(data: Bytes)
      modifies this
      ensures written == old(written) + data
    {
      written := written + data;
    }
  }

  /** A reader that goes through a schedule; behind its end it keeps reporting io.EOF. */
  class FileReader {
    var script: seq<Piece>

    constructor (script: seq<Piece>)
      ensures this.script == script
    {
      this.script := script;
    }

    method Read(buf: array<byte>) returns (n: nat, ending: Ending)
      requires WithinBuffer(script, buf.Length)
      modifies this, buf
      ensures n <= buf.Length
      ensures old(script) == [] ==> n == 0 && ending == Eof && script == []
      ensures old(script) != [] ==> Piece(buf[..n], ending) == old(script)[0] && script == old(script)[1..]
      ensures WithinBuffer(script, buf.Length)
    {
      if script == [] { return 0, Eof; }
      var piece := script[0];
      forall i | 0 <= i < |piece.data| { buf[i] := piece.data[i]; }
      assert buf[..|piece.data|] == piece.data;
      script := script[1..];
      return |piece.data|, piece.ending;
    }
  }

  /** A read error, as far as the callers tell errors apart. */
  datatype ReadError = NoError | IsEof | OtherError

  /** The receiving end of a blob download: messages, possibly empty ones, and then an end or a failure. */
  class BlobStreamReader {
    var incoming: seq<Bytes>
    const cut: bool
    var buf: Bytes

    constructor (incoming: seq<Bytes>, cut: bool)
      ensures this.incoming == incoming && this.cut == cut && buf == []
      ensures Remaining() == Concat(incoming)
    {
      this.incoming, this.cut, buf := incoming, cut, [];
    }

    /** All bytes that are still to be delivered. */
    ghost function Remaining(): Bytes
      reads this
    {
      buf + Concat(incoming)
    }

    /** Fills p from position off on, as far as the message at hand goes. */
    method Read(p: array<byte>, off: nat) returns (n: nat, err: ReadError)
      requires off < p.Length
      modifies this, p
      ensures off + n <= p.Length && p[..off] == old(p[..off])
      ensures if old(Remaining()) == []
              then n == 0 && Remaining() == [] && err == if cut then OtherError else IsEof
              else n > 0 && err == NoError && old(Remaining()) == p[off..off + n] + Remaining()
    {
      while buf == []
        invariant Remaining() == old(Remaining()) && p[..] == old(p[..])
        decreases |incoming|
      {
        if incoming == [] {
          return 0, if cut then OtherError else IsEof;
        }
        buf, incoming := incoming[0], incoming[1..];
      }
      n := if |buf| <= p.Length - off then |buf| else p.Length - off;
      forall i | 0 <= i < n { p[off + i] := buf[i]; }
      assert p[off..off + n] == buf[..n];
      assert buf == buf[..n] + buf[n..];
      buf := buf[n..];
      err := NoError;
    }
  }

  // ----- uploading -----

  /** One message of an upload; only the first one names the secret. */
  datatype Message = Message(secretId: string, data: Bytes)

  /** An open upload. It breaks once it has carried as many messages as it has room for. */
  class UploadStream {
    var sent: seq<Message>
    var room: nat

    constructor (room: nat)
      ensures sent == [] && this.room == room
    {
      sent, this.room := [], room;
    }

    method Send(m: Message) returns (ok: bool)
      modifies this
      ensures ok == (old(room) > 0)
      ensures sent == if ok then old(sent) + [m] else old(sent)
      ensures room == if ok then old(room) - 1 else 0
    {
      if room == 0 { return false; }
      sent, room := sent + [m], room - 1;
      return true;
    }
  }

  function Datas(sent: seq<Message>): (datas: seq<Bytes>)
    ensures |datas| == |sent|
  {
    seq(|sent|, i requires 0 <= i < |sent| => sent[i].data)
  }

  /** All that a reader hands out, the data that comes with a failure included. */
  function Delivered(script: seq<Piece>): Bytes
    decreases |script|
  {
    if script == [] then []
    else script[0].data + if script[0].ending == More then Delivered(script[1..]) else []
  }

  lemma {:induction false} DeliveredIsFile(script: seq<Piece>)
    ensures FileOf(script).Some? ==> Delivered(script) == FileOf(script).value
    decreases |script|
  {
    if script != [] && script[0].ending == More {
      DeliveredIsFile(script[1..]);
    }
  }

  /** Every message brings data, and the first one alone names the secret. */
  ghost predicate Regular(sent: seq<Message>, secretId: string) {
    forall i :: 0 <= i < |sent| ==> sent[i].secretId == (if i == 0 then secretId else "") && sent[i].data != []
  }

  /** Regular messages, or for an empty file the one message that has to name the secret. */
  ghost predicate WellFormed(sent: seq<Message>, secretId: string) {
    Regular(sent, secretId) || sent == [Message(secretId, [])]
  }

  lemma RegularGrows(sent: seq<Message>, secretId: string, m: Message)
    requires Regular(sent, secretId) && m.data != [] && m.secretId == if sent == [] then secretId else ""
    ensures Regular(sent + [m], secretId)
  {
  }

  /** Some of what the reader hands out has been sent, and rest is what it has still to hand out. */
  ghost predicate Sent(whole: Bytes, sent: seq<Message>, rest: Bytes) {
    whole == Concat(Datas(sent)) + rest
  }

  lemma SendsOne(whole: Bytes, sent: seq<Message>, m: Message, rest: Bytes)
    requires Sent(whole, sent, m.data + rest)
    ensures Sent(whole, sent + [m], rest)
  {
    assert Datas(sent + [m]) == Datas(sent) + [m.data];
    ConcatAppend(Datas(sent), m.data);
    AppendAssociates(Concat(Datas(sent)), m.data, rest);
  }

  /** The loop sends one message for every read that brings data; an empty file still takes one message. */
  method UploadBlob(stream: UploadStream, secretId: string, r: FileReader) returns (ok: bool)
    requires stream.sent == [] && WithinBuffer(r.script, UPLOAD_CHUNK_SIZE)
    modifies stream, r
    ensures WellFormed(stream.sent, secretId) && Concat(Datas(stream.sent)) <= Delivered(old(r.script))
    ensures stream.room > 0 ==> Concat(Datas(stream.sent)) == Delivered(old(r.script))
    ensures ok ==> stream.sent != [] && FileOf(old(r.script)) == Some(Concat(Datas(stream.sent)))
    ensures !ok ==> stream.room == 0 || FileOf(old(r.script)).None?
  {
    ghost var whole, file := Delivered(r.script), FileOf(r.script);
    DeliveredIsFile(r.script);
    var buf := new byte[UPLOAD_CHUNK_SIZE];
    var first := true;
    var ended := false;
    while !ended
      invariant fresh(buf) && buf.Length == UPLOAD_CHUNK_SIZE && WithinBuffer(r.script, UPLOAD_CHUNK_SIZE)
      invariant Regular(stream.sent, secretId) && first == (stream.sent == [])
      invariant Sent(whole, stream.sent, if ended then [] else Delivered(r.script))
      invariant if ended then file.Some? else file.Some? == FileOf(r.script).Some?
      decreases |r.script|, !ended
    {
      ghost var rest := r.script;
      var n, rerr := r.Read(buf);
      ghost var behind := if rerr == More then Delivered(r.script) else [];
      assert Delivered(rest) == buf[..n] + behind;
      if n > 0 {
        var chunk := Message(if first then secretId else "", buf[..n]);
        first := false;
        SendsOne(whole, stream.sent, chunk, behind);
        RegularGrows(stream.sent, secretId, chunk);
        var ok := stream.Send(chunk);
        if !ok {
          return false;
        }
      } else {
        assert buf[..n] == [] && [] + behind == behind;
      }
      if rerr == Eof {
        ended := true;
      } else if rerr == Failure {
        return false;
      }
    }
    if first {
      SendsOne(whole, stream.sent, Message(secretId, []), []);
      ok := stream.Send(Message(secretId, []));
      if !ok { return; }
    }
    ok := true;
  }
}
