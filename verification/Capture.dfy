/** Bodies read in pieces: the capturing reader, the streaming loop of ServeHTTP and the
    limited read of Replay. */
module Capture {
  import opened Events

  const MAX_CAPTURE_SIZE: nat := 64 * 1024
  const COPY_BUFFER_SIZE: nat := 32 * 1024

  datatype ReadError = NoError | EOF | Broken

  function Prefix(s: seq<Byte>, n: nat): (r: seq<Byte>)
    ensures r <= s && (r == s || |s| > |r| == n)
    ensures |r| <= n
  {
    if |s| <= n then s else s[..n]
  }

  /**
   * An upstream body: its bytes, whether it ends in a failure rather than EOF, and how it is
   * split. pieces gives the sizes of the next reads (zero included), after which reads are as
   * large as the caller's buffer; eager says whether the last bytes come together with the
   * final error. Every finite way of splitting the body is some choice of pieces and eager.
   */
  class Body {
    const content: seq<Byte>
    const fails: bool
    const eager: bool
    var pos: nat
    var pieces: seq<nat>

    ghost predicate Valid()
      reads this
    {
      pos <= |content|
    }

    function Final(): ReadError {
      if fails then Broken else EOF
    }

    ghost function Work(): nat
      reads this
      requires Valid()
    {
      |content| - pos + |pieces|
    }

    constructor (content: seq<Byte>, fails: bool, eager: bool, pieces: seq<nat>)
      ensures this.content == content && this.fails == fails && this.eager == eager
      ensures Valid() && pos == 0
    {
      this.content, this.fails, this.eager, this.pieces := content, fails, eager, pieces;
      pos := 0;
    }

    /** io.Reader.Read into a buffer of the given size. */
    method Read(space: nat) returns (data: seq<Byte>, err: ReadError)
      requires Valid() && space > 0
      modifies this
      ensures Valid() && old(pos) <= pos && |data| <= space
      ensures data == content[old(pos)..pos]
      ensures err != NoError <==> pos == |content| && (eager || old(pos) == |content|)
      ensures err != NoError ==> err == Final()
      ensures err == NoError ==> Work() < old(Work())
    {
      var start := pos;
      if pos < |content| {
        var size := Min(space, |content| - pos);
        if pieces != [] {
          size, pieces := Min(size, pieces[0]), pieces[1..];
        }
        pos := pos + size;
      }
      data := content[start..pos];
      err := if pos == |content| && (eager || start == |content|) then Final() else NoError;
    }
  }

  function Min(a: nat, b: nat): nat {
    if a <= b then a else b
  }

  /** Taking what still fits keeps the buffer equal to the capped stream. */
  lemma CaptureStep(seen: seq<Byte>, data: seq<Byte>, max: nat)
    ensures var buf := Prefix(seen, max);
      Prefix(seen + data, max) == buf + data[..Min(|data|, max - |buf|)]
  {
  }

  class CaptureReader {
    const r: Body
    const maxSize: nat
    ghost const start: nat
    var buf: seq<Byte>

    /** The captured bytes are the first maxSize of those that passed through. */
    ghost predicate Valid()
      reads this, r
    {
      && r.Valid()
      && start <= r.pos
      && buf == Prefix(r.content[start..r.pos], maxSize)
    }

    constructor (r: Body, maxSize: nat)
      requires r.Valid()
      ensures Valid() && this.r == r && this.maxSize == maxSize && start == r.pos
    {
      this.r, this.maxSize, this.start := r, maxSize, r.pos;
      buf := [];
    }

    method Read(space: nat) returns (data: seq<Byte>, err: ReadError)
      requires Valid() && space > 0
      modifies this, r
      ensures Valid() && old(r.pos) <= r.pos && |data| <= space
      ensures data == r.content[old(r.pos)..r.pos]
      ensures err != NoError <==> r.pos == |r.content| && (r.eager || old(r.pos) == |r.content|)
      ensures err != NoError ==> err == r.Final()
      ensures err == NoError ==> r.Work() < old(r.Work())
    {
      ghost var seen := r.content[start..r.pos];
      data, err := r.Read(space);
      CaptureStep(seen, data, maxSize);
      assert seen + data == r.content[start..r.pos];
      var remaining := maxSize - |buf|;
      if remaining > 0 && |data| > 0 {
        buf := buf + data[..Min(|data|, remaining)];
      }
    }

    function Bytes(): seq<Byte>
      reads this
    {
      buf
    }
  }

  /** The flushing loop of ServeHTTP: the client is offered exactly the upstream's bytes,
      however they are split, and the capture holds the first maxSize of them. */
  method StreamToClient(capture: CaptureReader) returns (offered: seq<Byte>)
    requires capture.Valid() && capture.start == capture.r.pos
    modifies capture, capture.r
    ensures capture.Valid()
    ensures offered == capture.r.content[capture.start..] && capture.r.pos == |capture.r.content|
    ensures capture.Bytes() == Prefix(capture.r.content[capture.start..], capture.maxSize)
  {
    offered := [];
    var readErr := NoError;
    while readErr == NoError
      invariant capture.Valid()
      invariant offered == capture.r.content[capture.start..capture.r.pos]
      invariant readErr != NoError ==> capture.r.pos == |capture.r.content|
      decreases readErr == NoError, capture.r.Work()
    {
      var data;
      data, readErr := capture.Read(COPY_BUFFER_SIZE);
      if |data| > 0 {
        offered := offered + data;
      }
    }
  }

  /** io.Copy, which ServeHTTP uses for a client that cannot flush. It stops at the first write
      that fails, if after some number of them one does. */
  method CopyToClient(capture: CaptureReader, writes: Option<nat>) returns (offered: seq<Byte>)
    requires capture.Valid() && capture.start == capture.r.pos
    modifies capture, capture.r
    ensures capture.Valid()
    ensures offered == capture.r.content[capture.start..capture.r.pos]
    ensures capture.Bytes() == Prefix(offered, capture.maxSize)
    ensures writes.None? ==> capture.r.pos == |capture.r.content|
  {
    offered := [];
    var readErr, failed, written := NoError, false, 0;
    while readErr == NoError && !failed
      invariant capture.Valid()
      invariant offered == capture.r.content[capture.start..capture.r.pos]
      invariant readErr != NoError ==> capture.r.pos == |capture.r.content|
      invariant failed ==> writes.Some?
      decreases readErr == NoError, capture.r.Work()
    {
      var data;
      data, readErr := capture.Read(COPY_BUFFER_SIZE);
      if |data| > 0 {
        offered := offered + data;
        failed := writes == Some(written);
        written := written + 1;
      }
    }
  }

  /** When io.ReadAll over io.LimitReader(body, limit) succeeds: the body ends well, or its
      failure lies beyond the limit, or exactly at it and unannounced by the last bytes. */
  predicate LimitedReadSucceeds(size: nat, fails: bool, eager: bool, limit: nat) {
    !fails || size > limit || (size == limit && !eager)
  }

  /** Replay's read of the response. The limiter shrinks each buffer to what it may still
      deliver and reports EOF once that is nothing; ReadAll picks its own buffer sizes. */
  method ReadLimited(body: Body, limit: nat, spaces: seq<nat>) returns (read: Option<seq<Byte>>)
    requires body.Valid() && body.pos == 0 && limit > 0
    modifies body
    ensures read.Some? <==> LimitedReadSucceeds(|body.content|, body.fails, body.eager, limit)
    ensures read.Some? ==> read.value == Prefix(body.content, limit)
  {
    var data: seq<Byte> := [];
    var err := NoError;
    var turn := 0;
    while err == NoError && |data| < limit
      invariant body.Valid() && |data| <= limit
      invariant data == body.content[..body.pos]
      invariant err != NoError ==> err == body.Final() && body.pos == |body.content|
      invariant body.pos == |body.content| && |data| == limit ==> (err != NoError <==> body.eager)
      decreases err == NoError, body.Work()
    {
      var space := if turn < |spaces| && spaces[turn] > 0 then spaces[turn] else 512;
      var chunk;
      chunk, err := body.Read(Min(space, limit - |data|));
      data, turn := data + chunk, turn + 1;
    }
    if err == Broken {
      read := None;
    } else {
      read := Some(data);
    }
  }

  /** One body, proxied and replayed, each time split in its own way: what the proxy captured is
      what the replay reads, unless the body breaks off too early for the replay. */
  method CaptureAgreesWithReplay(content: seq<Byte>, fails: bool, proxied: (bool, seq<nat>),
                                 replayed: (bool, seq<nat>), spaces: seq<nat>)
    returns (captured: seq<Byte>, read: Option<seq<Byte>>)
    ensures captured == Prefix(content, MAX_CAPTURE_SIZE)
    ensures read == if LimitedReadSucceeds(|content|, fails, replayed.0, MAX_CAPTURE_SIZE) then Some(captured) else None
    ensures !fails ==> read == Some(captured)
  {
    var first := new Body(content, fails, proxied.0, proxied.1);
    var capture := new CaptureReader(first, MAX_CAPTURE_SIZE);
    var offered := StreamToClient(capture);
    captured := capture.Bytes();
    var second := new Body(content, fails, replayed.0, replayed.1);
    read := ReadLimited(second, MAX_CAPTURE_SIZE, spaces);
  }

  /** DecompressGzip, with the gzip library as a parameter that yields None on bad input. */
  function Decompressed(gunzip: seq<Byte> -> Option<seq<Byte>>, data: seq<Byte>): seq<Byte> {
    if |data| < 2 || data[0] != 0x1f || data[1] != 0x8b then data
    else match gunzip(data)
      case None => data
      case Some(decoded) => decoded
  }

  predicate LooksGzipped(data: seq<Byte>) {
    |data| >= 2 && data[0] == 0x1f && data[1] == 0x8b
  }

  /** A library that reads back whatever its compressor wrote, magic header included. */
  ghost predicate ReadsBack(gzip: seq<Byte> -> seq<Byte>, gunzip: seq<Byte> -> Option<seq<Byte>>) {
    forall data :: LooksGzipped(gzip(data)) && gunzip(gzip(data)) == Some(data)
  }

  /** A compressed body that was captured whole is shown as it was before compression, whatever
      its decompressed size; anything else, a capture cut off at the limit included, is shown as
      it is unless the library makes sense of it. */
  lemma DecompressionUndoesCompression(gzip: seq<Byte> -> seq<Byte>, gunzip: seq<Byte> -> Option<seq<Byte>>,
                                       data: seq<Byte>)
    requires ReadsBack(gzip, gunzip)
    ensures |gzip(data)| <= MAX_CAPTURE_SIZE ==>
      Decompressed(gunzip, Prefix(gzip(data), MAX_CAPTURE_SIZE)) == data
    ensures !LooksGzipped(data) || gunzip(data) == None ==> Decompressed(gunzip, data) == data
  {
  }
}
