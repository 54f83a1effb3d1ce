/** The length-prefix framing of a connection (valuerpc/rpc.go): a 4-byte
    big-endian length, then the payload. Writers reuse one buffer; readers
    consume a byte stream that may end anywhere. */
module Framing {

  type Byte = x: int | 0 <= x < 256

  const REUSABLE_WRITE_BUF_CAP: nat := 65536
  const TWO_32: int := 0x1_0000_0000

  function BigEndian32(n: int): (r: seq<Byte>)
    requires 0 <= n < TWO_32
    ensures |r| == 4
  {
    [n / 0x100_0000, n / 0x1_0000 % 256, n / 256 % 256, n % 256]
  }

  function Decode32(b: seq<Byte>): (n: int)
    requires |b| == 4
    ensures 0 <= n < TWO_32
  {
    var b0: int, b1: int, b2: int, b3: int := b[0], b[1], b[2], b[3];
    b0 * 0x100_0000 + b1 * 0x1_0000 + b2 * 256 + b3
  }

  lemma Decode32Inverts(n: int)
    requires 0 <= n < TWO_32
    ensures Decode32(BigEndian32(n)) == n
  {
    assert n / 256 / 256 == n / 0x1_0000 && n / 0x1_0000 / 256 == n / 0x100_0000;
  }

  /** What one write puts on the wire; the length field is a uint32. */
  function Frame(payload: seq<Byte>): (r: seq<Byte>)
    ensures |r| == 4 + |payload|
  {
    BigEndian32(|payload| % TWO_32) + payload
  }

  function Stream(payloads: seq<seq<Byte>>): seq<Byte> {
    if payloads == [] then [] else Frame(payloads[0]) + Stream(payloads[1..])
  }

  lemma {:induction false} StreamAppend(payloads: seq<seq<Byte>>, p: seq<Byte>)
    ensures Stream(payloads + [p]) == Stream(payloads) + Frame(p)
    decreases |payloads|
  {
    if payloads == [] {
      assert [p][1..] == [] && [] + [p] == [p];
    } else {
      assert (payloads + [p])[1..] == payloads[1..] + [p];
      StreamAppend(payloads[1..], p);
    }
  }

  // ---- writing ----

  class MsgWriter {
    var writeBuf: array<Byte>   // reused between writes; holds whatever the last one left
    var wire: seq<Byte>         // bytes handed to the connection so far
    var shutdown: bool
    ghost var written: seq<seq<Byte>>   // the payloads written so far
    ghost var whole: bool               // no write has failed so far

    /** As long as no write has failed the wire holds the frames of what was
        written; the retained buffer is empty or of the one reusable size. */
    ghost predicate Valid()
      reads this
    {
      && (writeBuf.Length == 0 || writeBuf.Length == REUSABLE_WRITE_BUF_CAP)
      && (whole ==> wire == Stream(written))
    }

    constructor ()
      ensures Valid() && fresh(writeBuf) && written == [] && wire == [] && whole && !shutdown
    {
      whole := true;
      writeBuf := new Byte[0];
      wire := [];
      shutdown := false;
      written := [];
    }

    /** Emits exactly one frame, whatever the reused buffer held before, and
        retains no buffer above the cap. A connection that takes only the first
        `accepts` bytes makes the write fail with those on the wire. */
    method WriteFrame(payload: seq<Byte>, accepts: nat) returns (ok: bool)
      requires Valid()
      modifies this`writeBuf, this`wire, this`written, this`whole, writeBuf
      ensures Valid() && (writeBuf == old(writeBuf) || fresh(writeBuf))
      ensures ok == (!shutdown && accepts >= 4 + |payload|)
      ensures written == if ok then old(written) + [payload] else old(written)
      ensures wire == if ok then old(wire) + Frame(payload)
                      else if shutdown then old(wire)
                      else old(wire) + Frame(payload)[..accepts]
      ensures whole == (old(whole) && (ok || shutdown))
    {
      if shutdown {
        return false;
      }
      var need := 4 + |payload|;
      var frame: array<Byte>;
      if need <= REUSABLE_WRITE_BUF_CAP {
        if writeBuf.Length < need {
          writeBuf := new Byte[REUSABLE_WRITE_BUF_CAP];
        }
        frame := writeBuf;
      } else {
        frame := new Byte[need];
      }
      PutUint32(frame, |payload| % TWO_32);
      CopyAfterHeader(frame, payload);
      assert frame[..need] == frame[..4] + frame[4..need];
      if accepts < need {
        assert frame[..accepts] == frame[..need][..accepts];
        wire, whole := wire + frame[..accepts], false;
        return false;
      }
      wire := wire + frame[..need];
      StreamAppend(written, payload);
      written := written + [payload];
      return true;
    }

    method Close()
      requires Valid()
      modifies this`shutdown
      ensures Valid() && shutdown
    {
      shutdown := true;
    }
  }

  method PutUint32(frame: array<Byte>, n: int)
    requires frame.Length >= 4 && 0 <= n < TWO_32
    modifies frame
    ensures frame[..4] == BigEndian32(n)
    ensures forall i :: 4 <= i < frame.Length ==> frame[i] == old(frame[i])
  {
    frame[0], frame[1], frame[2], frame[3] := n / 0x100_0000, n / 0x1_0000 % 256, n / 256 % 256, n % 256;
  }

  method CopyAfterHeader(frame: array<Byte>, payload: seq<Byte>)
    requires frame.Length >= 4 + |payload|
    modifies frame
    ensures frame[..4] == old(frame[..4])
    ensures frame[4..4 + |payload|] == payload
  {
    for i := 0 to |payload|
      invariant frame[..4] == old(frame[..4])
      invariant frame[4..4 + i] == payload[..i]
    {
      frame[4 + i] := payload[i];
      assert frame[4..4 + (i + 1)] == frame[4..4 + i] + [payload[i]];
    }
  }

  // ---- reading ----

  datatype Outcome = Message(payload: seq<Byte>) | Eof | UnexpectedEof | TooLarge

  /** io.ReadFull: no error for 0 bytes, EOF when nothing at all is left. */
  function ReadFull(stream: seq<Byte>, k: nat): Outcome {
    if k <= |stream| then Message(stream[..k])
    else if stream == [] then Eof
    else UnexpectedEof
  }

  /** The outcome of reading one message; a limit that is not positive is none. */
  function ReadFrame(stream: seq<Byte>, maxFrameSize: int): Outcome {
    var header := ReadFull(stream, 4);
    if !header.Message? then header
    else
      var n := Decode32(header.payload);
      if maxFrameSize > 0 && n > maxFrameSize then TooLarge else ReadFull(stream[4..], n)
  }

  /** What is left of the stream after that read. */
  function Rest(stream: seq<Byte>, maxFrameSize: int): seq<Byte> {
    match ReadFrame(stream, maxFrameSize)
    case Message(payload) => stream[4 + |payload|..]
    case TooLarge => stream[4..]
    case _ => []
  }

  class MsgReader {
    var unread: seq<Byte>
    const maxFrameSize: int

    constructor (stream: seq<Byte>, maxFrameSize: int)
      ensures unread == stream && this.maxFrameSize == maxFrameSize
    {
      unread := stream;
      this.maxFrameSize := maxFrameSize;
    }

    method Take(k: nat) returns (r: Outcome)
      modifies this
      ensures r == ReadFull(old(unread), k)
      ensures unread == if r.Message? then old(unread)[k..] else []
    {
      if k <= |unread| {
        r := Message(unread[..k]);
        unread := unread[k..];
      } else {
        r := if unread == [] then Eof else UnexpectedEof;
        unread := [];
      }
    }

    method ReadMessage() returns (r: Outcome)
      modifies this
      ensures r == ReadFrame(old(unread), maxFrameSize)
      ensures unread == Rest(old(unread), maxFrameSize)
    {
      r := Take(4);
      if !r.Message? {
        return r;
      }
      var n := Decode32(r.payload);
      if maxFrameSize > 0 && n > maxFrameSize {
        return TooLarge;
      }
      r := Take(n);
    }
  }

  /** All messages a reader gets before its first error. */
  function ReadAll(stream: seq<Byte>, maxFrameSize: int): seq<seq<Byte>>
    decreases |stream|
  {
    var r := ReadFrame(stream, maxFrameSize);
    if !r.Message? then [] else [r.payload] + ReadAll(Rest(stream, maxFrameSize), maxFrameSize)
  }

  /** That first error. */
  function EndOfReading(stream: seq<Byte>, maxFrameSize: int): Outcome
    decreases |stream|
  {
    var r := ReadFrame(stream, maxFrameSize);
    if !r.Message? then r else EndOfReading(Rest(stream, maxFrameSize), maxFrameSize)
  }

  // ---- theorems ----

  predicate Fits(payload: seq<Byte>, maxFrameSize: int) {
    |payload| < TWO_32 && (maxFrameSize > 0 ==> |payload| <= maxFrameSize)
  }

  /** The first frame of a stream comes back, and the stream goes on behind it. */
  lemma FirstFrameReads(payload: seq<Byte>, more: seq<Byte>, maxFrameSize: int)
    requires Fits(payload, maxFrameSize)
    ensures ReadFrame(Frame(payload) + more, maxFrameSize) == Message(payload)
    ensures Rest(Frame(payload) + more, maxFrameSize) == more
  {
    var s := Frame(payload) + more;
    assert s[..4] == BigEndian32(|payload|);
    Decode32Inverts(|payload|);
    assert s[4..] == payload + more;
  }

  /** A frame round-trips exactly when its length fits the field and the limit. */
  lemma RoundTripsExactlyWhenFits(payload: seq<Byte>, maxFrameSize: int)
    ensures ReadFrame(Frame(payload), maxFrameSize) == Message(payload) <==> Fits(payload, maxFrameSize)
  {
    var s := Frame(payload);
    assert s[..4] == BigEndian32(|payload| % TWO_32);
    Decode32Inverts(|payload| % TWO_32);
    assert s[4..] == payload;
  }

  /** A byte string with a length in front, cut short behind that. */
  lemma CutBehindHeader(f: seq<Byte>, k: nat, maxFrameSize: int)
    requires 4 <= k < |f| && |f| == 4 + Decode32(f[..4])
    requires maxFrameSize > 0 ==> Decode32(f[..4]) <= maxFrameSize
    ensures ReadFrame(f[..k], maxFrameSize) == if k == 4 then Eof else UnexpectedEof
  {
    assert f[..k][..4] == f[..4];
  }

  lemma FrameHeader(payload: seq<Byte>)
    requires |payload| < TWO_32
    ensures Decode32(Frame(payload)[..4]) == |payload|
  {
    assert Frame(payload)[..4] == BigEndian32(|payload|);
    Decode32Inverts(|payload|);
  }

  /** A frame cut short yields no message. It looks like the end of the stream
      when nothing is left or when just the header is. */
  lemma CutFrameFails(payload: seq<Byte>, k: nat, maxFrameSize: int)
    requires Fits(payload, maxFrameSize) && k < 4 + |payload|
    ensures ReadFrame(Frame(payload)[..k], maxFrameSize) == if k == 0 || k == 4 then Eof else UnexpectedEof
  {
    if k >= 4 {
      FrameHeader(payload);
      CutBehindHeader(Frame(payload), k, maxFrameSize);
    }
  }

  /** How many frames lie within the first `k` bytes. */
  function CompleteFrames(payloads: seq<seq<Byte>>, k: int): (m: nat)
    ensures m <= |payloads|
  {
    if payloads == [] || k < 4 + |payloads[0]| then 0
    else 1 + CompleteFrames(payloads[1..], k - 4 - |payloads[0]|)
  }

  lemma {:induction false} CompleteFramesFit(payloads: seq<seq<Byte>>, k: nat)
    requires k <= |Stream(payloads)|
    ensures |Stream(payloads[..CompleteFrames(payloads, k)])| <= k
    ensures CompleteFrames(payloads, k) < |payloads| ==>
              k < |Stream(payloads[..CompleteFrames(payloads, k) + 1])|
    decreases |payloads|
  {
    var m := CompleteFrames(payloads, k);
    if payloads != [] {
      if m > 0 {
        CompleteFramesFit(payloads[1..], k - 4 - |payloads[0]|);
        assert payloads[..m][1..] == payloads[1..][..m - 1];
        assert m < |payloads| ==> payloads[..m + 1][1..] == payloads[1..][..m];
      } else {
        assert payloads[..1][1..] == [];
      }
    }
  }

  /** A prefix that holds the first frame reads as that, and then as a prefix of
      the rest. */
  lemma FirstOfPrefix(payloads: seq<seq<Byte>>, k: nat, maxFrameSize: int)
    requires payloads != [] && 4 + |payloads[0]| <= k <= |Stream(payloads)| && Fits(payloads[0], maxFrameSize)
    ensures
      var more := Stream(payloads[1..])[..k - 4 - |payloads[0]|];
      && ReadAll(Stream(payloads)[..k], maxFrameSize) == [payloads[0]] + ReadAll(more, maxFrameSize)
      && EndOfReading(Stream(payloads)[..k], maxFrameSize) == EndOfReading(more, maxFrameSize)
  {
    var more := Stream(payloads[1..])[..k - 4 - |payloads[0]|];
    assert Stream(payloads)[..k] == Frame(payloads[0]) + more;
    FirstFrameReads(payloads[0], more, maxFrameSize);
  }

  lemma {:induction false} PrefixReads(payloads: seq<seq<Byte>>, k: nat, maxFrameSize: int)
    requires k <= |Stream(payloads)|
    requires forall i :: 0 <= i < |payloads| ==> Fits(payloads[i], maxFrameSize)
    ensures
      var m := CompleteFrames(payloads, k);
      var left := k - |Stream(payloads[..m])|;
      && ReadAll(Stream(payloads)[..k], maxFrameSize) == payloads[..m]
      && EndOfReading(Stream(payloads)[..k], maxFrameSize) == if left == 0 || left == 4 then Eof else UnexpectedEof
    decreases |payloads|
  {
    if payloads == [] {
    } else if k < 4 + |payloads[0]| {
      assert Stream(payloads)[..k] == Frame(payloads[0])[..k];
      CutFrameFails(payloads[0], k, maxFrameSize);
    } else {
      FirstOfPrefix(payloads, k, maxFrameSize);
      PrefixReads(payloads[1..], k - 4 - |payloads[0]|, maxFrameSize);
      StreamOfFirst(payloads, CompleteFrames(payloads, k));
    }
  }

  /** Reading any prefix of a stream of frames yields exactly the payloads of its
      complete frames, in order; then the reader reports a clean end of stream if
      the prefix ends between two frames or right behind a header, and an
      unexpected one otherwise. */
  lemma PrefixYieldsCompleteFrames(payloads: seq<seq<Byte>>, k: nat, maxFrameSize: int)
    requires k <= |Stream(payloads)|
    requires forall i :: 0 <= i < |payloads| ==> Fits(payloads[i], maxFrameSize)
    ensures
      var m := CompleteFrames(payloads, k);
      var left := k - |Stream(payloads[..m])|;
      && left >= 0 && (m < |payloads| ==> k < |Stream(payloads[..m + 1])|)
      && ReadAll(Stream(payloads)[..k], maxFrameSize) == payloads[..m]
      && EndOfReading(Stream(payloads)[..k], maxFrameSize) == if left == 0 || left == 4 then Eof else UnexpectedEof
  {
    PrefixReads(payloads, k, maxFrameSize);
    CompleteFramesFit(payloads, k);
  }

  /** After a write that failed with `k` bytes of its frame on the wire a reader
      gets exactly the payloads written before. */
  lemma {:induction false} FailedWriteYieldsEarlierFrames(payloads: seq<seq<Byte>>, p: seq<Byte>, k: nat,
                                                          maxFrameSize: int)
    requires forall i :: 0 <= i < |payloads| ==> Fits(payloads[i], maxFrameSize)
    requires Fits(p, maxFrameSize) && k < 4 + |p|
    ensures ReadAll(Stream(payloads) + Frame(p)[..k], maxFrameSize) == payloads
    decreases |payloads|
  {
    var cut := Frame(p)[..k];
    if payloads == [] {
      assert [] + cut == cut;
      CutFrameFails(p, k, maxFrameSize);
    } else {
      var more := Stream(payloads[1..]) + cut;
      assert Stream(payloads) + cut == Frame(payloads[0]) + more;
      FirstFrameReads(payloads[0], more, maxFrameSize);
      FailedWriteYieldsEarlierFrames(payloads[1..], p, k, maxFrameSize);
    }
  }

  /** The length a reader takes from the first four bytes. */
  function Claimed(s: seq<Byte>): int
    requires |s| >= 4
  {
    Decode32(s[..4])
  }

  lemma {:induction false} StreamSplits(payloads: seq<seq<Byte>>, j: nat)
    requires j <= |payloads|
    ensures Stream(payloads) == Stream(payloads[..j]) + Stream(payloads[j..])
    decreases j
  {
    if j > 0 {
      StreamSplits(payloads[1..], j - 1);
      assert payloads[..j][1..] == payloads[1..][..j - 1] && payloads[1..][j - 1..] == payloads[j..];
    }
  }

  /** Writing goes on behind a failed write. What is left of the broken frame and
      the beginning of what follows read as one message of the claimed length,
      if so much is there and within the limit; and the reader is then in step
      again, at the frame of `later[j]`, if and only if the frames before that
      one make up exactly what the claimed length still wanted. */
  lemma BackInStepExactlyWhenAligned(p: seq<Byte>, k: nat, later: seq<seq<Byte>>, j: nat, maxFrameSize: int)
    requires 0 < k < 4 + |p| && j <= |later|
    requires |Frame(p)[..k] + Stream(later)| >= 4
    ensures
      var s := Frame(p)[..k] + Stream(later);
      var n := Claimed(s);
      && (ReadFrame(s, maxFrameSize).Message? <==> (maxFrameSize > 0 ==> n <= maxFrameSize) && 4 + n <= |s|)
      && (ReadFrame(s, maxFrameSize).Message? ==>
            && ReadFrame(s, maxFrameSize).payload == s[4..4 + n]
            && (Rest(s, maxFrameSize) == Stream(later[j..]) <==> 4 + n == k + |Stream(later[..j])|))
  {
    StreamSplits(later, j);
    Tail(Frame(p)[..k] + Stream(later[..j]), Stream(later[j..]), Frame(p)[..k] + Stream(later), maxFrameSize);
  }

  lemma Tail(front: seq<Byte>, back: seq<Byte>, s: seq<Byte>, maxFrameSize: int)
    requires s == front + back && |s| >= 4
    ensures ReadFrame(s, maxFrameSize).Message? <==>
              (maxFrameSize > 0 ==> Claimed(s) <= maxFrameSize) && 4 + Claimed(s) <= |s|
    ensures ReadFrame(s, maxFrameSize).Message? ==>
              && ReadFrame(s, maxFrameSize).payload == s[4..4 + Claimed(s)]
              && (Rest(s, maxFrameSize) == back <==> 4 + Claimed(s) == |front|)
  {
    var n := Claimed(s);
    if 4 + n <= |s| {
      assert s[4..][..n] == s[4..4 + n];
      assert 4 + n == |front| ==> s[4 + n..] == back;
    }
  }

  /** In step or not, the message in between is none that was written: a frame
      of [7] broken behind its header, then [9], reads as [0]. */
  lemma BrokenFrameSwallowsTheNext()
    ensures ReadFrame(Frame([7])[..4] + Frame([9]), 0) == Message([0])
  {
    var s := Frame([7])[..4] + Frame([9]);
    assert s[..4] == BigEndian32(1);
    Decode32Inverts(1);
    assert s[4..] == Frame([9]);
  }

  lemma StreamOfFirst(payloads: seq<seq<Byte>>, m: nat)
    requires 1 <= m <= |payloads|
    ensures payloads[..m] == [payloads[0]] + payloads[1..][..m - 1]
    ensures |Stream(payloads[..m])| == 4 + |payloads[0]| + |Stream(payloads[1..][..m - 1])|
  {
    assert payloads[..m][1..] == payloads[1..][..m - 1];
  }
}
