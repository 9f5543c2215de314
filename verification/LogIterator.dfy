/**
 The resumable iterator of a recording (dbe_logdata_getbuffer), the copy loop on top of it
 and the log positions decoded from scattered records.
 */
module LogIterator {
  import opened Options
  import opened BlobPage
  import opened LogData
  import opened LogPos

  /** dbe_logdata_getbuffer; `first` is whether the caller passed NULL. */
  function Answered(r: Recording, first: bool): (Recording, Option<seq<byte>>)
    requires Whole(r)
  {
    if first then
      (r.(node := FirstNode(r), state := RawBegin), Some(FirstChunk(r)))
    else
      var r1 := if r.state == RawBegin then r.(node := FirstNode(r), state := RawNext) else r;
      if r1.state == RawNext && r1.node.Some? && r1.node.value < |r.bufs| then
        (r1.(node := NodeAfter(r, r1.node.value)), Some(Payload(r.bufs[r1.node.value])))
      else
        var r2 := if r1.state == RawNext then r1.(state := RawEnd) else r1;
        if r2.state == RawEnd && HasTail(r) then
          (r2.(state := End), Some(Payload(r.end.value)[..r.endpos]))
        else if r2.state == RawEnd || r2.state == End then
          (r2.(state := Begin), None)
        else (r2, None)
  }

  function FirstNode(r: Recording): Option<nat> {
    if r.bufs == [] then None else Some(0)
  }

  function NodeAfter(r: Recording, i: nat): Option<nat> {
    if i + 1 < |r.bufs| then Some(i + 1) else None
  }

  /** The part of a recording that iteration leaves alone. */
  predicate SameTape(r: Recording, q: Recording) {
    q.begin == r.begin && q.beginpos == r.beginpos && q.bufs == r.bufs && q.end == r.end && q.endpos == r.endpos
  }

  /** `n` chunks have been handed out since the last restart, the last answer was a chunk. */
  predicate At(r: Recording, n: nat)
    requires Whole(r)
  {
    && 1 <= n <= |Chunks(r)|
    && (n == 1 ==> r.state == RawBegin)
    && (1 < n <= 1 + |r.bufs| ==> r.state == RawNext && r.node == NodeAfter(r, n - 2))
    && (n == 2 + |r.bufs| ==> r.state == End)
  }

  /** From any state a NULL starts over, and from then on each call gives the next chunk,
      until one says there are no more. */
  lemma Steps(r: Recording, n: nat)
    requires Whole(r)
    ensures var (q, chunk) := Answered(r, true);
            Whole(q) && SameTape(r, q) && At(q, 1) && chunk == Some(Chunks(r)[0])
    ensures At(r, n) ==>
              var (q, chunk) := Answered(r, false);
              && Whole(q) && SameTape(r, q)
              && (if n < |Chunks(r)| then At(q, n + 1) && chunk == Some(Chunks(r)[n])
                  else q.state == Begin && chunk == None)
  {
  }

  // -------------------------------------------------------------------- runs

  /** A run of calls: true restarts. Gives the recording, the answers since the last restart. */
  function Run(r: Recording, calls: seq<bool>): (Recording, seq<Option<seq<byte>>>)
    requires Whole(r)
    ensures Whole(Run(r, calls).0) && SameTape(r, Run(r, calls).0)
  {
    if calls == [] then (r, [])
    else
      var (q, answers) := Run(r, calls[..|calls| - 1]);
      var (q', chunk) := Answered(q, calls[|calls| - 1]);
      (q', if calls[|calls| - 1] then [chunk] else answers + [chunk])
  }

  /** A caller begins with a restart and does not go on after the end. */
  predicate LegalRun(r: Recording, calls: seq<bool>)
    requires Whole(r)
  {
    calls == [] ||
    (LegalRun(r, calls[..|calls| - 1]) &&
     (calls[|calls| - 1] ||
      var answers := Run(r, calls[..|calls| - 1]).1;
      answers != [] && answers[|answers| - 1].Some?))
  }

  function Somes(s: seq<seq<byte>>): (t: seq<Option<seq<byte>>>)
    ensures |t| == |s| && forall i | 0 <= i < |s| :: t[i] == Some(s[i])
  {
    seq(|s|, i requires 0 <= i < |s| => Some(s[i]))
  }

  lemma SameChunks(r: Recording, q: Recording)
    requires Whole(r) && Whole(q) && SameTape(r, q)
    ensures Chunks(q) == Chunks(r)
  {
  }

  /** In every run with any number of restarts at any point, the answers since the last one
      are the chunks of the recording in order, then the end. */
  lemma {:induction false} Iterates(r: Recording, calls: seq<bool>)
    requires Whole(r) && LegalRun(r, calls) && calls != []
    ensures var answers := Run(r, calls).1;
            answers <= Somes(Chunks(r)) + [None] && answers != []
    ensures var (q, answers) := Run(r, calls);
            answers[|answers| - 1].Some? ==> At(q, |answers|)
  {
    hide Answered, Chunks, Whole;
    var before := calls[..|calls| - 1];
    var (q, answers) := Run(r, before);
    var (q', now) := Run(r, calls);
    if before != [] {
      Iterates(r, before);
    }
    SameChunks(r, q);
    SameChunks(r, q');
    Steps(q, |answers|);
  }

  /** Reading on, a restart in between, and the end. */
  lemma SomeCalls(r: Recording)
    requires Whole(r) && |Chunks(r)| == 2
    ensures var calls := [true, true, false, false];
            LegalRun(r, calls) && Run(r, calls).1 == [Some(Chunks(r)[0]), Some(Chunks(r)[1]), None]
  {
    hide Answered, Chunks, Whole;
    var calls := [true, true, false, false];
    assert calls[..3][..2] == calls[..2] && calls[..2][..1] == calls[..1] && calls[..1][..0] == [];
    Iterates(r, calls[..1]);
    Iterates(r, calls[..2]);
    Iterates(r, calls[..3]);
    assert Run(r, calls[..2]).1 == [Some(Chunks(r)[0])] && Run(r, calls[..3]).1[1] == Some(Chunks(r)[1]);
    Iterates(r, calls);
  }

  // ------------------------------------------------------- recording object

  lemma {:induction false} FlatPrefix(s: seq<seq<byte>>, n: nat)
    requires n < |s|
    ensures Flat(s[..n + 1]) == Flat(s[..n]) + s[n]
    ensures Flat(s[..n + 1]) <= Flat(s)
    decreases |s|
  {
    assert s[..n + 1][..n] == s[..n];
    if n + 1 < |s| {
      assert s[..|s| - 1][..n + 1] == s[..n + 1] && s[..|s| - 1][..n] == s[..n];
      FlatPrefix(s[..|s| - 1], n);
    } else {
      assert s[..n + 1] == s;
    }
  }

  // ------------------------------------------------------- decoded positions

  const DURABLE: byte := 56
  const REMOTE_DURABLE: byte := 57
  const REMOTE_DURABLE_ACK: byte := 66

  predicate HasPositions(rectype: byte) {
    rectype == DURABLE || HasRemote(rectype)
  }

  predicate HasRemote(rectype: byte) {
    rectype == REMOTE_DURABLE || rectype == REMOTE_DURABLE_ACK
  }

  function RecordLength(rectype: byte): nat {
    if rectype == DURABLE then 1 + BINSIZE else 1 + 2 * BINSIZE
  }

  /** A position in log file 0 stands for no position. */
  function Nullified(lp: LogPos): LogPos {
    if lp.fnum == 0 then NULLPOS else lp
  }

  function LocalPos(record: seq<byte>): LogPos
    requires |record| >= 1 + BINSIZE
  {
    Nullified(FromBinary(record[1..1 + BINSIZE]))
  }

  function RemotePos(record: seq<byte>): LogPos
    requires |record| == 1 + 2 * BINSIZE
  {
    FromBinary(record[1 + BINSIZE..])
  }

  /** A durability record as the log writes it. */
  function DurableRecord(rectype: byte, local: LogPos, remote: LogPos): (s: seq<byte>)
    requires HasPositions(rectype) && local.role < 256 && remote.role < 256
    ensures |s| == RecordLength(rectype)
  {
    [rectype] + Binary(local) + if HasRemote(rectype) then Binary(remote) else []
  }

  /** The positions written into a record come back out of it, the local one as null if and
      only if it has no log file. */
  lemma PositionsRoundTrip(rectype: byte, local: LogPos, remote: LogPos)
    requires HasPositions(rectype) && InRange(local) && InRange(remote)
    ensures var record := DurableRecord(rectype, local, remote);
            && |record| == (if rectype == 56 then 22 else 43) && record[0] == rectype
            && (local.fnum != 0 ==> LocalPos(record) == local)
            && (local.fnum == 0 ==> LocalPos(record) == NULLPOS)
            && (HasRemote(rectype) ==> RemotePos(record) == remote)
  {
    hide Binary, FromBinary;
    var record := DurableRecord(rectype, local, remote);
    assert record[1..1 + BINSIZE] == Binary(local);
    BinaryRoundTrip(local);
    BinaryRoundTrip(remote);
    if HasRemote(rectype) {
      assert record[1 + BINSIZE..] == Binary(remote);
    }
  }

  /** The buffers a record touches: one, or a first, some in the middle and a last one. */
  function Touched(first: Buf, middle: seq<Buf>, last: Buf): seq<Buf> {
    if first == last then [first] else [first] + middle + [last]
  }

  /** Wherever the buffer boundaries fall in a log that holds a durability record, recording
      that stretch and decoding it gives the positions that were written. */
  lemma PositionsAnywhere(before: seq<Buf>, first: Buf, middle: seq<Buf>, last: Buf, pos: nat, endpos: nat,
                          rectype: byte, local: LogPos, remote: LogPos)
    requires forall b | b in before + Touched(first, middle, last) :: BigEnough(b)
    requires forall b | b in before :: BigEnough(b)
    requires forall b | b in middle :: BigEnough(b)
    requires BigEnough(first) && BigEnough(last)
    requires pos <= |Payload(first)| && endpos <= |Payload(last)|
    requires if first == last then middle == [] && pos < endpos else first !in middle
    requires HasPositions(rectype) && InRange(local) && InRange(remote)
    requires Recorded(first, pos, middle, last, endpos).nbytes == RecordLength(rectype)
    requires Stretch(Tape(before + Touched(first, middle, last)), |Tape(before)| + pos, RecordLength(rectype)) ==
             DurableRecord(rectype, local, remote)
    ensures var r := Recorded(first, pos, middle, last, endpos);
            && Whole(r) && |Bytes(r)| == RecordLength(rectype)
            && (local.fnum != 0 ==> LocalPos(Bytes(r)) == local)
            && (local.fnum == 0 ==> LocalPos(Bytes(r)) == NULLPOS)
            && (HasRemote(rectype) ==> RemotePos(Bytes(r)) == remote)
  {
    hide Bytes, Tape, Recorded;
    if first == last {
      OneBuffer(before, first, pos, endpos);
    } else {
      assert before + Touched(first, middle, last) == before + [first] + middle + [last];
      ScatteredIsContiguous(before, first, middle, last, pos, endpos);
    }
    PositionsRoundTrip(rectype, local, remote);
  }

  /** The iterator points into the list or nowhere. */
  predicate NodeOk(r: Recording) {
    r.node.Some? ==> r.node.value < |r.bufs|
  }

  /** Where chunk `n` starts in the record. */
  function Offset(r: Recording, n: nat): nat
    requires Whole(r) && n <= |Chunks(r)|
  {
    |Flat(Chunks(r)[..n])|
  }

  lemma OffsetStep(r: Recording, n: nat)
    requires Whole(r) && n < |Chunks(r)|
    ensures Offset(r, n + 1) == Offset(r, n) + |Chunks(r)[n]| <= |Bytes(r)|
    ensures Bytes(r)[Offset(r, n)..Offset(r, n + 1)] == Chunks(r)[n]
  {
    hide Chunks;
    FlatPrefix(Chunks(r), n);
  }

  lemma OffsetEnds(r: Recording)
    requires Whole(r)
    ensures Offset(r, 0) == 0 && Offset(r, |Chunks(r)|) == |Bytes(r)|
  {
    hide Chunks;
    assert Chunks(r)[..|Chunks(r)|] == Chunks(r);
  }

  /** A recording that is being made and read in place. */
  class LogRecording {
    var begin: Buf
    var beginpos: nat
    var bufs: seq<Buf>
    var end: Option<Buf>
    var endpos: nat
    var nbytes: int
    var state: BufState
    var node: Option<nat>
    const rectype: byte
    var local: Option<LogPos>    // decoded once, on first use
    var remote: LogPos

    ghost function State(): Recording
      reads this
    {
      Recording(begin, beginpos, bufs, end, endpos, nbytes, state, node)
    }

    /** A recording that is being made counts the bytes of the raw buffers it has, and the
        begin buffer is not one of them. */
    ghost predicate Taping()
      reads this
    {
      && end.None? && BigEnough(begin) && begin !in bufs
      && (forall b | b in bufs :: BigEnough(b))
      && nbytes == |Flat(Payloads(bufs))|
    }

    constructor (rectype: byte, b: Buf, pos: nat)
      ensures BigEnough(b) ==> Taping()
      ensures State() == Opened(b, pos) && this.rectype == rectype && local == None && remote == NULLPOS
    {
      this.rectype, local, remote := rectype, None, NULLPOS;
      begin, beginpos, bufs, end, endpos, nbytes := b, pos, [], None, 0, 0;
      state, node := Begin, None;
    }

    method AddBuffer(b: Buf)
      requires BigEnough(b) && end.None?
      modifies this`bufs, this`nbytes
      ensures State() == Added(old(State()), b)
      ensures nbytes == old(nbytes) + if b == begin then 0 else |b.raw| - 4
      ensures old(Taping()) ==>
                && Taping()
                && Flat(Payloads(bufs)) == old(Flat(Payloads(bufs))) + if b == begin then [] else Payload(b)
    {
      if begin == b {
        return;
      }
      if forall x | x in bufs :: BigEnough(x) {
        PayloadsMore(bufs, b);
      }
      bufs := bufs + [b];
      nbytes := nbytes + |b.raw| - 2 * CHK;
    }

    method Close(b: Buf, pos: nat)
      requires end.None? && BigEnough(begin) && b !in bufs
      modifies this`end, this`endpos, this`nbytes
      ensures State() == Closed(old(State()), b, pos)
      ensures old(Taping()) && BigEnough(b) && beginpos <= |Payload(begin)| && pos <= |Payload(b)| &&
              (b == begin ==> beginpos < pos) ==>
                && Whole(State()) && nbytes == |Bytes(State())|
                && Bytes(State()) == (if b == begin then Payload(begin)[beginpos..pos] + Flat(Payloads(bufs))
                                      else Payload(begin)[beginpos..] + Flat(Payloads(bufs)) + Payload(b)[..pos])
    {
      end, endpos := Some(b), pos;
      var n;
      if begin == b {
        n := endpos - beginpos;
      } else {
        n := |begin.raw| - beginpos - 2 * CHK;
        n := n + endpos;
      }
      nbytes := nbytes + n;
      if Whole(State()) {
        BytesParts(State());
      }
    }

    method GetBuffer(first: bool) returns (chunk: Option<seq<byte>>)
      requires Whole(State()) && NodeOk(State())
      modifies this`node, this`state
      ensures (State(), chunk) == Answered(old(State()), first) && NodeOk(State())
    {
      if first {
        if begin == end.value {
          chunk := Some(Payload(begin)[beginpos..endpos]);
        } else {
          chunk := Some(Payload(begin)[beginpos..|begin.raw| - 2 * CHK]);
          assert chunk.value == Payload(begin)[beginpos..];
        }
        node := None;
        if bufs != [] {
          node := Some(0);
        }
        state := RawBegin;
        return;
      }
      if state == RawBegin {
        node := None;
        if bufs != [] {
          node := Some(0);
        }
        state := RawNext;
      }
      if state == RawNext {
        if node.Some? {
          chunk := Some(Payload(bufs[node.value]));
          node := if node.value + 1 < |bufs| then Some(node.value + 1) else None;
          return;
        }
        state := RawEnd;
      }
      if state == RawEnd {
        state := End;
        if begin != end.value && endpos > 0 {
          return Some(Payload(end.value)[..endpos]);
        }
      }
      chunk := None;
      if state == End {
        state := Begin;
      }
    }

    /** The n-th call in a row. */
    method NextChunk(first: bool, ghost r: Recording, ghost n: nat) returns (chunk: Option<seq<byte>>)
      requires Whole(State()) && NodeOk(State()) && Whole(r) && SameTape(r, State())
      requires first == (n == 0) && (n > 0 ==> At(State(), n)) && n <= |Chunks(r)|
      modifies this`node, this`state
      ensures Whole(State()) && NodeOk(State()) && SameTape(r, State())
      ensures if n < |Chunks(r)| then At(State(), n + 1) && chunk == Some(Chunks(r)[n]) else chunk == None
    {
      hide Answered, Chunks, At;
      SameChunks(r, State());
      Steps(State(), n);
      FirstExists(r);
      chunk := GetBuffer(first);
    }

    /** logdata_getdata: the first `len` bytes of the record, gathered into one buffer. */
    method GetData(buf: array<byte>, len: nat) returns (bytes: nat)
      requires Whole(State()) && NodeOk(State()) && len <= buf.Length
      modifies this`node, this`state, buf
      ensures SameTape(old(State()), State()) && Whole(State()) && NodeOk(State())
      ensures bytes == if len <= |Bytes(old(State()))| then len else |Bytes(old(State()))|
      ensures buf[..] == Spliced(old(buf[..]), 0, Bytes(old(State()))[..bytes])
    {
      hide Answered, Chunks, Whole, At, Bytes, Offset, Spliced;
      ghost var r := State();
      OffsetEnds(r);
      var n, first, nleft := 0, true, len;
      bytes := 0;
      while true
        invariant 0 <= n <= |Chunks(r)| && first == (n == 0)
        invariant SameTape(r, State()) && Whole(State()) && NodeOk(State())
        invariant n > 0 ==> At(State(), n)
        invariant bytes + nleft == len && (n > 0 ==> nleft > 0)
        invariant bytes == Offset(r, n) <= |Bytes(r)|
        invariant buf[..] == Spliced(old(buf[..]), 0, Bytes(r)[..bytes])
        decreases |Chunks(r)| - n
      {
        var chunk := NextChunk(first, r, n);
        if chunk.None? {
          break;
        }
        OffsetStep(r, n);
        var ncopy := if |chunk.value| < nleft then |chunk.value| else nleft;
        Copy(buf, bytes, chunk.value[..ncopy]);
        CopyMore(old(buf[..]), Bytes(r), bytes, chunk.value, ncopy);
        bytes, nleft, n, first := bytes + ncopy, nleft - ncopy, n + 1, false;
        if bytes >= len {
          break;
        }
      }
    }

    /** logdata_decode_logpos. A position that was decoded before is not decoded again. */
    method DecodeLogPos() returns (known: bool)
      requires Whole(State()) && NodeOk(State())
      requires HasPositions(rectype) ==> |Bytes(State())| == RecordLength(rectype)
      modifies this`node, this`state, this`local, this`remote
      ensures SameTape(old(State()), State()) && Whole(State()) && NodeOk(State())
      ensures known <==> rectype == 56 || rectype == 57 || rectype == 66
      ensures !known ==> local == old(local) && remote == old(remote)
      ensures known && old(local).Some? ==> local == old(local)
      ensures known && old(local).None? ==>
                var lp := FromBinary(Bytes(old(State()))[1..22]);
                local == Some(if lp.fnum != 0 then lp else NULLPOS)
      ensures known ==>
                remote == if rectype == 56 then old(remote) else FromBinary(Bytes(old(State()))[22..])
    {
      known := HasPositions(rectype);
      if known {
        hide Bytes, Spliced, Whole, FromBinary;
        var len := RecordLength(rectype);
        var buf := new byte[1 + 2 * BINSIZE](_ => 0);
        var bytes := GetData(buf, len);
        ghost var record := Bytes(old(State()));
        assert record[..bytes] == record;
        assert buf[..len] == record;
        if local.None? {
          local := Some(Nullified(FromBinary(buf[..len][1..1 + BINSIZE])));
        }
        if HasRemote(rectype) {
          remote := FromBinary(buf[..len][1 + BINSIZE..]);
        }
      }
    }
  }

  lemma FirstExists(r: Recording)
    requires Whole(r)
    ensures |Chunks(r)| > 0
  {
  }

  lemma CopyMore(was: seq<byte>, all: seq<byte>, k: nat, chunk: seq<byte>, n: nat)
    requires n <= |chunk| && k + |chunk| <= |all| && k + n <= |was| && all[k..k + |chunk|] == chunk
    ensures Spliced(Spliced(was, 0, all[..k]), k, chunk[..n]) == Spliced(was, 0, all[..k + n])
  {
    assert forall i | k <= i < k + n :: all[i] == all[k..k + |chunk|][i - k];
  }

  /** memcpy. */
  method Copy(buf: array<byte>, at: nat, data: seq<byte>)
    requires at + |data| <= buf.Length
    modifies buf
    ensures buf[..] == Spliced(old(buf[..]), at, data)
  {
    var i := 0;
    while i < |data|
      invariant 0 <= i <= |data|
      invariant forall k | at <= k < at + i :: buf[k] == data[k - at]
      invariant forall k | 0 <= k < buf.Length && !(at <= k < at + i) :: buf[k] == old(buf[k])
    {
      buf[at + i] := data[i];
      i := i + 1;
    }
  }
}
