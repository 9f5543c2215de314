/**
 Log record recordings of dbe/dbe0ld.c: a record that lies scattered over log buffers, the
 resumable iterator over its chunks and its byte count.
 */
module LogData {
  import opened Options
  import opened BlobPage

  /** Size of the check field at either end of a log buffer. */
  const CHK: nat := 2

  /** A log buffer; `id` tells apart buffers that happen to hold the same bytes. */
  datatype Buf = Buf(id: nat, raw: seq<byte>)

  predicate BigEnough(b: Buf) {
    |b.raw| >= 2 * CHK
  }

  /** The bytes between the check fields. */
  function Payload(b: Buf): (s: seq<byte>)
    requires BigEnough(b)
    ensures |s| == |b.raw| - 4 && forall i | 0 <= i < |s| :: s[i] == b.raw[i + 2]
  {
    b.raw[CHK..|b.raw| - CHK]
  }

  datatype BufState = Begin | RawBegin | RawNext | RawEnd | End

  /** dbe_logdata_t; `node` is the list position of the iterator. */
  datatype Recording = Recording(
    begin: Buf,
    beginpos: nat,
    bufs: seq<Buf>,
    end: Option<Buf>,
    endpos: nat,
    nbytes: int,
    state: BufState,
    node: Option<nat>)

  // ---------------------------------------------------------------- recording

  function Opened(b: Buf, pos: nat): Recording {
    Recording(b, pos, [], None, 0, 0, Begin, None)
  }

  /** dbe_logdata_addbuffer: the begin buffer again is ignored. */
  function Added(r: Recording, b: Buf): Recording
    requires BigEnough(b)
  {
    if r.begin == b then r
    else r.(bufs := r.bufs + [b], nbytes := r.nbytes + |b.raw| - 2 * CHK)
  }

  function AddedAll(r: Recording, bs: seq<Buf>): Recording
    requires forall b | b in bs :: BigEnough(b)
  {
    if bs == [] then r else Added(AddedAll(r, bs[..|bs| - 1]), bs[|bs| - 1])
  }

  /** dbe_logdata_close. */
  function Closed(r: Recording, b: Buf, pos: nat): Recording {
    var n := if r.begin == b then pos - r.beginpos else |r.begin.raw| - r.beginpos - 2 * CHK + pos;
    r.(end := Some(b), endpos := pos, nbytes := r.nbytes + n)
  }

  /** A closed recording with positions inside their buffers; within one buffer it is not empty. */
  predicate Whole(r: Recording) {
    && r.end.Some? && BigEnough(r.begin) && BigEnough(r.end.value)
    && (forall b | b in r.bufs :: BigEnough(b))
    && r.beginpos <= |Payload(r.begin)| && r.endpos <= |Payload(r.end.value)|
    && (r.begin == r.end.value ==> r.beginpos < r.endpos)
  }

  // ------------------------------------------------------------------- chunks

  function FirstChunk(r: Recording): seq<byte>
    requires Whole(r)
  {
    if r.begin == r.end.value then Payload(r.begin)[r.beginpos..r.endpos] else Payload(r.begin)[r.beginpos..]
  }

  function Payloads(bs: seq<Buf>): (s: seq<seq<byte>>)
    requires forall b | b in bs :: BigEnough(b)
    ensures |s| == |bs|
    ensures forall i | 0 <= i < |bs| :: s[i] == Payload(bs[i])
  {
    seq(|bs|, i requires 0 <= i < |bs| => Payload(bs[i]))
  }

  predicate HasTail(r: Recording)
    requires Whole(r)
  {
    r.begin != r.end.value && r.endpos > 0
  }

  /** The chunks of a recording in order: rest of the begin buffer, raw buffers, head of the
      end buffer. */
  function Chunks(r: Recording): (s: seq<seq<byte>>)
    requires Whole(r)
    ensures |s| == 1 + |r.bufs| + if HasTail(r) then 1 else 0
  {
    [FirstChunk(r)] + Payloads(r.bufs) + if HasTail(r) then [Payload(r.end.value)[..r.endpos]] else []
  }

  function Flat(s: seq<seq<byte>>): seq<byte> {
    if s == [] then [] else Flat(s[..|s| - 1]) + s[|s| - 1]
  }

  function Bytes(r: Recording): seq<byte>
    requires Whole(r)
  {
    Flat(Chunks(r))
  }

  lemma {:induction false} FlatAppend(s: seq<seq<byte>>, t: seq<seq<byte>>)
    ensures Flat(s + t) == Flat(s) + Flat(t)
  {
    if t == [] {
      assert s + t == s;
    } else {
      assert (s + t)[..|s + t| - 1] == s + t[..|t| - 1];
      FlatAppend(s, t[..|t| - 1]);
    }
  }

  lemma FlatOne(x: seq<byte>)
    ensures Flat([x]) == x
  {
    assert [x][..0] == [];
  }

  lemma BytesParts(r: Recording)
    requires Whole(r)
    ensures Bytes(r) == FirstChunk(r) + Flat(Payloads(r.bufs)) +
                        if HasTail(r) then Payload(r.end.value)[..r.endpos] else []
  {
    var tail: seq<seq<byte>> := if HasTail(r) then [Payload(r.end.value)[..r.endpos]] else [];
    FlatAppend([FirstChunk(r)] + Payloads(r.bufs), tail);
    FlatAppend([FirstChunk(r)], Payloads(r.bufs));
    FlatOne(FirstChunk(r));
    if HasTail(r) {
      FlatOne(Payload(r.end.value)[..r.endpos]);
    }
  }

  // --------------------------------------------------------------- accounting

  /** A recording as its life makes it: opened, buffers added, closed. */
  function Recorded(b: Buf, pos: nat, adds: seq<Buf>, e: Buf, endpos: nat): Recording
    requires BigEnough(b) && forall x | x in adds :: BigEnough(x)
  {
    Closed(AddedAll(Opened(b, pos), adds), e, endpos)
  }

  /** The buffers that are kept: all but the begin buffer. */
  function Kept(b: Buf, adds: seq<Buf>): (s: seq<Buf>)
    ensures forall x | x in s :: x in adds
  {
    if adds == [] then []
    else
      var rest := Kept(b, adds[..|adds| - 1]);
      if adds[|adds| - 1] == b then rest else rest + [adds[|adds| - 1]]
  }

  lemma {:induction false} AddedAllParts(b: Buf, pos: nat, adds: seq<Buf>)
    requires forall x | x in adds :: BigEnough(x)
    ensures var r := AddedAll(Opened(b, pos), adds);
            && r.begin == b && r.beginpos == pos && r.end.None? && r.state == Begin
            && r.bufs == Kept(b, adds) && r.nbytes == |Flat(Payloads(Kept(b, adds)))|
  {
    if adds != [] {
      var before, x := adds[..|adds| - 1], adds[|adds| - 1];
      AddedAllParts(b, pos, before);
      assert x in adds;
      if x != b {
        PayloadsMore(Kept(b, before), x);
      }
    }
  }

  lemma PayloadsMore(bs: seq<Buf>, x: Buf)
    requires BigEnough(x) && forall b | b in bs :: BigEnough(b)
    ensures Flat(Payloads(bs + [x])) == Flat(Payloads(bs)) + Payload(x)
  {
    assert Payloads(bs + [x]) == Payloads(bs) + [Payload(x)];
    FlatAppend(Payloads(bs), [Payload(x)]);
    FlatOne(Payload(x));
  }

  /** The byte count is the number of bytes the iterator hands out, for every recording. */
  lemma Accounting(b: Buf, pos: nat, adds: seq<Buf>, e: Buf, endpos: nat)
    requires BigEnough(b) && forall x | x in adds :: BigEnough(x)
    requires Whole(Recorded(b, pos, adds, e, endpos))
    ensures Recorded(b, pos, adds, e, endpos).nbytes == |Bytes(Recorded(b, pos, adds, e, endpos))|
  {
    AddedAllParts(b, pos, adds);
    BytesParts(Recorded(b, pos, adds, e, endpos));
  }

  // ----------------------------------------------------------------- the tape

  /** The log as one byte string over successive buffers. */
  function Tape(bs: seq<Buf>): seq<byte>
    requires forall b | b in bs :: BigEnough(b)
  {
    Flat(Payloads(bs))
  }

  lemma TapeAppend(xs: seq<Buf>, ys: seq<Buf>)
    requires forall b | b in xs + ys :: BigEnough(b)
    ensures forall b | b in xs :: BigEnough(b)
    ensures forall b | b in ys :: BigEnough(b)
    ensures Tape(xs + ys) == Tape(xs) + Tape(ys)
  {
    assert forall b | b in xs :: b in xs + ys;
    assert forall b | b in ys :: b in xs + ys;
    assert Payloads(xs + ys) == Payloads(xs) + Payloads(ys);
    FlatAppend(Payloads(xs), Payloads(ys));
  }

  lemma TapeOne(b: Buf)
    requires BigEnough(b)
    ensures Tape([b]) == Payload(b)
  {
    assert Payloads([b]) == [Payload(b)];
    FlatOne(Payload(b));
  }

  lemma {:induction false} KeptNone(b: Buf, adds: seq<Buf>)
    requires b !in adds
    ensures Kept(b, adds) == adds
  {
    if adds != [] {
      KeptNone(b, adds[..|adds| - 1]);
      assert adds == adds[..|adds| - 1] + [adds[|adds| - 1]];
    }
  }

  function Stretch(s: seq<byte>, i: nat, n: int): seq<byte> {
    if 0 <= n && i + n <= |s| then s[i..i + n] else []
  }

  /** A record recorded over several buffers of the log is the contiguous stretch of the log
      from its first byte to its last, wherever the buffer boundaries fall: `before` are the
      buffers in front, `first`, `middle` and `last` those the record touches. Adding the
      begin buffer once more changes nothing. */
  lemma ScatteredIsContiguous(before: seq<Buf>, first: Buf, middle: seq<Buf>, last: Buf, pos: nat, endpos: nat)
    requires forall b | b in before + [first] + middle + [last] :: BigEnough(b)
    requires BigEnough(first) && BigEnough(last)
    requires first != last && first !in middle && pos <= |Payload(first)| && endpos <= |Payload(last)|
    ensures forall b | b in before :: BigEnough(b)
    ensures forall b | b in middle :: BigEnough(b)
    ensures var r := Recorded(first, pos, middle, last, endpos);
            && Whole(r)
            && r.nbytes == |Bytes(r)|
            && Bytes(r) == Stretch(Tape(before + [first] + middle + [last]), |Tape(before)| + pos, r.nbytes)
            && Recorded(first, pos, [first] + middle, last, endpos) == r
  {
    hide Tape, Payload, Bytes;
    var all := before + [first] + middle + [last];
    assert forall b | b in middle :: b in all;
    TapeParts(before, first, middle, last);
    RecordedParts(first, pos, middle, last, endpos);
    Slice(Tape(before), Payload(first), Tape(middle), Payload(last), pos, endpos);
    SameBuilt(first, pos, middle);
  }

  lemma TapeParts(before: seq<Buf>, first: Buf, middle: seq<Buf>, last: Buf)
    requires forall b | b in before + [first] + middle + [last] :: BigEnough(b)
    requires BigEnough(first) && BigEnough(last)
    ensures forall b | b in before :: BigEnough(b)
    ensures forall b | b in middle :: BigEnough(b)
    ensures Tape(before + [first] + middle + [last]) == Tape(before) + Payload(first) + Tape(middle) + Payload(last)
  {
    hide Tape, Payload;
    TapeAppend(before + [first] + middle, [last]);
    TapeAppend(before + [first], middle);
    TapeAppend(before, [first]);
    TapeOne(first);
    TapeOne(last);
  }

  lemma RecordedParts(first: Buf, pos: nat, middle: seq<Buf>, last: Buf, endpos: nat)
    requires BigEnough(first) && BigEnough(last) && forall b | b in middle :: BigEnough(b)
    requires first != last && first !in middle && pos <= |Payload(first)| && endpos <= |Payload(last)|
    ensures var r := Recorded(first, pos, middle, last, endpos);
            && Whole(r) && r.nbytes == |Bytes(r)|
            && Bytes(r) == Payload(first)[pos..] + Tape(middle) + Payload(last)[..endpos]
  {
    AddedAllParts(first, pos, middle);
    KeptNone(first, middle);
    BytesParts(Recorded(first, pos, middle, last, endpos));
    Accounting(first, pos, middle, last, endpos);
  }

  lemma Slice(a: seq<byte>, b: seq<byte>, c: seq<byte>, d: seq<byte>, pos: nat, endpos: nat)
    requires pos <= |b| && endpos <= |d|
    ensures var piece := b[pos..] + c + d[..endpos];
            Stretch(a + b + c + d, |a| + pos, |piece|) == piece
  {
  }

  lemma {:induction false} SameBuilt(first: Buf, pos: nat, middle: seq<Buf>)
    requires BigEnough(first) && forall b | b in middle :: BigEnough(b)
    ensures AddedAll(Opened(first, pos), [first] + middle) == AddedAll(Opened(first, pos), middle)
  {
    if middle == [] {
      assert [first] + middle == [first] && [first][..0] == [];
      AddedAllParts(first, pos, []);
    } else {
      assert ([first] + middle)[..|[first] + middle| - 1] == [first] + middle[..|middle| - 1];
      AddedAllParts(first, pos, middle[..|middle| - 1]);
      SameBuilt(first, pos, middle[..|middle| - 1]);
    }
  }

  /** And within one buffer. */
  lemma OneBuffer(before: seq<Buf>, first: Buf, pos: nat, endpos: nat)
    requires (forall b | b in before + [first] :: BigEnough(b)) && BigEnough(first) && pos < endpos <= |Payload(first)|
    ensures forall b | b in before :: BigEnough(b)
    ensures var r := Recorded(first, pos, [], first, endpos);
            && Whole(r) && r.nbytes == endpos - pos
            && Bytes(r) == Stretch(Tape(before + [first]), |Tape(before)| + pos, r.nbytes)
  {
    hide Tape, Payload;
    TapeAppend(before, [first]);
    TapeOne(first);
    BytesParts(Recorded(first, pos, [], first, endpos));
    assert Payloads([]) == [];
  }
}
