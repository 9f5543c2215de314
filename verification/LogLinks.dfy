/**
 Link counts of log buffers (dbe/dbe0hsbbuf.c) shared between their owner and any number of
 recordings (dbe/dbe0ld.c).
 */
module LogLinks {
  import opened Options

  type BufId = nat

  /** What a recording refers to, and its own link count. */
  datatype Rec = Rec(begin: BufId, bufs: seq<BufId>, end: Option<BufId>, nlink: nat)

  /** Live buffers with their counts, the buffers their creator still holds, and the
      recordings; a freed recording leaves its place empty. */
  datatype Pool = Pool(links: map<BufId, int>, owned: set<BufId>, next: BufId, recs: seq<Option<Rec>>)

  datatype Event =
    | NewBuf
    | OwnerDone(b: BufId)
    | Init(b: BufId)
    | AddBuffer(r: nat, b: BufId)
    | Close(r: nat, b: BufId)
    | Link(r: nat)
    | Done(r: nat)

  // ---------------------------------------------------------------- outcomes

  function Linked(links: map<BufId, int>, b: BufId): map<BufId, int> {
    if b in links then links[b := links[b] + 1] else links
  }

  /** dbe_hsbbuf_done; nothing sensible can be said about a buffer that is gone. */
  function Unlinked(links: map<BufId, int>, b: BufId): Option<map<BufId, int>> {
    if b !in links then None
    else if links[b] == 1 then Some(links - {b})
    else Some(links[b := links[b] - 1])
  }

  function UnlinkedAll(links: map<BufId, int>, bs: seq<BufId>): Option<map<BufId, int>> {
    if bs == [] then Some(links)
    else
      var before := UnlinkedAll(links, bs[..|bs| - 1]);
      if before.None? then None else Unlinked(before.value, bs[|bs| - 1])
  }

  /** The links dbe_logdata_free gives back, in its order. */
  function RefList(rec: Rec): seq<BufId> {
    [rec.begin] + (if rec.end.Some? && rec.end.value != rec.begin then [rec.end.value] else []) + rec.bufs
  }

  predicate Live(p: Pool, r: nat) {
    r < |p.recs| && p.recs[r].Some?
  }

  /** What a caller owes: it holds the buffers it passes, a recording is closed once and with
      a buffer that is not among the raw ones, and only closed recordings go for good. */
  predicate Legal(p: Pool, ev: Event) {
    match ev
    case NewBuf => true
    case OwnerDone(b) => b in p.owned
    case Init(b) => b in p.links
    case AddBuffer(r, b) => Live(p, r) && p.recs[r].value.end.None? && b in p.links
    case Close(r, b) => Live(p, r) && p.recs[r].value.end.None? && b in p.links && b !in p.recs[r].value.bufs
    case Link(r) => Live(p, r)
    case Done(r) => Live(p, r) && (p.recs[r].value.nlink == 1 ==> p.recs[r].value.end.Some?)
  }

  /** None is a link given back for a buffer that is gone. */
  function Stepped(p: Pool, ev: Event): Option<Pool>
    requires Legal(p, ev)
  {
    match ev
    case NewBuf => Some(p.(links := p.links[p.next := 1], owned := p.owned + {p.next}, next := p.next + 1))
    case OwnerDone(b) =>
      var links := Unlinked(p.links, b);
      if links.None? then None else Some(p.(links := links.value, owned := p.owned - {b}))
    case Init(b) => Some(p.(links := Linked(p.links, b), recs := p.recs + [Some(Rec(b, [], None, 1))]))
    case AddBuffer(r, b) =>
      var rec := p.recs[r].value;
      if b == rec.begin then Some(p)
      else Some(p.(links := Linked(p.links, b), recs := p.recs[r := Some(rec.(bufs := rec.bufs + [b]))]))
    case Close(r, b) =>
      var rec := p.recs[r].value;
      Some(p.(links := if b != rec.begin then Linked(p.links, b) else p.links,
              recs := p.recs[r := Some(rec.(end := Some(b)))]))
    case Link(r) => Some(p.(recs := p.recs[r := Some(p.recs[r].value.(nlink := p.recs[r].value.nlink + 1))]))
    case Done(r) =>
      var rec := p.recs[r].value;
      if rec.nlink != 1 then
        Some(p.(recs := p.recs[r := Some(rec.(nlink := if rec.nlink == 0 then 0 else rec.nlink - 1))]))
      else
        var links := UnlinkedAll(p.links, RefList(rec));
        if links.None? then None else Some(p.(links := links.value, recs := p.recs[r := None]))
  }

  // --------------------------------------------------------------- references

  function Occurs(bs: seq<BufId>, b: BufId): nat {
    if bs == [] then 0 else Occurs(bs[..|bs| - 1], b) + if bs[|bs| - 1] == b then 1 else 0
  }

  function Refs(rec: Option<Rec>, b: BufId): nat {
    if rec.None? then 0 else Occurs(RefList(rec.value), b)
  }

  function AllRefs(recs: seq<Option<Rec>>, b: BufId): nat {
    if recs == [] then 0 else AllRefs(recs[..|recs| - 1], b) + Refs(recs[|recs| - 1], b)
  }

  function Count(p: Pool, b: BufId): nat {
    (if b in p.owned then 1 else 0) + AllRefs(p.recs, b)
  }

  /** A buffer lives exactly as long as somebody refers to it, and its count says how many. */
  predicate Counted(p: Pool, b: BufId) {
    && (b in p.links <==> Count(p, b) > 0)
    && (b in p.links ==> p.links[b] == Count(p, b) && b < p.next)
  }

  ghost predicate Inv(p: Pool) {
    && (forall b: BufId :: Counted(p, b))
    && (forall r: nat | Live(p, r) :: p.recs[r].value.nlink > 0)
  }

  lemma {:induction false} OccursAppend(xs: seq<BufId>, ys: seq<BufId>, b: BufId)
    ensures Occurs(xs + ys, b) == Occurs(xs, b) + Occurs(ys, b)
  {
    if ys == [] {
      assert xs + ys == xs;
    } else {
      assert (xs + ys)[..|xs + ys| - 1] == xs + ys[..|ys| - 1];
      OccursAppend(xs, ys[..|ys| - 1], b);
    }
  }

  lemma OccursOne(x: BufId, b: BufId)
    ensures Occurs([x], b) == if x == b then 1 else 0
  {
    assert [x][..0] == [];
  }

  lemma {:induction false} AllRefsUpdate(recs: seq<Option<Rec>>, r: nat, rec: Option<Rec>, b: BufId)
    requires r < |recs|
    ensures AllRefs(recs[r := rec], b) == AllRefs(recs, b) - Refs(recs[r], b) + Refs(rec, b)
    ensures AllRefs(recs, b) >= Refs(recs[r], b)
  {
    var next := recs[r := rec];
    if r < |recs| - 1 {
      assert next[..|recs| - 1] == recs[..|recs| - 1][r := rec];
      AllRefsUpdate(recs[..|recs| - 1], r, rec, b);
    } else {
      assert next[..|recs| - 1] == recs[..|recs| - 1];
    }
  }

  lemma AllRefsMore(recs: seq<Option<Rec>>, rec: Option<Rec>, b: BufId)
    ensures AllRefs(recs + [rec], b) == AllRefs(recs, b) + Refs(rec, b)
  {
    assert (recs + [rec])[..|recs|] == recs;
  }

  /** Giving back a list of links that are all held leaves the rest. */
  lemma {:induction false} UnlinkAllCounts(links: map<BufId, int>, bs: seq<BufId>)
    requires forall b :: Occurs(bs, b) > 0 ==> b in links && links[b] >= Occurs(bs, b)
    ensures UnlinkedAll(links, bs).Some?
    ensures forall b :: Rest(links, bs, UnlinkedAll(links, bs).value, b)
  {
    if bs != [] {
      var before, x := bs[..|bs| - 1], bs[|bs| - 1];
      UnlinkAllCounts(links, before);
      var mid := UnlinkedAll(links, before).value;
      assert Rest(links, before, mid, x);
      assert Occurs(bs, x) == Occurs(before, x) + 1;
      forall b ensures Rest(links, bs, UnlinkedAll(links, bs).value, b) {
        assert Rest(links, before, mid, b);
      }
    }
  }

  predicate Rest(links: map<BufId, int>, bs: seq<BufId>, left: map<BufId, int>, b: BufId) {
    if b in links && links[b] > Occurs(bs, b) then b in left && left[b] == links[b] - Occurs(bs, b)
    else if b in links && Occurs(bs, b) == 0 then b in left && left[b] == links[b]
    else b !in left
  }

  // -------------------------------------------------------------------- steps

  lemma NewBufKept(p: Pool)
    requires Inv(p)
    ensures Inv(Stepped(p, NewBuf).value)
  {
    var q := Stepped(p, NewBuf).value;
    forall b: BufId ensures Counted(q, b) {
      assert Counted(p, b);
    }
  }

  lemma OwnerDoneKept(p: Pool, b: BufId)
    requires Inv(p) && Legal(p, OwnerDone(b))
    ensures Stepped(p, OwnerDone(b)).Some? && Inv(Stepped(p, OwnerDone(b)).value)
  {
    assert Counted(p, b);
    var q := Stepped(p, OwnerDone(b)).value;
    forall x: BufId ensures Counted(q, x) {
      assert Counted(p, x);
    }
  }

  lemma InitKept(p: Pool, b: BufId)
    requires Inv(p) && Legal(p, Init(b))
    ensures Inv(Stepped(p, Init(b)).value)
  {
    var q := Stepped(p, Init(b)).value;
    var rec := Rec(b, [], None, 1);
    assert RefList(rec) == [b];
    forall x: BufId ensures Counted(q, x) {
      assert Counted(p, x) && Counted(p, b);
      AllRefsMore(p.recs, Some(rec), x);
      OccursOne(b, x);
    }
    forall r: nat | Live(q, r) ensures q.recs[r].value.nlink > 0 {
      assert r < |p.recs| ==> Live(p, r);
    }
  }

  /** One recording changes, and one buffer gets a link for it or not. */
  lemma RecordingMoves(p: Pool, r: nat, rec: Rec, b: BufId, more: bool)
    requires Inv(p) && Live(p, r) && b in p.links && rec.nlink > 0
    requires forall x: BufId :: Refs(Some(rec), x) == Refs(p.recs[r], x) + if more && x == b then 1 else 0
    ensures Inv(p.(links := if more then Linked(p.links, b) else p.links, recs := p.recs[r := Some(rec)]))
  {
    var q := p.(links := if more then Linked(p.links, b) else p.links, recs := p.recs[r := Some(rec)]);
    forall x: BufId ensures Counted(q, x) {
      assert Counted(p, x) && Counted(p, b);
      AllRefsUpdate(p.recs, r, Some(rec), x);
      assert Refs(Some(rec), x) == Refs(p.recs[r], x) + if more && x == b then 1 else 0;
    }
    forall k: nat | Live(q, k) ensures q.recs[k].value.nlink > 0 {
      assert Live(p, k);
    }
  }

  lemma AddBufferKept(p: Pool, r: nat, b: BufId)
    requires Inv(p) && Legal(p, AddBuffer(r, b))
    ensures Inv(Stepped(p, AddBuffer(r, b)).value)
  {
    var rec := p.recs[r].value;
    if b != rec.begin {
      var next := rec.(bufs := rec.bufs + [b]);
      assert RefList(next) == RefList(rec) + [b];
      forall x: BufId ensures Refs(Some(next), x) == Refs(p.recs[r], x) + if x == b then 1 else 0 {
        OccursAppend(RefList(rec), [b], x);
        OccursOne(b, x);
      }
      RecordingMoves(p, r, next, b, true);
    }
  }

  lemma CloseKept(p: Pool, r: nat, b: BufId)
    requires Inv(p) && Legal(p, Close(r, b))
    ensures Inv(Stepped(p, Close(r, b)).value)
  {
    var rec := p.recs[r].value;
    var next := rec.(end := Some(b));
    var tail := if b != rec.begin then [b] else [];
    assert RefList(rec) == [rec.begin] + rec.bufs && RefList(next) == [rec.begin] + tail + rec.bufs;
    forall x: BufId ensures Refs(Some(next), x) == Refs(p.recs[r], x) + if b != rec.begin && x == b then 1 else 0 {
      OccursAppend([rec.begin], rec.bufs, x);
      OccursAppend([rec.begin] + tail, rec.bufs, x);
      OccursAppend([rec.begin], tail, x);
      OccursOne(b, x);
    }
    RecordingMoves(p, r, next, b, b != rec.begin);
  }

  lemma LinkKept(p: Pool, r: nat, n: nat)
    requires Inv(p) && Live(p, r) && n > 0
    ensures Inv(p.(recs := p.recs[r := Some(p.recs[r].value.(nlink := n))]))
  {
    var rec := p.recs[r].value;
    var next := rec.(nlink := n);
    assert RefList(next) == RefList(rec);
    HasBegin(p, r);
    RecordingMoves(p, r, next, rec.begin, false);
  }

  /** A live recording keeps its buffers alive. */
  lemma HasBegin(p: Pool, r: nat)
    requires Inv(p) && Live(p, r)
    ensures p.recs[r].value.begin in p.links
    ensures forall b :: Occurs(RefList(p.recs[r].value), b) > 0 ==>
                          b in p.links && p.links[b] >= Occurs(RefList(p.recs[r].value), b)
  {
    var rec := p.recs[r].value;
    forall b: BufId ensures Occurs(RefList(rec), b) > 0 ==> b in p.links && p.links[b] >= Occurs(RefList(rec), b) {
      assert Counted(p, b);
      AllRefsUpdate(p.recs, r, None, b);
    }
    var rest := (if rec.end.Some? && rec.end.value != rec.begin then [rec.end.value] else []) + rec.bufs;
    assert RefList(rec) == [rec.begin] + rest;
    OccursAppend([rec.begin], rest, rec.begin);
    OccursOne(rec.begin, rec.begin);
  }

  lemma FreeKept(p: Pool, r: nat)
    requires Inv(p) && Legal(p, Done(r)) && p.recs[r].value.nlink == 1
    ensures Stepped(p, Done(r)).Some? && Inv(Stepped(p, Done(r)).value)
  {
    var rec := p.recs[r].value;
    HasBegin(p, r);
    UnlinkAllCounts(p.links, RefList(rec));
    var q := Stepped(p, Done(r)).value;
    forall b: BufId ensures Counted(q, b) {
      assert Counted(p, b);
      assert Rest(p.links, RefList(rec), q.links, b);
      AllRefsUpdate(p.recs, r, None, b);
    }
    forall k: nat | Live(q, k) ensures q.recs[k].value.nlink > 0 {
      assert Live(p, k);
    }
  }

  lemma StepKept(p: Pool, ev: Event)
    requires Inv(p) && Legal(p, ev)
    ensures Stepped(p, ev).Some? && Inv(Stepped(p, ev).value)
  {
    hide Counted;
    match ev
    case NewBuf => NewBufKept(p);
    case OwnerDone(b) => OwnerDoneKept(p, b);
    case Init(b) => InitKept(p, b);
    case AddBuffer(r, b) => AddBufferKept(p, r, b);
    case Close(r, b) => CloseKept(p, r, b);
    case Link(r) => LinkKept(p, r, p.recs[r].value.nlink + 1);
    case Done(r) =>
      if p.recs[r].value.nlink == 1 {
        FreeKept(p, r);
      } else {
        LinkKept(p, r, p.recs[r].value.nlink - 1);
      }
  }

  // --------------------------------------------------------------------- runs

  function Run(p: Pool, evs: seq<Event>): Option<Pool> {
    if evs == [] then Some(p)
    else
      var before := Run(p, evs[..|evs| - 1]);
      if before.None? || !Legal(before.value, evs[|evs| - 1]) then None else Stepped(before.value, evs[|evs| - 1])
  }

  predicate LegalRun(p: Pool, evs: seq<Event>) {
    evs == [] ||
    (LegalRun(p, evs[..|evs| - 1]) &&
     (Run(p, evs[..|evs| - 1]).Some? ==> Legal(Run(p, evs[..|evs| - 1]).value, evs[|evs| - 1])))
  }

  const EMPTY := Pool(map[], {}, 0, [])

  /** In every run no link is given back for a buffer that is gone, and the count of every
      buffer is its owner plus the recordings that name it; so a buffer is freed exactly when
      the last of them lets go. */
  lemma {:induction false} LinksBalance(evs: seq<Event>)
    requires LegalRun(EMPTY, evs)
    ensures Run(EMPTY, evs).Some? && Inv(Run(EMPTY, evs).value)
  {
    if evs == [] {
      forall b: BufId ensures Counted(EMPTY, b) {
      }
    } else {
      LinksBalance(evs[..|evs| - 1]);
      StepKept(Run(EMPTY, evs[..|evs| - 1]).value, evs[|evs| - 1]);
    }
  }

  function Inits(evs: seq<Event>): nat {
    if evs == [] then 0 else Inits(evs[..|evs| - 1]) + if evs[|evs| - 1].Init? then 1 else 0
  }

  /** The links of a recording, told from the events: one from its making, one more for each
      link taken, one less for each given back. */
  function LinksOf(evs: seq<Event>, r: nat): int {
    if evs == [] then 0
    else
      var before, ev := evs[..|evs| - 1], evs[|evs| - 1];
      LinksOf(before, r) +
      if ev.Init? && Inits(before) == r then 1 else if ev == Link(r) then 1 else if ev == Done(r) then -1 else 0
  }

  /** A recording lives exactly as long as more of its links were taken than given back. */
  lemma {:induction false} RecordingLives(evs: seq<Event>, r: nat)
    requires LegalRun(EMPTY, evs)
    ensures Run(EMPTY, evs).Some?
    ensures var p := Run(EMPTY, evs).value;
            && |p.recs| == Inits(evs)
            && (Live(p, r) <==> LinksOf(evs, r) > 0)
            && (Live(p, r) ==> p.recs[r].value.nlink == LinksOf(evs, r))
            && (!Live(p, r) ==> LinksOf(evs, r) == 0)
  {
    LinksBalance(evs);
    if evs != [] {
      RecordingLives(evs[..|evs| - 1], r);
      LinksBalance(evs[..|evs| - 1]);
      RecordingStep(Run(EMPTY, evs[..|evs| - 1]).value, evs[|evs| - 1], r);
    }
  }

  lemma RecordingStep(p: Pool, ev: Event, r: nat)
    requires Legal(p, ev) && Stepped(p, ev).Some? && (Live(p, r) ==> p.recs[r].value.nlink > 0)
    ensures var q := Stepped(p, ev).value;
            && |q.recs| == |p.recs| + (if ev.Init? then 1 else 0)
            && (Live(q, r) <==>
                || (Live(p, r) && !(ev == Done(r) && p.recs[r].value.nlink == 1))
                || (ev.Init? && r == |p.recs|))
            && (Live(q, r) ==>
                  q.recs[r].value.nlink ==
                  (if Live(p, r) then p.recs[r].value.nlink else 1) +
                  if ev == Link(r) then 1 else if ev == Done(r) then -1 else 0)
  {
    hide UnlinkedAll, Unlinked, Linked;
  }

  /** A recording names its begin buffer, its raw buffers and, unless that is the begin buffer
      again, its end buffer. */
  lemma RefListNames(rec: Rec, b: BufId)
    ensures Occurs(RefList(rec), b) ==
            (if b == rec.begin then 1 else 0) + Occurs(rec.bufs, b) +
            if rec.end == Some(b) && b != rec.begin then 1 else 0
  {
    hide Occurs;
    var tail := if rec.end.Some? && rec.end.value != rec.begin then [rec.end.value] else [];
    OccursAppend([rec.begin] + tail, rec.bufs, b);
    OccursAppend([rec.begin], tail, b);
    OccursOne(rec.begin, b);
    OccursNone(b);
    if tail != [] {
      OccursOne(rec.end.value, b);
    }
  }

  lemma OccursNone(b: BufId)
    ensures Occurs([], b) == 0
  {
  }

  function News(evs: seq<Event>): nat {
    if evs == [] then 0 else News(evs[..|evs| - 1]) + if evs[|evs| - 1].NewBuf? then 1 else 0
  }

  /** What a recording should hold, told from the events: the buffer it was begun with, those
      added since but for that one, and the buffer it was closed with. */
  function Taped(evs: seq<Event>, r: nat): Option<Rec> {
    if evs == [] then None
    else
      var before, ev := evs[..|evs| - 1], evs[|evs| - 1];
      var was := Taped(before, r);
      match ev
      case Init(b) => if Inits(before) == r then Some(Rec(b, [], None, 0)) else was
      case AddBuffer(i, b) =>
        if i == r && was.Some? && b != was.value.begin then Some(was.value.(bufs := was.value.bufs + [b])) else was
      case Close(i, b) => if i == r && was.Some? then Some(was.value.(end := Some(b))) else was
      case _ => was
  }

  /** In every run: buffers have an owner from their making until he lets go, and every recording
      that lives holds what the events put into it. */
  lemma {:induction false} TapesTold(evs: seq<Event>, r: nat, b: BufId)
    requires LegalRun(EMPTY, evs)
    ensures Run(EMPTY, evs).Some?
    ensures var p := Run(EMPTY, evs).value;
            && |p.recs| == Inits(evs) && p.next == News(evs)
            && (b in p.owned <==> b < News(evs) && OwnerDone(b) !in evs) && (OwnerDone(b) in evs ==> b < News(evs))
            && (r >= Inits(evs) ==> Taped(evs, r).None?)
            && (Live(p, r) ==> Taped(evs, r) == Some(p.recs[r].value.(nlink := 0)))
  {
    LinksBalance(evs);
    if evs != [] {
      var before, ev := evs[..|evs| - 1], evs[|evs| - 1];
      assert evs == before + [ev];
      TapesTold(before, r, b);
      TapeStep(Run(EMPTY, before).value, ev, r, b);
      if ev == OwnerDone(b) {
        assert b in Run(EMPTY, before).value.owned;
      }
    }
  }

  lemma TapeStep(p: Pool, ev: Event, r: nat, b: BufId)
    requires Legal(p, ev) && Stepped(p, ev).Some?
    ensures var q := Stepped(p, ev).value;
            && |q.recs| == |p.recs| + (if ev.Init? then 1 else 0)
            && q.next == p.next + (if ev.NewBuf? then 1 else 0)
            && (b in q.owned <==> (b in p.owned && ev != OwnerDone(b)) || (ev.NewBuf? && b == p.next))
            && (Live(q, r) ==>
                  if Live(p, r) then
                    var x, y := p.recs[r].value, q.recs[r].value;
                    && y.begin == x.begin
                    && y.bufs == (if ev.AddBuffer? && ev.r == r && ev.b != x.begin then x.bufs + [ev.b] else x.bufs)
                    && y.end == (if ev.Close? && ev.r == r then Some(ev.b) else x.end)
                  else
                    ev.Init? && r == |p.recs| && q.recs[r].value.(nlink := 0) == Rec(ev.b, [], None, 0))
  {
    hide UnlinkedAll, Unlinked, Linked;
  }

  const OPENED := Rec(0, [], None, 1)
  const CLOSED := Rec(0, [], Some(0), 1)

  lemma FirstSteps()
    ensures Run(EMPTY, []) == Some(EMPTY) && LegalRun(EMPTY, []) && Legal(EMPTY, NewBuf)
    ensures Legal(Pool(map[0 := 1], {0}, 1, []), Init(0))
    ensures Legal(Pool(map[0 := 2], {0}, 1, [Some(OPENED)]), OwnerDone(0))
    ensures Stepped(EMPTY, NewBuf) == Some(Pool(map[0 := 1], {0}, 1, []))
    ensures Stepped(Pool(map[0 := 1], {0}, 1, []), Init(0)) == Some(Pool(map[0 := 2], {0}, 1, [Some(OPENED)]))
    ensures Stepped(Pool(map[0 := 2], {0}, 1, [Some(OPENED)]), OwnerDone(0)) ==
            Some(Pool(map[0 := 1], {}, 1, [Some(OPENED)]))
  {
    assert EMPTY.links[0 := 1] == map[0 := 1] && {} + {0} == {0};
    assert map[0 := 1][0 := 2] == map[0 := 2] && [] + [Some(OPENED)] == [Some(OPENED)];
    assert map[0 := 2][0 := 1] == map[0 := 1] && {0} - {0} == {};
  }

  lemma LastSteps()
    ensures Legal(Pool(map[0 := 1], {}, 1, [Some(OPENED)]), Close(0, 0))
    ensures Stepped(Pool(map[0 := 1], {}, 1, [Some(OPENED)]), Close(0, 0)) ==
            Some(Pool(map[0 := 1], {}, 1, [Some(CLOSED)]))
    ensures Legal(Pool(map[0 := 1], {}, 1, [Some(CLOSED)]), Done(0))
    ensures Stepped(Pool(map[0 := 1], {}, 1, [Some(CLOSED)]), Done(0)) == Some(Pool(map[], {}, 1, [None]))
  {
    assert [Some(OPENED)][0 := Some(CLOSED)] == [Some(CLOSED)];
    assert RefList(CLOSED) == [0] && [0][..0] == [];
    assert map[0 := 1] - {0} == map[] && [Some(CLOSED)][0 := None] == [None];
  }

  /** A buffer that its owner lets go of lives on in a recording, and goes with it. */
  lemma SomeRun()
    ensures var evs := [NewBuf, Init(0), OwnerDone(0)] + [Close(0, 0)];
            && LegalRun(EMPTY, evs + [Done(0)])
            && Run(EMPTY, evs) == Some(Pool(map[0 := 1], {}, 1, [Some(CLOSED)]))
            && Run(EMPTY, evs + [Done(0)]) == Some(Pool(map[], {}, 1, [None]))
  {
    FirstSteps();
    LastSteps();
    hide Run, LegalRun, Stepped, Legal;
    assert [] + [NewBuf] + [Init(0)] + [OwnerDone(0)] == [NewBuf, Init(0), OwnerDone(0)];
    RunMore([], NewBuf);
    RunMore([] + [NewBuf], Init(0));
    RunMore([] + [NewBuf] + [Init(0)], OwnerDone(0));
    RunMore([NewBuf, Init(0), OwnerDone(0)], Close(0, 0));
    RunMore([NewBuf, Init(0), OwnerDone(0)] + [Close(0, 0)], Done(0));
  }

  lemma RunMore(evs: seq<Event>, ev: Event)
    requires Run(EMPTY, evs).Some?
    ensures LegalRun(EMPTY, evs + [ev]) <==> LegalRun(EMPTY, evs) && Legal(Run(EMPTY, evs).value, ev)
    ensures Legal(Run(EMPTY, evs).value, ev) ==> Run(EMPTY, evs + [ev]) == Stepped(Run(EMPTY, evs).value, ev)
  {
    hide Legal, Stepped;
    assert (evs + [ev])[..|evs|] == evs;
  }

  // ------------------------------------------------------------------- object

  /** The buffers as objects with counts changed in place. */
  class Buffers {
    var links: map<BufId, int>

    constructor ()
      ensures links == map[]
    {
      links := map[];
    }

    method DoneBuffer(b: BufId)
      requires b in links && links[b] > 0
      modifies this
      ensures Unlinked(old(links), b) == Some(links)
    {
      links := links[b := links[b] - 1];
      if links[b] == 0 {
        links := links - {b};
        assert links == old(links) - {b};
      }
    }

    /** dbe_logdata_free. */
    method FreeRecording(rec: Rec)
      requires rec.end.Some?
      requires forall b :: Occurs(RefList(rec), b) > 0 ==> b in links && links[b] >= Occurs(RefList(rec), b)
      modifies this
      ensures UnlinkedAll(old(links), RefList(rec)) == Some(links)
    {
      hide Occurs;
      var all := [rec.begin] + if rec.end.value != rec.begin then [rec.end.value] else [];
      all := all + rec.bufs;
      assert all == RefList(rec);
      var i := 0;
      while i < |all|
        invariant 0 <= i <= |all|
        invariant UnlinkedAll(old(links), all[..i]) == Some(links)
      {
        Held(old(links), all, i, links);
        DoneBuffer(all[i]);
        assert all[..i + 1][..i] == all[..i];
        i := i + 1;
      }
      assert all[..i] == all;
    }
  }

  /** Each link of a list is still there when its turn comes. */
  lemma Held(links: map<BufId, int>, bs: seq<BufId>, i: nat, now: map<BufId, int>)
    requires i < |bs| && UnlinkedAll(links, bs[..i]) == Some(now)
    requires forall b :: Occurs(bs, b) > 0 ==> b in links && links[b] >= Occurs(bs, b)
    ensures bs[i] in now && now[bs[i]] > 0
  {
    forall b: BufId ensures Occurs(bs[..i], b) <= Occurs(bs, b) {
      assert bs == bs[..i] + bs[i..];
      OccursAppend(bs[..i], bs[i..], b);
    }
    assert forall b :: Occurs(bs[..i], b) > 0 ==> Occurs(bs, b) > 0;
    UnlinkAllCounts(links, bs[..i]);
    var x := bs[i];
    assert bs == bs[..i] + [x] + bs[i + 1..];
    OccursAppend(bs[..i] + [x], bs[i + 1..], x);
    OccursAppend(bs[..i], [x], x);
    OccursOne(x, x);
    assert Rest(links, bs[..i], now, x);
  }
}
