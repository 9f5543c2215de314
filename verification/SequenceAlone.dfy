/**
 Sparse SETs. The log is written outside the mutex, so it has the values of one sequence in
 the order of the changes only as long as no SET is at work together with another call. Here
 is that guard, and what the objects look like as long as it is kept.
 */
module SequenceAlone {
  import opened Sequence
  import opened SequenceLinks
  import Sparse = SequenceSparse

  /** A SET at work on an object: neither logged nor dealt with after a refusal. */
  predicate OpenSet(calls: map<Call, Flight>, c: Call, a: Addr) {
    c in calls && Sparse.Unsettled(calls[c]) && calls[c].addr == a && calls[c].op.Set?
  }

  /** How far the calls at work have moved a value. */
  ghost function Debt(calls: map<Call, Flight>, a: Addr): int {
    if exists c :: OpenSet(calls, c, a) then
      var c :| OpenSet(calls, c, a);
      calls[c].used - calls[c].saved
    else |Sparse.OpenIn(calls, a)|
  }

  /** The guard of a caller: a call on this sequence begins while no other is at work, or all
      of them, itself included, are increments. */
  predicate Lone(e: Engine, ev: Event, id: SeqId) {
    ev.SparseBegin? && ev.id == id && Usable(e, id) ==>
      forall d | d in Sparse.OpenOn(e, e.tree[id]) :: e.calls[d].op.Next? && ev.op.Next?
  }

  predicate RanAlone(w: World, evs: seq<Event>, id: SeqId) {
    evs == [] || (RanAlone(w, evs[..|evs| - 1], id) && Lone(Run(w, evs[..|evs| - 1]).e, evs[|evs| - 1], id))
  }

  /** A SET at work on an object is the only call at work on it, and its value stands. */
  ghost predicate Alone(e: Engine, a: Addr) {
    forall c: Call | OpenSet(e.calls, c, a) ::
      Sparse.OpenOn(e, a) == {c} && (a in e.heap ==> e.heap[a].value == e.calls[c].used)
  }

  ghost predicate SetsAlone(alone: SeqId -> bool, e: Engine) {
    forall a: Addr | alone(a.id) :: Alone(e, a)
  }

  // -------------------------------------------------------------------- debts

  lemma DebtOfSet(e: Engine, c: Call, a: Addr)
    requires OpenSet(e.calls, c, a) && Sparse.OpenOn(e, a) == {c}
    ensures Debt(e.calls, a) == e.calls[c].used - e.calls[c].saved
  {
    forall d | OpenSet(e.calls, d, a) ensures d == c {
      assert d in Sparse.OpenOn(e, a);
    }
  }

  lemma DebtOfNexts(e: Engine, a: Addr)
    requires forall c | c in Sparse.OpenOn(e, a) :: e.calls[c].op.Next?
    ensures Alone(e, a) && Debt(e.calls, a) == |Sparse.OpenOn(e, a)|
  {
    forall c ensures !OpenSet(e.calls, c, a) {
      assert OpenSet(e.calls, c, a) ==> c in Sparse.OpenOn(e, a);
    }
  }

  /** With an increment at work there is no SET at work. */
  lemma NextsOnly(e: Engine, c: Call, a: Addr)
    requires Alone(e, a) && c in Sparse.OpenOn(e, a) && e.calls[c].op.Next?
    ensures forall d | d in Sparse.OpenOn(e, a) :: e.calls[d].op.Next?
  {
    forall d | d in Sparse.OpenOn(e, a) ensures e.calls[d].op.Next? {
      assert e.calls[d].op.Set? ==> OpenSet(e.calls, d, a);
    }
  }

  /** The same calls are at work on an object, whose value is the same. */
  predicate Untouched(e: Engine, e': Engine, a: Addr) {
    && Sparse.OpenOn(e', a) == Sparse.OpenOn(e, a)
    && (forall c | c in Sparse.OpenOn(e, a) :: c in e'.calls && Sparse.SameFlight(e'.calls[c], e.calls[c]))
    && (a in e'.heap && Sparse.OpenOn(e, a) != {} ==> a in e.heap && e'.heap[a].value == e.heap[a].value)
  }

  lemma UntouchedAlone(e: Engine, e': Engine, a: Addr)
    requires Untouched(e, e', a) && Alone(e, a)
    ensures Alone(e', a) && Debt(e'.calls, a) == Debt(e.calls, a)
  {
    forall c ensures OpenSet(e'.calls, c, a) <==> OpenSet(e.calls, c, a) {
      assert c in Sparse.OpenOn(e', a) <==> c in Sparse.OpenOn(e, a);
    }
    if c :| OpenSet(e.calls, c, a) {
      DebtOfSet(e, c, a);
      DebtOfSet(e', c, a);
    }
  }

  // -------------------------------------------------------------------- steps

  lemma FrameUntouched(dense: SeqId -> bool, w: World, ev: Event, a: Addr)
    requires LinkInv(dense, w) && Legal(dense, w, ev)
    requires !ev.Create? && !ev.SparseBegin? && !ev.SparseUndo? && !(ev.SparseLog? && ev.ok)
    ensures Untouched(w.e, Stepped(w, ev).e, a)
  {
    hide Stepped, LinkInv, Legal;
    var w' := Stepped(w, ev);
    Sparse.FrameSparse(dense, w, ev);
    Sparse.SameOpen(w, w', a);
    forall c | c in Sparse.OpenOn(w.e, a)
      ensures c in w'.e.calls && Sparse.SameFlight(w'.e.calls[c], w.e.calls[c]) && !dense(a.id)
    {
      assert Sparse.Open(w.e, c) && Sparse.Open(w'.e, c);
      OpenSparse(dense, w, c);
    }
    if c :| c in Sparse.OpenOn(w.e, a) {
      assert !dense(a.id);
    }
  }

  lemma OpenSparse(dense: SeqId -> bool, w: World, c: Call)
    requires LinkInv(dense, w) && Sparse.Open(w.e, c)
    ensures w.e.calls[c].addr in w.e.heap && !dense(w.e.calls[c].addr.id)
  {
    assert CallOk(dense, w.e, c);
  }

  lemma CreateUntouched(dense: SeqId -> bool, w: World, id: SeqId, a: Addr)
    requires LinkInv(dense, w)
    ensures Untouched(w.e, Stepped(w, Create(id)).e, a)
  {
    hide Stepped, LinkInv;
    Sparse.CreateStep(w, id);
    forall c | c in Sparse.OpenOn(w.e, a) ensures a in w.e.heap && a != Addr(id, w.e.serial) {
      OpenSparse(dense, w, c);
      HeapOld(dense, w, a);
    }
  }

  lemma HeapOld(dense: SeqId -> bool, w: World, a: Addr)
    requires LinkInv(dense, w) && a in w.e.heap
    ensures a.serial < w.e.serial
  {
    assert ObjectOk(w.e, w.h.orphans, a);
  }

  /** A begin leaves other objects alone. */
  lemma BeginUntouched(w: World, c: Call, id: SeqId, op: Op, a: Addr)
    requires c !in w.e.calls && !(Usable(w.e, id) && a == w.e.tree[id])
    ensures Untouched(w.e, Stepped(w, SparseBegin(c, id, op)).e, a)
  {
    hide Noted;
  }

  /** The calls at work on the object of a call that begins, and their debt. */
  lemma BeginAlone(w: World, c: Call, id: SeqId, op: Op)
    requires Usable(w.e, id) && c !in w.e.calls && Alone(w.e, w.e.tree[id])
    requires Lone(w.e, SparseBegin(c, id, op), id)
    ensures var e', a := Stepped(w, SparseBegin(c, id, op)).e, w.e.tree[id];
            && Alone(e', a) && a in e'.heap
            && e'.heap[a].value - w.e.heap[a].value == Debt(e'.calls, a) - Debt(w.e.calls, a)
  {
    hide Noted;
    var e, e', a := w.e, Stepped(w, SparseBegin(c, id, op)).e, w.e.tree[id];
    Sparse.OpenMore(e, e', c, e'.calls[c], a);
    DebtOfNexts(e, a);
    if op.Next? {
      DebtOfNexts(e', a);
    } else {
      assert Sparse.OpenOn(e, a) == {};
      DebtOfSet(e', c, a);
    }
  }

  /** A call at work that is settled: the others stay. */
  lemma SettledAlone(e: Engine, e': Engine, c: Call, a: Addr)
    requires Alone(e, a) && c in Sparse.OpenOn(e, a) && c in e'.calls && !Sparse.Unsettled(e'.calls[c])
    requires e'.calls == e.calls[c := e'.calls[c]]
    ensures Alone(e', a)
    ensures Debt(e'.calls, a) ==
            Debt(e.calls, a) - if e.calls[c].op.Next? then 1 else e.calls[c].used - e.calls[c].saved
  {
    assert Sparse.OpenOn(e', a) == Sparse.OpenOn(e, a) - {c};
    if e.calls[c].op.Next? {
      NextsOnly(e, c, a);
      DebtOfNexts(e, a);
      DebtOfNexts(e', a);
    } else {
      assert OpenSet(e.calls, c, a);
      DebtOfSet(e, c, a);
      DebtOfNexts(e', a);
    }
  }

  /** Settling a call leaves other objects alone. */
  lemma SettledUntouched(w: World, ev: Event, a: Addr)
    requires ev.SparseUndo? || ev.SparseLog?
    requires ev.c in w.e.calls && w.e.calls[ev.c].addr in w.e.heap && a != w.e.calls[ev.c].addr
    ensures Untouched(w.e, Stepped(w, ev).e, a)
  {
    hide Noted;
  }

  lemma SettledCalls(w: World, ev: Event)
    requires ev.SparseUndo? || (ev.SparseLog? && ev.ok)
    requires ev.c in w.e.calls && w.e.calls[ev.c].addr in w.e.heap
    ensures var e' := Stepped(w, ev).e;
            ev.c in e'.calls && !Sparse.Unsettled(e'.calls[ev.c]) && e'.calls == w.e.calls[ev.c := e'.calls[ev.c]]
  {
    hide Noted;
  }

  lemma AloneStays(dense: SeqId -> bool, w: World, ev: Event, a: Addr)
    requires LinkInv(dense, w) && Legal(dense, w, ev) && Alone(w.e, a) && Lone(w.e, ev, a.id)
    ensures Alone(Stepped(w, ev).e, a)
  {
    hide Alone, LinkInv, Stepped, Untouched;
    var e' := Stepped(w, ev).e;
    if ev.Create? {
      CreateUntouched(dense, w, ev.id, a);
      UntouchedAlone(w.e, e', a);
    } else if ev.SparseBegin? {
      NewCall(dense, w, ev.c, ev.id, ev.op);
      if Usable(w.e, ev.id) && a == w.e.tree[ev.id] {
        BeginAlone(w, ev.c, ev.id, ev.op);
      } else {
        BeginUntouched(w, ev.c, ev.id, ev.op, a);
        UntouchedAlone(w.e, e', a);
      }
    } else if ev.SparseUndo? || (ev.SparseLog? && ev.ok) {
      OpenSparse(dense, w, ev.c);
      if a == w.e.calls[ev.c].addr {
        SettledCalls(w, ev);
        SettledAlone(w.e, e', ev.c, a);
      } else {
        SettledUntouched(w, ev, a);
        UntouchedAlone(w.e, e', a);
      }
    } else {
      FrameUntouched(dense, w, ev, a);
      UntouchedAlone(w.e, e', a);
    }
  }

  lemma NewCall(dense: SeqId -> bool, w: World, c: Call, id: SeqId, op: Op)
    requires LinkInv(dense, w) && Legal(dense, w, SparseBegin(c, id, op))
    ensures c !in w.e.calls && (Usable(w.e, id) ==> w.e.tree[id].id == id)
  {
    assert Usable(w.e, id) ==> TreeOk(w.e, id);
  }

  /** As long as the guard is kept, a SET at work is the only call at work. */
  lemma {:induction false} RunAlone(dense: SeqId -> bool, w: World, evs: seq<Event>, a: Addr)
    requires LinkInv(dense, w) && LegalRun(dense, w, evs) && RanAlone(w, evs, a.id) && Alone(w.e, a)
    ensures Alone(Run(w, evs).e, a)
  {
    hide LinkInv, Legal, Stepped, Alone, Lone;
    if evs != [] {
      RunAlone(dense, w, evs[..|evs| - 1], a);
      RunLinked(dense, w, evs[..|evs| - 1]);
      AloneStays(dense, Run(w, evs[..|evs| - 1]), evs[|evs| - 1], a);
    }
  }

  // --------------------------------------------------------- increments only

  /** Calls on this sequence only increment or read. */
  predicate OnlyNext(e: Engine, id: SeqId) {
    forall c | c in e.calls && e.calls[c].addr.id == id :: e.calls[c].op.Next?
  }

  lemma NextStays(dense: SeqId -> bool, w: World, ev: Event, id: SeqId)
    requires LinkInv(dense, w) && OnlyNext(w.e, id) && Legal(dense, w, ev)
    requires ev.SparseBegin? && ev.id == id ==> ev.op.Next?
    ensures OnlyNext(Stepped(w, ev).e, id) && Lone(w.e, ev, id)
  {
    hide Noted;
    if (ev.SparseBegin? || ev.Current?) && Usable(w.e, ev.id) {
      assert TreeOk(w.e, ev.id);
    }
  }

  /** A sequence that is never set keeps the guard. */
  lemma {:induction false} NextsRunAlone(dense: SeqId -> bool, w: World, evs: seq<Event>, id: SeqId)
    requires LinkInv(dense, w) && LegalRun(dense, w, evs) && w.e.calls == map[] && Sparse.NeverSet(evs, id)
    ensures RanAlone(w, evs, id) && OnlyNext(Run(w, evs).e, id)
  {
    hide LinkInv, Legal, Stepped, Lone;
    if evs != [] {
      var before, ev := evs[..|evs| - 1], evs[|evs| - 1];
      assert evs == before + [ev];
      NextsRunAlone(dense, w, before, id);
      RunLinked(dense, w, before);
      NextStays(dense, Run(w, before), ev, id);
    }
  }

  // ------------------------------------------------------- values after a SET

  /** No call is at work on any object of this sequence. */
  predicate Quiet(e: Engine, id: SeqId) {
    forall c | c in e.calls && Sparse.Unsettled(e.calls[c]) :: e.calls[c].addr.id != id
  }

  function LoggedFor(h: Ledger, id: SeqId): set<Call> {
    set c | c in h.logged && h.logged[c].addr.id == id
  }

  /** The books with the past of one sequence forgotten: it starts from the values it has. */
  function Forgotten(w: World, id: SeqId): World {
    w.(h := w.h.(base := w.h.base + map a | a in w.e.heap && a.id == id :: w.e.heap[a].value,
                 logged := w.h.logged - LoggedFor(w.h, id),
                 leaked := map a | a in w.h.leaked && a.id != id :: w.h.leaked[a],
                 wasSet := w.h.wasSet - {id}))
  }

  lemma ForgottenHeld(w: World, id: SeqId, c: Call)
    requires Quiet(w.e, id) && (Sparse.Open(w.e, c) ==> c !in w.h.logged)
    ensures var v := Forgotten(w, id);
            && (Sparse.Holds(v, c) <==> Sparse.Holds(w, c) && Sparse.HeldBy(w, c).addr.id != id)
            && (Sparse.Holds(v, c) ==> Sparse.HeldBy(v, c) == Sparse.HeldBy(w, c))
  {
  }

  lemma ForgottenOk(w: World, id: SeqId, a: Addr)
    requires Quiet(w.e, id) && a in w.e.heap
    requires a.id != id && Sparse.Plain(w, a.id) ==> Sparse.SparseOk(w, a)
    ensures Sparse.Plain(Forgotten(w, id), a.id) ==> Sparse.SparseOk(Forgotten(w, id), a)
  {
    var v := Forgotten(w, id);
    if a.id == id {
      assert Sparse.LoggedOn(v.h, a) == {} && Sparse.OpenOn(v.e, a) == {};
    } else {
      assert Sparse.LoggedOn(v.h, a) == Sparse.LoggedOn(w.h, a);
    }
  }

  lemma ForgottenInv(dense: SeqId -> bool, w: World, id: SeqId)
    requires LinkInv(dense, w) && Sparse.SparseInv(dense, w) && Sparse.HeldSparse(dense, w) && Quiet(w.e, id)
    ensures var v := Forgotten(w, id);
            LinkInv(dense, v) && Sparse.SparseInv(dense, v) && Sparse.HeldSparse(dense, v)
  {
    hide Sparse.Holds, Sparse.HeldBy, Sparse.SparseOk;
    var v := Forgotten(w, id);
    forall c: Call
      ensures Sparse.Holds(v, c) <==> Sparse.Holds(w, c) && Sparse.HeldBy(w, c).addr.id != id
      ensures Sparse.Holds(v, c) ==> Sparse.HeldBy(v, c) == Sparse.HeldBy(w, c)
    {
      ForgottenHeld(w, id, c);
    }
    forall c | Sparse.Holds(v, c) ensures Sparse.FlightOk(v, c) {
      assert Sparse.FlightOk(w, c);
    }
    forall c, d | Sparse.Holds(v, c) && Sparse.Holds(v, d) ensures Sparse.Apart(v, c, d) {
      assert Sparse.Apart(w, c, d);
    }
    forall a | a in v.e.heap && !dense(a.id) && Sparse.Plain(v, a.id) ensures Sparse.SparseOk(v, a) {
      assert a.id != id && Sparse.Plain(w, a.id) ==> Sparse.SparseOk(w, a);
      ForgottenOk(w, id, a);
    }
  }

  /** The same engine and the same books, but for some calls that were logged before. */
  predicate Follows(v: World, w: World, past: set<Call>) {
    && v.e == w.e && v.h.begun == w.h.begun && v.h.ended == w.h.ended && v.h.orphans == w.h.orphans
    && past <= w.h.logged.Keys && v.h.logged == w.h.logged - past
  }

  /** What an event enters into the books that legality depends on, and into the logged calls. */
  lemma NotedParts(w: World, ev: Event)
    ensures var h, h' := w.h, Stepped(w, ev).h;
            && h'.begun == (if ev.Current? || ev.SparseBegin? then h.begun + {ev.c} else h.begun)
            && h'.ended == (if ev.EndTrx? then h.ended + {ev.t} else h.ended)
            && h'.orphans == (if Clash(w.e, ev) then h.orphans + {Addr(ev.id, w.e.serial)} else h.orphans)
            && h'.logged == (if ev.SparseLog? && ev.ok && ev.c in w.e.calls then h.logged[ev.c := w.e.calls[ev.c]]
                             else h.logged)
    ensures Stepped(w, ev).e == Engaged(w.e, ev)
  {
    hide Engaged, Recs;
  }

  lemma FollowsLegal(dense: SeqId -> bool, v: World, w: World, ev: Event)
    requires v.e == w.e && v.h.begun == w.h.begun && v.h.ended == w.h.ended && Legal(dense, w, ev)
    ensures Legal(dense, v, ev)
  {
  }

  lemma FollowsStep(dense: SeqId -> bool, v: World, w: World, ev: Event, past: set<Call>)
    requires Follows(v, w, past) && Legal(dense, w, ev)
    requires ev.SparseLog? ==> ev.c !in w.h.logged
    ensures Legal(dense, v, ev) && Follows(Stepped(v, ev), Stepped(w, ev), past)
  {
    hide Stepped, Legal, Engaged;
    NotedParts(v, ev);
    NotedParts(w, ev);
    FollowsLegal(dense, v, w, ev);
  }

  lemma NotYetLogged(dense: SeqId -> bool, w: World, ev: Event)
    requires Sparse.SparseInv(dense, w) && Legal(dense, w, ev) && ev.SparseLog?
    ensures ev.c !in w.h.logged
  {
  }

  lemma {:induction false} FollowsRun(dense: SeqId -> bool, v: World, w: World, evs: seq<Event>, past: set<Call>)
    requires LinkInv(dense, w) && Sparse.HeldSparse(dense, w) && Sparse.SparseInv(dense, w)
    requires Follows(v, w, past) && LegalRun(dense, w, evs)
    ensures LegalRun(dense, v, evs) && Follows(Run(v, evs), Run(w, evs), past)
  {
    hide LinkInv, Sparse.HeldSparse, Sparse.SparseInv, Follows, Stepped, Legal;
    if evs != [] {
      var before, ev := evs[..|evs| - 1], evs[|evs| - 1];
      FollowsRun(dense, v, w, before, past);
      Sparse.RunSparse(dense, w, before);
      if ev.SparseLog? {
        NotYetLogged(dense, Run(w, before), ev);
      }
      FollowsStep(dense, Run(v, before), Run(w, before), ev, past);
    }
  }

  /** From any point of a run at which no call is at work on a sequence, as long as it is not
      set again, whatever was done to it before: two calls that begin later and hold a value
      of it hold different values. */
  lemma {:induction false} DistinctSince(dense: SeqId -> bool, table: map<SeqId, int>, done: seq<Event>,
                                         later: seq<Event>, c: Call, d: Call)
    requires LegalRun(dense, Start(table), done + later)
    requires var w := Run(Run(Start(table), done), later);
             && c != d && Sparse.Holds(w, c) && Sparse.Holds(w, d)
             && Sparse.NeverSet(later, Sparse.HeldBy(w, c).addr.id)
             && Quiet(Run(Start(table), done).e, Sparse.HeldBy(w, c).addr.id)
    requires c !in Run(Start(table), done).h.begun && d !in Run(Start(table), done).h.begun
    ensures var w := Run(Run(Start(table), done), later);
            Sparse.HeldBy(w, c).addr == Sparse.HeldBy(w, d).addr ==>
              Sparse.HeldBy(w, c).used != Sparse.HeldBy(w, d).used
  {
    hide Start, Stepped, Legal, LinkInv, Sparse.SparseOk, Sparse.FlightOk, Forgotten;
    RunSplits(dense, Start(table), done, later);
    StartLinked(dense, table);
    Sparse.StartSparse(dense, table);
    RunLinked(dense, Start(table), done);
    Sparse.RunSparse(dense, Start(table), done);
    var w1 := Run(Start(table), done);
    var w := Run(w1, later);
    var id := Sparse.HeldBy(w, c).addr.id;
    var v1 := Forgotten(w1, id);
    ForgottenInv(dense, w1, id);
    ForgottenFollows(w1, id);
    FollowsRun(dense, v1, w1, later, LoggedFor(w1.h, id));
    Sparse.RunSparse(dense, v1, later);
    Sparse.NeverSetPlain(v1, later, id);
    var v := Run(v1, later);
    assert forall x | x in LoggedFor(w1.h, id) :: x in w1.h.begun;
    assert Sparse.Holds(v, c) && Sparse.HeldBy(v, c) == Sparse.HeldBy(w, c);
    assert Sparse.Holds(v, d) && Sparse.HeldBy(v, d) == Sparse.HeldBy(w, d);
    assert Sparse.Apart(v, c, d);
  }

  lemma ForgottenFollows(w: World, id: SeqId)
    ensures Follows(Forgotten(w, id), w, LoggedFor(w.h, id)) && Sparse.Plain(Forgotten(w, id), id)
  {
  }
}
