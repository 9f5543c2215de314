/**
 Checkpoint and roll-forward of sequences. Saving the table at a checkpoint is rolling
 back everything that is open, and replaying the log on top of a saved table rebuilds the
 committed view of the live one.
 */
module SequenceRecovery {
  import opened Sequence
  import opened SequenceLinks
  import opened SequenceAlone
  import Sparse = SequenceSparse
  import D = SequenceDense

  /** dbe_seq_save_nomutex: the list of committed values. */
  function Saved(e: Engine): map<SeqId, int> {
    map id | id in e.tree && e.tree[id] in e.heap :: View(e.heap[e.tree[id]])
  }

  /** Two tables have the same ids with the same values, flags, drop counts and links. */
  predicate SameTable(e: Engine, f: Engine) {
    e.tree.Keys == f.tree.Keys && forall id | id in e.tree :: SameRow(e, f, id)
  }

  predicate SameRow(e: Engine, f: Engine, id: SeqId) {
    && id in e.tree && id in f.tree && e.tree[id] in e.heap && f.tree[id] in f.heap
    && var sv, su := e.heap[e.tree[id]], f.heap[f.tree[id]];
       && sv.value == su.value && sv.isRollback == su.isRollback
       && sv.dropCount == su.dropCount && sv.nlink == su.nlink
  }

  predicate SameView(e: Engine, f: Engine, id: SeqId) {
    && id in e.tree && id in f.tree && e.tree[id] in e.heap && f.tree[id] in f.heap
    && View(e.heap[e.tree[id]]) == View(f.heap[f.tree[id]])
  }

  // ------------------------------------------- a checkpoint is a rollback of it all

  /** The events of shutting everything open down: rollbacks and unmarked drops. */
  predicate Undoing(evs: seq<Event>) {
    forall ev | ev in evs :: ev.UnmarkDropped? || (ev.EndTrx? && !ev.commit)
  }

  lemma RollbackView(dense: SeqId -> bool, w: World, t: Trx, written: set<SeqId>, id: SeqId)
    requires LinkInv(dense, w) && id in w.e.tree
    ensures SameView(w.e, Stepped(w, EndTrx(t, false, written)).e, id)
  {
    EndKept(dense, w, t, false, written);
    var a := w.e.tree[id];
    assert TreeOk(w.e, id) && TreeOk(TrxEnded(w.e, t, false), id) && ObjectOk(w.e, w.h.orphans, a);
    EndRefs(dense, w.e, t, false, a);
  }

  lemma UndoKeepsSaved(dense: SeqId -> bool, w: World, ev: Event)
    requires LinkInv(dense, w) && Legal(dense, w, ev)
    requires ev.UnmarkDropped? || (ev.EndTrx? && !ev.commit)
    ensures Stepped(w, ev).e.tree == w.e.tree && Stepped(w, ev).e.calls == w.e.calls
    ensures forall id | id in w.e.tree :: SameView(w.e, Stepped(w, ev).e, id)
  {
    forall id | id in w.e.tree ensures SameView(w.e, Stepped(w, ev).e, id) {
      assert TreeOk(w.e, id);
      if ev.EndTrx? {
        RollbackView(dense, w, ev.t, ev.written, id);
      }
    }
  }

  lemma {:induction false} UndoingKeepsSaved(dense: SeqId -> bool, w: World, evs: seq<Event>)
    requires LinkInv(dense, w) && LegalRun(dense, w, evs) && Undoing(evs)
    ensures Run(w, evs).e.tree == w.e.tree && Run(w, evs).e.calls == w.e.calls
    ensures forall id | id in w.e.tree :: SameView(w.e, Run(w, evs).e, id)
  {
    if evs == [] {
      assert forall id | id in w.e.tree :: TreeOk(w.e, id);
    } else {
      UndoingKeepsSaved(dense, w, evs[..|evs| - 1]);
      RunLinked(dense, w, evs[..|evs| - 1]);
      assert evs[|evs| - 1] in evs;
      UndoKeepsSaved(dense, Run(w, evs[..|evs| - 1]), evs[|evs| - 1]);
    }
  }

  /** At an action-consistent point no call is in flight. Saving there and restoring gives
      the table one gets by rolling back every open transaction and every pending drop, in
      whatever order: same ids, values, flags, drop counts and link counts. */
  lemma {:induction false} CheckpointIsRollback(dense: SeqId -> bool, w: World, undo: seq<Event>)
    requires LinkInv(dense, w) && w.e.calls == map[]
    requires LegalRun(dense, w, undo) && Undoing(undo)
    requires Run(w, undo).e.regs == map[]
    requires forall id | id in Run(w, undo).e.tree && Run(w, undo).e.tree[id] in Run(w, undo).e.heap ::
               Run(w, undo).e.heap[Run(w, undo).e.tree[id]].dropCount == 0
    ensures SameTable(Run(w, undo).e, Restored(Saved(w.e)))
  {
    hide LinkInv, LegalRun, Undoing, Restored, Saved, View;
    UndoingKeepsSaved(dense, w, undo);
    RunLinked(dense, w, undo);
    var e := Run(w, undo).e;
    forall id | id in w.e.tree ensures SameRow(e, Restored(Saved(w.e)), id) {
      QuietRow(dense, Run(w, undo), id);
      RestoredRow(w.e, id);
    }
    RestoredKeys(w.e);
  }

  lemma RestoredRow(e: Engine, id: SeqId)
    requires id in e.tree && e.tree[id] in e.heap
    ensures var r := Restored(Saved(e));
            && id in r.tree && r.tree[id] in r.heap
            && r.heap[r.tree[id]] == SeqValue(View(e.heap[e.tree[id]]), 0, false, 0, 1)
  {
    assert Addr(id, 0) in AddrsOf(Saved(e));
  }

  lemma RestoredKeys(e: Engine)
    requires forall id | id in e.tree :: e.tree[id] in e.heap
    ensures Restored(Saved(e)).tree.Keys == e.tree.Keys
  {
    forall id | id in e.tree ensures id in Restored(Saved(e)).tree {
      RestoredRow(e, id);
    }
  }

  lemma QuietRow(dense: SeqId -> bool, w: World, id: SeqId)
    requires LinkInv(dense, w) && w.e.calls == map[] && w.e.regs == map[] && id in w.e.tree
    ensures w.e.tree[id] in w.e.heap
    ensures var sv := w.e.heap[w.e.tree[id]]; !sv.isRollback && sv.nlink == 1 && View(sv) == sv.value
  {
    var a := w.e.tree[id];
    assert TreeOk(w.e, id) && ObjectOk(w.e, w.h.orphans, a);
    assert Registrars(w.e, a) == {} && Callers(w.e, a) == {};
  }

  // ------------------------------------------------------------------- replay

  /** Roll-forward stops at a record it cannot apply. */
  datatype Outcome = Table(rows: map<SeqId, int>) | Halted

  function Applied(o: Outcome, r: Rec, committed: set<Trx>): Outcome {
    if o.Halted? then Halted
    else
      match r
      case CreateSeq(id) => if id in o.rows then Halted else Table(o.rows[id := 0])
      case DropSeq(id) => if id in o.rows then Table(o.rows - {id}) else Halted
      case SetSeqs(t, values) =>
        if t !in committed then o
        else if values.Keys <= o.rows.Keys then Table(o.rows + values) else Halted
      case IncCtr(id) => if id in o.rows then Table(o.rows[id := o.rows[id] + 1]) else Halted
      case SetCtr(id, v) => if id in o.rows then Table(o.rows[id := v]) else Halted
      case CommitMark(_) => o
  }

  function Replayed(o: Outcome, log: seq<Rec>, committed: set<Trx>): Outcome {
    if log == [] then o
    else Applied(Replayed(o, log[..|log| - 1], committed), log[|log| - 1], committed)
  }

  /** The first pass of roll-forward finds out which transactions committed. */
  function Committers(log: seq<Rec>): set<Trx> {
    set r | r in log && r.CommitMark? :: r.trx
  }

  function Recovered(table: map<SeqId, int>, log: seq<Rec>): Outcome {
    Replayed(Table(table), log, Committers(log))
  }

  lemma {:induction false} ReplayAppend(o: Outcome, xs: seq<Rec>, ys: seq<Rec>, c: set<Trx>)
    ensures Replayed(o, xs + ys, c) == Replayed(Replayed(o, xs, c), ys, c)
  {
    if ys == [] {
      assert xs + ys == xs;
    } else {
      assert (xs + ys)[..|xs + ys| - 1] == xs + ys[..|ys| - 1];
      ReplayAppend(o, xs, ys[..|ys| - 1], c);
    }
  }

  /** Transactions without value records do not matter. */
  lemma {:induction false} ReplaySame(o: Outcome, log: seq<Rec>, c: set<Trx>, d: set<Trx>)
    requires forall r | r in log && r.SetSeqs? :: r.trx in c <==> r.trx in d
    ensures Replayed(o, log, c) == Replayed(o, log, d)
  {
    if log != [] {
      ReplaySame(o, log[..|log| - 1], c, d);
      assert log[|log| - 1] in log;
    }
  }

  // ----------------------------------------------------- live table and replayed one

  /** The records of an event find their sequence. */
  predicate Reaches(e: Engine, ev: Event) {
    match ev
    case Create(id) => id !in e.tree
    case Drop(id) => id in e.tree
    case EndTrx(t, commit, written) => commit ==> RegsOf(e, t).Keys <= e.tree.Keys
    case SparseLog(c, ok) => ok && c in e.calls ==> e.calls[c].addr.id in e.tree
    case _ => true
  }

  /** The SETs on one object that the log has taken. */
  function SetsIn(logged: map<Call, Flight>, a: Addr): set<Call> {
    set c | c in logged && logged[c].addr == a && logged[c].op.Set?
  }

  /** How far the value of an object is ahead of what saved table and log make of it: by the
      calls at work, and by the refused ones left in place since the checkpoint `w0` or
      since a SET logged after it. */
  ghost function Unlogged(w0: World, w: World, a: Addr): int {
    Debt(w.e.calls, a) + LeakedAt(w.h, a) -
    if SetsIn(w.h.logged, a) == SetsIn(w0.h.logged, a) then LeakedAt(w0.h, a) else 0
  }

  /** A row of the replayed table against the live one. `alone` are the sparse sequences
      about which something is claimed: those whose SETs ran alone. */
  ghost predicate AgreesAt(dense: SeqId -> bool, alone: SeqId -> bool, w0: World, w: World,
                           rows: map<SeqId, int>, id: SeqId)
    requires id in w.e.tree && id in rows
  {
    && w.e.tree[id] in w.e.heap
    && (dense(id) ==> View(w.e.heap[w.e.tree[id]]) == rows[id])
    && (!dense(id) && alone(id) ==> View(w.e.heap[w.e.tree[id]]) == rows[id] + Unlogged(w0, w, w.e.tree[id]))
  }

  ghost predicate Agrees(dense: SeqId -> bool, alone: SeqId -> bool, w0: World, w: World, rows: map<SeqId, int>) {
    && rows.Keys == w.e.tree.Keys
    && forall id | id in rows :: AgreesAt(dense, alone, w0, w, rows, id)
  }

  ghost predicate Sound(dense: SeqId -> bool, w: World) {
    LinkInv(dense, w) && D.DenseInv(dense, w) && Sparse.HeldSparse(dense, w) && Sparse.SparseInv(dense, w)
  }

  predicate Later(w0: World, w: World) {
    && w0.e.serial <= w.e.serial && w0.h.logged.Keys <= w.h.logged.Keys
    && (forall a | a in w0.h.leaked :: a.serial < w0.e.serial)
  }

  /** The value of an object and what the log does not know of it stay in step. */
  ghost predicate InStep(dense: SeqId -> bool, alone: SeqId -> bool, w: World, w': World, a: Addr, d: int)
    requires a in w.e.heap
  {
    && a in w'.e.heap
    && (dense(a.id) ==> View(w'.e.heap[a]) == View(w.e.heap[a]) + d)
    && (!dense(a.id) && alone(a.id) ==>
          && SetsIn(w'.h.logged, a) == SetsIn(w.h.logged, a)
          && View(w'.e.heap[a]) - View(w.e.heap[a]) ==
             Debt(w'.e.calls, a) - Debt(w.e.calls, a) + LeakedAt(w'.h, a) - LeakedAt(w.h, a) + d)
  }

  lemma CreateAgrees(dense: SeqId -> bool, alone: SeqId -> bool, w0: World, w: World, id: SeqId, rows: map<SeqId, int>)
    requires Sound(dense, w) && Later(w0, w) && Agrees(dense, alone, w0, w, rows) && id !in w.e.tree
    ensures Agrees(dense, alone, w0, Stepped(w, Create(id)), rows[id := 0])
  {
    hide Sound, AgreesAt, Later, Noted;
    CreateNew(dense, alone, w0, w, id, rows);
    forall i | i in rows ensures AgreesAt(dense, alone, w0, Stepped(w, Create(id)), rows[id := 0], i) {
      CreateOther(dense, alone, w0, w, id, rows, i);
    }
  }

  lemma CreateNew(dense: SeqId -> bool, alone: SeqId -> bool, w0: World, w: World, id: SeqId, rows: map<SeqId, int>)
    requires Sound(dense, w) && Later(w0, w) && id !in w.e.tree
    ensures AgreesAt(dense, alone, w0, Stepped(w, Create(id)), rows[id := 0], id)
  {
    hide LinkInv, D.DenseInv, Debt;
    var made := Addr(id, w.e.serial);
    Sparse.NobodyHolds(w, made);
    DebtOfNexts(w.e, made);
  }

  lemma CreateOther(dense: SeqId -> bool, alone: SeqId -> bool, w0: World, w: World, id: SeqId,
                    rows: map<SeqId, int>, i: SeqId)
    requires Sound(dense, w) && id !in w.e.tree && i in w.e.tree && i in rows && AgreesAt(dense, alone, w0, w, rows, i)
    ensures AgreesAt(dense, alone, w0, Stepped(w, Create(id)), rows[id := 0], i)
  {
    hide D.DenseInv, Sparse.SparseInv, Debt, SetsIn;
    assert TreeOk(w.e, i) && ObjectOk(w.e, w.h.orphans, w.e.tree[i]);
  }

  lemma DropAgrees(dense: SeqId -> bool, alone: SeqId -> bool, w0: World, w: World, id: SeqId, rows: map<SeqId, int>)
    requires LinkInv(dense, w) && Agrees(dense, alone, w0, w, rows) && id in w.e.tree
    ensures Agrees(dense, alone, w0, Stepped(w, Drop(id)), rows - {id})
  {
    hide Debt, SetsIn;
    var w' := Stepped(w, Drop(id));
    forall i | i in rows && i != id ensures AgreesAt(dense, alone, w0, w', rows - {id}, i) {
      assert AgreesAt(dense, alone, w0, w, rows, i) && TreeOk(w.e, i) && TreeOk(w.e, id);
      assert w.e.tree[i] != w.e.tree[id];
    }
  }

  /** Events that leave the set of sequences alone and move row `id` by `d(id)`. */
  lemma MovesAgree(dense: SeqId -> bool, alone: SeqId -> bool, w0: World, w: World, w': World,
                   rows: map<SeqId, int>, rows': map<SeqId, int>)
    requires Agrees(dense, alone, w0, w, rows) && w'.e.tree == w.e.tree && rows'.Keys == rows.Keys
    requires forall id | id in rows :: id in w.e.tree && w.e.tree[id].id == id && w.e.tree[id] in w.e.heap
    requires forall id | id in rows :: InStep(dense, alone, w, w', w.e.tree[id], rows'[id] - rows[id])
    ensures Agrees(dense, alone, w0, w', rows')
  {
    hide InStep, AgreesAt;
    forall id | id in rows' ensures AgreesAt(dense, alone, w0, w', rows', id) {
      assert AgreesAt(dense, alone, w0, w, rows, id);
      assert InStep(dense, alone, w, w', w.e.tree[id], rows'[id] - rows[id]);
      MoveAgrees(dense, alone, w0, w, w', rows, rows', id);
    }
  }

  lemma MoveAgrees(dense: SeqId -> bool, alone: SeqId -> bool, w0: World, w: World, w': World,
                   rows: map<SeqId, int>, rows': map<SeqId, int>, id: SeqId)
    requires w'.e.tree == w.e.tree && id in rows && id in rows' && id in w.e.tree
    requires w.e.tree[id].id == id && w.e.tree[id] in w.e.heap
    requires AgreesAt(dense, alone, w0, w, rows, id)
    requires InStep(dense, alone, w, w', w.e.tree[id], rows'[id] - rows[id])
    ensures AgreesAt(dense, alone, w0, w', rows', id)
  {
    hide Debt, SetsIn;
  }

  lemma MarkInStep(dense: SeqId -> bool, alone: SeqId -> bool, w: World, ev: Event, a: Addr)
    requires ev.MarkDropped? || ev.UnmarkDropped?
    requires a in w.e.heap
    ensures InStep(dense, alone, w, Stepped(w, ev), a, 0)
  {
    hide Debt, SetsIn;
  }

  lemma DenseInStep(dense: SeqId -> bool, alone: SeqId -> bool, w: World, t: Trx, id: SeqId, op: Op, a: Addr)
    requires LinkInv(dense, w) && D.DenseInv(dense, w) && dense(id) && a in w.e.heap
    ensures InStep(dense, alone, w, Stepped(w, Dense(t, id, op, true)), a, 0)
  {
    hide Debt, SetsIn;
    if Writes(w.e, t, id) {
      D.WriteFlags(dense, w, t, id);
      assert TreeOk(w.e, id);
    }
  }

  lemma EndInStep(dense: SeqId -> bool, alone: SeqId -> bool, w: World, t: Trx, commit: bool,
                  written: set<SeqId>, id: SeqId)
    requires LinkInv(dense, w) && id in w.e.tree && w.e.tree[id] in w.e.heap
    requires commit ==> written == RegsOf(w.e, t).Keys
    ensures var values := WrittenValues(w.e, t, written);
            InStep(dense, alone, w, Stepped(w, EndTrx(t, commit, written)), w.e.tree[id],
                   if commit && id in values then values[id] - View(w.e.heap[w.e.tree[id]]) else 0)
  {
    hide LinkInv, Stepped, TrxEnded, View, Debt, SetsIn;
    EndView(dense, w, t, commit, written, id);
    EndLedger(w, t, commit, written);
  }

  lemma EndLedger(w: World, t: Trx, commit: bool, written: set<SeqId>)
    ensures var w' := Stepped(w, EndTrx(t, commit, written));
            && w'.e == TrxEnded(w.e, t, commit) && w'.e.calls == w.e.calls
            && w'.h.leaked == w.h.leaked && w'.h.logged == w.h.logged
  {
    hide Recs;
  }

  /** A commit makes the value the view of what the transaction registered; nothing else shows. */
  lemma EndView(dense: SeqId -> bool, w: World, t: Trx, commit: bool, written: set<SeqId>, id: SeqId)
    requires LinkInv(dense, w) && id in w.e.tree && w.e.tree[id] in w.e.heap
    ensures var a, e' := w.e.tree[id], TrxEnded(w.e, t, commit);
            && a in e'.heap
            && (Registered(w.e, t, id) ==> w.e.regs[t][id] == a && dense(id))
            && View(e'.heap[a]) == if commit && Registered(w.e, t, id) then w.e.heap[a].value else View(w.e.heap[a])
  {
    hide Stepped;
    var a := w.e.tree[id];
    EndKept(dense, w, t, commit, written);
    EndLedger(w, t, commit, written);
    assert TreeOk(w.e, id) && TreeOk(TrxEnded(w.e, t, commit), id) && ObjectOk(w.e, w.h.orphans, a);
    EndRefs(dense, w.e, t, commit, a);
    EndMine(dense, w.e, t, id);
  }

  /** A transaction holds the current object of an id exactly when it registered the id. */
  lemma EndMine(dense: SeqId -> bool, e: Engine, t: Trx, id: SeqId)
    requires Shape(dense, e) && id in e.tree
    ensures e.tree[id] in Mine(e, t) <==> Registered(e, t, id)
    ensures Registered(e, t, id) ==> e.regs[t][id] == e.tree[id] && dense(id)
  {
    assert TreeOk(e, id);
    assert forall i | i in RegsOf(e, t) :: RegOk(dense, e, t, i);
    assert Registered(e, t, id) ==> RegsOf(e, t)[id] in Mine(e, t);
  }

  lemma SparseUnflagged(dense: SeqId -> bool, e: Engine, a: Addr)
    requires Shape(dense, e) && !dense(a.id)
    ensures Registrars(e, a) == {}
  {
    assert forall t | t in e.regs && a.id in e.regs[t] :: RegOk(dense, e, t, a.id);
  }

  /** Outside dense sequences the view is the value. */
  lemma SparseView(dense: SeqId -> bool, w: World, a: Addr)
    requires LinkInv(dense, w) && a in w.e.heap && !dense(a.id)
    ensures !w.e.heap[a].isRollback && View(w.e.heap[a]) == w.e.heap[a].value
  {
    assert ObjectOk(w.e, w.h.orphans, a);
    SparseUnflagged(dense, w.e, a);
  }

  lemma BeginInStep(dense: SeqId -> bool, alone: SeqId -> bool, w: World, c: Call, id: SeqId, op: Op, a: Addr)
    requires LinkInv(dense, w) && Legal(dense, w, SparseBegin(c, id, op)) && a in w.e.heap
    requires alone(a.id) ==> Alone(w.e, a) && Lone(w.e, SparseBegin(c, id, op), a.id)
    ensures InStep(dense, alone, w, Stepped(w, SparseBegin(c, id, op)), a, 0)
  {
    hide LinkInv, Stepped, Debt, SetsIn, Alone, Untouched;
    NewCall(dense, w, c, id, op);
    BeginRest(w, c, id, op, a);
    if !dense(a.id) && alone(a.id) {
      SparseView(dense, w, a);
      if Usable(w.e, id) && a == w.e.tree[id] {
        BeginAlone(w, c, id, op);
      } else {
        BeginUntouched(w, c, id, op, a);
        UntouchedAlone(w.e, Stepped(w, SparseBegin(c, id, op)).e, a);
      }
    }
  }

  lemma BeginRest(w: World, c: Call, id: SeqId, op: Op, a: Addr)
    requires a in w.e.heap
    ensures var w' := Stepped(w, SparseBegin(c, id, op));
            && w'.h.logged == w.h.logged && w'.h.leaked == w.h.leaked
            && a in w'.e.heap && w'.e.heap[a].isRollback == w.e.heap[a].isRollback
            && (!(Usable(w.e, id) && a == w.e.tree[id]) ==> View(w'.e.heap[a]) == View(w.e.heap[a]))
  {
    hide Recs;
  }

  /** Steps that change no value and settle no call. */
  lemma StageInStep(dense: SeqId -> bool, alone: SeqId -> bool, w: World, ev: Event, a: Addr)
    requires LinkInv(dense, w) && Legal(dense, w, ev) && a in w.e.heap && a in Stepped(w, ev).e.heap
    requires ev.Current? || ev.CallEnd? || ev.DenseRefused? || (ev.SparseLog? && !ev.ok)
    requires alone(a.id) ==> Alone(w.e, a)
    ensures InStep(dense, alone, w, Stepped(w, ev), a, 0)
  {
    hide LinkInv, Legal, Stepped, Debt, SetsIn, Alone, Untouched;
    Sparse.FrameLedger(w, ev);
    StageValues(w, ev, a);
    if alone(a.id) {
      FrameUntouched(dense, w, ev, a);
      UntouchedAlone(w.e, Stepped(w, ev).e, a);
    }
  }

  lemma StageValues(w: World, ev: Event, a: Addr)
    requires ev.Current? || ev.CallEnd? || ev.DenseRefused? || ev.SparseLog?
    requires a in w.e.heap && a in Stepped(w, ev).e.heap
    ensures View(Stepped(w, ev).e.heap[a]) == View(w.e.heap[a])
    ensures !ev.CallEnd? ==> Stepped(w, ev).e.heap.Keys == w.e.heap.Keys
    ensures Stepped(w, ev).e.tree == w.e.tree
  {
    hide Noted;
  }

  /** The log takes an increment, or a call on another object. */
  lemma LogInStep(dense: SeqId -> bool, alone: SeqId -> bool, w: World, c: Call, a: Addr, d: int)
    requires Sparse.Open(w.e, c) && c !in w.h.logged && a in w.e.heap && w.e.calls[c].addr in w.e.heap
    requires dense(a.id) ==> d == 0
    requires alone(a.id) ==> Alone(w.e, a) && (w.e.calls[c].addr == a ==> w.e.calls[c].op.Next?)
    requires alone(a.id) ==> d == if w.e.calls[c].addr == a then 1 else 0
    ensures InStep(dense, alone, w, Stepped(w, SparseLog(c, true)), a, d)
  {
    hide Stepped, Debt, Alone, Untouched;
    var w' := Stepped(w, SparseLog(c, true));
    Sparse.LogStep(w, c);
    LogHeap(w, c);
    if alone(a.id) {
      assert SetsIn(w'.h.logged, a) == SetsIn(w.h.logged, a);
      if a == w.e.calls[c].addr {
        SettledCalls(w, SparseLog(c, true));
        SettledAlone(w.e, w'.e, c, a);
      } else {
        SettledUntouched(w, SparseLog(c, true), a);
        UntouchedAlone(w.e, w'.e, a);
      }
    }
  }

  lemma LogHeap(w: World, c: Call)
    ensures Stepped(w, SparseLog(c, true)).e.heap == w.e.heap
  {
    hide Noted;
  }

  /** The log takes a SET that ran alone: it knows the value then. */
  lemma SetCaughtUp(w0: World, w: World, c: Call, a: Addr)
    requires Sparse.Open(w.e, c) && c !in w.h.logged && a in w.e.heap && w.e.calls[c].addr == a
    requires w.e.calls[c].op.Set? && Alone(w.e, a) && w0.h.logged.Keys <= w.h.logged.Keys
    ensures var w' := Stepped(w, SparseLog(c, true));
            && a in w'.e.heap && w'.e.heap[a].value == w.e.calls[c].used && Unlogged(w0, w', a) == 0
  {
    hide Stepped, Debt;
    var w' := Stepped(w, SparseLog(c, true));
    Sparse.LogStep(w, c);
    LogHeap(w, c);
    assert OpenSet(w.e.calls, c, a);
    SettledCalls(w, SparseLog(c, true));
    SettledAlone(w.e, w'.e, c, a);
    DebtOfSet(w.e, c, a);
    assert c in SetsIn(w'.h.logged, a) && c !in SetsIn(w0.h.logged, a);
  }

  lemma UndoInStep(dense: SeqId -> bool, alone: SeqId -> bool, w: World, c: Call, a: Addr)
    requires LinkInv(dense, w) && Sparse.Open(w.e, c) && c !in w.h.logged && a in w.e.heap
    requires w.e.calls[c].addr in w.e.heap && !dense(w.e.calls[c].addr.id) && Sparse.FlightOk(w, c)
    requires alone(a.id) ==> Alone(w.e, a)
    ensures InStep(dense, alone, w, Stepped(w, SparseUndo(c)), a, 0)
  {
    hide LinkInv, Stepped, Debt, SetsIn, Untouched;
    var w' := Stepped(w, SparseUndo(c));
    Sparse.UndoStep(w, c);
    UndoHeap(w, c, a);
    if !dense(a.id) && alone(a.id) {
      SparseView(dense, w, a);
      if a == w.e.calls[c].addr {
        assert w.e.calls[c].op.Set? ==> OpenSet(w.e.calls, c, a);
        SettledCalls(w, SparseUndo(c));
        SettledAlone(w.e, w'.e, c, a);
      } else {
        SettledUntouched(w, SparseUndo(c), a);
        UntouchedAlone(w.e, w'.e, a);
      }
    }
  }

  lemma UndoHeap(w: World, c: Call, a: Addr)
    requires c in w.e.calls && w.e.calls[c].addr in w.e.heap && a in w.e.heap
    ensures var w', f := Stepped(w, SparseUndo(c)), w.e.calls[c];
            && a in w'.e.heap
            && w'.e.heap[a] == if a == f.addr && w.e.heap[a].value == f.used then w.e.heap[a].(value := f.saved)
                               else w.e.heap[a]
  {
    hide Noted;
  }

  // ------------------------------------------------------------------ one event

  /** What an event does to a table it agrees with. */
  function RowsAfter(w: World, ev: Event, rows: map<SeqId, int>): map<SeqId, int> {
    match ev
    case Create(id) => rows[id := 0]
    case Drop(id) => rows - {id}
    case EndTrx(t, commit, written) => if commit then rows + WrittenValues(w.e, t, written) else rows
    case SparseLog(c, ok) =>
      if ok && c in w.e.calls && w.e.calls[c].addr.id in rows then
        var id := w.e.calls[c].addr.id;
        rows[id := if w.e.calls[c].op.Next? then rows[id] + 1 else w.e.calls[c].used]
      else rows
    case _ => rows
  }

  /** A call in flight works on the current object of its id, unless that was dropped. */
  predicate CallsCurrent(e: Engine) {
    forall c | c in e.calls :: e.calls[c].addr.id in e.tree ==> e.tree[e.calls[c].addr.id] == e.calls[c].addr
  }

  lemma CallsStayCurrent(dense: SeqId -> bool, w: World, ev: Event)
    requires LinkInv(dense, w) && CallsCurrent(w.e) && Legal(dense, w, ev)
    ensures CallsCurrent(Stepped(w, ev).e)
  {
    hide Noted;
    if (ev.SparseBegin? || ev.Current?) && Usable(w.e, ev.id) {
      assert TreeOk(w.e, ev.id);
    }
  }

  lemma TreeInHeap(dense: SeqId -> bool, w: World, rows: map<SeqId, int>)
    requires Shape(dense, w.e) && rows.Keys == w.e.tree.Keys
    ensures forall id | id in rows :: id in w.e.tree && w.e.tree[id].id == id && w.e.tree[id] in w.e.heap
  {
    assert forall id | id in w.e.tree :: TreeOk(w.e, id);
  }

  lemma SoundParts(dense: SeqId -> bool, w: World)
    requires Sound(dense, w)
    ensures LinkInv(dense, w) && Shape(dense, w.e) && D.DenseInv(dense, w)
    ensures w.e.calls.Keys <= w.h.begun && w.h.logged.Keys <= w.h.begun
    ensures forall c | Sparse.Open(w.e, c) :: c !in w.h.logged && Sparse.Holds(w, c) && Sparse.FlightOk(w, c)
  {
  }

  lemma LinkShape(dense: SeqId -> bool, w: World)
    requires LinkInv(dense, w)
    ensures Shape(dense, w.e)
  {
  }

  /** A commit that reaches writes the values of sequences that exist. */
  lemma EndKeys(dense: SeqId -> bool, w: World, t: Trx, commit: bool, written: set<SeqId>)
    requires Shape(dense, w.e)
    requires Legal(dense, w, EndTrx(t, commit, written)) && Reaches(w.e, EndTrx(t, commit, written))
    ensures commit ==> written == RegsOf(w.e, t).Keys
    ensures commit ==> WrittenValues(w.e, t, written).Keys <= w.e.tree.Keys
  {
    if commit {
      forall id | id in WrittenValues(w.e, t, written) ensures id in w.e.tree {
        assert id in RegsOf(w.e, t);
      }
    }
  }

  /** A commit writes a value for every sequence the transaction registered. */
  lemma ValuesComplete(dense: SeqId -> bool, e: Engine, t: Trx)
    requires Shape(dense, e)
    ensures WrittenValues(e, t, RegsOf(e, t).Keys).Keys == RegsOf(e, t).Keys
  {
    forall id | id in RegsOf(e, t) ensures id in WrittenValues(e, t, RegsOf(e, t).Keys) {
      assert RegOk(dense, e, t, id);
    }
  }

  lemma StepTree(w: World, ev: Event)
    requires !ev.Create? && !ev.Drop?
    ensures Stepped(w, ev).e.tree == w.e.tree
  {
    hide Noted;
  }

  lemma EndAgrees(dense: SeqId -> bool, alone: SeqId -> bool, w0: World, w: World, t: Trx, commit: bool,
                  written: set<SeqId>, rows: map<SeqId, int>)
    requires Sound(dense, w) && Agrees(dense, alone, w0, w, rows)
    requires Legal(dense, w, EndTrx(t, commit, written)) && Reaches(w.e, EndTrx(t, commit, written))
    ensures var ev := EndTrx(t, commit, written);
            Agrees(dense, alone, w0, Stepped(w, ev), RowsAfter(w, ev, rows))
  {
    var ev := EndTrx(t, commit, written);
    hide Sound, LinkInv, Shape, Stepped, InStep, Mine, Legal, Reaches;
    var rows' := RowsAfter(w, ev, rows);
    SoundParts(dense, w);
    TreeInHeap(dense, w, rows);
    EndKeys(dense, w, t, commit, written);
    assert commit ==> WrittenValues(w.e, t, written).Keys <= rows.Keys;
    assert rows'.Keys == rows.Keys;
    forall id | id in rows ensures InStep(dense, alone, w, Stepped(w, ev), w.e.tree[id], rows'[id] - rows[id]) {
      EndInStep(dense, alone, w, t, commit, written, id);
      EndMine(dense, w.e, t, id);
      assert AgreesAt(dense, alone, w0, w, rows, id);
    }
    StepTree(w, ev);
    MovesAgree(dense, alone, w0, w, Stepped(w, ev), rows, rows');
  }

  lemma LogAgrees(dense: SeqId -> bool, alone: SeqId -> bool, w0: World, w: World, c: Call, rows: map<SeqId, int>)
    requires Sound(dense, w) && CallsCurrent(w.e) && Later(w0, w) && Agrees(dense, alone, w0, w, rows)
    requires Sparse.Open(w.e, c) && SetsAlone(alone, w.e)
    ensures Agrees(dense, alone, w0, Stepped(w, SparseLog(c, true)), RowsAfter(w, SparseLog(c, true), rows))
  {
    hide Sound, LinkInv, Shape, InStep, Noted, AgreesAt, Sparse.FlightOk, Stepped, Alone, SetsAlone, Later;
    var ev := SparseLog(c, true);
    var w', rows' := Stepped(w, ev), RowsAfter(w, ev, rows);
    StepTree(w, ev);
    forall id | id in rows ensures AgreesAt(dense, alone, w0, w', rows', id) {
      assert AgreesAt(dense, alone, w0, w, rows, id);
      LogAgreesAt(dense, alone, w0, w, c, rows, id);
    }
  }

  lemma LogAgreesAt(dense: SeqId -> bool, alone: SeqId -> bool, w0: World, w: World, c: Call,
                    rows: map<SeqId, int>, id: SeqId)
    requires Sound(dense, w) && CallsCurrent(w.e) && Later(w0, w)
    requires id in rows && id in w.e.tree && AgreesAt(dense, alone, w0, w, rows, id)
    requires Sparse.Open(w.e, c) && SetsAlone(alone, w.e)
    ensures var w', rows' := Stepped(w, SparseLog(c, true)), RowsAfter(w, SparseLog(c, true), rows);
            w'.e.tree == w.e.tree && id in rows' && AgreesAt(dense, alone, w0, w', rows', id)
  {
    hide Sound, LinkInv, Shape, InStep, Sparse.FlightOk, Stepped, Alone, Unlogged;
    var ev := SparseLog(c, true);
    var w', rows' := Stepped(w, ev), RowsAfter(w, ev, rows);
    SoundParts(dense, w);
    SparseCall(dense, w, c);
    StepTree(w, ev);
    CurrentObject(dense, w, id);
    var a, f := w.e.tree[id], w.e.calls[c];
    assert alone(a.id) ==> Alone(w.e, a);
    if alone(id) && f.addr == a && f.op.Set? {
      SetCaughtUp(w0, w, c, a);
      LogHeap(w, c);
      SparseView(dense, w, a);
    } else {
      LogInStep(dense, alone, w, c, a, rows'[id] - rows[id]);
      MoveAgrees(dense, alone, w0, w, w', rows, rows', id);
    }
  }

  lemma CurrentObject(dense: SeqId -> bool, w: World, id: SeqId)
    requires LinkInv(dense, w) && id in w.e.tree
    ensures w.e.tree[id] in w.e.heap && w.e.tree[id].id == id
  {
    assert TreeOk(w.e, id);
  }

  lemma SparseCall(dense: SeqId -> bool, w: World, c: Call)
    requires LinkInv(dense, w) && Sparse.Open(w.e, c)
    ensures w.e.calls[c].addr in w.e.heap && !dense(w.e.calls[c].addr.id)
  {
    assert CallOk(dense, w.e, c);
  }

  lemma UndoAgrees(dense: SeqId -> bool, alone: SeqId -> bool, w0: World, w: World, c: Call, rows: map<SeqId, int>)
    requires Sound(dense, w) && Agrees(dense, alone, w0, w, rows) && Sparse.Open(w.e, c) && SetsAlone(alone, w.e)
    ensures Agrees(dense, alone, w0, Stepped(w, SparseUndo(c)), rows)
  {
    hide Sound, LinkInv, Shape, InStep, Noted, AgreesAt, Sparse.FlightOk, Alone;
    var w' := Stepped(w, SparseUndo(c));
    SoundParts(dense, w);
    SparseCall(dense, w, c);
    StepTree(w, SparseUndo(c));
    TreeInHeap(dense, w, rows);
    forall id | id in rows ensures InStep(dense, alone, w, w', w.e.tree[id], 0) {
      assert alone(id) ==> Alone(w.e, w.e.tree[id]);
      UndoInStep(dense, alone, w, c, w.e.tree[id]);
    }
    MovesAgree(dense, alone, w0, w, w', rows, rows);
  }

  lemma StageAgrees(dense: SeqId -> bool, alone: SeqId -> bool, w0: World, w: World, ev: Event, rows: map<SeqId, int>)
    requires Sound(dense, w) && Agrees(dense, alone, w0, w, rows) && Legal(dense, w, ev) && SetsAlone(alone, w.e)
    requires ev.Current? || ev.CallEnd? || ev.DenseRefused? || (ev.SparseLog? && !ev.ok)
    ensures Agrees(dense, alone, w0, Stepped(w, ev), rows)
  {
    hide Sound, LinkInv, Shape, InStep, Stepped, AgreesAt, Legal, Sparse.FlightOk, Alone;
    var w' := Stepped(w, ev);
    SoundParts(dense, w);
    LinksKept(dense, w, ev);
    LinkShape(dense, w');
    StepTree(w, ev);
    TreeInHeap(dense, w, rows);
    TreeInHeap(dense, w', rows);
    forall id | id in rows ensures InStep(dense, alone, w, w', w.e.tree[id], 0) {
      assert alone(id) ==> Alone(w.e, w.e.tree[id]);
      StageInStep(dense, alone, w, ev, w.e.tree[id]);
    }
    MovesAgree(dense, alone, w0, w, w', rows, rows);
  }

  lemma EventAgrees(dense: SeqId -> bool, alone: SeqId -> bool, w0: World, w: World, ev: Event, rows: map<SeqId, int>)
    requires Sound(dense, w) && CallsCurrent(w.e) && Later(w0, w) && Agrees(dense, alone, w0, w, rows)
    requires SetsAlone(alone, w.e) && (forall id | alone(id) :: Lone(w.e, ev, id))
    requires Legal(dense, w, ev) && Reaches(w.e, ev) && (ev.Dense? ==> ev.markOk)
    ensures Agrees(dense, alone, w0, Stepped(w, ev), RowsAfter(w, ev, rows))
  {
    hide Sound, LinkInv, Shape, D.DenseInv, InStep, Stepped, CallsCurrent, Later, AgreesAt, Alone, Lone;
    SoundParts(dense, w);
    TreeInHeap(dense, w, rows);
    if !ev.Create? && !ev.Drop? {
      StepTree(w, ev);
    }
    match ev
    case Create(id) => CreateAgrees(dense, alone, w0, w, id, rows);
    case Drop(id) => DropAgrees(dense, alone, w0, w, id, rows);
    case EndTrx(t, commit, written) => EndAgrees(dense, alone, w0, w, t, commit, written, rows);
    case SparseLog(c, ok) =>
      if ok {
        LogAgrees(dense, alone, w0, w, c, rows);
      } else {
        StageAgrees(dense, alone, w0, w, ev, rows);
      }
    case SparseUndo(c) => UndoAgrees(dense, alone, w0, w, c, rows);
    case Current(_, _, _, _) => StageAgrees(dense, alone, w0, w, ev, rows);
    case CallEnd(_) => StageAgrees(dense, alone, w0, w, ev, rows);
    case DenseRefused(_, _) => StageAgrees(dense, alone, w0, w, ev, rows);
    case MarkDropped(_) =>
      forall id | id in rows ensures InStep(dense, alone, w, Stepped(w, ev), w.e.tree[id], 0) {
        MarkInStep(dense, alone, w, ev, w.e.tree[id]);
      }
      MovesAgree(dense, alone, w0, w, Stepped(w, ev), rows, rows);
    case UnmarkDropped(_) =>
      forall id | id in rows ensures InStep(dense, alone, w, Stepped(w, ev), w.e.tree[id], 0) {
        MarkInStep(dense, alone, w, ev, w.e.tree[id]);
      }
      MovesAgree(dense, alone, w0, w, Stepped(w, ev), rows, rows);
    case Dense(t, i, op, _) =>
      forall id | id in rows ensures InStep(dense, alone, w, Stepped(w, ev), w.e.tree[id], 0) {
        DenseInStep(dense, alone, w, t, i, op, w.e.tree[id]);
      }
      MovesAgree(dense, alone, w0, w, Stepped(w, ev), rows, rows);
    case SparseBegin(c, i, op) =>
      forall id | id in rows ensures InStep(dense, alone, w, Stepped(w, ev), w.e.tree[id], 0) {
        assert alone(id) ==> Alone(w.e, w.e.tree[id]) && Lone(w.e, ev, id);
        BeginInStep(dense, alone, w, c, i, op, w.e.tree[id]);
      }
      MovesAgree(dense, alone, w0, w, Stepped(w, ev), rows, rows);
  }

  /** Replaying the records of one event does just that, or stops if they do not reach. */
  lemma EventReplays(dense: SeqId -> bool, w: World, ev: Event, rows: map<SeqId, int>, committed: set<Trx>)
    requires Shape(dense, w.e) && rows.Keys == w.e.tree.Keys && Legal(dense, w, ev)
    requires ev.EndTrx? ==> (ev.t in committed <==> ev.commit)
    ensures Replayed(Table(rows), Recs(w.e, ev), committed) ==
            if Reaches(w.e, ev) then Table(RowsAfter(w, ev, rows)) else Halted
  {
    hide Shape;
    if ev.EndTrx? {
      EndReplays(dense, w, ev.t, ev.commit, ev.written, rows, committed);
    } else if Recs(w.e, ev) != [] {
      var r := Recs(w.e, ev)[0];
      assert Recs(w.e, ev) == [r];
      ReplayOne(Table(rows), r, committed);
    }
  }

  lemma ReplayOne(o: Outcome, r: Rec, committed: set<Trx>)
    ensures Replayed(o, [r], committed) == Applied(o, r, committed)
  {
    assert [r][..0] == [];
  }

  lemma EndReplays(dense: SeqId -> bool, w: World, t: Trx, commit: bool, written: set<SeqId>,
                   rows: map<SeqId, int>, committed: set<Trx>)
    requires Shape(dense, w.e) && rows.Keys == w.e.tree.Keys && Legal(dense, w, EndTrx(t, commit, written))
    requires t in committed <==> commit
    ensures var ev := EndTrx(t, commit, written);
            Replayed(Table(rows), Recs(w.e, ev), committed) ==
            if Reaches(w.e, ev) then Table(RowsAfter(w, ev, rows)) else Halted
  {
    var values := WrittenValues(w.e, t, written);
    var r := SetSeqs(t, values);
    hide Shape, Replayed;
    ValuesComplete(dense, w.e, t);
    ReplayOne(Table(rows), r, committed);
    if commit {
      assert Recs(w.e, EndTrx(t, commit, written)) == [r] + [CommitMark(t)];
      assert values.Keys == RegsOf(w.e, t).Keys;
      assert Reaches(w.e, EndTrx(t, commit, written)) <==> RegsOf(w.e, t).Keys <= rows.Keys;
      ReplayAppend(Table(rows), [r], [CommitMark(t)], committed);
      ReplayOne(Applied(Table(rows), r, committed), CommitMark(t), committed);
    } else {
      assert Recs(w.e, EndTrx(t, commit, written)) == [r];
    }
  }

  // ---------------------------------------------------------------------- runs

  predicate AllReach(w: World, evs: seq<Event>) {
    evs == [] || (AllReach(w, evs[..|evs| - 1]) && Reaches(Run(w, evs[..|evs| - 1]).e, evs[|evs| - 1]))
  }

  function RunRecs(w: World, evs: seq<Event>): seq<Rec> {
    if evs == [] then []
    else RunRecs(w, evs[..|evs| - 1]) + Recs(Run(w, evs[..|evs| - 1]).e, evs[|evs| - 1])
  }

  lemma LogStep(w: World, ev: Event)
    ensures Stepped(w, ev).h.log == w.h.log + Recs(w.e, ev)
    ensures w.e.serial <= Stepped(w, ev).e.serial && w.h.ended <= Stepped(w, ev).h.ended
    ensures w.h.logged.Keys <= Stepped(w, ev).h.logged.Keys
    ensures forall r | r in Recs(w.e, ev) && (r.SetSeqs? || r.CommitMark?) :: r.trx in Stepped(w, ev).h.ended
  {
    hide Engaged;
    SerialGrows(w.e, ev);
  }

  lemma SerialGrows(e: Engine, ev: Event)
    ensures e.serial <= Engaged(e, ev).serial
  {
  }

  lemma {:induction false} LogGrows(w: World, evs: seq<Event>)
    ensures Run(w, evs).h.log == w.h.log + RunRecs(w, evs)
    ensures w.e.serial <= Run(w, evs).e.serial && w.h.ended <= Run(w, evs).h.ended
    ensures w.h.logged.Keys <= Run(w, evs).h.logged.Keys
    ensures forall r | r in RunRecs(w, evs) && (r.SetSeqs? || r.CommitMark?) :: r.trx in Run(w, evs).h.ended
  {
    hide Stepped, Recs;
    if evs != [] {
      LogGrows(w, evs[..|evs| - 1]);
      LogStep(Run(w, evs[..|evs| - 1]), evs[|evs| - 1]);
    }
  }

  lemma {:induction false} RunSound(dense: SeqId -> bool, w: World, evs: seq<Event>)
    requires Sound(dense, w) && CallsCurrent(w.e) && LegalRun(dense, w, evs)
    ensures Sound(dense, Run(w, evs)) && CallsCurrent(Run(w, evs).e)
  {
    RunLinked(dense, w, evs);
    D.RunDense(dense, w, evs);
    Sparse.RunSparse(dense, w, evs);
    if evs != [] {
      RunSound(dense, w, evs[..|evs| - 1]);
      CallsStayCurrent(dense, Run(w, evs[..|evs| - 1]), evs[|evs| - 1]);
    }
  }

  lemma StartSound(dense: SeqId -> bool, table: map<SeqId, int>)
    ensures Sound(dense, Start(table)) && CallsCurrent(Start(table).e)
  {
    StartLinked(dense, table);
    D.StartDense(dense, table);
    Sparse.StartSparse(dense, table);
  }

  lemma RunSetsAlone(dense: SeqId -> bool, alone: SeqId -> bool, w: World, evs: seq<Event>)
    requires LinkInv(dense, w) && LegalRun(dense, w, evs) && w.e.calls == map[]
    requires forall id | alone(id) :: RanAlone(w, evs, id)
    ensures SetsAlone(alone, Run(w, evs).e)
  {
    hide LinkInv, LegalRun, Run;
    forall a: Addr | alone(a.id) ensures Alone(Run(w, evs).e, a) {
      RunAlone(dense, w, evs, a);
    }
  }

  /** Save the table at an action-consistent point, run on, crash, and recover from the saved
      table and the log written since. Recovery gets to the end of the log exactly when every
      record found its sequence; the table it then has is the committed view of the live
      table, short only of the sparse increments the log never saw. Of sparse sequences this
      holds if no SET was at work together with another call. */
  lemma {:induction false} RecoveryRebuilds(dense: SeqId -> bool, alone: SeqId -> bool, w: World, evs: seq<Event>)
    requires Sound(dense, w) && CallsCurrent(w.e) && w.e.calls == map[]
    requires LegalRun(dense, w, evs) && D.MarksReach(evs) && (forall id | alone(id) :: RanAlone(w, evs, id))
    ensures var o := Recovered(Saved(w.e), RunRecs(w, evs));
            && (o.Table? <==> AllReach(w, evs))
            && (o.Table? ==> Agrees(dense, alone, w, Run(w, evs), o.rows))
  {
    if evs == [] {
      SavedAgrees(dense, alone, w);
    } else {
      var before, ev := evs[..|evs| - 1], evs[|evs| - 1];
      assert evs == before + [ev];
      RecoveryRebuilds(dense, alone, w, before);
      RunSound(dense, w, before);
      RunSetsAlone(dense, alone, w, before);
      LogGrows(w, before);
      RecoveryStep(dense, alone, w, before, ev);
    }
  }

  lemma SavedAgrees(dense: SeqId -> bool, alone: SeqId -> bool, w: World)
    requires Sound(dense, w) && w.e.calls == map[]
    ensures Agrees(dense, alone, w, w, Saved(w.e))
  {
    hide Sound;
    SoundParts(dense, w);
    forall id | id in w.e.tree ensures w.e.tree[id] in w.e.heap {
      assert TreeOk(w.e, id);
    }
    assert Saved(w.e).Keys == w.e.tree.Keys;
    forall id | id in w.e.tree ensures AgreesAt(dense, alone, w, w, Saved(w.e), id) {
      DebtOfNexts(w.e, w.e.tree[id]);
    }
  }

  lemma RecoveryStep(dense: SeqId -> bool, alone: SeqId -> bool, w: World, before: seq<Event>, ev: Event)
    requires LegalRun(dense, w, before + [ev]) && D.MarksReach(before + [ev])
    requires Sound(dense, w) && Sound(dense, Run(w, before)) && CallsCurrent(Run(w, before).e)
    requires w.h.logged.Keys <= Run(w, before).h.logged.Keys
    requires SetsAlone(alone, Run(w, before).e) && (forall id | alone(id) :: Lone(Run(w, before).e, ev, id))
    requires w.e.serial <= Run(w, before).e.serial
    requires forall r | r in RunRecs(w, before) && (r.SetSeqs? || r.CommitMark?) :: r.trx in Run(w, before).h.ended
    requires var o := Recovered(Saved(w.e), RunRecs(w, before));
             && (o.Table? <==> AllReach(w, before))
             && (o.Table? ==> Agrees(dense, alone, w, Run(w, before), o.rows))
    ensures var o := Recovered(Saved(w.e), RunRecs(w, before + [ev]));
            && (o.Table? <==> AllReach(w, before + [ev]))
            && (o.Table? ==> Agrees(dense, alone, w, Run(w, before + [ev]), o.rows))
  {
    hide Sound, CallsCurrent, SetsAlone, Lone, Stepped, Recs, Legal, Reaches, Agrees, Saved, RowsAfter, Replayed;
    var evs := before + [ev];
    assert evs[..|evs| - 1] == before && evs[|evs| - 1] == ev && ev in evs;
    var u := Run(w, before);
    StepReady(dense, w, u);
    var past, recs := RunRecs(w, before), Recs(u.e, ev);
    var c := Committers(past + recs);
    var o := Recovered(Saved(w.e), past);
    CommittersGrow(dense, u, ev, past);
    ReplaySame(Table(Saved(w.e)), past, Committers(past), c);
    ReplayAppend(Table(Saved(w.e)), past, recs, c);
    if o.Table? {
      EventReplays(dense, u, ev, o.rows, c);
      if Reaches(u.e, ev) {
        EventAgrees(dense, alone, w, u, ev, o.rows);
      }
    } else {
      HaltedStays(recs, c);
    }
  }

  lemma StepReady(dense: SeqId -> bool, w: World, u: World)
    requires Sound(dense, w) && Sound(dense, u) && w.e.serial <= u.e.serial && w.h.logged.Keys <= u.h.logged.Keys
    ensures Later(w, u) && Shape(dense, u.e)
    ensures forall alone: SeqId -> bool, rows | Agrees(dense, alone, w, u, rows) :: rows.Keys == u.e.tree.Keys
  {
  }

  /** The first condition of recovery is needed: a sequence dropped under a running
      transaction leaves a value record that finds nothing, and roll-forward stops. */
  lemma {:induction false} DropHaltsReplay()
    ensures var evs := [Dense(1, 7, Next, true), Drop(7), EndTrx(1, true, {7})];
            var w := Start(map[7 := 0]);
            && LegalRun(id => true, w, evs) && !AllReach(w, evs)
            && Recovered(Saved(w.e), RunRecs(w, evs)) == Halted
  {
    hide Recovered, Noted, AllReach, LegalRun, Run, Sound, CallsCurrent, Stepped, Legal, Reaches, Start;
    var dense := (id: SeqId) => true;
    DropScenario(dense);
    Unroll(dense, Start(map[7 := 0]), Dense(1, 7, Next, true), Drop(7), EndTrx(1, true, {7}));
    StartSound(dense, map[7 := 0]);
    RecoveryRebuilds(dense, id => false, Start(map[7 := 0]), [Dense(1, 7, Next, true), Drop(7), EndTrx(1, true, {7})]);
  }

  lemma DropScenario(dense: SeqId -> bool)
    requires dense(7)
    ensures var w := Start(map[7 := 0]);
            var w1 := Stepped(w, Dense(1, 7, Next, true));
            var w2 := Stepped(w1, Drop(7));
            && w.e.calls == map[]
            && Legal(dense, w, Dense(1, 7, Next, true)) && Legal(dense, w1, Drop(7))
            && Legal(dense, w2, EndTrx(1, true, {7})) && !Reaches(w2.e, EndTrx(1, true, {7}))
  {
    hide Noted;
    var w := Start(map[7 := 0]);
    assert Addr(7, 0) in AddrsOf(map[7 := 0]);
    var w1 := Stepped(w, Dense(1, 7, Next, true));
    var w2 := Stepped(w1, Drop(7));
    assert RegsOf(w2.e, 1) == map[7 := Addr(7, 0)];
    EndedOnlyByEnd(w, Dense(1, 7, Next, true));
    EndedOnlyByEnd(w1, Drop(7));
  }

  lemma EndedOnlyByEnd(w: World, ev: Event)
    requires !ev.EndTrx?
    ensures Stepped(w, ev).h.ended == w.h.ended
  {
  }

  lemma Unroll(dense: SeqId -> bool, w: World, x: Event, y: Event, z: Event)
    ensures var w1 := Stepped(w, x);
            var w2 := Stepped(w1, y);
            && (LegalRun(dense, w, [x, y, z]) <==> Legal(dense, w, x) && Legal(dense, w1, y) && Legal(dense, w2, z))
            && (AllReach(w, [x, y, z]) <==> Reaches(w.e, x) && Reaches(w1.e, y) && Reaches(w2.e, z))
  {
    hide Legal, Reaches, Stepped;
    RunExtends(dense, w, [], x);
    RunExtends(dense, w, [x], y);
    RunExtends(dense, w, [x, y], z);
    assert [] + [x] == [x] && [x] + [y] == [x, y] && [x, y] + [z] == [x, y, z];
  }

  lemma RunExtends(dense: SeqId -> bool, w: World, evs: seq<Event>, ev: Event)
    ensures Run(w, evs + [ev]) == Stepped(Run(w, evs), ev)
    ensures LegalRun(dense, w, evs + [ev]) <==> LegalRun(dense, w, evs) && Legal(dense, Run(w, evs), ev)
    ensures AllReach(w, evs + [ev]) <==> AllReach(w, evs) && Reaches(Run(w, evs).e, ev)
    ensures RunRecs(w, evs + [ev]) == RunRecs(w, evs) + Recs(Run(w, evs).e, ev)
  {
    hide Legal, Reaches, Stepped;
    assert (evs + [ev])[..|evs + [ev]| - 1] == evs;
  }

  /** The guard on SETs is needed: values set by two calls at work together can reach the log
      in the opposite order, and then recovery brings the earlier one back, although nothing
      is at work any more and nothing was refused. */
  lemma {:induction false} SetOrderLost()
    ensures var w := Start(map[7 := 0]);
            var evs := [SparseBegin(1, 7, Set(10)), SparseBegin(2, 7, Set(20)), SparseLog(2, true), SparseLog(1, true)];
            && LegalRun(id => false, w, evs) && !RanAlone(w, evs, 7)
            && Recovered(Saved(w.e), RunRecs(w, evs)) == Table(map[7 := 10])
            && var live := Run(w, evs);
               && live.e.tree == map[7 := Addr(7, 0)] && Addr(7, 0) in live.e.heap
               && View(live.e.heap[Addr(7, 0)]) == 20 && Unlogged(w, live, Addr(7, 0)) == 0
  {
    hide Run, LegalRun, RunRecs, Recovered, Saved, Start, Stepped, Legal, Recs, BothSet, Lone, RanAlone, Unlogged;
    var dense := (id: SeqId) => false;
    var w := Start(map[7 := 0]);
    var x, y, z, u := SparseBegin(1, 7, Set(10)), SparseBegin(2, 7, Set(20)), SparseLog(2, true), SparseLog(1, true);
    SetBegins(dense, w);
    SetLogs(dense, w, Stepped(Stepped(w, x), y));
    RunUnrolls(dense, w, [x, y, z, u]);
    assert [] + [] + [SetCtr(7, 20)] + [SetCtr(7, 10)] == [SetCtr(7, 20), SetCtr(7, 10)];
    SetRecs();
    NotAlone(w, x, y, z, u);
  }

  lemma NotAlone(w: World, x: Event, y: Event, z: Event, u: Event)
    requires !Lone(Stepped(w, x).e, y, 7)
    ensures !RanAlone(w, [x, y, z, u], 7)
  {
    hide Lone, Stepped;
    assert [x, y, z, u][..3] == [x, y, z] && [x, y, z][..2] == [x, y] && [x, y][..1] == [x] && [x][..0] == [];
    assert Run(w, [x]) == Stepped(w, x);
    assert !RanAlone(w, [x, y], 7);
    assert !RanAlone(w, [x, y, z], 7);
  }

  lemma RunUnrolls(dense: SeqId -> bool, w: World, evs: seq<Event>)
    requires |evs| == 4
    ensures var w1 := Stepped(w, evs[0]);
            var w2 := Stepped(w1, evs[1]);
            var w3 := Stepped(w2, evs[2]);
            && Run(w, evs) == Stepped(w3, evs[3])
            && (LegalRun(dense, w, evs) <==>
                && Legal(dense, w, evs[0]) && Legal(dense, w1, evs[1])
                && Legal(dense, w2, evs[2]) && Legal(dense, w3, evs[3]))
            && RunRecs(w, evs) == Recs(w.e, evs[0]) + Recs(w1.e, evs[1]) + Recs(w2.e, evs[2]) + Recs(w3.e, evs[3])
  {
    hide Legal, Reaches, Stepped, Recs;
    RunExtends(dense, w, [], evs[0]);
    RunExtends(dense, w, evs[..1], evs[1]);
    RunExtends(dense, w, evs[..2], evs[2]);
    RunExtends(dense, w, evs[..3], evs[3]);
    assert [] + [evs[0]] == evs[..1] && evs[..1] + [evs[1]] == evs[..2];
    assert evs[..2] + [evs[2]] == evs[..3] && evs[..3] + [evs[3]] == evs;
  }

  /** Both values are set, both calls wait for the log. */
  predicate BothSet(w: World) {
    && w.e.tree == map[7 := Addr(7, 0)] && Addr(7, 0) in w.e.heap
    && w.e.heap[Addr(7, 0)].value == 20 && !w.e.heap[Addr(7, 0)].isRollback
    && w.e.calls == map[1 := Flight(Addr(7, 0), Set(10), 10, 0, Pending),
                        2 := Flight(Addr(7, 0), Set(20), 20, 10, Pending)]
    && w.h.leaked == map[] && w.h.logged == map[]
  }

  lemma SetBegins(dense: SeqId -> bool, w: World)
    requires !dense(7) && w == Start(map[7 := 0])
    ensures var x, y := SparseBegin(1, 7, Set(10)), SparseBegin(2, 7, Set(20));
            && Legal(dense, w, x) && Legal(dense, Stepped(w, x), y)
            && Recs(w.e, x) == [] && Recs(Stepped(w, x).e, y) == []
            && !Lone(Stepped(w, x).e, y, 7) && BothSet(Stepped(Stepped(w, x), y))
            && w.h.leaked == map[] && w.h.logged == map[]
  {
    hide Stepped, OneSet, BothSet, Lone;
    assert Addr(7, 0) in AddrsOf(map[7 := 0]);
    FirstSet(w);
    SecondSet(dense, Stepped(w, SparseBegin(1, 7, Set(10))));
  }

  /** One value is set, and its call waits for the log. */
  predicate OneSet(w: World) {
    && w.e.tree == map[7 := Addr(7, 0)] && Addr(7, 0) in w.e.heap
    && w.e.heap[Addr(7, 0)].value == 10 && !w.e.heap[Addr(7, 0)].isRollback && w.e.heap[Addr(7, 0)].dropCount == 0
    && w.e.calls == map[1 := Flight(Addr(7, 0), Set(10), 10, 0, Pending)]
    && w.h.leaked == map[] && w.h.logged == map[] && w.h.begun == {1}
  }

  lemma FirstSet(w: World)
    requires w == Start(map[7 := 0])
    ensures OneSet(Stepped(w, SparseBegin(1, 7, Set(10))))
  {
    assert Addr(7, 0) in AddrsOf(map[7 := 0]);
  }

  lemma SecondSet(dense: SeqId -> bool, w: World)
    requires !dense(7) && OneSet(w)
    ensures var y := SparseBegin(2, 7, Set(20));
            Legal(dense, w, y) && !Lone(w.e, y, 7) && BothSet(Stepped(w, y))
  {
    assert 1 in Sparse.OpenOn(w.e, Addr(7, 0));
  }

  lemma SetLogs(dense: SeqId -> bool, w0: World, w: World)
    requires BothSet(w) && w0.h.leaked == map[] && w0.h.logged == map[]
    ensures var z, u := SparseLog(2, true), SparseLog(1, true);
            var live := Stepped(Stepped(w, z), u);
            && Legal(dense, w, z) && Legal(dense, Stepped(w, z), u)
            && Recs(w.e, z) == [SetCtr(7, 20)] && Recs(Stepped(w, z).e, u) == [SetCtr(7, 10)]
            && live.e.tree == map[7 := Addr(7, 0)] && Addr(7, 0) in live.e.heap
            && View(live.e.heap[Addr(7, 0)]) == 20 && Unlogged(w0, live, Addr(7, 0)) == 0
  {
    var live := Stepped(Stepped(w, SparseLog(2, true)), SparseLog(1, true));
    assert Sparse.OpenOn(live.e, Addr(7, 0)) == {};
    DebtOfNexts(live.e, Addr(7, 0));
    hide Debt;
    assert live.h.leaked == map[Addr(7, 0) := 0];
  }

  lemma SetRecs()
    ensures Recovered(Saved(Start(map[7 := 0]).e), [SetCtr(7, 20), SetCtr(7, 10)]) == Table(map[7 := 10])
  {
    var c := Committers([SetCtr(7, 20), SetCtr(7, 10)]);
    var rows := Saved(Start(map[7 := 0]).e);
    assert Addr(7, 0) in AddrsOf(map[7 := 0]);
    assert rows == map[7 := 0];
    assert [SetCtr(7, 20), SetCtr(7, 10)] == [SetCtr(7, 20)] + [SetCtr(7, 10)];
    ReplayAppend(Table(rows), [SetCtr(7, 20)], [SetCtr(7, 10)], c);
    ReplayOne(Table(rows), SetCtr(7, 20), c);
    ReplayOne(Table(rows[7 := 20]), SetCtr(7, 10), c);
  }

  lemma {:induction false} HaltedStays(log: seq<Rec>, c: set<Trx>)
    ensures Replayed(Halted, log, c) == Halted
  {
    if log != [] {
      HaltedStays(log[..|log| - 1], c);
    }
  }

  lemma CommittersGrow(dense: SeqId -> bool, u: World, ev: Event, past: seq<Rec>)
    requires Legal(dense, u, ev)
    requires forall r | r in past && (r.SetSeqs? || r.CommitMark?) :: r.trx in u.h.ended
    ensures var c := Committers(past + Recs(u.e, ev));
            && (forall r | r in past && r.SetSeqs? :: r.trx in Committers(past) <==> r.trx in c)
            && (ev.EndTrx? ==> (ev.t in c <==> ev.commit))
  {
    var recs := Recs(u.e, ev);
    var c := Committers(past + recs);
    assert forall r :: r in past + recs <==> r in past || r in recs;
    if ev.EndTrx? && ev.commit {
      assert CommitMark(ev.t) == recs[1];
      assert CommitMark(ev.t) in past + recs;
    }
    forall r | r in past && r.SetSeqs? ensures r.trx in Committers(past) <==> r.trx in c {
      if r.trx in c {
        assert CommitMark(r.trx) in past + recs;
      }
      if r.trx in Committers(past) {
        assert CommitMark(r.trx) in past;
        assert CommitMark(r.trx) in past + recs;
      }
    }
  }

  /** The log since the checkpoint, replayed on the saved table, gives sequence `id` its live
      committed view. */
  ghost predicate RecoveredWell(dense: SeqId -> bool, alone: bool, cp: World, live: World, id: SeqId) {
    && cp.h.log <= live.h.log
    && Recovered(Saved(cp.e), live.h.log[|cp.h.log|..]).Table?
    && var rows := Recovered(Saved(cp.e), live.h.log[|cp.h.log|..]).rows;
       && (id in rows <==> id in live.e.tree)
       && (id in rows ==>
             && live.e.tree[id] in live.e.heap
             && (dense(id) || (alone && Unlogged(cp, live, live.e.tree[id]) == 0) ==>
                   rows[id] == View(live.e.heap[live.e.tree[id]])))
  }

  /** From the first start of the engine: checkpoint after `done`, crash after `later`. For
      dense sequences, and for sparse ones on which no SET was at work together with another
      call, with nothing at work and no refusal left in place, recovery rebuilds the live
      committed view exactly. */
  lemma {:induction false} CrashRecovery(dense: SeqId -> bool, table: map<SeqId, int>, done: seq<Event>,
                                         later: seq<Event>, id: SeqId)
    requires LegalRun(dense, Start(table), done + later)
    requires Run(Start(table), done).e.calls == map[]
    requires D.MarksReach(later) && AllReach(Run(Start(table), done), later)
    ensures RecoveredWell(dense, RanAlone(Run(Start(table), done), later, id), Run(Start(table), done),
                          Run(Run(Start(table), done), later), id)
  {
    hide Sound, CallsCurrent, D.MarksReach, Recovered, Start, Stepped;
    RunSplits(dense, Start(table), done, later);
    StartSound(dense, table);
    RunSound(dense, Start(table), done);
    var cp := Run(Start(table), done);
    var live := Run(cp, later);
    var alone := (i: SeqId) => RanAlone(cp, later, i);
    RecoveryRebuilds(dense, alone, cp, later);
    LogGrows(cp, later);
    assert live.h.log[|cp.h.log|..] == RunRecs(cp, later);
    var o := Recovered(Saved(cp.e), RunRecs(cp, later));
    assert id in o.rows ==> AgreesAt(dense, alone, cp, live, o.rows, id);
  }
}
