/**
 Dense sequences are transactional. Whatever interleaving of operations, commits and
 rollbacks happened, the committed view of a sequence is a serial execution of the
 operations of the committed transactions in commit order.
 */
module SequenceDense {
  import opened Sequence
  import opened SequenceLinks

  // ------------------------------------------------------------------- lists

  lemma {:induction false} OnAppend(xs: seq<Entry>, ys: seq<Entry>, a: Addr)
    ensures On(xs + ys, a) == On(xs, a) + On(ys, a)
  {
    if ys == [] {
      assert xs + ys == xs;
    } else {
      assert (xs + ys)[..|xs + ys| - 1] == xs + ys[..|ys| - 1];
      OnAppend(xs, ys[..|ys| - 1], a);
    }
  }

  lemma {:induction false} OnNone(xs: seq<Entry>, a: Addr)
    requires forall en | en in xs :: en.addr != a
    ensures On(xs, a) == []
  {
    if xs != [] {
      OnNone(xs[..|xs| - 1], a);
    }
  }

  /** What a transaction takes along and leaves behind when it ends. */
  lemma {:induction false} Parts(xs: seq<Entry>, t: Trx)
    ensures forall en :: en in Of(xs, t) <==> en in xs && en.trx == t
    ensures forall en :: en in NotOf(xs, t) <==> en in xs && en.trx != t
  {
    if xs != [] {
      var n := |xs| - 1;
      Parts(xs[..n], t);
      assert xs == xs[..n] + [xs[n]];
    }
  }

  lemma {:induction false} OnAllParts(xs: seq<Entry>, t: Trx, a: Addr)
    requires forall en | en in xs && en.addr == a :: en.trx == t
    ensures On(Of(xs, t), a) == On(xs, a) && On(NotOf(xs, t), a) == []
  {
    if xs != [] {
      var n := |xs| - 1;
      OnAllParts(xs[..n], t, a);
      OnOne(Of(xs[..n], t), xs[n], a);
      OnOne(NotOf(xs[..n], t), xs[n], a);
    }
  }

  lemma {:induction false} OnNoParts(xs: seq<Entry>, t: Trx, a: Addr)
    requires forall en | en in xs && en.addr == a :: en.trx != t
    ensures On(Of(xs, t), a) == [] && On(NotOf(xs, t), a) == On(xs, a)
  {
    if xs != [] {
      var n := |xs| - 1;
      OnNoParts(xs[..n], t, a);
      OnOne(Of(xs[..n], t), xs[n], a);
      OnOne(NotOf(xs[..n], t), xs[n], a);
    }
  }

  lemma OnOne(xs: seq<Entry>, en: Entry, a: Addr)
    ensures On(xs + [en], a) == if en.addr == a then On(xs, a) + [en] else On(xs, a)
  {
    assert (xs + [en])[..|xs|] == xs;
  }

  lemma {:induction false} FoldAppend(v: int, xs: seq<Entry>, ys: seq<Entry>)
    ensures Fold(v, xs + ys) == Fold(Fold(v, xs), ys)
  {
    if ys == [] {
      assert xs + ys == xs;
    } else {
      assert (xs + ys)[..|xs + ys| - 1] == xs + ys[..|ys| - 1];
      FoldAppend(v, xs, ys[..|ys| - 1]);
    }
  }

  lemma SerialAppend(v: int, xs: seq<Entry>, ys: seq<Entry>)
    requires Serial(v, xs) && Serial(Fold(v, xs), ys)
    ensures Serial(v, xs + ys)
  {
    forall i | 0 <= i < |xs + ys| ensures (xs + ys)[i].got == Fold(v, (xs + ys)[..i + 1]) {
      if i < |xs| {
        assert (xs + ys)[..i + 1] == xs[..i + 1];
      } else {
        assert (xs + ys)[..i + 1] == xs + ys[..i - |xs| + 1];
        FoldAppend(v, xs, ys[..i - |xs| + 1]);
      }
    }
  }

  lemma AddOne(v: int, xs: seq<Entry>, en: Entry)
    requires Serial(v, xs) && en.got == Eval(en.op, Fold(v, xs))
    ensures Serial(v, xs + [en]) && Fold(v, xs + [en]) == en.got
  {
    assert [en][..0] == [] && [en][..1] == [en];
    assert Serial(Fold(v, xs), [en]);
    SerialAppend(v, xs, [en]);
    FoldAppend(v, xs, [en]);
  }

  // --------------------------------------------------------------- invariant

  predicate EntryOk(e: Engine, en: Entry) {
    Registered(e, en.trx, en.addr.id) && e.regs[en.trx][en.addr.id] == en.addr
  }

  /** A sequence value against its first value, its settled and its running operations. */
  predicate Explained(start: int, settled: seq<Entry>, running: seq<Entry>, sv: SeqValue) {
    && View(sv) == Fold(start, settled) && Serial(start, settled)
    && sv.value == Fold(View(sv), running) && Serial(View(sv), running)
  }

  predicate DenseOk(w: World, a: Addr)
    requires a in w.e.heap
  {
    a in w.h.base && Explained(w.h.base[a], On(w.h.done, a), On(w.h.open, a), w.e.heap[a])
  }

  lemma ExplainRunning(start: int, settled: seq<Entry>, running: seq<Entry>, sv: SeqValue, sv': SeqValue, en: Entry)
    requires Explained(start, settled, running, sv)
    requires en.got == Eval(en.op, sv.value) == sv'.value && View(sv') == View(sv)
    ensures Explained(start, settled, running + [en], sv')
  {
    AddOne(View(sv), running, en);
  }

  lemma ExplainSettled(start: int, settled: seq<Entry>, sv: SeqValue, sv': SeqValue, en: Entry)
    requires Explained(start, settled, [], sv) && !sv.isRollback && !sv'.isRollback
    requires en.got == Eval(en.op, sv.value) == sv'.value
    ensures Explained(start, settled + [en], [], sv')
  {
    AddOne(start, settled, en);
  }

  lemma ExplainEnd(start: int, settled: seq<Entry>, running: seq<Entry>, sv: SeqValue, commit: bool)
    requires Explained(start, settled, running, sv) && sv.isRollback
    ensures Explained(start, if commit then settled + running else settled, [], Ended(sv, commit))
  {
    if commit {
      SerialAppend(start, settled, running);
      FoldAppend(start, settled, running);
    }
  }

  predicate DenseInv(dense: SeqId -> bool, w: World) {
    && (forall en | en in w.h.open :: EntryOk(w.e, en))
    && (forall en | en in w.h.done :: en.addr.serial < w.e.serial)
    && (forall a | a in w.e.heap && dense(a.id) :: DenseOk(w, a))
  }

  lemma NoneOpen(dense: SeqId -> bool, w: World, a: Addr)
    requires LinkInv(dense, w) && DenseInv(dense, w) && Registrars(w.e, a) == {}
    ensures On(w.h.open, a) == []
  {
    forall en | en in w.h.open ensures en.addr != a {
      assert EntryOk(w.e, en);
      assert en.addr == a ==> en.trx in Registrars(w.e, a);
    }
    OnNone(w.h.open, a);
  }

  // ------------------------------------------------------------------- steps

  /** Steps that leave the values, flags and lists of dense sequences alone. */
  predicate SameDense(dense: SeqId -> bool, w: World, w': World) {
    && w'.h.open == w.h.open && w'.h.done == w.h.done && w'.h.base == w.h.base
    && w'.e.regs == w.e.regs && w'.e.serial == w.e.serial
    && (forall a | a in w'.e.heap && dense(a.id) ::
          && a in w.e.heap
          && w'.e.heap[a].value == w.e.heap[a].value
          && View(w'.e.heap[a]) == View(w.e.heap[a]))
  }

  /** Calls that leave the mutex, and refusals, leave dense values alone. */
  lemma CallFrame(dense: SeqId -> bool, w: World, ev: Event)
    requires ev.Current? || ev.SparseBegin? || ev.SparseLog? || ev.SparseUndo? || ev.CallEnd? || ev.DenseRefused?
    requires ev.SparseBegin? ==> ev.id in w.e.tree ==> !dense(w.e.tree[ev.id].id)
    requires ev.SparseUndo? ==> ev.c in w.e.calls && !dense(w.e.calls[ev.c].addr.id)
    ensures SameDense(dense, w, Stepped(w, ev))
  {
  }

  lemma Untouched(dense: SeqId -> bool, w: World, w': World)
    requires DenseInv(dense, w) && SameDense(dense, w, w')
    ensures DenseInv(dense, w')
  {
    forall en | en in w'.h.open ensures EntryOk(w'.e, en) {
      assert EntryOk(w.e, en);
    }
    forall a | a in w'.e.heap && dense(a.id) ensures DenseOk(w', a) {
      assert DenseOk(w, a);
    }
  }

  lemma CreateDense(dense: SeqId -> bool, w: World, id: SeqId)
    requires LinkInv(dense, w) && DenseInv(dense, w) && Legal(dense, w, Create(id))
    ensures DenseInv(dense, Stepped(w, Create(id)))
  {
    var w' := Stepped(w, Create(id));
    var made := Addr(id, w.e.serial);
    forall en | en in w'.h.open ensures EntryOk(w'.e, en) {
      assert EntryOk(w.e, en);
    }
    forall a | a in w'.e.heap && dense(a.id) ensures DenseOk(w', a) {
      if a == made {
        OnNone(w.h.done, made);
        assert forall t | t in w.e.regs :: id !in w.e.regs[t];
        forall en | en in w.h.open ensures en.addr != made {
          assert EntryOk(w.e, en);
        }
        OnNone(w.h.open, made);
      } else {
        assert DenseOk(w, a);
      }
    }
  }

  lemma WriteDense(dense: SeqId -> bool, w: World, t: Trx, id: SeqId, op: Op, markOk: bool)
    requires LinkInv(dense, w) && DenseInv(dense, w) && dense(id) && Writes(w.e, t, id)
    ensures DenseInv(dense, Stepped(w, Dense(t, id, op, markOk)))
  {
    var w' := Stepped(w, Dense(t, id, op, markOk));
    WriteEntries(dense, w, t, id, op, markOk);
    forall b | b in w'.e.heap && dense(b.id) ensures DenseOk(w', b) {
      if b == w.e.tree[id] {
        assert TreeOk(w.e, id) && DenseOk(w, b);
        WriteFlags(dense, w, t, id);
        WriteTarget(w, t, id, op, markOk);
      } else {
        assert b in w.e.heap && DenseOk(w, b);
        WriteOther(w, t, id, op, markOk, b);
      }
    }
  }

  lemma WriteEntries(dense: SeqId -> bool, w: World, t: Trx, id: SeqId, op: Op, markOk: bool)
    requires LinkInv(dense, w) && DenseInv(dense, w) && Writes(w.e, t, id)
    ensures var w' := Stepped(w, Dense(t, id, op, markOk));
            && (forall en | en in w'.h.open :: EntryOk(w'.e, en))
            && (forall en | en in w'.h.done :: en.addr.serial < w'.e.serial)
  {
    var w' := Stepped(w, Dense(t, id, op, markOk));
    assert TreeOk(w.e, id) && ObjectOk(w.e, w.h.orphans, w.e.tree[id]);
    assert Registered(w.e, t, id) ==> RegOk(dense, w.e, t, id);
    forall en | en in w'.h.open ensures EntryOk(w'.e, en) {
      assert en in w.h.open ==> EntryOk(w.e, en);
    }
  }

  lemma WriteOther(w: World, t: Trx, id: SeqId, op: Op, markOk: bool, b: Addr)
    requires Writes(w.e, t, id) && b in w.e.heap && b != w.e.tree[id] && DenseOk(w, b)
    ensures b in Stepped(w, Dense(t, id, op, markOk)).e.heap
    ensures DenseOk(Stepped(w, Dense(t, id, op, markOk)), b)
  {
    hide On, Explained, Fold, Serial;
    var en := Entry(t, w.e.tree[id], op, Eval(op, w.e.heap[w.e.tree[id]].value));
    OnOne(w.h.open, en, b);
    OnOne(w.h.done, en, b);
  }

  /** A transaction that may write has the rollback value if it wrote before, and otherwise
      nobody has. */
  lemma WriteFlags(dense: SeqId -> bool, w: World, t: Trx, id: SeqId)
    requires LinkInv(dense, w) && DenseInv(dense, w) && Writes(w.e, t, id)
    ensures Registered(w.e, t, id) <==> w.e.heap[w.e.tree[id]].isRollback
    ensures !Registered(w.e, t, id) ==> On(w.h.open, w.e.tree[id]) == []
  {
    var a := w.e.tree[id];
    assert TreeOk(w.e, id) && ObjectOk(w.e, w.h.orphans, a);
    if Registered(w.e, t, id) {
      assert RegOk(dense, w.e, t, id);
      assert t in Registrars(w.e, a);
    } else {
      Unregistered(dense, w.e, t, id);
      NoneOpen(dense, w, a);
    }
  }

  lemma WriteTarget(w: World, t: Trx, id: SeqId, op: Op, markOk: bool)
    requires Writes(w.e, t, id) && DenseOk(w, w.e.tree[id])
    requires Registered(w.e, t, id) <==> w.e.heap[w.e.tree[id]].isRollback
    requires !Registered(w.e, t, id) ==> On(w.h.open, w.e.tree[id]) == []
    ensures w.e.tree[id] in Stepped(w, Dense(t, id, op, markOk)).e.heap
    ensures DenseOk(Stepped(w, Dense(t, id, op, markOk)), w.e.tree[id])
  {
    var a := w.e.tree[id];
    var sv := w.e.heap[a];
    var en := Entry(t, a, op, Eval(op, sv.value));
    OnOne(w.h.open, en, a);
    OnOne(w.h.done, en, a);
    var sv' := DenseDone(w.e, t, id, op, markOk).heap[a];
    if markOk || Registered(w.e, t, id) {
      ExplainRunning(w.h.base[a], On(w.h.done, a), On(w.h.open, a), sv, sv', en);
    } else {
      ExplainSettled(w.h.base[a], On(w.h.done, a), sv, sv', en);
    }
  }

  lemma EndDense(dense: SeqId -> bool, w: World, t: Trx, commit: bool, written: set<SeqId>)
    requires LinkInv(dense, w) && DenseInv(dense, w)
    ensures DenseInv(dense, Stepped(w, EndTrx(t, commit, written)))
  {
    var w' := Stepped(w, EndTrx(t, commit, written));
    EndEntries(dense, w, t, commit, written);
    forall a | a in w'.e.heap && dense(a.id) ensures DenseOk(w', a) {
      assert DenseOk(w, a) && ObjectOk(w.e, w.h.orphans, a);
      EndOwners(dense, w, t, commit, a);
      EndTarget(w, t, commit, written, a);
    }
  }

  lemma EndEntries(dense: SeqId -> bool, w: World, t: Trx, commit: bool, written: set<SeqId>)
    requires LinkInv(dense, w) && DenseInv(dense, w)
    ensures var w' := Stepped(w, EndTrx(t, commit, written));
            && (forall en | en in w'.h.open :: EntryOk(w'.e, en))
            && (forall en | en in w'.h.done :: en.addr.serial < w'.e.serial)
  {
    hide LinkInv, DenseInv, EntryOk, TrxEnded;
    Parts(w.h.open, t);
    DoneSerials(dense, w);
    forall en | en in w.h.open
      ensures en.addr.serial < w.e.serial
      ensures en.trx != t ==> EntryOk(TrxEnded(w.e, t, commit), en)
    {
      EntryLive(dense, w, en);
      EntryStays(w.e, t, commit, en);
    }
    SerialStays(w.e, t, commit);
  }

  lemma DoneSerials(dense: SeqId -> bool, w: World)
    requires DenseInv(dense, w)
    ensures forall en | en in w.h.done :: en.addr.serial < w.e.serial
  {
  }

  lemma EntryStays(e: Engine, t: Trx, commit: bool, en: Entry)
    requires EntryOk(e, en)
    ensures en.trx != t ==> EntryOk(TrxEnded(e, t, commit), en)
  {
  }

  lemma SerialStays(e: Engine, t: Trx, commit: bool)
    ensures TrxEnded(e, t, commit).serial == e.serial
  {
  }

  lemma EntryLive(dense: SeqId -> bool, w: World, en: Entry)
    requires LinkInv(dense, w) && DenseInv(dense, w) && en in w.h.open
    ensures EntryOk(w.e, en) && en.addr.serial < w.e.serial
  {
    assert EntryOk(w.e, en);
    assert RegOk(dense, w.e, en.trx, en.addr.id);
    assert ObjectOk(w.e, w.h.orphans, en.addr);
  }

  /** Open work on an object belongs to the transaction that registered it. */
  lemma EndOwners(dense: SeqId -> bool, w: World, t: Trx, commit: bool, a: Addr)
    requires LinkInv(dense, w) && DenseInv(dense, w) && a in w.e.heap
    ensures a in Mine(w.e, t) ==> w.e.heap[a].isRollback
    ensures forall en | en in w.h.open && en.addr == a :: a in Mine(w.e, t) <==> en.trx == t
  {
    EndRefs(dense, w.e, t, commit, a);
    assert ObjectOk(w.e, w.h.orphans, a);
    forall en | en in w.h.open && en.addr == a ensures a in Mine(w.e, t) <==> en.trx == t {
      assert EntryOk(w.e, en);
      assert en.trx in Registrars(w.e, a);
    }
  }

  lemma EndTarget(w: World, t: Trx, commit: bool, written: set<SeqId>, a: Addr)
    requires a in w.e.heap && DenseOk(w, a)
    requires a in Mine(w.e, t) ==> w.e.heap[a].isRollback
    requires forall en | en in w.h.open && en.addr == a :: a in Mine(w.e, t) <==> en.trx == t
    requires a in Stepped(w, EndTrx(t, commit, written)).e.heap
    ensures DenseOk(Stepped(w, EndTrx(t, commit, written)), a)
  {
    var w' := Stepped(w, EndTrx(t, commit, written));
    OnAppend(w.h.done, Of(w.h.open, t), a);
    assert w'.e.heap[a] == if a in Mine(w.e, t) then Ended(w.e.heap[a], commit) else w.e.heap[a];
    assert On(w'.h.done, a) == On(w.h.done, a) + if commit then On(Of(w.h.open, t), a) else [];
    if a in Mine(w.e, t) {
      OnAllParts(w.h.open, t, a);
      ExplainEnd(w.h.base[a], On(w.h.done, a), On(w.h.open, a), w.e.heap[a], commit);
    } else {
      OnNoParts(w.h.open, t, a);
      assert On(w'.h.done, a) == On(w.h.done, a);
    }
  }

  lemma {:induction false} DenseKeptInv(dense: SeqId -> bool, w: World, ev: Event)
    requires LinkInv(dense, w) && DenseInv(dense, w) && Legal(dense, w, ev)
    ensures DenseInv(dense, Stepped(w, ev))
  {
    match ev
    case Create(id) => CreateDense(dense, w, id);
    case Dense(t, id, op, markOk) =>
      if Writes(w.e, t, id) {
        WriteDense(dense, w, t, id, op, markOk);
      } else {
        Untouched(dense, w, Stepped(w, ev));
      }
    case EndTrx(t, commit, written) => EndDense(dense, w, t, commit, written);
    case SparseBegin(c, id, _) =>
      assert id in w.e.tree ==> TreeOk(w.e, id);
      CallFrame(dense, w, ev);
      Untouched(dense, w, Stepped(w, ev));
    case SparseUndo(c) =>
      assert CallOk(dense, w.e, c);
      CallFrame(dense, w, ev);
      Untouched(dense, w, Stepped(w, ev));
    case SparseLog(_, _) =>
      CallFrame(dense, w, ev);
      Untouched(dense, w, Stepped(w, ev));
    case CallEnd(_) =>
      CallFrame(dense, w, ev);
      Untouched(dense, w, Stepped(w, ev));
    case Current(_, _, _, _) =>
      CallFrame(dense, w, ev);
      Untouched(dense, w, Stepped(w, ev));
    case DenseRefused(_, _) =>
      CallFrame(dense, w, ev);
      Untouched(dense, w, Stepped(w, ev));
    case MarkDropped(_) => Untouched(dense, w, Stepped(w, ev));
    case UnmarkDropped(_) => Untouched(dense, w, Stepped(w, ev));
    case Drop(_) => Untouched(dense, w, Stepped(w, ev));
  }

  lemma StartDense(dense: SeqId -> bool, table: map<SeqId, int>)
    ensures DenseInv(dense, Start(table))
  {
  }

  lemma {:induction false} RunDense(dense: SeqId -> bool, w: World, evs: seq<Event>)
    requires LinkInv(dense, w) && DenseInv(dense, w) && LegalRun(dense, w, evs)
    ensures DenseInv(dense, Run(w, evs))
  {
    if evs != [] {
      RunDense(dense, w, evs[..|evs| - 1]);
      RunLinked(dense, w, evs[..|evs| - 1]);
      DenseKeptInv(dense, Run(w, evs[..|evs| - 1]), evs[|evs| - 1]);
    }
  }

  // ---------------------------------------------------------------- theorems

  lemma BaseStep(w: World, ev: Event)
    ensures w.e.serial <= Stepped(w, ev).e.serial
    ensures Stepped(w, ev).h.base == if ev.Create? then w.h.base[Addr(ev.id, w.e.serial) := 0] else w.h.base
  {
  }

  lemma StartValues(table: map<SeqId, int>, a: Addr)
    ensures Start(table).e.serial == 1
    ensures a in Start(table).h.base <==> a.serial == 0 && a.id in table
    ensures a in Start(table).h.base ==> Start(table).h.base[a] == table[a.id]
  {
  }

  /** The value an object starts from: that of the table it was restored from, or 0. */
  lemma {:induction false} FirstValues(table: map<SeqId, int>, evs: seq<Event>, a: Addr)
    ensures var w := Run(Start(table), evs);
            && w.e.serial >= 1
            && (a in w.h.base && a.serial == 0 ==> a.id in table && w.h.base[a] == table[a.id])
            && (a in w.h.base && a.serial > 0 ==> w.h.base[a] == 0)
            && (a.serial == 0 && a.id in table ==> a in w.h.base)
  {
    hide Stepped, Start;
    if evs == [] {
      StartValues(table, a);
    } else {
      FirstValues(table, evs[..|evs| - 1], a);
      BaseStep(Run(Start(table), evs[..|evs| - 1]), evs[|evs| - 1]);
    }
  }

  /** The committed view of a dense sequence is the serial execution, in commit order, of
      the operations settled for good, and each of their callers got the value that serial
      execution would have given it. */
  lemma {:induction false} CommittedView(dense: SeqId -> bool, table: map<SeqId, int>, evs: seq<Event>, a: Addr)
    requires LegalRun(dense, Start(table), evs)
    requires a in Run(Start(table), evs).e.heap && dense(a.id)
    ensures var w := Run(Start(table), evs);
            && a in w.h.base
            && View(w.e.heap[a]) == Fold(w.h.base[a], On(w.h.done, a))
            && Serial(w.h.base[a], On(w.h.done, a))
  {
    StartLinked(dense, table);
    StartDense(dense, table);
    RunDense(dense, Start(table), evs);
    assert DenseOk(Run(Start(table), evs), a);
  }

  /** Every mark of a dense write in the run reached the transaction. */
  predicate MarksReach(evs: seq<Event>) {
    forall ev | ev in evs && ev.Dense? :: ev.markOk
  }

  /** With that, what is settled for good is exactly the work of committed transactions. */
  lemma {:induction false} SettledIsCommitted(dense: SeqId -> bool, w: World, evs: seq<Event>)
    requires LegalRun(dense, w, evs) && MarksReach(evs)
    requires forall en | en in w.h.done :: CommitMark(en.trx) in w.h.log
    ensures forall en | en in Run(w, evs).h.done :: CommitMark(en.trx) in Run(w, evs).h.log
  {
    if evs != [] {
      var ev, u := evs[|evs| - 1], Run(w, evs[..|evs| - 1]);
      SettledIsCommitted(dense, w, evs[..|evs| - 1]);
      assert ev in evs;
      if ev.EndTrx? {
        Parts(u.h.open, ev.t);
        var l' := Stepped(u, ev).h.log;
        assert ev.commit ==> l'[|l'| - 1] == CommitMark(ev.t);
      }
      forall en | en in Stepped(u, ev).h.done && en in u.h.done ensures CommitMark(en.trx) in Stepped(u, ev).h.log {
      }
    }
  }

  predicate Ends(ev: Event, t: Trx, commit: bool) {
    ev.EndTrx? && ev.t == t && ev.commit == commit
  }

  /** An open operation stays open until its transaction ends, and is settled for good if
      that end is a commit. */
  lemma {:induction false} OpenUntilEnd(dense: SeqId -> bool, w: World, evs: seq<Event>, en: Entry)
    requires LegalRun(dense, w, evs) && en in w.h.open && en.trx !in w.h.ended
    ensures (forall ev | ev in evs :: !ev.EndTrx? || ev.t != en.trx) ==>
              en in Run(w, evs).h.open && en.trx !in Run(w, evs).h.ended
    ensures (exists ev | ev in evs :: ev.EndTrx? && ev.t == en.trx) ==> en.trx in Run(w, evs).h.ended
    ensures (exists ev | ev in evs :: Ends(ev, en.trx, true)) ==> en in Run(w, evs).h.done
  {
    hide Stepped, Legal;
    if evs != [] {
      var before, ev := evs[..|evs| - 1], evs[|evs| - 1];
      assert evs == before + [ev];
      OpenUntilEnd(dense, w, before, en);
      if ev.EndTrx? {
        EndsOnce(dense, Run(w, before), ev);
      }
      OpenStep(Run(w, before), ev, en);
    }
  }

  lemma EndsOnce(dense: SeqId -> bool, u: World, ev: Event)
    requires Legal(dense, u, ev) && ev.EndTrx?
    ensures ev.t !in u.h.ended
  {
  }

  lemma OpenStep(u: World, ev: Event, en: Entry)
    ensures u.h.ended <= Stepped(u, ev).h.ended
    ensures en in u.h.done ==> en in Stepped(u, ev).h.done
    ensures en in u.h.open && !(ev.EndTrx? && ev.t == en.trx) ==> en in Stepped(u, ev).h.open
    ensures en.trx !in u.h.ended && !(ev.EndTrx? && ev.t == en.trx) ==> en.trx !in Stepped(u, ev).h.ended
    ensures ev.EndTrx? && ev.t == en.trx ==> en.trx in Stepped(u, ev).h.ended
    ensures en in u.h.open && Ends(ev, en.trx, true) ==> en in Stepped(u, ev).h.done
  {
    if ev.EndTrx? {
      Parts(u.h.open, ev.t);
    }
  }

  /** The other half: the work of a transaction that commits is settled for good. Whatever
      happens before (`done`) and after (`later`), a dense operation that wrote and was marked
      is among the settled ones once its transaction has committed. */
  lemma CommittedIsSettled(dense: SeqId -> bool, w: World, done: seq<Event>, t: Trx, id: SeqId, op: Op,
                           later: seq<Event>)
    requires LegalRun(dense, w, done + [Dense(t, id, op, true)] + later)
    requires Writes(Run(w, done).e, t, id) && exists ev | ev in later :: Ends(ev, t, true)
    ensures var e := Run(w, done).e;
            Entry(t, e.tree[id], op, Eval(op, e.heap[e.tree[id]].value)) in
            Run(w, done + [Dense(t, id, op, true)] + later).h.done
  {
    var ev := Dense(t, id, op, true);
    RunSplits(dense, w, done + [ev], later);
    RunSplits(dense, w, done, [ev]);
    assert [ev][..0] == [];
    var u := Run(w, done);
    assert Run(u, [ev]) == Stepped(u, ev) && Legal(dense, u, ev);
    OpenUntilEnd(dense, Stepped(u, ev), later, Entry(t, u.e.tree[id], op, Eval(op, u.e.heap[u.e.tree[id]].value)));
  }

  /** In a run of NEXT operations the settled operations got start+1, start+2, ... without
      a hole, whatever was rolled back in between. */
  lemma {:induction false} NoHoles(dense: SeqId -> bool, table: map<SeqId, int>, evs: seq<Event>, a: Addr)
    requires LegalRun(dense, Start(table), evs)
    requires a in Run(Start(table), evs).e.heap && dense(a.id)
    requires forall en | en in On(Run(Start(table), evs).h.done, a) :: en.op.Next?
    ensures var w := Run(Start(table), evs);
            var settled := On(w.h.done, a);
            && a in w.h.base
            && (forall i | 0 <= i < |settled| :: settled[i].got == w.h.base[a] + 1 + i)
            && View(w.e.heap[a]) == w.h.base[a] + |settled|
  {
    CommittedView(dense, table, evs, a);
    var w := Run(Start(table), evs);
    var settled := On(w.h.done, a);
    forall i | 0 <= i < |settled| ensures settled[i].got == w.h.base[a] + 1 + i {
      CountNext(w.h.base[a], settled[..i + 1]);
    }
    CountNext(w.h.base[a], settled);
  }

  lemma {:induction false} CountNext(v: int, xs: seq<Entry>)
    requires forall en | en in xs :: en.op.Next?
    ensures Fold(v, xs) == v + |xs|
  {
    if xs != [] {
      CountNext(v, xs[..|xs| - 1]);
    }
  }

  lemma RollbackOfWrite(e: Engine, t: Trx, id: SeqId, op: Op, markOk: bool)
    requires Writes(e, t, id) && e.heap[e.tree[id]].nlink > 0
    requires Registered(e, t, id) <==> e.heap[e.tree[id]].isRollback
    requires Registered(e, t, id) ==> e.regs[t][id] == e.tree[id] && e.heap[e.tree[id]].nlink > 1
    requires forall i | i in RegsOf(e, t) && i != id :: e.regs[t][i] != e.tree[id]
    ensures var a := e.tree[id];
            var e' := TrxEnded(DenseDone(e, t, id, op, markOk), t, false);
            && a in e'.heap
            && View(e'.heap[a]) == if markOk || Registered(e, t, id) then View(e.heap[a]) else Eval(op, e.heap[a].value)
  {
    var a, e1 := e.tree[id], DenseDone(e, t, id, op, markOk);
    if Registered(e1, t, id) {
      assert RegsOf(e1, t)[id] == a;
      assert a in Mine(e1, t);
    } else {
      assert a !in Mine(e1, t) by {
        forall i | i in RegsOf(e1, t) ensures RegsOf(e1, t)[i] != a {
        }
      }
    }
  }

  /** When does a rollback restore the committed view that was there before a dense
      operation? In any reachable state exactly when the mark succeeds, or the transaction
      had written the sequence before, or the operation does not change the value: a first
      mark that fails does not undo the write, and nobody does later. */
  lemma {:induction false} RollbackRestoresIff(dense: SeqId -> bool, table: map<SeqId, int>, evs: seq<Event>,
                                               t: Trx, id: SeqId, op: Op, markOk: bool)
    requires LegalRun(dense, Start(table), evs) && Writes(Run(Start(table), evs).e, t, id)
    ensures var e := Run(Start(table), evs).e;
            var a := e.tree[id];
            var e' := TrxEnded(DenseDone(e, t, id, op, markOk), t, false);
            && a in e'.heap
            && (View(e'.heap[a]) == View(e.heap[a]) <==>
                markOk || Registered(e, t, id) || Eval(op, e.heap[a].value) == e.heap[a].value)
  {
    hide Run, LegalRun, TrxEnded, DenseDone, DenseInv;
    StartLinked(dense, table);
    StartDense(dense, table);
    RunLinked(dense, Start(table), evs);
    RunDense(dense, Start(table), evs);
    var w := Run(Start(table), evs);
    var e, a := w.e, w.e.tree[id];
    WriteFlags(dense, w, t, id);
    assert TreeOk(e, id) && ObjectOk(e, w.h.orphans, a);
    assert forall i | i in RegsOf(e, t) :: RegOk(dense, e, t, i);
    if Registered(e, t, id) {
      assert t in Registrars(e, a);
      assert TreeLinks(e, a) == 1;
    }
    RollbackOfWrite(e, t, id, op, markOk);
  }

  /** A failed mark leaves an uncommitted increment in the committed view. */
  lemma {:induction false} FailedMarkLeaks(dense: SeqId -> bool)
    requires dense(7)
    ensures var evs := [Dense(1, 7, Next, false), EndTrx(1, false, {})];
            var w := Run(Start(map[7 := 5]), evs);
            && LegalRun(dense, Start(map[7 := 5]), evs)
            && Addr(7, 0) in w.e.heap
            && View(w.e.heap[Addr(7, 0)]) == 6
            && forall t :: CommitMark(t) !in w.h.log
  {
    var w0 := Start(map[7 := 5]);
    var e1, e2 := Dense(1, 7, Next, false), EndTrx(1, false, {});
    assert [e1, e2][..1] == [e1] && [e1][..0] == [];
    var w1 := Stepped(w0, e1);
    assert Run(w0, [e1]) == w1;
    assert Run(w0, [e1, e2]) == Stepped(w1, e2);
    assert Run(w0, []) == w0;
    assert Legal(dense, w0, e1) && LegalRun(dense, w0, []);
    assert LegalRun(dense, w0, [e1]);
  }
}
