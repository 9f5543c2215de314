/**
 The sequence table of the engine and its transaction side: the state that
 dbe/dbe0seq.c and dbe/dbe0trut.c change in place, the outcome of every
 operation as a function of that state, and the ledger against which the
 operations are judged.

 A sequence value object is identified by its sequence id and the serial number
 of its allocation, so that an object that was dropped while a transaction still
 holds it stays distinct from one created later under the same id.
 */
module Sequence {

  type SeqId = int
  type Trx = nat
  type Call = nat

  datatype Addr = Addr(id: SeqId, serial: nat)

  /** One dbe_seqvalue_t. */
  datatype SeqValue = SeqValue(
    value: int,
    rollback: int,
    isRollback: bool,
    dropCount: int,
    nlink: int)

  /** How far a call has come that works outside the mutex: a CURRENT about to return what it
      read, or a sparse NEXT or SET that waits for the log, was logged, was refused by the
      log, or has dealt with the refusal. */
  datatype Stage = Reading | Pending | Logged | Refused | Undone

  /** A call between its link and its unlink: what it works on, what it read or wrote, and
      the value it would restore. */
  datatype Flight = Flight(addr: Addr, op: Op, used: int, saved: int, stage: Stage)

  datatype Engine = Engine(
    heap: map<Addr, SeqValue>,
    tree: map<SeqId, Addr>,
    regs: map<Trx, map<SeqId, Addr>>,
    locks: map<SeqId, Trx>,
    calls: map<Call, Flight>,
    serial: nat)

  datatype Op = Next | Set(v: int)

  function Eval(op: Op, v: int): int {
    match op
    case Next => v + 1
    case Set(w) => w
  }

  /** The value that survives if every open transaction is rolled back. */
  function View(sv: SeqValue): int {
    if sv.isRollback then sv.rollback else sv.value
  }

  const NewValue := SeqValue(0, 0, false, 0, 1)

  // ---------------------------------------------------------------- outcomes

  predicate Registered(e: Engine, t: Trx, id: SeqId) {
    t in e.regs && id in e.regs[t]
  }

  /** Takes one link off an object and frees it with the last one. */
  function Unlinked(heap: map<Addr, SeqValue>, a: Addr): map<Addr, SeqValue> {
    if a !in heap then heap
    else if heap[a].nlink == 1 then heap - {a}
    else heap[a := heap[a].(nlink := heap[a].nlink - 1)]
  }

  function Created(e: Engine, id: SeqId): Engine {
    var a := Addr(id, e.serial);
    e.(heap := e.heap[a := NewValue],
       tree := if id in e.tree then e.tree else e.tree[id := a],
       serial := e.serial + 1)
  }

  function DropCountChanged(e: Engine, id: SeqId, d: int): Engine {
    if id in e.tree && e.tree[id] in e.heap then
      var a := e.tree[id];
      e.(heap := e.heap[a := e.heap[a].(dropCount := e.heap[a].dropCount + d)])
    else e
  }

  function Dropped(e: Engine, id: SeqId): Engine {
    if id in e.tree then e.(heap := Unlinked(e.heap, e.tree[id]), tree := e.tree - {id}) else e
  }

  /** Another transaction has the exclusive lock of this id. */
  predicate Blocked(e: Engine, t: Trx, id: SeqId) {
    id in e.locks && e.locks[id] != t
  }

  predicate Usable(e: Engine, id: SeqId) {
    id in e.tree && e.tree[id] in e.heap && e.heap[e.tree[id]].dropCount <= 0
  }

  predicate Writes(e: Engine, t: Trx, id: SeqId) {
    !Blocked(e, t, id) && Usable(e, id)
  }

  /** A dense NEXT or SET. `markOk` is whether dbe_trx_markseqwrite did not report an error. */
  function DenseDone(e: Engine, t: Trx, id: SeqId, op: Op, markOk: bool): Engine {
    if Blocked(e, t, id) then e
    else
      var locked := e.(locks := e.locks[id := t]);
      if !Usable(e, id) then locked
      else
        var a := e.tree[id];
        var sv := e.heap[a];
        var after := sv.(value := Eval(op, sv.value));
        if !markOk || Registered(e, t, id) then
          locked.(heap := e.heap[a := after])
        else
          locked.(heap := e.heap[a := after.(nlink := sv.nlink + 1,
                                             rollback := if sv.isRollback then sv.rollback else sv.value,
                                             isRollback := true)],
                  regs := e.regs[t := RegsOf(e, t)[id := a]])
  }

  function RegsOf(e: Engine, t: Trx): map<SeqId, Addr> {
    if t in e.regs then e.regs[t] else map[]
  }

  /** The objects a transaction has registered. */
  function Mine(e: Engine, t: Trx): set<Addr> {
    set id | id in RegsOf(e, t) :: RegsOf(e, t)[id]
  }

  function Ended(sv: SeqValue, commit: bool): SeqValue {
    sv.(isRollback := false,
        value := if commit then sv.value else sv.rollback,
        nlink := sv.nlink - 1)
  }

  function EndedAll(heap: map<Addr, SeqValue>, mine: set<Addr>, commit: bool): map<Addr, SeqValue> {
    map a | a in heap && !(a in mine && heap[a].nlink == 1) ::
      if a in mine then Ended(heap[a], commit) else heap[a]
  }

  /** The end of a transaction: every registered value is settled, then the locks go. */
  function TrxEnded(e: Engine, t: Trx, commit: bool): Engine {
    e.(heap := EndedAll(e.heap, Mine(e, t), commit),
       regs := e.regs - {t},
       locks := map id | id in e.locks && e.locks[id] != t :: e.locks[id])
  }

  /** The exits of a dense NEXT, SET or CURRENT that leave nothing behind but the lock: the
      transaction may not write, or the value to set has the wrong type. */
  function OnlyLocked(e: Engine, t: Trx, id: SeqId): Engine {
    if Blocked(e, t, id) then e else e.(locks := e.locks[id := t])
  }

  /** First part of a sparse NEXT or SET: the new value, under the mutex. */
  function SparseBegun(e: Engine, c: Call, id: SeqId, op: Op): Engine {
    if !Usable(e, id) then e
    else
      var a := e.tree[id];
      var sv := e.heap[a];
      var v := Eval(op, sv.value);
      e.(heap := e.heap[a := sv.(value := v, nlink := sv.nlink + 1)],
         calls := e.calls[c := Flight(a, op, v, sv.value, Pending)])
  }

  /** First part of a CURRENT: the read, under the mutex; a dense sequence is locked first. */
  function ReadBegun(e: Engine, c: Call, t: Trx, id: SeqId, densep: bool): Engine {
    if densep && Blocked(e, t, id) then e
    else
      var locked := if densep then e.(locks := e.locks[id := t]) else e;
      if !Usable(e, id) then locked
      else
        var a := e.tree[id];
        var sv := e.heap[a];
        locked.(heap := e.heap[a := sv.(nlink := sv.nlink + 1)],
                calls := e.calls[c := Flight(a, Next, sv.value, sv.value, Reading)])
  }

  /** The log has answered, outside the mutex. */
  function LogAnswered(e: Engine, c: Call, ok: bool): Engine {
    if c !in e.calls then e
    else e.(calls := e.calls[c := e.calls[c].(stage := if ok then Logged else Refused)])
  }

  /** After a refusal, under the mutex again: the old value comes back unless somebody else
      has moved the value on. */
  function RefusalUndone(e: Engine, c: Call): Engine {
    if c !in e.calls || e.calls[c].addr !in e.heap then e
    else
      var f := e.calls[c];
      var sv := e.heap[f.addr];
      e.(heap := if sv.value == f.used then e.heap[f.addr := sv.(value := f.saved)] else e.heap,
         calls := e.calls[c := f.(stage := Undone)])
  }

  /** Last part of any such call: the link goes. */
  function CallClosed(e: Engine, c: Call): Engine {
    if c !in e.calls then e
    else e.(heap := Unlinked(e.heap, e.calls[c].addr), calls := e.calls - {c})
  }

  // ------------------------------------------------------------------ ledger

  /** A dense operation, with the value it handed to its caller. */
  datatype Entry = Entry(trx: Trx, addr: Addr, op: Op, got: int)

  /** What a roll-forward log holds about sequences. SetSeqs are the value records one
      commit writes, one for each sequence the transaction changed. */
  datatype Rec =
    | CreateSeq(id: SeqId)
    | DropSeq(id: SeqId)
    | SetSeqs(trx: Trx, values: map<SeqId, int>)
    | CommitMark(trx: Trx)
    | IncCtr(id: SeqId)
    | SetCtr(id: SeqId, value: int)

  datatype Ledger = Ledger(
    base: map<Addr, int>,        // first value of every object ever allocated
    open: seq<Entry>,            // dense operations of transactions still running
    done: seq<Entry>,            // dense operations settled for good, in commit order
    ended: set<Trx>,
    begun: set<Call>,
    logged: map<Call, Flight>,   // sparse calls the log has taken
    leaked: map<Addr, nat>,      // sparse writes refused and not taken back, since the last logged SET
    wasSet: set<SeqId>,          // sparse sequences that saw a SET
    orphans: set<Addr>,          // objects of failed creates
    log: seq<Rec>)

  datatype World = World(e: Engine, h: Ledger)

  datatype Event =
    | Create(id: SeqId)
    | MarkDropped(id: SeqId)
    | UnmarkDropped(id: SeqId)
    | Drop(id: SeqId)
    | Dense(t: Trx, id: SeqId, op: Op, markOk: bool)
    | DenseRefused(t: Trx, id: SeqId)
    | EndTrx(t: Trx, commit: bool, written: set<SeqId>)
    | Current(c: Call, t: Trx, id: SeqId, densep: bool)
    | SparseBegin(c: Call, id: SeqId, op: Op)
    | SparseLog(c: Call, ok: bool)
    | SparseUndo(c: Call)
    | CallEnd(c: Call)

  function Engaged(e: Engine, ev: Event): Engine {
    match ev
    case Create(id) => Created(e, id)
    case MarkDropped(id) => DropCountChanged(e, id, 1)
    case UnmarkDropped(id) => DropCountChanged(e, id, -1)
    case Drop(id) => Dropped(e, id)
    case Dense(t, id, op, markOk) => DenseDone(e, t, id, op, markOk)
    case DenseRefused(t, id) => OnlyLocked(e, t, id)
    case EndTrx(t, commit, _) => TrxEnded(e, t, commit)
    case Current(c, t, id, densep) => ReadBegun(e, c, t, id, densep)
    case SparseBegin(c, id, op) => SparseBegun(e, c, id, op)
    case SparseLog(c, ok) => LogAnswered(e, c, ok)
    case SparseUndo(c) => RefusalUndone(e, c)
    case CallEnd(c) => CallClosed(e, c)
  }

  function Of(entries: seq<Entry>, t: Trx): seq<Entry> {
    if entries == [] then []
    else
      var rest := Of(entries[..|entries| - 1], t);
      var last := entries[|entries| - 1];
      if last.trx == t then rest + [last] else rest
  }

  function NotOf(entries: seq<Entry>, t: Trx): seq<Entry> {
    if entries == [] then []
    else
      var rest := NotOf(entries[..|entries| - 1], t);
      var last := entries[|entries| - 1];
      if last.trx != t then rest + [last] else rest
  }

  /** The entries about one object, in order. */
  function On(entries: seq<Entry>, a: Addr): seq<Entry> {
    if entries == [] then []
    else
      var rest := On(entries[..|entries| - 1], a);
      var last := entries[|entries| - 1];
      if last.addr == a then rest + [last] else rest
  }

  /** The value after a serial execution of some operations. */
  function Fold(v: int, entries: seq<Entry>): int {
    if entries == [] then v
    else Eval(entries[|entries| - 1].op, Fold(v, entries[..|entries| - 1]))
  }

  /** Every caller got the value a serial execution in this order would have given it. */
  predicate Serial(v: int, entries: seq<Entry>) {
    forall i | 0 <= i < |entries| :: entries[i].got == Fold(v, entries[..i + 1])
  }

  function LeakedAt(h: Ledger, a: Addr): nat {
    if a in h.leaked then h.leaked[a] else 0
  }

  /** The values a commit hands to the log, limited to the ids it got round to writing. */
  function WrittenValues(e: Engine, t: Trx, written: set<SeqId>): map<SeqId, int> {
    map id | id in RegsOf(e, t) && id in written && e.regs[t][id] in e.heap :: e.heap[e.regs[t][id]].value
  }

  function SparseRec(f: Flight): Rec {
    match f.op
    case Next => IncCtr(f.addr.id)
    case Set(_) => SetCtr(f.addr.id, f.used)
  }

  /** The records an event leaves in the log. A DDL record is written whether or not the
      table then accepts the change; a transaction that rolls back may have got round to
      some of its value records. */
  function Recs(e: Engine, ev: Event): seq<Rec> {
    match ev
    case Create(id) => [CreateSeq(id)]
    case Drop(id) => [DropSeq(id)]
    case EndTrx(t, commit, written) =>
      [SetSeqs(t, WrittenValues(e, t, written))] + if commit then [CommitMark(t)] else []
    case SparseLog(c, ok) => if ok && c in e.calls then [SparseRec(e.calls[c])] else []
    case _ => []
  }

  function Noted(w: World, ev: Event): Ledger {
    var e, h := w.e, w.h.(log := w.h.log + Recs(w.e, ev));
    match ev
    case Create(id) =>
      var a := Addr(id, e.serial);
      h.(base := h.base[a := 0],
         orphans := if id in e.tree then h.orphans + {a} else h.orphans)
    case Dense(t, id, op, markOk) =>
      if !Writes(e, t, id) then h
      else
        var entry := Entry(t, e.tree[id], op, Eval(op, e.heap[e.tree[id]].value));
        // A write nobody registered is in effect committed on the spot.
        if markOk || Registered(e, t, id) then h.(open := h.open + [entry])
        else h.(done := h.done + [entry])
    case EndTrx(t, commit, _) =>
      h.(open := NotOf(h.open, t),
         done := if commit then h.done + Of(h.open, t) else h.done,
         ended := h.ended + {t})
    case Current(c, _, _, _) => h.(begun := h.begun + {c})
    case SparseBegin(c, id, op) =>
      h.(begun := h.begun + {c}, wasSet := if op.Set? then h.wasSet + {id} else h.wasSet)
    case SparseLog(c, ok) =>
      if ok && c in e.calls then
        var f := e.calls[c];
        // Once a SET is in the log, earlier refusals no longer show.
        h.(logged := h.logged[c := f], leaked := if f.op.Set? then h.leaked[f.addr := 0] else h.leaked)
      else h
    case SparseUndo(c) =>
      if c !in e.calls || e.calls[c].addr !in e.heap then h
      else
        var f := e.calls[c];
        if e.heap[f.addr].value == f.used then h
        else h.(leaked := h.leaked[f.addr := LeakedAt(h, f.addr) + 1])
    case _ => h
  }

  function Stepped(w: World, ev: Event): World {
    World(Engaged(w.e, ev), Noted(w, ev))
  }

  function Run(w: World, evs: seq<Event>): World {
    if evs == [] then w else Stepped(Run(w, evs[..|evs| - 1]), evs[|evs| - 1])
  }

  /** The engine right after dbe_seq_restore has read a saved list into an empty table. */
  function Restored(table: map<SeqId, int>): Engine {
    Engine(
      map a: Addr | a in AddrsOf(table) :: SeqValue(table[a.id], 0, false, 0, 1),
      map id | id in table :: Addr(id, 0),
      map[], map[], map[], 1)
  }

  function AddrsOf(table: map<SeqId, int>): (r: set<Addr>)
    ensures forall a :: a in r <==> a.id in table && a.serial == 0
  {
    set id | id in table :: Addr(id, 0)
  }

  function Start(table: map<SeqId, int>): World {
    World(Restored(table),
          Ledger(map a: Addr | a in AddrsOf(table) :: table[a.id],
                 [], [], {}, {}, map[], map[], {}, {}, []))
  }

  // --------------------------------------------------------- what callers owe

  /** What an engine caller guarantees at each call: a sequence is always used the same
      way, transaction and call identifiers are used once, a new sequence does not take an
      id under which a transaction or a call is still at work, a drop is only unmarked after
      it was marked, and a call goes through its stages in order. */
  predicate Legal(dense: SeqId -> bool, w: World, ev: Event) {
    match ev
    case Create(id) =>
      && (forall t | t in w.e.regs :: id !in w.e.regs[t])
      && (forall c | c in w.e.calls :: w.e.calls[c].addr.id != id)
    case MarkDropped(_) => true
    case UnmarkDropped(id) => id in w.e.tree && w.e.tree[id] in w.e.heap && w.e.heap[w.e.tree[id]].dropCount > 0
    case Drop(_) => true
    case Dense(t, id, _, _) => dense(id) && t !in w.h.ended
    case DenseRefused(t, id) => dense(id) && t !in w.h.ended
    case EndTrx(t, commit, written) =>
      && t !in w.h.ended
      && written <= RegsOf(w.e, t).Keys
      && (commit ==> written == RegsOf(w.e, t).Keys)
    case Current(c, t, id, densep) => densep == dense(id) && c !in w.h.begun && (densep ==> t !in w.h.ended)
    case SparseBegin(c, id, _) => !dense(id) && c !in w.h.begun
    case SparseLog(c, _) => c in w.e.calls && w.e.calls[c].stage == Pending
    case SparseUndo(c) => c in w.e.calls && w.e.calls[c].stage == Refused
    case CallEnd(c) => c in w.e.calls && w.e.calls[c].stage in {Reading, Logged, Undone}
  }

  predicate LegalRun(dense: SeqId -> bool, w: World, evs: seq<Event>) {
    evs == [] ||
    (LegalRun(dense, w, evs[..|evs| - 1]) && Legal(dense, Run(w, evs[..|evs| - 1]), evs[|evs| - 1]))
  }

  lemma {:induction false} RunSplits(dense: SeqId -> bool, w: World, xs: seq<Event>, ys: seq<Event>)
    requires LegalRun(dense, w, xs + ys)
    ensures LegalRun(dense, w, xs)
    ensures LegalRun(dense, Run(w, xs), ys)
    ensures Run(w, xs + ys) == Run(Run(w, xs), ys)
  {
    if ys == [] {
      assert xs + ys == xs;
    } else {
      var evs := xs + ys;
      assert evs[..|evs| - 1] == xs + ys[..|ys| - 1];
      RunSplits(dense, w, xs, ys[..|ys| - 1]);
    }
  }
}
