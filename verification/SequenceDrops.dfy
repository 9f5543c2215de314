/**
 What the outside knows of a sequence: whether it exists, with how many pending drops, who has
 its lock, and which calls are at work. All of it is checked here against the history of the
 events alone.
 */
module SequenceDrops {
  import opened Options
  import opened Sequence
  import opened SequenceLinks

  /** What the outside knows of a sequence: whether it exists, and how many drops are pending. */
  datatype History = History(present: bool, pending: int)

  function Told(h: History, ev: Event, id: SeqId): History {
    match ev
    case Create(i) => if i == id && !h.present then History(true, 0) else h
    case Drop(i) => if i == id then History(false, 0) else h
    case MarkDropped(i) => if i == id && h.present then h.(pending := h.pending + 1) else h
    case UnmarkDropped(i) => if i == id && h.present then h.(pending := h.pending - 1) else h
    case _ => h
  }

  function HistoryOf(table: map<SeqId, int>, evs: seq<Event>, id: SeqId): History {
    if evs == [] then History(id in table, 0)
    else Told(HistoryOf(table, evs[..|evs| - 1], id), evs[|evs| - 1], id)
  }

  /** The table knows of a sequence what its history tells. */
  predicate Remembers(e: Engine, id: SeqId, h: History) {
    && (id in e.tree <==> h.present)
    && (id in e.tree ==> e.tree[id] in e.heap && e.heap[e.tree[id]].dropCount == h.pending >= 0)
    && (id !in e.tree ==> h.pending == 0)
  }

  /** Links come and go, but only marks move the drop count. */
  lemma OnlyMarksCount(e: Engine, ev: Event, a: Addr)
    requires !ev.MarkDropped? && !ev.UnmarkDropped?
    requires a in e.heap && a in Engaged(e, ev).heap && a.serial < e.serial
    ensures Engaged(e, ev).heap[a].dropCount == e.heap[a].dropCount
  {
  }

  lemma TreeStays(e: Engine, ev: Event, id: SeqId)
    requires !((ev.Create? || ev.Drop?) && ev.id == id)
    ensures id in Engaged(e, ev).tree <==> id in e.tree
    ensures id in e.tree ==> Engaged(e, ev).tree[id] == e.tree[id]
  {
  }

  lemma DropStep(dense: SeqId -> bool, w: World, ev: Event, id: SeqId, h: History)
    requires LinkInv(dense, w) && Legal(dense, w, ev) && Remembers(w.e, id, h)
    requires Shape(dense, Stepped(w, ev).e)
    ensures Remembers(Stepped(w, ev).e, id, Told(h, ev, id))
  {
    if ev.MarkDropped? || ev.UnmarkDropped? || ((ev.Create? || ev.Drop?) && ev.id == id) {
      HistoryStep(dense, w, ev, id, h);
    } else {
      hide Engaged, Noted, Legal;
      TreeStays(w.e, ev, id);
      if id in w.e.tree {
        assert TreeOk(w.e, id) && TreeOk(Engaged(w.e, ev), id) && ObjectOk(w.e, w.h.orphans, w.e.tree[id]);
        OnlyMarksCount(w.e, ev, w.e.tree[id]);
      }
    }
  }

  lemma HistoryStep(dense: SeqId -> bool, w: World, ev: Event, id: SeqId, h: History)
    requires LinkInv(dense, w) && Legal(dense, w, ev) && Remembers(w.e, id, h)
    requires ev.MarkDropped? || ev.UnmarkDropped? || ((ev.Create? || ev.Drop?) && ev.id == id)
    ensures Remembers(Engaged(w.e, ev), id, Told(h, ev, id))
  {
    assert id in w.e.tree ==> TreeOk(w.e, id);
    assert !ev.Create? && ev.id in w.e.tree ==> TreeOk(w.e, ev.id);
  }

  /** An operation that wants to use this sequence. */
  predicate Works(ev: Event, id: SeqId) {
    (ev.Dense? || ev.DenseRefused? || ev.Current? || ev.SparseBegin?) && ev.id == id
  }

  /** In every run a sequence is in the table exactly when its history says so, with as many
      pending drops as were marked and not unmarked since it was created; NEXT, SET and
      CURRENT find it usable exactly when that number is zero, and otherwise change nothing
      but the lock of a dense sequence. */
  lemma {:induction false} DropsPending(dense: SeqId -> bool, table: map<SeqId, int>, evs: seq<Event>, id: SeqId)
    requires LegalRun(dense, Start(table), evs)
    ensures var e, h := Run(Start(table), evs).e, HistoryOf(table, evs, id);
            && Remembers(e, id, h)
            && (Usable(e, id) <==> h.present && h.pending == 0)
            && (h.pending > 0 ==> forall ev | Works(ev, id) :: Engaged(e, ev).(locks := e.locks) == e)
  {
    hide LinkInv, Legal, Stepped, Told, Engaged;
    StartLinked(dense, table);
    if evs == [] {
      StartRemembers(table, id);
    } else {
      var before, ev := evs[..|evs| - 1], evs[|evs| - 1];
      DropsPending(dense, table, before, id);
      RunLinked(dense, Start(table), before);
      RunLinked(dense, Start(table), evs);
      InvShape(dense, Run(Start(table), evs));
      DropStep(dense, Run(Start(table), before), ev, id, HistoryOf(table, before, id));
    }
    var e, h := Run(Start(table), evs).e, HistoryOf(table, evs, id);
    if h.pending > 0 {
      forall ev | Works(ev, id) ensures Engaged(e, ev).(locks := e.locks) == e {
        PendingRefuses(e, id, h, ev);
      }
    }
  }

  lemma StartRemembers(table: map<SeqId, int>, id: SeqId)
    ensures Remembers(Start(table).e, id, History(id in table, 0))
  {
    assert Addr(id, 0) in AddrsOf(table) <==> id in table;
  }

  lemma InvShape(dense: SeqId -> bool, w: World)
    requires LinkInv(dense, w)
    ensures Shape(dense, w.e)
  {
  }

  lemma PendingRefuses(e: Engine, id: SeqId, h: History, ev: Event)
    requires Remembers(e, id, h) && h.pending > 0 && Works(ev, id)
    ensures Engaged(e, ev).(locks := e.locks) == e
  {
  }

  // ---------------------------------------------------------- locks and calls

  /** Who asks for the lock of a dense sequence. */
  predicate AsksLock(ev: Event, id: SeqId) {
    (ev.Dense? || ev.DenseRefused? || (ev.Current? && ev.densep)) && ev.id == id
  }

  function LockMoves(holder: Option<Trx>, ev: Event, id: SeqId): Option<Trx> {
    if AsksLock(ev, id) then (if holder.None? then Some(ev.t) else holder)
    else if ev.EndTrx? && holder == Some(ev.t) then None
    else holder
  }

  /** Told from the events: the first transaction that asked for the lock since it was free, and
      has not ended. */
  function LockOf(evs: seq<Event>, id: SeqId): Option<Trx> {
    if evs == [] then None else LockMoves(LockOf(evs[..|evs| - 1], id), evs[|evs| - 1], id)
  }

  function HolderIn(e: Engine, id: SeqId): Option<Trx> {
    if id in e.locks then Some(e.locks[id]) else None
  }

  lemma LockStep(e: Engine, ev: Event, id: SeqId)
    ensures HolderIn(Engaged(e, ev), id) == LockMoves(HolderIn(e, id), ev, id)
  {
    hide Unlinked, EndedAll, Mine;
  }

  /** In every run the lock of a sequence is where the events say. */
  lemma {:induction false} LocksTold(table: map<SeqId, int>, evs: seq<Event>, id: SeqId)
    ensures HolderIn(Run(Start(table), evs).e, id) == LockOf(evs, id)
  {
    hide Engaged, LockMoves;
    if evs != [] {
      var before, ev := evs[..|evs| - 1], evs[|evs| - 1];
      LocksTold(table, before, id);
      LockStep(Run(Start(table), before).e, ev, id);
    }
  }

  /** A call gets to work, told from the events: its sequence exists without a pending drop, and
      nobody else has the lock if it needs that. */
  predicate GetsToWork(h: History, holder: Option<Trx>, ev: Event) {
    && (ev.Current? || ev.SparseBegin?) && h.present && h.pending == 0
    && (ev.Current? && ev.densep ==> holder == None || holder == Some(ev.t))
  }

  predicate AtWork(table: map<SeqId, int>, evs: seq<Event>, c: Call) {
    evs != [] &&
    var before, ev := evs[..|evs| - 1], evs[|evs| - 1];
    if (ev.Current? || ev.SparseBegin?) && ev.c == c then
      AtWork(table, before, c) || GetsToWork(HistoryOf(table, before, ev.id), LockOf(before, ev.id), ev)
    else AtWork(table, before, c) && ev != CallEnd(c)
  }

  lemma CallStep(e: Engine, ev: Event, c: Call)
    ensures c in Engaged(e, ev).calls <==>
            if (ev.Current? || ev.SparseBegin?) && ev.c == c then
              c in e.calls || (Usable(e, ev.id) && (ev.Current? && ev.densep ==> !Blocked(e, ev.t, ev.id)))
            else c in e.calls && ev != CallEnd(c)
  {
    hide Unlinked, EndedAll, Mine;
  }

  /** In every run a call is in flight, and holds its link, exactly from its begin to its end. */
  lemma {:induction false} CallsTold(dense: SeqId -> bool, table: map<SeqId, int>, evs: seq<Event>, c: Call)
    requires LegalRun(dense, Start(table), evs)
    ensures c in Run(Start(table), evs).e.calls <==> AtWork(table, evs, c)
  {
    hide Engaged, HistoryOf, LockOf, Legal, Usable;
    if evs != [] {
      var before, ev := evs[..|evs| - 1], evs[|evs| - 1];
      CallsTold(dense, table, before, c);
      CallStep(Run(Start(table), before).e, ev, c);
      if ev.Current? || ev.SparseBegin? {
        DropsPending(dense, table, before, ev.id);
        LocksTold(table, before, ev.id);
      }
    }
  }
}
