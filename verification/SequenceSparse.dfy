/**
 Sparse sequences are not transactional: NEXT increments under the mutex, writes the log
 outside it, takes a refused increment back under the mutex again, and only if nobody moved
 the value meanwhile, and gives its link back at the very end. Over every interleaving of
 these steps no value is handed out twice and no increment is unaccounted for.
 */
module SequenceSparse {
  import opened Sequence
  import opened SequenceLinks

  /** The value is changed, and neither logged nor dealt with after a refusal. */
  predicate Unsettled(f: Flight) {
    f.stage == Pending || f.stage == Refused
  }

  predicate Open(e: Engine, c: Call) {
    c in e.calls && Unsettled(e.calls[c])
  }

  function OpenOn(e: Engine, a: Addr): set<Call> {
    OpenIn(e.calls, a)
  }

  function OpenIn(calls: map<Call, Flight>, a: Addr): set<Call> {
    set c | c in calls && Unsettled(calls[c]) && calls[c].addr == a
  }

  function LoggedOn(h: Ledger, a: Addr): set<Call> {
    set c | c in h.logged && h.logged[c].addr == a
  }

  /** The call holds a value: it is in flight and unsettled, or the log has taken it. */
  predicate Holds(w: World, c: Call) {
    Open(w.e, c) || c in w.h.logged
  }

  function HeldBy(w: World, c: Call): Flight
    requires Holds(w, c)
  {
    if c in w.h.logged then w.h.logged[c] else w.e.calls[c]
  }

  /** A sparse sequence that never saw a SET. */
  predicate Plain(w: World, id: SeqId) {
    id !in w.h.wasSet
  }

  predicate FlightOk(w: World, c: Call)
    requires Holds(w, c)
  {
    var f := HeldBy(w, c);
    && f.addr.serial < w.e.serial && (f.op.Next? ==> f.saved == f.used - 1)
    && (Plain(w, f.addr.id) ==>
          && f.op.Next?
          && f.addr in w.h.base && w.h.base[f.addr] < f.used
          && (f.addr in w.e.heap ==> f.used <= w.e.heap[f.addr].value))
  }

  predicate Apart(w: World, c: Call, d: Call)
    requires Holds(w, c) && Holds(w, d)
  {
    c != d && HeldBy(w, c).addr == HeldBy(w, d).addr && Plain(w, HeldBy(w, c).addr.id) ==>
      HeldBy(w, c).used != HeldBy(w, d).used
  }

  predicate SparseOk(w: World, a: Addr)
    requires a in w.e.heap
  {
    && a in w.h.base
    && w.e.heap[a].value == w.h.base[a] + |LoggedOn(w.h, a)| + |OpenOn(w.e, a)| + LeakedAt(w.h, a)
  }

  ghost predicate SparseInv(dense: SeqId -> bool, w: World) {
    && w.h.logged.Keys <= w.h.begun
    && (forall c | c in w.e.calls && Unsettled(w.e.calls[c]) :: c !in w.h.logged)
    && (forall a | a in w.h.leaked :: a.serial < w.e.serial)
    && (forall c | Holds(w, c) :: FlightOk(w, c))
    && (forall c, d | Holds(w, c) && Holds(w, d) :: Apart(w, c, d))
    && (forall a | a in w.e.heap && !dense(a.id) && Plain(w, a.id) :: SparseOk(w, a))
  }

  /** Held values belong to sparse sequences. */
  ghost predicate HeldSparse(dense: SeqId -> bool, w: World) {
    forall c | Holds(w, c) :: !dense(HeldBy(w, c).addr.id)
  }

  lemma StartSparse(dense: SeqId -> bool, table: map<SeqId, int>)
    ensures SparseInv(dense, Start(table)) && HeldSparse(dense, Start(table))
  {
    var w := Start(table);
    forall a | a in w.e.heap ensures SparseOk(w, a) {
      assert LoggedOn(w.h, a) == {} && OpenOn(w.e, a) == {};
    }
  }

  // ------------------------------------------------------------------ frames

  /** The same value, whatever the stage. */
  predicate SameFlight(f: Flight, g: Flight) {
    f.addr == g.addr && f.op == g.op && f.used == g.used && f.saved == g.saved
  }

  /** Steps that change no sparse value and settle no call. */
  ghost predicate SameSparse(dense: SeqId -> bool, w: World, w': World) {
    && (forall c :: Open(w'.e, c) <==> Open(w.e, c))
    && (forall c | Open(w.e, c) && Open(w'.e, c) :: SameFlight(w'.e.calls[c], w.e.calls[c]))
    && w'.h.logged == w.h.logged && w'.h.leaked == w.h.leaked && w'.h.wasSet == w.h.wasSet
    && w.h.begun <= w'.h.begun
    && w'.h.base == w.h.base && w'.e.serial == w.e.serial
    && (forall a | a in w'.e.heap && !dense(a.id) :: a in w.e.heap && w'.e.heap[a].value == w.e.heap[a].value)
  }

  lemma SameOpen(w: World, w': World, a: Addr)
    requires forall c :: Open(w'.e, c) <==> Open(w.e, c)
    requires forall c | Open(w.e, c) && Open(w'.e, c) :: SameFlight(w'.e.calls[c], w.e.calls[c])
    ensures OpenOn(w'.e, a) == OpenOn(w.e, a)
  {
    forall c ensures c in OpenOn(w'.e, a) <==> c in OpenOn(w.e, a) {
      assert Open(w'.e, c) <==> Open(w.e, c);
    }
  }

  lemma SameHeld(dense: SeqId -> bool, w: World, w': World, c: Call)
    requires SameSparse(dense, w, w')
    ensures Holds(w', c) <==> Holds(w, c)
    ensures Holds(w, c) ==> SameFlight(HeldBy(w', c), HeldBy(w, c))
  {
    assert Open(w'.e, c) <==> Open(w.e, c);
  }

  lemma Untouched(dense: SeqId -> bool, w: World, w': World)
    requires SparseInv(dense, w) && HeldSparse(dense, w) && SameSparse(dense, w, w')
    ensures SparseInv(dense, w') && HeldSparse(dense, w')
  {
    hide SameSparse, Open, OpenOn, LoggedOn;
    forall c ensures (Holds(w', c) <==> Holds(w, c)) && (Holds(w, c) ==> SameFlight(HeldBy(w', c), HeldBy(w, c))) {
      SameHeld(dense, w, w', c);
    }
    SameBooks(dense, w, w');
    forall c | Holds(w', c) ensures FlightOk(w', c) && !dense(HeldBy(w', c).addr.id) {
      assert FlightOk(w, c);
    }
    forall c, d | Holds(w', c) && Holds(w', d) ensures Apart(w', c, d) {
      assert Apart(w, c, d);
    }
    forall a | a in w'.e.heap && !dense(a.id) && Plain(w', a.id) ensures SparseOk(w', a) {
      assert SparseOk(w, a);
      SameCounts(dense, w, w', a);
    }
  }

  lemma SameBooks(dense: SeqId -> bool, w: World, w': World)
    requires SparseInv(dense, w) && SameSparse(dense, w, w')
    ensures w'.h.logged.Keys <= w'.h.begun && w'.h.wasSet == w.h.wasSet && w'.h.base == w.h.base
    ensures w'.e.serial == w.e.serial && w'.h.leaked == w.h.leaked
    ensures forall c | c in w'.e.calls && Unsettled(w'.e.calls[c]) :: c !in w'.h.logged
    ensures forall a | a in w'.e.heap && !dense(a.id) :: a in w.e.heap && w'.e.heap[a].value == w.e.heap[a].value
  {
    forall c | c in w'.e.calls && Unsettled(w'.e.calls[c]) ensures c !in w'.h.logged {
      assert Open(w'.e, c) <==> Open(w.e, c);
    }
  }

  lemma SameCounts(dense: SeqId -> bool, w: World, w': World, a: Addr)
    requires SameSparse(dense, w, w')
    ensures OpenOn(w'.e, a) == OpenOn(w.e, a) && LoggedOn(w'.h, a) == LoggedOn(w.h, a)
    ensures LeakedAt(w'.h, a) == LeakedAt(w.h, a)
  {
    SameOpen(w, w', a);
  }

  lemma MineDense(dense: SeqId -> bool, e: Engine, t: Trx)
    requires Shape(dense, e)
    ensures forall a | a in Mine(e, t) :: dense(a.id)
  {
    forall a | a in Mine(e, t) ensures dense(a.id) {
      var id :| id in RegsOf(e, t) && RegsOf(e, t)[id] == a;
      assert RegOk(dense, e, t, id);
    }
  }

  /** Steps on dense sequences and on drop marks. */
  lemma TableFrame(dense: SeqId -> bool, w: World, ev: Event)
    requires ev.Dense? || ev.EndTrx? || ev.DenseRefused? || ev.MarkDropped? || ev.UnmarkDropped? || ev.Drop?
    requires ev.Dense? ==> ev.id in w.e.tree ==> dense(w.e.tree[ev.id].id)
    requires ev.EndTrx? ==> forall a | a in Mine(w.e, ev.t) :: dense(a.id)
    ensures SameSparse(dense, w, Stepped(w, ev))
  {
    hide Stepped, Mine;
    FrameLedger(w, ev);
    TableEngine(dense, w, ev);
  }

  /** Only creates, logged calls and refusals are entered into the books on sparse values. */
  lemma FrameLedger(w: World, ev: Event)
    requires !ev.Create? && !ev.SparseBegin? && !ev.SparseUndo? && !(ev.SparseLog? && ev.ok)
    ensures var h, h' := w.h, Stepped(w, ev).h;
            && h'.logged == h.logged && h'.leaked == h.leaked && h'.wasSet == h.wasSet
            && h.begun <= h'.begun && h'.base == h.base
  {
    hide Engaged, Recs;
  }

  lemma TableEngine(dense: SeqId -> bool, w: World, ev: Event)
    requires ev.Dense? || ev.EndTrx? || ev.DenseRefused? || ev.MarkDropped? || ev.UnmarkDropped? || ev.Drop?
    requires ev.Dense? ==> ev.id in w.e.tree ==> dense(w.e.tree[ev.id].id)
    requires ev.EndTrx? ==> forall a | a in Mine(w.e, ev.t) :: dense(a.id)
    ensures var e, e' := w.e, Stepped(w, ev).e;
            && e'.calls == e.calls && e'.serial == e.serial
            && (forall a | a in e'.heap && !dense(a.id) :: a in e.heap && e'.heap[a].value == e.heap[a].value)
  {
    hide Noted, Mine;
  }

  /** The parts of a call that neither change the value nor settle it. */
  lemma StageFrame(dense: SeqId -> bool, w: World, ev: Event)
    requires ev.Current? || ev.CallEnd? || (ev.SparseLog? && !ev.ok)
    requires ev.Current? ==> ev.c !in w.e.calls
    requires !ev.Current? ==> ev.c in w.e.calls && (Unsettled(w.e.calls[ev.c]) <==> ev.SparseLog?)
    ensures SameSparse(dense, w, Stepped(w, ev))
  {
    hide Noted;
    FrameLedger(w, ev);
  }

  lemma FrameSparse(dense: SeqId -> bool, w: World, ev: Event)
    requires LinkInv(dense, w) && Legal(dense, w, ev)
    requires !ev.Create? && !ev.SparseBegin? && !ev.SparseUndo? && !(ev.SparseLog? && ev.ok)
    ensures SameSparse(dense, w, Stepped(w, ev))
  {
    hide SameSparse, Stepped;
    if ev.Dense? {
      assert ev.id in w.e.tree ==> TreeOk(w.e, ev.id);
    } else if ev.EndTrx? {
      MineDense(dense, w.e, ev.t);
    }
    if ev.Current? || ev.CallEnd? || ev.SparseLog? {
      StageFrame(dense, w, ev);
    } else {
      TableFrame(dense, w, ev);
    }
  }

  // ------------------------------------------------------------------ create

  lemma NobodyHolds(w: World, a: Addr)
    requires (forall c | Holds(w, c) :: FlightOk(w, c)) && a.serial >= w.e.serial
    ensures LoggedOn(w.h, a) == {}
    ensures (forall c | c in w.e.calls && Unsettled(w.e.calls[c]) :: c !in w.h.logged) ==> OpenOn(w.e, a) == {}
  {
    forall c | c in w.h.logged ensures w.h.logged[c].addr != a {
      assert Holds(w, c) && FlightOk(w, c);
    }
    if forall c | c in w.e.calls && Unsettled(w.e.calls[c]) :: c !in w.h.logged {
      forall c | c in w.e.calls && Unsettled(w.e.calls[c]) ensures w.e.calls[c].addr != a {
        assert Holds(w, c) && FlightOk(w, c);
      }
    }
  }

  lemma CreateStep(w: World, id: SeqId)
    ensures var w' := Stepped(w, Create(id));
            var made := Addr(id, w.e.serial);
            && w'.e.calls == w.e.calls && w'.e.serial == w.e.serial + 1 && w'.e.heap == w.e.heap[made := NewValue]
            && w'.h.base == w.h.base[made := 0]
            && w'.h.logged == w.h.logged && w'.h.leaked == w.h.leaked && w'.h.wasSet == w.h.wasSet
            && w'.h.begun == w.h.begun
  {
    hide Recs;
  }

  lemma CreateSparse(dense: SeqId -> bool, w: World, id: SeqId)
    requires LinkInv(dense, w) && SparseInv(dense, w) && HeldSparse(dense, w)
    ensures SparseInv(dense, Stepped(w, Create(id))) && HeldSparse(dense, Stepped(w, Create(id)))
  {
    hide LinkInv, Stepped;
    var w' := Stepped(w, Create(id));
    var made := Addr(id, w.e.serial);
    CreateStep(w, id);
    forall c ensures (Holds(w', c) <==> Holds(w, c)) && (Holds(w, c) ==> HeldBy(w', c) == HeldBy(w, c)) {
    }
    forall c | Holds(w', c) ensures FlightOk(w', c) && !dense(HeldBy(w', c).addr.id) {
      assert FlightOk(w, c);
    }
    forall c, d | Holds(w', c) && Holds(w', d) ensures Apart(w', c, d) {
      assert Apart(w, c, d);
    }
    forall a | a in w'.e.heap && !dense(a.id) && Plain(w', a.id) ensures SparseOk(w', a) {
      assert LoggedOn(w'.h, a) == LoggedOn(w.h, a) && OpenOn(w'.e, a) == OpenOn(w.e, a);
      if a == made {
        NobodyHolds(w, made);
      } else {
        assert SparseOk(w, a);
      }
    }
  }

  // ------------------------------------------------------------------- begin

  lemma BeginStep(w: World, c: Call, id: SeqId, op: Op)
    ensures var w' := Stepped(w, SparseBegin(c, id, op));
            && w'.h.logged == w.h.logged
            && (Usable(w.e, id) ==>
                  exists f: Flight :: f.addr == w.e.tree[id] && f.stage == Pending && w'.e.calls == w.e.calls[c := f])
  {
    hide Recs;
    if Usable(w.e, id) {
      var f := SparseBegun(w.e, c, id, op).calls[c];
      assert f.addr == w.e.tree[id] && Stepped(w, SparseBegin(c, id, op)).e.calls == w.e.calls[c := f];
    }
  }

  lemma BeginHeld(w: World, c: Call, id: SeqId, op: Op, d: Call)
    requires Usable(w.e, id) && c !in w.e.calls && c !in w.h.logged
    ensures var w' := Stepped(w, SparseBegin(c, id, op));
            && Holds(w', c) && HeldBy(w', c) == SparseBegun(w.e, c, id, op).calls[c]
            && (d != c ==> (Holds(w', d) <==> Holds(w, d)) && (Holds(w, d) ==> HeldBy(w', d) == HeldBy(w, d)))
  {
  }

  lemma BeginFlight(w: World, c: Call, id: SeqId, op: Op, d: Call)
    requires Usable(w.e, id) && c !in w.e.calls && c !in w.h.logged && Holds(w, d) && FlightOk(w, d)
    requires w.e.tree[id].id == id && d != c
    ensures Holds(Stepped(w, SparseBegin(c, id, op)), d) && FlightOk(Stepped(w, SparseBegin(c, id, op)), d)
  {
    hide Holds, HeldBy;
    BeginHeld(w, c, id, op, d);
  }

  lemma OpenMore(e: Engine, e': Engine, c: Call, f: Flight, b: Addr)
    requires c !in e.calls && e'.calls == e.calls[c := f] && Unsettled(f)
    ensures OpenOn(e', b) == OpenOn(e, b) + if f.addr == b then {c} else {}
    ensures c !in OpenOn(e, b)
  {
  }

  lemma BeginCount(w: World, c: Call, id: SeqId, op: Op, b: Addr)
    requires Usable(w.e, id) && c !in w.e.calls && c !in w.h.logged
    ensures var w' := Stepped(w, SparseBegin(c, id, op));
            && LoggedOn(w'.h, b) == LoggedOn(w.h, b)
            && |OpenOn(w'.e, b)| == |OpenOn(w.e, b)| + if b == w.e.tree[id] then 1 else 0
  {
    hide Stepped, OpenOn, LoggedOn;
    BeginStep(w, c, id, op);
    var w' := Stepped(w, SparseBegin(c, id, op));
    var f: Flight :| f.addr == w.e.tree[id] && f.stage == Pending && w'.e.calls == w.e.calls[c := f];
    OpenMore(w.e, w'.e, c, f, b);
    SameLogged(w'.h, w.h, b);
  }

  lemma SameLogged(h: Ledger, g: Ledger, b: Addr)
    requires h.logged == g.logged
    ensures LoggedOn(h, b) == LoggedOn(g, b)
  {
  }

  lemma BeginSparse(dense: SeqId -> bool, w: World, c: Call, id: SeqId, op: Op)
    requires SparseInv(dense, w) && HeldSparse(dense, w) && Usable(w.e, id) && c !in w.e.calls && c !in w.h.begun
    requires !dense(id) && w.e.tree[id].id == id && w.e.tree[id].serial < w.e.serial
    ensures SparseInv(dense, Stepped(w, SparseBegin(c, id, op)))
    ensures HeldSparse(dense, Stepped(w, SparseBegin(c, id, op)))
  {
    hide Holds, HeldBy, OpenOn, LoggedOn;
    var w' := Stepped(w, SparseBegin(c, id, op));
    var a := w.e.tree[id];
    forall d ensures (d != c ==> (Holds(w', d) <==> Holds(w, d)) && (Holds(w, d) ==> HeldBy(w', d) == HeldBy(w, d))) {
      BeginHeld(w, c, id, op, d);
    }
    BeginHeld(w, c, id, op, c);
    assert Plain(w', id) ==> SparseOk(w, a);
    forall d | Holds(w', d) ensures FlightOk(w', d) && !dense(HeldBy(w', d).addr.id) {
      if d != c {
        assert FlightOk(w, d);
        BeginFlight(w, c, id, op, d);
      }
    }
    forall d, g | Holds(w', d) && Holds(w', g) ensures Apart(w', d, g) {
      assert Holds(w, d) && Holds(w, g) ==> Apart(w, d, g);
      assert Holds(w, d) ==> FlightOk(w, d);
      assert Holds(w, g) ==> FlightOk(w, g);
    }
    forall b | b in w'.e.heap && !dense(b.id) && Plain(w', b.id) ensures SparseOk(w', b) {
      assert SparseOk(w, b);
      BeginCount(w, c, id, op, b);
    }
  }

  // --------------------------------------------------------------------- log

  /** The log takes a call: it holds its value as before. */
  lemma LogHeld(w: World, c: Call, d: Call)
    requires Open(w.e, c) && c !in w.h.logged
    ensures var w' := Stepped(w, SparseLog(c, true));
            (Holds(w', d) <==> Holds(w, d)) && (Holds(w, d) ==> HeldBy(w', d) == HeldBy(w, d))
  {
  }

  lemma LogStep(w: World, c: Call)
    requires c in w.e.calls
    ensures var w' := Stepped(w, SparseLog(c, true));
            && w'.e == LogAnswered(w.e, c, true) && w'.h.logged == w.h.logged[c := w.e.calls[c]]
            && w'.h.leaked == (if w.e.calls[c].op.Set? then w.h.leaked[w.e.calls[c].addr := 0] else w.h.leaked)
            && w'.h.base == w.h.base && w'.h.wasSet == w.h.wasSet && w'.h.begun == w.h.begun
  {
    hide Recs;
  }

  lemma LogCount(w: World, c: Call, b: Addr)
    requires Open(w.e, c) && c !in w.h.logged
    ensures var w' := Stepped(w, SparseLog(c, true));
            |LoggedOn(w'.h, b)| + |OpenOn(w'.e, b)| == |LoggedOn(w.h, b)| + |OpenOn(w.e, b)|
    ensures var w' := Stepped(w, SparseLog(c, true));
            |OpenOn(w'.e, b)| == |OpenOn(w.e, b)| - if w.e.calls[c].addr == b then 1 else 0
  {
    hide Stepped, OpenOn, LoggedOn, LogAnswered;
    LogStep(w, c);
    LogOpen(w.e, c, b);
    LogLogged(w.h, Stepped(w, SparseLog(c, true)).h, c, w.e.calls[c], b);
  }

  lemma LogOpen(e: Engine, c: Call, b: Addr)
    requires Open(e, c)
    ensures |OpenOn(LogAnswered(e, c, true), b)| == |OpenOn(e, b)| - if e.calls[c].addr == b then 1 else 0
  {
    var e' := LogAnswered(e, c, true);
    if e.calls[c].addr == b {
      assert c in OpenOn(e, b);
      assert OpenOn(e', b) == OpenOn(e, b) - {c};
    } else {
      assert OpenOn(e', b) == OpenOn(e, b);
    }
  }

  lemma LogLogged(h: Ledger, h': Ledger, c: Call, f: Flight, b: Addr)
    requires h'.logged == h.logged[c := f] && c !in h.logged
    ensures |LoggedOn(h', b)| == |LoggedOn(h, b)| + if f.addr == b then 1 else 0
  {
    if f.addr == b {
      assert LoggedOn(h', b) == LoggedOn(h, b) + {c};
    } else {
      assert LoggedOn(h', b) == LoggedOn(h, b);
    }
  }

  lemma LogSparse(dense: SeqId -> bool, w: World, c: Call)
    requires SparseInv(dense, w) && HeldSparse(dense, w) && Open(w.e, c) && c in w.h.begun
    ensures SparseInv(dense, Stepped(w, SparseLog(c, true))) && HeldSparse(dense, Stepped(w, SparseLog(c, true)))
  {
    var w' := Stepped(w, SparseLog(c, true));
    assert Holds(w, c) && FlightOk(w, c) && HeldBy(w, c) == w.e.calls[c];
    assert !Open(LogAnswered(w.e, c, true), c);
    hide Holds, HeldBy, OpenOn, LoggedOn, Stepped;
    LogStep(w, c);
    forall d ensures (Holds(w', d) <==> Holds(w, d)) && (Holds(w, d) ==> HeldBy(w', d) == HeldBy(w, d)) {
      LogHeld(w, c, d);
    }
    forall d | Holds(w', d) ensures FlightOk(w', d) && !dense(HeldBy(w', d).addr.id) {
      assert FlightOk(w, d);
    }
    forall d, g | Holds(w', d) && Holds(w', g) ensures Apart(w', d, g) {
      assert Apart(w, d, g);
    }
    forall b | b in w'.e.heap && !dense(b.id) && Plain(w', b.id) ensures SparseOk(w', b) {
      assert SparseOk(w, b);
      LogCount(w, c, b);
    }
  }

  // -------------------------------------------------------------------- undo

  /** A refused call lets go of its value; the others keep theirs. */
  lemma UndoHeld(w: World, c: Call, d: Call)
    requires Open(w.e, c) && c !in w.h.logged && w.e.calls[c].addr in w.e.heap
    ensures var w' := Stepped(w, SparseUndo(c));
            && (Holds(w', d) <==> Holds(w, d) && d != c)
            && (Holds(w, d) && d != c ==> HeldBy(w', d) == HeldBy(w, d))
  {
  }

  lemma UndoStep(w: World, c: Call)
    requires c in w.e.calls && w.e.calls[c].addr in w.e.heap
    ensures var w', f := Stepped(w, SparseUndo(c)), w.e.calls[c];
            && w'.e == RefusalUndone(w.e, c) && w'.h.logged == w.h.logged
            && w'.h.leaked == if w.e.heap[f.addr].value == f.used then w.h.leaked
                              else w.h.leaked[f.addr := LeakedAt(w.h, f.addr) + 1]
  {
  }

  /** Either the value goes back by one or the increment is written off. */
  lemma UndoCount(w: World, c: Call, b: Addr)
    requires Open(w.e, c) && c !in w.h.logged && w.e.calls[c].addr in w.e.heap && b in w.e.heap
    ensures var w', f := Stepped(w, SparseUndo(c)), w.e.calls[c];
            && b in w'.e.heap
            && LoggedOn(w'.h, b) == LoggedOn(w.h, b)
            && |OpenOn(w'.e, b)| == |OpenOn(w.e, b)| - (if f.addr == b then 1 else 0)
            && LeakedAt(w'.h, b) ==
               LeakedAt(w.h, b) + (if f.addr == b && w.e.heap[b].value != f.used then 1 else 0)
            && w'.e.heap[b].value == if f.addr == b && w.e.heap[b].value == f.used then f.saved else w.e.heap[b].value
  {
    hide Stepped;
    UndoStep(w, c);
    var w' := Stepped(w, SparseUndo(c));
    assert LoggedOn(w'.h, b) == LoggedOn(w.h, b);
    if b == w.e.calls[c].addr {
      assert OpenOn(w'.e, b) == OpenOn(w.e, b) - {c} && c in OpenOn(w.e, b);
    } else {
      assert OpenOn(w'.e, b) == OpenOn(w.e, b);
    }
  }

  lemma UndoFlight(w: World, c: Call, d: Call)
    requires Open(w.e, c) && c !in w.h.logged && w.e.calls[c].addr in w.e.heap
    requires Holds(w, c) && Holds(w, d) && d != c && FlightOk(w, c) && FlightOk(w, d) && Apart(w, c, d)
    ensures Holds(Stepped(w, SparseUndo(c)), d) && FlightOk(Stepped(w, SparseUndo(c)), d)
  {
    UndoHeld(w, c, d);
    var b := HeldBy(w, d).addr;
    if b in w.e.heap {
      UndoCount(w, c, b);
    }
  }

  lemma UndoSparse(dense: SeqId -> bool, w: World, c: Call)
    requires SparseInv(dense, w) && HeldSparse(dense, w) && Open(w.e, c) && w.e.calls[c].addr in w.e.heap
    ensures SparseInv(dense, Stepped(w, SparseUndo(c))) && HeldSparse(dense, Stepped(w, SparseUndo(c)))
  {
    var w' := Stepped(w, SparseUndo(c));
    assert Holds(w, c) && FlightOk(w, c) && HeldBy(w, c) == w.e.calls[c];
    hide Holds, HeldBy, OpenOn, LoggedOn;
    forall d ensures (Holds(w', d) <==> Holds(w, d) && d != c)
      && (Holds(w, d) && d != c ==> HeldBy(w', d) == HeldBy(w, d)) {
      UndoHeld(w, c, d);
    }
    forall d | Holds(w', d) ensures FlightOk(w', d) && !dense(HeldBy(w', d).addr.id) {
      assert FlightOk(w, d) && Apart(w, c, d);
      UndoFlight(w, c, d);
    }
    forall d, g | Holds(w', d) && Holds(w', g) ensures Apart(w', d, g) {
      assert Apart(w, d, g);
    }
    forall b | b in w'.e.heap && !dense(b.id) && Plain(w', b.id) ensures SparseOk(w', b) {
      UndoKeepsHeap(w, c, b);
      assert SparseOk(w, b);
      UndoCount(w, c, b);
    }
  }

  lemma UndoKeepsHeap(w: World, c: Call, b: Addr)
    ensures b in Stepped(w, SparseUndo(c)).e.heap <==> b in w.e.heap
  {
  }

  // -------------------------------------------------------------------- runs

  lemma SparseKept(dense: SeqId -> bool, w: World, ev: Event)
    requires LinkInv(dense, w) && HeldSparse(dense, w) && SparseInv(dense, w) && Legal(dense, w, ev)
    ensures SparseInv(dense, Stepped(w, ev)) && HeldSparse(dense, Stepped(w, ev))
  {
    if ev.Create? {
      CreateSparse(dense, w, ev.id);
    } else if ev.SparseBegin? && Usable(w.e, ev.id) {
      assert TreeOk(w.e, ev.id) && ObjectOk(w.e, w.h.orphans, w.e.tree[ev.id]);
      BeginSparse(dense, w, ev.c, ev.id, ev.op);
    } else if ev.SparseBegin? {
      NotBegun(dense, w, ev.c, ev.id, ev.op);
    } else if ev.SparseLog? && ev.ok {
      LogSparse(dense, w, ev.c);
    } else if ev.SparseUndo? {
      assert CallOk(dense, w.e, ev.c);
      UndoSparse(dense, w, ev.c);
    } else {
      FrameSparse(dense, w, ev);
      Untouched(dense, w, Stepped(w, ev));
    }
  }

  /** A sequence that cannot be used gets no call; at most one is no longer plain. */
  lemma NotBegun(dense: SeqId -> bool, w: World, c: Call, id: SeqId, op: Op)
    requires SparseInv(dense, w) && HeldSparse(dense, w) && !Usable(w.e, id)
    ensures SparseInv(dense, Stepped(w, SparseBegin(c, id, op)))
    ensures HeldSparse(dense, Stepped(w, SparseBegin(c, id, op)))
  {
    var w' := Stepped(w, SparseBegin(c, id, op));
    forall d | Holds(w', d) ensures FlightOk(w', d) && !dense(HeldBy(w', d).addr.id) {
      assert Holds(w, d) && FlightOk(w, d);
    }
    forall d, g | Holds(w', d) && Holds(w', g) ensures Apart(w', d, g) {
      assert Apart(w, d, g);
    }
    forall b | b in w'.e.heap && !dense(b.id) && Plain(w', b.id) ensures SparseOk(w', b) {
      assert SparseOk(w, b);
      assert LoggedOn(w'.h, b) == LoggedOn(w.h, b) && OpenOn(w'.e, b) == OpenOn(w.e, b);
    }
  }

  lemma {:induction false} RunSparse(dense: SeqId -> bool, w: World, evs: seq<Event>)
    requires LinkInv(dense, w) && HeldSparse(dense, w) && SparseInv(dense, w) && LegalRun(dense, w, evs)
    ensures HeldSparse(dense, Run(w, evs)) && SparseInv(dense, Run(w, evs))
  {
    hide LinkInv, HeldSparse, SparseInv, Stepped, Legal;
    if evs != [] {
      RunSparse(dense, w, evs[..|evs| - 1]);
      RunLinked(dense, w, evs[..|evs| - 1]);
      SparseKept(dense, Run(w, evs[..|evs| - 1]), evs[|evs| - 1]);
    }
  }

  // ---------------------------------------------------------------- theorems

  /** The run sets no value of this sparse sequence. */
  predicate NeverSet(evs: seq<Event>, id: SeqId) {
    forall ev | ev in evs && ev.SparseBegin? && ev.id == id :: ev.op.Next?
  }

  lemma {:induction false} NeverSetPlain(w: World, evs: seq<Event>, id: SeqId)
    requires Plain(w, id)
    ensures Plain(Run(w, evs), id) <==> NeverSet(evs, id)
  {
    hide Stepped, Plain;
    if evs != [] {
      var before, ev := evs[..|evs| - 1], evs[|evs| - 1];
      NeverSetPlain(w, before, id);
      assert evs == before + [ev];
      SetStep(Run(w, before), ev, id);
    }
  }

  lemma SetStep(w: World, ev: Event, id: SeqId)
    ensures Plain(Stepped(w, ev), id) <==> Plain(w, id) && !(ev.SparseBegin? && ev.id == id && ev.op.Set?)
  {
  }

  /** Over every interleaving of increments, answers of the log, undone refusals and unlinks,
      two calls that hold a value of the same sequence hold different values. */
  lemma {:induction false} ValuesDistinct(dense: SeqId -> bool, table: map<SeqId, int>, evs: seq<Event>,
                                          c: Call, d: Call)
    requires LegalRun(dense, Start(table), evs)
    requires c != d && Holds(Run(Start(table), evs), c) && Holds(Run(Start(table), evs), d)
    requires NeverSet(evs, HeldBy(Run(Start(table), evs), c).addr.id)
    ensures var w := Run(Start(table), evs);
            HeldBy(w, c).addr == HeldBy(w, d).addr ==> HeldBy(w, c).used != HeldBy(w, d).used
  {
    StartLinked(dense, table);
    StartSparse(dense, table);
    RunSparse(dense, Start(table), evs);
    NeverSetPlain(Start(table), evs, HeldBy(Run(Start(table), evs), c).addr.id);
    assert Apart(Run(Start(table), evs), c, d);
  }

  /** The current value is never behind a value somebody holds, and it is ahead of the first
      value by exactly the logged increments, those not yet settled, and those the log
      refused and nobody could take back. */
  lemma {:induction false} IncrementsAddUp(dense: SeqId -> bool, table: map<SeqId, int>, evs: seq<Event>, a: Addr)
    requires LegalRun(dense, Start(table), evs) && NeverSet(evs, a.id)
    requires a in Run(Start(table), evs).e.heap && !dense(a.id)
    ensures var w := Run(Start(table), evs);
            && (forall c | Holds(w, c) && HeldBy(w, c).addr == a :: HeldBy(w, c).used <= w.e.heap[a].value)
            && a in w.h.base
            && w.e.heap[a].value - w.h.base[a] == |LoggedOn(w.h, a)| + |OpenOn(w.e, a)| + LeakedAt(w.h, a)
  {
    StartLinked(dense, table);
    StartSparse(dense, table);
    RunSparse(dense, Start(table), evs);
    NeverSetPlain(Start(table), evs, a.id);
    var w := Run(Start(table), evs);
    assert SparseOk(w, a);
    forall c | Holds(w, c) && HeldBy(w, c).addr == a ensures HeldBy(w, c).used <= w.e.heap[a].value {
      assert FlightOk(w, c);
    }
  }
}
