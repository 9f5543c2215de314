/**
 Link counts of sequence values: over every legal run the count of an object equals
 the references there are to it, so that it is freed exactly when the last one goes.
 */
module SequenceLinks {
  import opened Sequence

  function Registrars(e: Engine, a: Addr): set<Trx> {
    set t | t in e.regs && a.id in e.regs[t] && e.regs[t][a.id] == a
  }

  function Callers(e: Engine, a: Addr): set<Call> {
    set c | c in e.calls && e.calls[c].addr == a
  }

  function TreeLinks(e: Engine, a: Addr): nat {
    if a.id in e.tree && e.tree[a.id] == a then 1 else 0
  }

  /** Tree membership, registered transactions and calls in flight. */
  function Refs(e: Engine, a: Addr): nat {
    TreeLinks(e, a) + |Registrars(e, a)| + |Callers(e, a)|
  }

  // What must hold of one tree entry, one registration, one call and one object.

  predicate TreeOk(e: Engine, id: SeqId)
    requires id in e.tree
  {
    e.tree[id].id == id && e.tree[id] in e.heap
  }

  predicate RegOk(dense: SeqId -> bool, e: Engine, t: Trx, id: SeqId)
    requires t in e.regs && id in e.regs[t]
  {
    && dense(id)
    && e.regs[t][id].id == id
    && e.regs[t][id] in e.heap
    && id in e.locks && e.locks[id] == t
    && (id in e.tree ==> e.tree[id] == e.regs[t][id])
  }

  predicate CallOk(dense: SeqId -> bool, e: Engine, c: Call)
    requires c in e.calls
  {
    e.calls[c].addr in e.heap && (e.calls[c].stage != Reading ==> !dense(e.calls[c].addr.id))
  }

  predicate ObjectOk(e: Engine, orphans: set<Addr>, a: Addr)
    requires a in e.heap
  {
    && a.serial < e.serial
    && e.heap[a].nlink > 0
    && e.heap[a].nlink == Refs(e, a) + (if a in orphans then 1 else 0)
    && (a in orphans ==> Refs(e, a) == 0)
    && (e.heap[a].isRollback <==> Registrars(e, a) != {})
  }

  predicate Shape(dense: SeqId -> bool, e: Engine) {
    && (forall id | id in e.tree :: TreeOk(e, id))
    && (forall t, id | t in e.regs && id in e.regs[t] :: RegOk(dense, e, t, id))
    && (forall c | c in e.calls :: CallOk(dense, e, c))
  }

  predicate Counted(e: Engine, orphans: set<Addr>) {
    && orphans <= e.heap.Keys
    && forall a | a in e.heap :: ObjectOk(e, orphans, a)
  }

  predicate LinkInv(dense: SeqId -> bool, w: World) {
    Shape(dense, w.e) && Counted(w.e, w.h.orphans) && w.e.calls.Keys <= w.h.begun
  }

  lemma StartLinked(dense: SeqId -> bool, table: map<SeqId, int>)
    ensures LinkInv(dense, Start(table))
  {
    var e := Restored(table);
    forall a | a in e.heap ensures ObjectOk(e, {}, a) {
      assert Registrars(e, a) == {} && Callers(e, a) == {};
    }
  }

  lemma OnlyRegistrar(dense: SeqId -> bool, e: Engine, t: Trx, id: SeqId)
    requires Shape(dense, e) && Registered(e, t, id)
    ensures Registrars(e, e.regs[t][id]) == {t}
  {
    assert RegOk(dense, e, t, id);
    forall u | u in Registrars(e, e.regs[t][id]) ensures u == t {
      assert RegOk(dense, e, u, id);
    }
  }

  /** No transaction but the lock's owner has an id registered. */
  lemma Unregistered(dense: SeqId -> bool, e: Engine, t: Trx, id: SeqId)
    requires Shape(dense, e) && !Blocked(e, t, id) && !Registered(e, t, id)
    ensures forall a: Addr | a.id == id :: Registrars(e, a) == {}
  {
    assert forall u | u in e.regs && id in e.regs[u] :: RegOk(dense, e, u, id);
    forall a: Addr | a.id == id ensures Registrars(e, a) == {} {
    }
  }

  /** An object without references can go. */
  lemma NobodyRefers(dense: SeqId -> bool, e: Engine, a: Addr)
    requires Shape(dense, e)
    ensures Registrars(e, a) == {} ==> forall t, id | t in e.regs && id in e.regs[t] :: e.regs[t][id] != a
    ensures Callers(e, a) == {} ==> forall c | c in e.calls :: e.calls[c].addr != a
  {
    forall t, id | t in e.regs && id in e.regs[t] && e.regs[t][id] == a ensures t in Registrars(e, a) {
      assert RegOk(dense, e, t, id);
    }
    forall c | c in e.calls && e.calls[c].addr == a ensures c in Callers(e, a) {
    }
  }

  // ------------------------------------------------------------------ create

  lemma CreateKept(dense: SeqId -> bool, w: World, id: SeqId)
    requires LinkInv(dense, w) && Legal(dense, w, Create(id))
    ensures LinkInv(dense, Stepped(w, Create(id)))
  {
    var e, o := w.e, w.h.orphans;
    var made := Addr(id, e.serial);
    var o' := Stepped(w, Create(id)).h.orphans;
    assert made !in e.heap by {
      assert forall a | a in e.heap :: ObjectOk(e, o, a);
    }
    CreateShape(dense, e, id);
    forall a | a in Created(e, id).heap ensures ObjectOk(Created(e, id), o', a) {
      if a == made {
        CreateMade(dense, e, o, id);
      } else {
        assert ObjectOk(e, o, a);
        CreateObject(e, o, id, a);
      }
    }
  }

  lemma CreateShape(dense: SeqId -> bool, e: Engine, id: SeqId)
    requires Shape(dense, e) && Addr(id, e.serial) !in e.heap
    requires forall t | t in e.regs :: id !in e.regs[t]
    ensures Shape(dense, Created(e, id))
  {
    var e' := Created(e, id);
    forall i | i in e'.tree ensures TreeOk(e', i) {
      assert i in e.tree ==> TreeOk(e, i);
    }
    forall t, i | t in e'.regs && i in e'.regs[t] ensures RegOk(dense, e', t, i) {
      assert RegOk(dense, e, t, i);
    }
    forall c | c in e'.calls ensures CallOk(dense, e', c) {
      assert CallOk(dense, e, c);
    }
  }

  lemma CreateMade(dense: SeqId -> bool, e: Engine, o: set<Addr>, id: SeqId)
    requires Shape(dense, e) && Addr(id, e.serial) !in e.heap && Addr(id, e.serial) !in o
    ensures var made := Addr(id, e.serial);
            ObjectOk(Created(e, id), if id in e.tree then o + {made} else o, made)
  {
    var made, e' := Addr(id, e.serial), Created(e, id);
    NobodyHas(dense, e, made);
    assert Registrars(e', made) == Registrars(e, made) && Callers(e', made) == Callers(e, made);
    assert id in e.tree ==> TreeOk(e, id);
  }

  lemma CreateObject(e: Engine, o: set<Addr>, id: SeqId, a: Addr)
    requires a in e.heap && ObjectOk(e, o, a) && a != Addr(id, e.serial)
    ensures ObjectOk(Created(e, id), if id in e.tree then o + {Addr(id, e.serial)} else o, a)
  {
    var e' := Created(e, id);
    assert Registrars(e', a) == Registrars(e, a) && Callers(e', a) == Callers(e, a);
  }

  lemma NobodyHas(dense: SeqId -> bool, e: Engine, a: Addr)
    requires Shape(dense, e) && a !in e.heap
    ensures Refs(e, a) == 0 && Registrars(e, a) == {} && Callers(e, a) == {}
  {
    assert forall t | t in e.regs && a.id in e.regs[t] :: RegOk(dense, e, t, a.id);
    assert Registrars(e, a) == {};
    assert forall c | c in e.calls :: CallOk(dense, e, c);
    assert Callers(e, a) == {};
    assert a.id in e.tree ==> TreeOk(e, a.id);
  }

  // --------------------------------------------------------------- drop marks

  lemma DropCountKept(dense: SeqId -> bool, w: World, id: SeqId, d: int)
    requires LinkInv(dense, w)
    ensures LinkInv(dense, World(DropCountChanged(w.e, id, d), w.h))
  {
    SameRefs(dense, w.e, DropCountChanged(w.e, id, d), w.h.orphans);
  }

  /** The same calls work on the same objects. */
  predicate SameCalls(e: Engine, e': Engine) {
    && e'.calls.Keys == e.calls.Keys
    && forall c | c in e.calls ::
         && e'.calls[c].addr == e.calls[c].addr
         && (e'.calls[c].stage == Reading <==> e.calls[c].stage == Reading)
  }

  predicate SameLinks(e: Engine, e': Engine) {
    && e'.tree == e.tree && e'.regs == e.regs && SameCalls(e, e') && e'.serial == e.serial
    && (forall id | id in e.locks :: id in e'.locks && e'.locks[id] == e.locks[id])
    && e'.heap.Keys == e.heap.Keys
    && (forall a | a in e.heap ::
          e'.heap[a].nlink == e.heap[a].nlink && e'.heap[a].isRollback == e.heap[a].isRollback)
  }

  /** A change of values alone keeps everything about links. */
  lemma SameRefs(dense: SeqId -> bool, e: Engine, e': Engine, orphans: set<Addr>)
    requires Shape(dense, e) && Counted(e, orphans)
    requires SameLinks(e, e')
    ensures Shape(dense, e') && Counted(e', orphans)
  {
    assert Shape(dense, e') by {
      forall i | i in e'.tree ensures TreeOk(e', i) {
        assert TreeOk(e, i);
      }
      forall t, i | t in e'.regs && i in e'.regs[t] ensures RegOk(dense, e', t, i) {
        assert RegOk(dense, e, t, i);
      }
      forall c | c in e'.calls ensures CallOk(dense, e', c) {
        assert CallOk(dense, e, c);
      }
    }
    forall a | a in e'.heap ensures ObjectOk(e', orphans, a) {
      assert Registrars(e', a) == Registrars(e, a) && Callers(e', a) == Callers(e, a);
      assert ObjectOk(e, orphans, a);
    }
  }

  // -------------------------------------------------------------------- drop

  lemma DropShape(dense: SeqId -> bool, e: Engine, o: set<Addr>, id: SeqId)
    requires Shape(dense, e) && Counted(e, o) && id in e.tree
    ensures Shape(dense, Dropped(e, id))
  {
    var e' := Dropped(e, id);
    assert TreeOk(e, id) && ObjectOk(e, o, e.tree[id]);
    NobodyRefers(dense, e, e.tree[id]);
    forall i | i in e'.tree ensures TreeOk(e', i) {
      assert TreeOk(e, i);
    }
    forall t, i | t in e'.regs && i in e'.regs[t] ensures RegOk(dense, e', t, i) {
      assert RegOk(dense, e, t, i);
    }
    forall c | c in e'.calls ensures CallOk(dense, e', c) {
      assert CallOk(dense, e, c);
    }
  }

  lemma DropKept(dense: SeqId -> bool, w: World, id: SeqId)
    requires LinkInv(dense, w)
    ensures LinkInv(dense, Stepped(w, Drop(id)))
  {
    var e, o := w.e, w.h.orphans;
    if id in e.tree {
      DropShape(dense, e, o, id);
      assert TreeOk(e, id) && ObjectOk(e, o, e.tree[id]);
      forall a | a in Dropped(e, id).heap ensures ObjectOk(Dropped(e, id), o, a) {
        DropObject(e, o, id, a);
      }
    }
  }

  lemma DropObject(e: Engine, o: set<Addr>, id: SeqId, a: Addr)
    requires id in e.tree && TreeOk(e, id) && a in e.heap && ObjectOk(e, o, a)
    requires a in Dropped(e, id).heap
    ensures ObjectOk(Dropped(e, id), o, a)
  {
    var e' := Dropped(e, id);
    assert Registrars(e', a) == Registrars(e, a) && Callers(e', a) == Callers(e, a);
  }

  // ------------------------------------------------------------------- dense

  lemma DenseKept(dense: SeqId -> bool, w: World, t: Trx, id: SeqId, op: Op, markOk: bool)
    requires LinkInv(dense, w) && dense(id)
    ensures LinkInv(dense, Stepped(w, Dense(t, id, op, markOk)))
  {
    hide Shape, Counted, DenseDone, Noted;
    DenseLinks(dense, w.e, w.h.orphans, t, id, op, markOk);
    DenseBooks(w, t, id, op, markOk);
  }

  lemma DenseBooks(w: World, t: Trx, id: SeqId, op: Op, markOk: bool)
    ensures var h' := Noted(w, Dense(t, id, op, markOk));
            h'.orphans == w.h.orphans && h'.begun == w.h.begun
    ensures DenseDone(w.e, t, id, op, markOk).calls == w.e.calls
  {
  }

  lemma DenseLinks(dense: SeqId -> bool, e: Engine, o: set<Addr>, t: Trx, id: SeqId, op: Op, markOk: bool)
    requires Shape(dense, e) && Counted(e, o) && dense(id)
    ensures Shape(dense, DenseDone(e, t, id, op, markOk)) && Counted(DenseDone(e, t, id, op, markOk), o)
  {
    var e' := DenseDone(e, t, id, op, markOk);
    DenseFrame(e, t, id, op, markOk);
    if SameLinks(e, e') {
      SameRefs(dense, e, e', o);
    } else {
      RegisterKept(dense, e, e', o, t, id);
    }
  }

  lemma DenseFrame(e: Engine, t: Trx, id: SeqId, op: Op, markOk: bool)
    ensures var e' := DenseDone(e, t, id, op, markOk);
            if Writes(e, t, id) && markOk && !Registered(e, t, id)
            then Registering(e, e', t, id) else SameLinks(e, e')
  {
    hide SameCalls;
    CallsEqual(e, DenseDone(e, t, id, op, markOk));
  }

  lemma CallsEqual(e: Engine, e': Engine)
    ensures e'.calls == e.calls ==> SameCalls(e, e')
  {
  }

  /** What the first write of a transaction to a sequence does to the links. */
  predicate Registering(e: Engine, e': Engine, t: Trx, id: SeqId)
    requires id in e.tree && e.tree[id] in e.heap
  {
    && e'.tree == e.tree && e'.calls == e.calls && e'.serial == e.serial
    && e'.locks == e.locks[id := t]
    && e'.regs == e.regs[t := RegsOf(e, t)[id := e.tree[id]]]
    && e'.heap.Keys == e.heap.Keys
    && (forall a | a in e.heap && a != e.tree[id] :: e'.heap[a] == e.heap[a])
    && e'.heap[e.tree[id]].nlink == e.heap[e.tree[id]].nlink + 1
    && e'.heap[e.tree[id]].isRollback
  }

  lemma RegisterKept(dense: SeqId -> bool, e: Engine, e': Engine, o: set<Addr>, t: Trx, id: SeqId)
    requires Shape(dense, e) && Counted(e, o) && dense(id)
    requires Writes(e, t, id) && !Registered(e, t, id) && Registering(e, e', t, id)
    ensures Shape(dense, e') && Counted(e', o)
  {
    assert TreeOk(e, id);
    Unregistered(dense, e, t, id);
    RegisterShape(dense, e, e', t, id);
    forall a | a in e'.heap ensures ObjectOk(e', o, a) {
      assert ObjectOk(e, o, a);
      assert a.id == id ==> Registrars(e, a) == {};
      RegisterObject(e, e', o, t, id, a);
    }
  }

  lemma RegisterShape(dense: SeqId -> bool, e: Engine, e': Engine, t: Trx, id: SeqId)
    requires Shape(dense, e) && dense(id)
    requires Writes(e, t, id) && !Registered(e, t, id) && Registering(e, e', t, id)
    ensures Shape(dense, e')
  {
    assert TreeOk(e, id);
    forall i | i in e'.tree ensures TreeOk(e', i) {
      assert TreeOk(e, i);
    }
    forall u, i | u in e'.regs && i in e'.regs[u] ensures RegOk(dense, e', u, i) {
      if u != t || i != id {
        assert RegOk(dense, e, u, i);
      }
    }
    forall c | c in e'.calls ensures CallOk(dense, e', c) {
      assert CallOk(dense, e, c);
    }
  }

  lemma RegisterObject(e: Engine, e': Engine, o: set<Addr>, t: Trx, id: SeqId, a: Addr)
    requires id in e.tree && TreeOk(e, id) && Registering(e, e', t, id)
    requires a in e.heap && ObjectOk(e, o, a) && (a.id == id ==> Registrars(e, a) == {})
    ensures ObjectOk(e', o, a)
  {
    assert Callers(e', a) == Callers(e, a);
    if a == e.tree[id] {
      assert Registrars(e', a) == {t};
    } else {
      assert Registrars(e', a) == Registrars(e, a);
    }
  }

  // ------------------------------------------------------------ end of transaction

  lemma EndKept(dense: SeqId -> bool, w: World, t: Trx, commit: bool, written: set<SeqId>)
    requires LinkInv(dense, w)
    ensures LinkInv(dense, Stepped(w, EndTrx(t, commit, written)))
  {
    var e, e', o := w.e, TrxEnded(w.e, t, commit), w.h.orphans;
    EndShape(dense, e, o, t, commit);
    forall a | a in e.heap
      ensures a in e'.heap ==> ObjectOk(e', o, a)
      ensures a in o ==> a in e'.heap
    {
      assert ObjectOk(e, o, a);
      EndObject(dense, e, o, t, commit, a);
    }
  }

  lemma EndObject(dense: SeqId -> bool, e: Engine, o: set<Addr>, t: Trx, commit: bool, a: Addr)
    requires Shape(dense, e) && a in e.heap && ObjectOk(e, o, a)
    ensures a in TrxEnded(e, t, commit).heap ==> ObjectOk(TrxEnded(e, t, commit), o, a)
    ensures a in o ==> a in TrxEnded(e, t, commit).heap
  {
    EndRefs(dense, e, t, commit, a);
    assert TreeLinks(TrxEnded(e, t, commit), a) == TreeLinks(e, a);
  }

  lemma EndRefs(dense: SeqId -> bool, e: Engine, t: Trx, commit: bool, a: Addr)
    requires Shape(dense, e) && a in e.heap
    ensures var e' := TrxEnded(e, t, commit);
            && Callers(e', a) == Callers(e, a)
            && Registrars(e', a) == (if a in Mine(e, t) then {} else Registrars(e, a))
            && (a in Mine(e, t) ==> Registrars(e, a) == {t})
  {
    var e' := TrxEnded(e, t, commit);
    assert Callers(e', a) == Callers(e, a);
    if a in Mine(e, t) {
      var id :| id in RegsOf(e, t) && RegsOf(e, t)[id] == a;
      OnlyRegistrar(dense, e, t, id);
      assert Registrars(e', a) == {};
    } else {
      if Registered(e, t, a.id) {
        assert RegsOf(e, t)[a.id] in Mine(e, t);
      }
      assert t !in Registrars(e, a);
      assert Registrars(e', a) == Registrars(e, a);
    }
  }

  lemma EndShape(dense: SeqId -> bool, e: Engine, o: set<Addr>, t: Trx, commit: bool)
    requires Shape(dense, e) && Counted(e, o)
    ensures Shape(dense, TrxEnded(e, t, commit))
  {
    var e' := TrxEnded(e, t, commit);
    forall a | a in e.heap && a in Mine(e, t) ensures Registrars(e, a) == {t} && ObjectOk(e, o, a) {
      EndRefs(dense, e, t, commit, a);
    }
    forall i | i in e'.tree ensures TreeOk(e', i) {
      assert TreeOk(e, i);
    }
    forall u, i | u in e'.regs && i in e'.regs[u] ensures RegOk(dense, e', u, i) {
      assert RegOk(dense, e, u, i);
      assert u in Registrars(e, e.regs[u][i]);
    }
    forall c | c in e'.calls ensures CallOk(dense, e', c) {
      assert CallOk(dense, e, c);
      assert c in Callers(e, e.calls[c].addr);
    }
  }

  lemma RefusedKept(dense: SeqId -> bool, w: World, t: Trx, id: SeqId)
    requires LinkInv(dense, w)
    ensures LinkInv(dense, Stepped(w, DenseRefused(t, id)))
  {
    SameRefs(dense, w.e, OnlyLocked(w.e, t, id), w.h.orphans);
  }

  // ----------------------------------------------- calls that leave the mutex

  /** A call takes its link: all else about links stays. */
  predicate Beginning(e: Engine, e': Engine, c: Call, a: Addr) {
    && a in e.heap && c !in e.calls && c in e'.calls && e'.calls == e.calls[c := e'.calls[c]] && e'.calls[c].addr == a
    && e'.tree == e.tree && e'.regs == e.regs && e'.serial == e.serial
    && (forall id | id in e.locks :: id in e'.locks && e'.locks[id] == e.locks[id])
    && e'.heap.Keys == e.heap.Keys
    && (forall b | b in e.heap ::
          && e'.heap[b].nlink == e.heap[b].nlink + (if b == a then 1 else 0)
          && e'.heap[b].isRollback == e.heap[b].isRollback)
  }

  lemma BeginKept(dense: SeqId -> bool, e: Engine, e': Engine, o: set<Addr>, c: Call, a: Addr)
    requires Shape(dense, e) && Counted(e, o) && Beginning(e, e', c, a)
    requires (e'.calls[c].stage != Reading ==> !dense(a.id)) && TreeLinks(e, a) == 1
    ensures Shape(dense, e') && Counted(e', o)
  {
    hide TreeLinks, ObjectOk, Shape;
    BeginShape(dense, e, e', c, a);
    forall b | b in e.heap ensures ObjectOk(e', o, b) {
      assert ObjectOk(e, o, b);
      BeginObject(e, e', o, c, a, b);
    }
  }

  lemma BeginShape(dense: SeqId -> bool, e: Engine, e': Engine, c: Call, a: Addr)
    requires Shape(dense, e) && Beginning(e, e', c, a)
    requires e'.calls[c].stage != Reading ==> !dense(a.id)
    ensures Shape(dense, e')
  {
    forall i | i in e'.tree ensures TreeOk(e', i) {
      assert TreeOk(e, i);
    }
    forall u, i | u in e'.regs && i in e'.regs[u] ensures RegOk(dense, e', u, i) {
      assert RegOk(dense, e, u, i);
    }
    forall d | d in e'.calls ensures CallOk(dense, e', d) {
      assert d != c ==> CallOk(dense, e, d);
    }
  }

  lemma BeginRefs(e: Engine, e': Engine, c: Call, a: Addr, b: Addr)
    requires Beginning(e, e', c, a)
    ensures Registrars(e', b) == Registrars(e, b)
    ensures |Callers(e', b)| == |Callers(e, b)| + if b == a then 1 else 0
  {
    assert Registrars(e', b) == Registrars(e, b);
    if b == a {
      assert Callers(e', b) == Callers(e, b) + {c};
    } else {
      assert Callers(e', b) == Callers(e, b);
    }
  }

  lemma BeginObject(e: Engine, e': Engine, o: set<Addr>, c: Call, a: Addr, b: Addr)
    requires Beginning(e, e', c, a) && b in e.heap && ObjectOk(e, o, b)
    requires TreeLinks(e, a) == 1
    ensures ObjectOk(e', o, b)
  {
    BeginRefs(e, e', c, a, b);
    assert TreeLinks(e', b) == TreeLinks(e, b);
  }

  lemma SparseBegins(e: Engine, c: Call, id: SeqId, op: Op)
    requires Usable(e, id) && c !in e.calls
    ensures Beginning(e, SparseBegun(e, c, id, op), c, e.tree[id])
  {
  }

  lemma ReadBegins(e: Engine, c: Call, t: Trx, id: SeqId, densep: bool)
    requires c !in e.calls
    ensures var e' := ReadBegun(e, c, t, id, densep);
            if Usable(e, id) && !(densep && Blocked(e, t, id)) then Beginning(e, e', c, e.tree[id])
            else SameLinks(e, e')
  {
  }

  lemma SparseBeginKept(dense: SeqId -> bool, w: World, c: Call, id: SeqId, op: Op)
    requires LinkInv(dense, w) && c !in w.e.calls && !dense(id)
    ensures LinkInv(dense, Stepped(w, SparseBegin(c, id, op)))
  {
    if Usable(w.e, id) {
      assert TreeOk(w.e, id);
      SparseBegins(w.e, c, id, op);
      BeginKept(dense, w.e, SparseBegun(w.e, c, id, op), w.h.orphans, c, w.e.tree[id]);
    }
  }

  lemma CurrentKept(dense: SeqId -> bool, w: World, c: Call, t: Trx, id: SeqId, densep: bool)
    requires LinkInv(dense, w) && c !in w.e.calls
    ensures LinkInv(dense, Stepped(w, Current(c, t, id, densep)))
  {
    var e' := ReadBegun(w.e, c, t, id, densep);
    hide Counted, SameLinks, Beginning;
    ReadBegins(w.e, c, t, id, densep);
    if Usable(w.e, id) && !(densep && Blocked(w.e, t, id)) {
      assert TreeOk(w.e, id);
      BeginKept(dense, w.e, e', w.h.orphans, c, w.e.tree[id]);
    } else {
      SameRefs(dense, w.e, e', w.h.orphans);
    }
  }

  /** Answers of the log and undone refusals change stages and values, not links. */
  lemma StageKept(dense: SeqId -> bool, w: World, ev: Event)
    requires LinkInv(dense, w) && (ev.SparseLog? || ev.SparseUndo?) && Legal(dense, w, ev)
    ensures LinkInv(dense, Stepped(w, ev)) && SameLinks(w.e, Stepped(w, ev).e)
  {
    StageSame(dense, w, ev);
    hide Shape, Counted, Stepped, SameLinks;
    SameRefs(dense, w.e, Stepped(w, ev).e, w.h.orphans);
  }

  lemma StageSame(dense: SeqId -> bool, w: World, ev: Event)
    requires Shape(dense, w.e) && (ev.SparseLog? || ev.SparseUndo?) && Legal(dense, w, ev)
    ensures SameLinks(w.e, Stepped(w, ev).e)
    ensures Stepped(w, ev).h.orphans == w.h.orphans && Stepped(w, ev).h.begun == w.h.begun
  {
    assert CallOk(dense, w.e, ev.c);
    hide SameLinks, LogAnswered, RefusalUndone;
    if ev.SparseLog? {
      LogSame(w.e, ev.c, ev.ok);
    } else {
      UndoSame(w.e, ev.c);
    }
  }

  lemma LogSame(e: Engine, c: Call, ok: bool)
    requires c in e.calls && e.calls[c].stage == Pending
    ensures SameLinks(e, LogAnswered(e, c, ok))
  {
  }

  lemma UndoSame(e: Engine, c: Call)
    requires c in e.calls && e.calls[c].addr in e.heap && e.calls[c].stage == Refused
    ensures SameLinks(e, RefusalUndone(e, c))
  {
  }

  lemma CloseKept(dense: SeqId -> bool, w: World, c: Call)
    requires LinkInv(dense, w) && c in w.e.calls
    ensures LinkInv(dense, Stepped(w, CallEnd(c)))
  {
    var e, o := w.e, w.h.orphans;
    assert CallOk(dense, e, c) && ObjectOk(e, o, e.calls[c].addr);
    assert c in Callers(e, e.calls[c].addr);
    CloseShape(dense, e, o, c);
    forall a | a in CallClosed(e, c).heap ensures ObjectOk(CallClosed(e, c), o, a) {
      assert ObjectOk(e, o, a);
      CloseObject(e, o, c, a);
    }
  }

  lemma CloseShape(dense: SeqId -> bool, e: Engine, o: set<Addr>, c: Call)
    requires Shape(dense, e) && Counted(e, o) && c in e.calls
    ensures Shape(dense, CallClosed(e, c))
  {
    var e', b := CallClosed(e, c), e.calls[c].addr;
    assert CallOk(dense, e, c) && ObjectOk(e, o, b);
    CloseRefs(e, c, b);
    assert b !in e'.heap ==> Callers(e', b) == {};
    NobodyRefers(dense, e, b);
    forall i | i in e'.tree ensures TreeOk(e', i) {
      assert TreeOk(e, i);
      assert e.tree[i] == b ==> TreeLinks(e, b) == 1;
    }
    forall u, i | u in e'.regs && i in e'.regs[u] ensures RegOk(dense, e', u, i) {
      assert RegOk(dense, e, u, i);
    }
    forall d | d in e'.calls ensures CallOk(dense, e', d) {
      assert CallOk(dense, e, d);
      assert e.calls[d].addr == b ==> d in Callers(e', b);
    }
  }

  lemma CloseRefs(e: Engine, c: Call, a: Addr)
    requires c in e.calls
    ensures Registrars(CallClosed(e, c), a) == Registrars(e, a)
    ensures |Callers(CallClosed(e, c), a)| == |Callers(e, a)| - if a == e.calls[c].addr then 1 else 0
  {
    var e' := CallClosed(e, c);
    assert Registrars(e', a) == Registrars(e, a);
    if a == e.calls[c].addr {
      assert c in Callers(e, a);
      assert Callers(e', a) == Callers(e, a) - {c};
    } else {
      assert Callers(e', a) == Callers(e, a);
    }
  }

  lemma CloseObject(e: Engine, o: set<Addr>, c: Call, a: Addr)
    requires c in e.calls && e.calls[c].addr in e.heap && a in e.heap && ObjectOk(e, o, a)
    requires a in CallClosed(e, c).heap
    ensures ObjectOk(CallClosed(e, c), o, a)
  {
    CloseRefs(e, c, a);
    assert TreeLinks(CallClosed(e, c), a) == TreeLinks(e, a);
  }

  // --------------------------------------------------------------------- runs

  lemma LinksKept(dense: SeqId -> bool, w: World, ev: Event)
    requires LinkInv(dense, w) && Legal(dense, w, ev)
    ensures LinkInv(dense, Stepped(w, ev))
  {
    match ev
    case Create(id) => CreateKept(dense, w, id);
    case MarkDropped(id) => DropCountKept(dense, w, id, 1);
    case UnmarkDropped(id) => DropCountKept(dense, w, id, -1);
    case Drop(id) => DropKept(dense, w, id);
    case Dense(t, id, op, markOk) => DenseKept(dense, w, t, id, op, markOk);
    case EndTrx(t, commit, written) => EndKept(dense, w, t, commit, written);
    case DenseRefused(t, id) => RefusedKept(dense, w, t, id);
    case Current(c, t, id, densep) => CurrentKept(dense, w, c, t, id, densep);
    case SparseBegin(c, id, op) => SparseBeginKept(dense, w, c, id, op);
    case SparseLog(_, _) => StageKept(dense, w, ev);
    case SparseUndo(_) => StageKept(dense, w, ev);
    case CallEnd(c) => CloseKept(dense, w, c);
  }

  lemma {:induction false} RunLinked(dense: SeqId -> bool, w: World, evs: seq<Event>)
    requires LinkInv(dense, w) && LegalRun(dense, w, evs)
    ensures LinkInv(dense, Run(w, evs))
  {
    if evs != [] {
      RunLinked(dense, w, evs[..|evs| - 1]);
      LinksKept(dense, Run(w, evs[..|evs| - 1]), evs[|evs| - 1]);
    }
  }

  /** In every reachable state the link count of a sequence value is its tree membership plus
      the transactions that registered it plus the calls in flight; only the object of a
      create that found its id taken keeps one link nobody holds. Nothing refers to a
      freed object, and no object is kept without a link. */
  lemma {:induction false} LinkCounts(dense: SeqId -> bool, table: map<SeqId, int>, evs: seq<Event>, a: Addr)
    requires LegalRun(dense, Start(table), evs)
    ensures var w := Run(Start(table), evs);
            && (a in w.e.heap && a !in w.h.orphans ==> w.e.heap[a].nlink == Refs(w.e, a) > 0)
            && (a in w.h.orphans ==> a in w.e.heap && w.e.heap[a].nlink == 1 && Refs(w.e, a) == 0)
            && (Refs(w.e, a) > 0 ==> a in w.e.heap)
  {
    StartLinked(dense, table);
    RunLinked(dense, Start(table), evs);
    var w := Run(Start(table), evs);
    if a in w.e.heap {
      assert ObjectOk(w.e, w.h.orphans, a);
    } else {
      NobodyHas(dense, w.e, a);
    }
  }

  // ------------------------------------------------------------------- the leak

  /** A create finds its id taken. */
  predicate Clash(e: Engine, ev: Event) {
    ev.Create? && ev.id in e.tree
  }

  predicate NoClash(w: World, evs: seq<Event>) {
    evs == [] || (NoClash(w, evs[..|evs| - 1]) && !Clash(Run(w, evs[..|evs| - 1]).e, evs[|evs| - 1]))
  }

  lemma OrphanStep(w: World, ev: Event)
    ensures Stepped(w, ev).h.orphans ==
            if Clash(w.e, ev) then w.h.orphans + {Addr(ev.id, w.e.serial)} else w.h.orphans
  {
  }

  lemma {:induction false} OrphansFromClashes(w: World, evs: seq<Event>)
    requires w.h.orphans == {}
    ensures Run(w, evs).h.orphans == {} <==> NoClash(w, evs)
  {
    hide Stepped, Clash;
    if evs != [] {
      OrphansFromClashes(w, evs[..|evs| - 1]);
      OrphanStep(Run(w, evs[..|evs| - 1]), evs[|evs| - 1]);
    }
  }

  /** Every live object has exactly as many links as there are references to it if and only
      if no create of the run found its id taken. */
  lemma {:induction false} LinksExactIff(dense: SeqId -> bool, table: map<SeqId, int>, evs: seq<Event>)
    requires LegalRun(dense, Start(table), evs)
    ensures (forall a | a in Run(Start(table), evs).e.heap ::
               Run(Start(table), evs).e.heap[a].nlink == Refs(Run(Start(table), evs).e, a)) <==>
            NoClash(Start(table), evs)
  {
    hide Run, LegalRun, NoClash, Refs;
    var w := Run(Start(table), evs);
    OrphansFromClashes(Start(table), evs);
    forall a ensures
        && (a in w.e.heap && a !in w.h.orphans ==> w.e.heap[a].nlink == Refs(w.e, a))
        && (a in w.h.orphans ==> a in w.e.heap && w.e.heap[a].nlink != Refs(w.e, a))
    {
      LinkCounts(dense, table, evs, a);
    }
    if w.h.orphans != {} {
      var a :| a in w.h.orphans;
      assert a in w.e.heap && w.e.heap[a].nlink != Refs(w.e, a);
    }
  }

  /** A second create of the same id leaves an object with a link that nobody holds. */
  lemma {:induction false} CreateLeaks(dense: SeqId -> bool)
    ensures var w := Run(Start(map[7 := 5]), [Create(7)]);
            && LegalRun(dense, Start(map[7 := 5]), [Create(7)])
            && Addr(7, 1) in w.e.heap && w.e.heap[Addr(7, 1)].nlink == 1 && Refs(w.e, Addr(7, 1)) == 0
  {
    var w0 := Start(map[7 := 5]);
    assert [Create(7)][..0] == [];
    assert Run(w0, [Create(7)]) == Stepped(w0, Create(7));
    assert Addr(7, 0) in AddrsOf(map[7 := 5]);
    assert Addr(7, 1) in Stepped(w0, Create(7)).h.orphans;
    LinkCounts(dense, map[7 := 5], [Create(7)], Addr(7, 1));
  }
}
