/**
 The sequence table as the engine keeps it: fields changed in place, links taken and given
 back on every path, each operation proved against its outcome in module Sequence.
 */
module SequenceTable {
  import opened Sequence
  import L = SequenceLinks
  import R = SequenceRecovery

  datatype Rc =
    | Succ
    | Found
    | SeqExist
    | SeqNotExist
    | SeqDropPending
    | WaitLock
    | WriteRefused
    | IllDatatype
    | MarkFailed
    | LogFailed

  /** What a caller hands to NEXT or SET: the value to set can have an unsuitable type. */
  datatype Request = Increment | SetTo(v: int) | SetIllTyped

  function OpOf(request: Request): Op
    requires !request.SetIllTyped?
  {
    match request
    case Increment => Next
    case SetTo(v) => Set(v)
  }

  /** What the code relies on when it follows a reference. */
  ghost predicate Sane(e: Engine) {
    && (forall id | id in e.tree :: e.tree[id].id == id && e.tree[id] in e.heap)
    && (forall t, id | t in e.regs && id in e.regs[t] :: e.regs[t][id].id == id && e.regs[t][id] in e.heap)
    && (forall c | c in e.calls :: e.calls[c].addr in e.heap)
    && (forall a | a in e.heap :: e.heap[a].nlink > 0)
  }

  lemma InvIsSane(dense: SeqId -> bool, w: World)
    requires L.LinkInv(dense, w)
    ensures Sane(w.e)
  {
    assert forall id | id in w.e.tree :: L.TreeOk(w.e, id);
    assert forall t, id | t in w.e.regs && id in w.e.regs[t] :: L.RegOk(dense, w.e, t, id);
    assert forall c | c in w.e.calls :: L.CallOk(dense, w.e, c);
    assert forall a | a in w.e.heap :: L.ObjectOk(w.e, w.h.orphans, a);
  }

  predicate LineOf(e: Engine, line: (SeqId, int)) {
    line.0 in e.tree && e.tree[line.0] in e.heap && line.1 == View(e.heap[e.tree[line.0]])
  }

  /** A list that has each sequence of a table once, with its committed value. */
  ghost predicate Lists(list: seq<(SeqId, int)>, e: Engine) {
    && (forall i | 0 <= i < |list| :: LineOf(e, list[i]))
    && (forall i, j | 0 <= i < j < |list| :: list[i].0 != list[j].0)
    && (forall id | id in e.tree :: exists i | 0 <= i < |list| :: list[i].0 == id)
  }

  lemma Member<T>(ids: set<T>) returns (id: T)
    requires ids != {}
    ensures id in ids
  {
    id :| id in ids;
  }

  predicate Listed(list: seq<(SeqId, int)>, id: SeqId) {
    exists i | 0 <= i < |list| :: list[i].0 == id
  }

  lemma ListedMore(list: seq<(SeqId, int)>, i: nat)
    requires i < |list|
    ensures forall id :: Listed(list[..i + 1], id) <==> Listed(list[..i], id) || id == list[i].0
  {
    forall id ensures Listed(list[..i + 1], id) <==> Listed(list[..i], id) || id == list[i].0 {
      if Listed(list[..i], id) {
        var k :| 0 <= k < i && list[..i][k].0 == id;
        assert list[..i + 1][k].0 == id;
      }
      assert list[..i + 1][i].0 == list[i].0;
      if Listed(list[..i + 1], id) && id != list[i].0 {
        var k :| 0 <= k < i + 1 && list[..i + 1][k].0 == id;
        assert list[..i][k].0 == id;
      }
    }
  }

  predicate RestoredLine(heap: map<Addr, SeqValue>, line: (SeqId, int)) {
    Addr(line.0, 0) in heap && heap[Addr(line.0, 0)] == SeqValue(line.1, 0, false, 0, 1)
  }

  /** The engine holds exactly the sequences of a list. */
  ghost predicate Reads(list: seq<(SeqId, int)>, e: Engine) {
    && e.regs == map[] && e.locks == map[] && e.calls == map[] && e.serial == 1
    && (forall a :: a in e.heap <==> a.serial == 0 && Listed(list, a.id))
    && (forall id :: id in e.tree <==> Addr(id, 0) in e.heap)
    && (forall id | id in e.tree :: e.tree[id] == Addr(id, 0))
    && (forall i | 0 <= i < |list| :: RestoredLine(e.heap, list[i]))
  }

  /** A link taken and given back leaves only the new value. */
  lemma LinkUndone(heap: map<Addr, SeqValue>, a: Addr, v: int)
    requires a in heap && heap[a].nlink > 0
    ensures var linked := heap[a := heap[a].(nlink := heap[a].nlink + 1)];
            && Unlinked(linked[a := linked[a].(value := v)], a) == heap[a := heap[a].(value := v)]
            && Unlinked(linked, a) == heap
  {
  }

  /** Link, write and, unless the write was registered, unlink: the outcome of a dense call. */
  lemma WriteIsDense(e: Engine, linked: Engine, after: Engine, t: Trx, id: SeqId, op: Op, ok: bool, used: int)
    requires Sane(e) && !Blocked(e, t, id) && Usable(e, id)
    requires used == Eval(op, e.heap[e.tree[id]].value)
    requires linked == e.(locks := e.locks[id := t],
                          heap := e.heap[e.tree[id] := e.heap[e.tree[id]].(nlink := e.heap[e.tree[id]].nlink + 1)])
    requires var a := e.tree[id];
             if !ok || Registered(e, t, id) then
               after == linked.(heap := Unlinked(linked.heap[a := linked.heap[a].(value := used)], a))
             else
               after == linked.(heap := linked.heap[a := linked.heap[a].(value := used, isRollback := true,
                                                                         rollback := View(linked.heap[a]))],
                                regs := e.regs[t := RegsOf(e, t)[id := a]])
    ensures after == DenseDone(e, t, id, op, ok)
    ensures after.heap[e.tree[id]].value == used
  {
    var a := e.tree[id];
    LinkUndone(e.heap, a, used);
    if ok && !Registered(e, t, id) {
      assert after.heap == DenseDone(e, t, id, op, ok).heap;
    }
  }

  /** A dense call takes the lock first; without it nothing happens. */
  lemma LockFirst(e: Engine, t: Trx, id: SeqId, op: Op, ok: bool)
    ensures DenseDone(e, t, id, op, ok) ==
            if Blocked(e, t, id) then e else DenseDone(e.(locks := e.locks[id := t]), t, id, op, ok)
    ensures Usable(e.(locks := e.locks[id := t]), id) == Usable(e, id)
  {
    assert e.locks[id := t][id := t] == e.locks[id := t];
  }

  function Objects(mine: map<SeqId, Addr>, ids: set<SeqId>): set<Addr> {
    set id | id in mine && id in ids :: mine[id]
  }

  lemma MineObjects(e: Engine, t: Trx)
    ensures t in e.regs ==> Objects(e.regs[t], e.regs[t].Keys) == Mine(e, t)
    ensures t !in e.regs ==> Mine(e, t) == {} && e.regs - {t} == e.regs
  {
  }

  lemma EndedNone(heap: map<Addr, SeqValue>, commit: bool)
    ensures EndedAll(heap, {}, commit) == heap
  {
  }

  lemma EndedMore(heap: map<Addr, SeqValue>, settled: set<Addr>, a: Addr, commit: bool)
    requires a in heap && a !in settled && heap[a].nlink > 0
    ensures var now := EndedAll(heap, settled, commit);
            && a in now && now[a] == heap[a]
            && EndedAll(heap, settled + {a}, commit) ==
               Unlinked(now[a := Ended(heap[a], commit).(nlink := heap[a].nlink)], a)
  {
    var now := EndedAll(heap, settled, commit);
    var x := EndedAll(heap, settled + {a}, commit);
    var y := Unlinked(now[a := Ended(heap[a], commit).(nlink := heap[a].nlink)], a);
    assert x.Keys == y.Keys;
  }

  class Table {
    var heap: map<Addr, SeqValue>
    var tree: map<SeqId, Addr>
    var regs: map<Trx, map<SeqId, Addr>>
    var locks: map<SeqId, Trx>
    var calls: map<Call, Flight>
    var serial: nat

    ghost function State(): Engine
      reads this
    {
      Engine(heap, tree, regs, locks, calls, serial)
    }

    constructor ()
      ensures State() == Engine(map[], map[], map[], map[], map[], 0)
    {
      heap, tree, regs, locks, calls, serial := map[], map[], map[], map[], map[], 0;
    }

    method Link(a: Addr)
      requires a in heap
      modifies this`heap
      ensures heap == old(heap)[a := old(heap[a]).(nlink := old(heap[a]).nlink + 1)]
    {
      heap := heap[a := heap[a].(nlink := heap[a].nlink + 1)];
    }

    method Unlink(a: Addr)
      requires a in heap && heap[a].nlink > 0
      modifies this`heap
      ensures heap == Unlinked(old(heap), a)
    {
      heap := heap[a := heap[a].(nlink := heap[a].nlink - 1)];
      if heap[a].nlink == 0 {
        heap := heap - {a};
      }
    }

    method Create(id: SeqId) returns (rc: Rc)
      modifies this`heap, this`tree, this`serial
      ensures State() == Created(old(State()), id)
      ensures rc == if id in old(tree) then SeqExist else Succ
      ensures id in tree && forall i | i in old(tree) :: i in tree && tree[i] == old(tree)[i]
      ensures rc == Succ ==> tree[id] in heap && heap[tree[id]] == SeqValue(0, 0, false, 0, 1)
    {
      var a := Addr(id, serial);
      serial := serial + 1;
      heap := heap[a := SeqValue(0, 0, false, 0, 1)];
      if id in tree {
        // The new object is not given back on this path.
        rc := SeqExist;
      } else {
        tree := tree[id := a];
        rc := Succ;
      }
    }

    method MarkDropped(id: SeqId) returns (rc: Rc)
      requires Sane(State())
      modifies this`heap
      ensures State() == DropCountChanged(old(State()), id, 1)
      ensures id in tree && old(heap[tree[id]]).dropCount >= 0 ==> !Usable(State(), id)
      ensures heap.Keys == old(heap.Keys) && forall a | a in heap :: View(heap[a]) == View(old(heap[a]))
      ensures rc == if id in tree then Succ else SeqNotExist
    {
      if id in tree {
        var a := tree[id];
        heap := heap[a := heap[a].(dropCount := heap[a].dropCount + 1)];
        rc := Succ;
      } else {
        rc := SeqNotExist;
      }
    }

    method UnmarkDropped(id: SeqId) returns (rc: Rc)
      requires Sane(State())
      modifies this`heap
      ensures State() == DropCountChanged(old(State()), id, -1)
      ensures id in tree ==> (Usable(State(), id) <==> old(heap[tree[id]]).dropCount <= 1)
      ensures heap.Keys == old(heap.Keys) && forall a | a in heap :: View(heap[a]) == View(old(heap[a]))
      ensures rc == if id in tree then Succ else SeqNotExist
    {
      if id in tree {
        var a := tree[id];
        heap := heap[a := heap[a].(dropCount := heap[a].dropCount - 1)];
        rc := Succ;
      } else {
        rc := SeqNotExist;
      }
    }

    method Drop(id: SeqId) returns (rc: Rc)
      requires Sane(State())
      modifies this`heap, this`tree
      ensures State() == Dropped(old(State()), id)
      ensures id !in tree && forall i :: i in tree <==> i in old(tree) && i != id
      ensures id in old(tree) ==> (old(tree[id]) in heap <==> old(heap[tree[id]]).nlink > 1)
      ensures rc == if id in old(tree) then Succ else SeqNotExist
    {
      if id in tree {
        Unlink(tree[id]);
        tree := tree - {id};
        rc := Succ;
      } else {
        rc := SeqNotExist;
      }
    }

    /** dbe_trx_markseqwrite; `ok` is the answer of the replication check. */
    method MarkSeqWrite(t: Trx, a: Addr, ok: bool) returns (rc: Rc)
      modifies this`regs
      ensures !ok ==> rc == MarkFailed && regs == old(regs)
      ensures ok && Registered(old(State()), t, a.id) ==> rc == Found && regs == old(regs)
      ensures ok && !Registered(old(State()), t, a.id) ==>
                rc == Succ && regs == old(regs)[t := RegsOf(old(State()), t)[a.id := a]]
    {
      if !ok {
        return MarkFailed;
      }
      var mine := if t in regs then regs[t] else map[];
      if a.id in mine {
        rc := Found;
      } else {
        regs := regs[t := mine[a.id := a]];
        rc := Succ;
      }
    }

    /** seq_oper for a dense NEXT or SET: one step, as it runs inside the action gate.
        `writable` is the answer of dbe_trx_markwrite, `ok` that of the replication check,
        and `fits` tells whether the caller's attribute can take the value. */
    method DenseOper(t: Trx, id: SeqId, request: Request, writable: bool, ok: bool, fits: bool)
      returns (rc: Rc, used: int)
      requires Sane(State())
      modifies this`heap, this`regs, this`locks
      ensures State() == if !writable || request.SetIllTyped? then OnlyLocked(old(State()), t, id)
                         else DenseDone(old(State()), t, id, OpOf(request), ok)
      ensures rc == (if Blocked(old(State()), t, id) then WaitLock
                     else if !writable then WriteRefused
                     else if id !in tree then SeqNotExist
                     else if !Usable(old(State()), id) then SeqDropPending
                     else if request.SetIllTyped? then IllDatatype
                     else if !ok then MarkFailed
                     else if fits then Succ else IllDatatype)
      ensures rc == Succ || rc == MarkFailed || (rc == IllDatatype && !request.SetIllTyped?) ==>
                && id in tree && used == heap[tree[id]].value
                && (request.Increment? ==> used == old(heap[tree[id]].value) + 1)
                && (request.SetTo? ==> used == request.v)
      ensures rc != WaitLock ==> id in locks && locks[id] == t
    {
      LockFirst(State(), t, id, if request.SetIllTyped? then Next else OpOf(request), ok);
      hide DenseDone, Usable;
      used := 0;
      if id in locks && locks[id] != t {
        return WaitLock, used;
      }
      locks := locks[id := t];
      if !writable {
        return WriteRefused, used;
      }
      rc, used := DenseInMutex(t, id, request, ok, fits);
    }

    /** The same from the mutex on, with the lock. The object is linked first and given back on
        every path that does not register it. */
    method DenseInMutex(t: Trx, id: SeqId, request: Request, ok: bool, fits: bool) returns (rc: Rc, used: int)
      requires Sane(State()) && id in locks && locks[id] == t
      modifies this`heap, this`regs
      ensures State() == if request.SetIllTyped? then old(State())
                         else DenseDone(old(State()), t, id, OpOf(request), ok)
      ensures rc == (if id !in tree then SeqNotExist
                     else if !Usable(old(State()), id) then SeqDropPending
                     else if request.SetIllTyped? then IllDatatype
                     else if !ok then MarkFailed
                     else if fits then Succ else IllDatatype)
      ensures rc == Succ || rc == MarkFailed || (rc == IllDatatype && !request.SetIllTyped?) ==>
                && id in tree && used == heap[tree[id]].value
                && (request.Increment? ==> used == old(heap[tree[id]].value) + 1)
                && (request.SetTo? ==> used == request.v)
    {
      used := 0;
      assert locks[id := t] == locks;
      if id !in tree {
        return SeqNotExist, used;
      }
      var a := tree[id];
      Link(a);
      if heap[a].dropCount > 0 {
        LinkUndone(old(heap), a, old(heap[a].value));
        Unlink(a);
        return SeqDropPending, used;
      }
      if request.SetIllTyped? {
        LinkUndone(old(heap), a, old(heap[a].value));
        Unlink(a);
        return IllDatatype, used;
      }
      ghost var before := State();
      rc, used := WriteLinked(t, a, OpOf(request), ok, fits);
      WriteIsDense(old(State()), before, State(), t, id, OpOf(request), ok, used);
    }

    /** The rest of the operation, with the link taken. */
    method WriteLinked(t: Trx, a: Addr, op: Op, ok: bool, fits: bool) returns (rc: Rc, used: int)
      requires a in heap && heap[a].nlink > 1
      modifies this`heap, this`regs
      ensures used == Eval(op, old(heap[a].value))
      ensures rc == if !ok then MarkFailed else if fits then Succ else IllDatatype
      ensures !ok || Registered(old(State()), t, a.id) ==>
                && heap == Unlinked(old(heap)[a := old(heap[a]).(value := used)], a)
                && regs == old(regs)
      ensures ok && !Registered(old(State()), t, a.id) ==>
                && heap == old(heap)[a := old(heap[a]).(value := used, isRollback := true,
                                                        rollback := View(old(heap[a])))]
                && regs == old(regs)[t := RegsOf(old(State()), t)[a.id := a]]
    {
      var saved := heap[a].value;
      used := match op case Next => saved + 1 case Set(v) => v;
      heap := heap[a := heap[a].(value := used)];
      var unlinkp := true;
      rc := MarkSeqWrite(t, a, ok);
      if rc == Succ {
        unlinkp := false;
        if !heap[a].isRollback {
          heap := heap[a := heap[a].(isRollback := true, rollback := saved)];
        }
        assert heap == old(heap)[a := heap[a]];
      } else if rc == Found {
        rc := Succ;
      }
      if rc == Succ && !fits {
        rc := IllDatatype;
      }
      if unlinkp {
        Unlink(a);
      }
    }

    /** dbe_seq_transend for one object. */
    method EndOne(a: Addr, commit: bool)
      requires a in heap && heap[a].nlink > 0
      modifies this`heap
      ensures heap == Unlinked(old(heap)[a := Ended(old(heap[a]), commit).(nlink := old(heap[a]).nlink)], a)
    {
      heap := heap[a := heap[a].(isRollback := false)];
      if !commit {
        heap := heap[a := heap[a].(value := heap[a].rollback)];
      }
      Unlink(a);
    }

    /** dbe_trx_seqtransend_nomutex: settles everything the transaction registered. */
    method TransEnd(t: Trx, commit: bool)
      requires Sane(State())
      modifies this`heap, this`regs, this`locks
      ensures State() == TrxEnded(old(State()), t, commit)
      ensures t !in regs
      ensures forall id :: id in locks <==> id in old(locks) && old(locks)[id] != t
      ensures forall id | id in locks :: locks[id] == old(locks)[id]
    {
      if t in regs {
        EndRegistered(regs[t], commit);
        MineObjects(old(State()), t);
        regs := regs - {t};
      } else {
        EndedNone(heap, commit);
        MineObjects(State(), t);
      }
      locks := map id | id in locks && locks[id] != t :: locks[id];
    }

    method EndRegistered(mine: map<SeqId, Addr>, commit: bool)
      requires forall id | id in mine :: mine[id].id == id && mine[id] in heap && heap[mine[id]].nlink > 0
      modifies this`heap
      ensures heap == EndedAll(old(heap), Objects(mine, mine.Keys), commit)
    {
      var todo := mine.Keys;
      EndedNone(heap, commit);
      assert Objects(mine, mine.Keys - todo) == {};
      while todo != {}
        invariant todo <= mine.Keys
        invariant heap == EndedAll(old(heap), Objects(mine, mine.Keys - todo), commit)
        decreases |todo|
      {
        var id :| id in todo;
        assert id in mine;
        var a := mine[id];
        ghost var settled := Objects(mine, mine.Keys - todo);
        assert a !in settled;
        EndOne(a, commit);
        EndedMore(old(heap), settled, a, commit);
        todo := todo - {id};
        assert Objects(mine, mine.Keys - todo) == settled + {a};
      }
      assert mine.Keys - todo == mine.Keys;
    }

    /** A sparse NEXT or SET, up to leaving the mutex. */
    method SparseBegin(c: Call, id: SeqId, request: Request, writable: bool) returns (rc: Rc)
      requires Sane(State())
      modifies this`heap, this`calls
      ensures State() == if !writable || request.SetIllTyped? then old(State())
                         else SparseBegun(old(State()), c, id, OpOf(request))
      ensures rc == (if !writable then WriteRefused
                     else if id !in tree then SeqNotExist
                     else if !Usable(old(State()), id) then SeqDropPending
                     else if request.SetIllTyped? then IllDatatype else Succ)
      ensures rc == Succ ==>
                && id in tree && c in calls && calls[c].addr == tree[id]
                && heap[tree[id]].value == calls[c].used && calls[c].saved == old(heap[tree[id]].value)
                && (request.Increment? ==> calls[c].op == Next && calls[c].used == calls[c].saved + 1)
                && (request.SetTo? ==> calls[c].op == Set(request.v) && calls[c].used == request.v)
    {
      if !writable {
        return WriteRefused;
      }
      if id !in tree {
        return SeqNotExist;
      }
      var a := tree[id];
      ghost var before := heap;
      Link(a);
      if heap[a].dropCount > 0 {
        Unlink(a);
        assert heap == before;
        return SeqDropPending;
      }
      var saved := heap[a].value;
      match request {
        case Increment => heap := heap[a := heap[a].(value := heap[a].value + 1)];
        case SetTo(v) => heap := heap[a := heap[a].(value := v)];
        case SetIllTyped =>
          Unlink(a);
          assert heap == before;
          return IllDatatype;
      }
      calls := calls[c := Flight(a, OpOf(request), heap[a].value, saved, Pending)];
      rc := Succ;
    }

    /** The answer of the log, which the call keeps in a local variable. */
    method SparseLog(c: Call, ok: bool) returns (rc: Rc)
      requires c in calls
      modifies this`calls
      ensures State() == LogAnswered(old(State()), c, ok)
      ensures rc == if ok then Succ else LogFailed
    {
      calls := calls[c := calls[c].(stage := if ok then Logged else Refused)];
      rc := if ok then Succ else LogFailed;
    }

    /** After a refusal: the old value comes back unless somebody moved the value meanwhile. */
    method SparseUndo(c: Call)
      requires Sane(State()) && c in calls
      modifies this`heap, this`calls
      ensures State() == RefusalUndone(old(State()), c)
      ensures heap.Keys == old(heap.Keys)
      ensures forall a | a in heap && a != calls[c].addr :: heap[a] == old(heap[a])
    {
      var f := calls[c];
      if heap[f.addr].value == f.used {
        heap := heap[f.addr := heap[f.addr].(value := f.saved)];
      }
      calls := calls[c := f.(stage := Undone)];
    }

    /** CURRENT, up to leaving the mutex with the value read and the link still held. */
    method Current(c: Call, t: Trx, id: SeqId, densep: bool) returns (rc: Rc, used: int)
      requires Sane(State())
      modifies this`heap, this`calls, this`locks
      ensures State() == ReadBegun(old(State()), c, t, id, densep)
      ensures rc == (if densep && Blocked(old(State()), t, id) then WaitLock
                     else if id !in tree then SeqNotExist
                     else if Usable(old(State()), id) then Succ else SeqDropPending)
      ensures rc == Succ ==> id in tree && used == old(heap[tree[id]].value) == heap[tree[id]].value
      ensures if densep && rc != WaitLock then locks == old(locks)[id := t] else locks == old(locks)
    {
      used := 0;
      if densep {
        if id in locks && locks[id] != t {
          return WaitLock, used;
        }
        locks := locks[id := t];
      }
      if id !in tree {
        return SeqNotExist, used;
      }
      var a := tree[id];
      Link(a);
      if heap[a].dropCount > 0 {
        LinkUndone(old(heap), a, old(heap[a].value));
        Unlink(a);
        return SeqDropPending, used;
      }
      used := heap[a].value;
      calls := calls[c := Flight(a, Next, used, used, Reading)];
      rc := Succ;
    }

    /** The last step of a CURRENT or a sparse NEXT or SET, whether or not the caller's
        attribute took the value. */
    method CallEnd(c: Call, fits: bool) returns (rc: Rc)
      requires Sane(State()) && c in calls
      modifies this`heap, this`calls
      ensures State() == CallClosed(old(State()), c)
      ensures rc == (if old(calls[c]).stage == Undone then LogFailed else if fits then Succ else IllDatatype)
      ensures old(calls[c]).addr in heap <==> old(heap[calls[c].addr]).nlink > 1
    {
      var f := calls[c];
      rc := if f.stage == Undone then LogFailed else if fits then Succ else IllDatatype;
      Unlink(f.addr);
      calls := calls - {c};
    }

    /** dbe_seq_save_nomutex: one line per sequence with its committed value. */
    method Save() returns (list: seq<(SeqId, int)>)
      requires Sane(State())
      ensures Lists(list, State()) && |list| == |tree|
    {
      list := [];
      var todo := tree.Keys;
      while todo != {}
        invariant todo <= tree.Keys
        invariant |list| + |todo| == |tree|
        invariant forall i | 0 <= i < |list| :: list[i].0 in tree && list[i].0 !in todo && LineOf(State(), list[i])
        invariant forall i, j | 0 <= i < j < |list| :: list[i].0 != list[j].0
        invariant forall id | id in tree && id !in todo :: exists i | 0 <= i < |list| :: list[i].0 == id
        decreases |todo|
      {
        ghost var some := Member(todo);
        var id :| id in todo;
        assert id in tree;
        var sv := heap[tree[id]];
        var line := if sv.isRollback then (id, sv.rollback) else (id, sv.value);
        ghost var was := list;
        list := list + [line];
        assert list[|was|].0 == id;
        forall k | k in tree && k !in todo - {id} ensures exists i | 0 <= i < |list| :: list[i].0 == k {
          if k != id {
            var i :| 0 <= i < |was| && was[i].0 == k;
            assert list[i].0 == k;
          }
        }
        todo := todo - {id};
      }
    }

    /** dbe_seq_restore into an empty table. */
    method Restore(list: seq<(SeqId, int)>)
      requires State() == Engine(map[], map[], map[], map[], map[], 0)
      requires forall i, j | 0 <= i < j < |list| :: list[i].0 != list[j].0
      modifies this`heap, this`tree, this`serial
      ensures Reads(list, State())
    {
      var i := 0;
      while i < |list|
        invariant 0 <= i <= |list|
        invariant forall a :: a in heap <==> a.serial == 0 && Listed(list[..i], a.id)
        invariant forall id :: id in tree <==> Addr(id, 0) in heap
        invariant forall id | id in tree :: tree[id] == Addr(id, 0)
        invariant forall k | 0 <= k < i :: RestoredLine(heap, list[k])
      {
        var a := Addr(list[i].0, 0);
        heap := heap[a := SeqValue(list[i].1, 0, false, 0, 1)];
        tree := tree[list[i].0 := a];
        ListedMore(list, i);
        i := i + 1;
      }
      assert list[..i] == list;
      serial := 1;
    }
  }

  /** Saving a table and reading the list back gives the engine `Restored` describes. */
  lemma SaveRestore(list: seq<(SeqId, int)>, e: Engine, r: Engine)
    requires Sane(e) && Lists(list, e) && Reads(list, r)
    ensures R.SameTable(r, Restored(R.Saved(e)))
  {
    hide Restored, R.Saved, Reads, Lists, R.SameRow;
    SameIds(list, e, r);
    R.RestoredKeys(e);
    forall id | id in e.tree ensures R.SameRow(r, Restored(R.Saved(e)), id) {
      SaveRestoreRow(list, e, r, id);
    }
  }

  lemma SameIds(list: seq<(SeqId, int)>, e: Engine, r: Engine)
    requires Lists(list, e) && Reads(list, r)
    ensures e.tree.Keys == r.tree.Keys
  {
    forall id | id in r.tree ensures id in e.tree {
      var i :| 0 <= i < |list| && list[i].0 == id;
      assert LineOf(e, list[i]);
    }
    forall id | id in e.tree ensures id in r.tree {
      assert Listed(list, id) && Addr(id, 0) in r.heap;
    }
  }

  lemma SaveRestoreRow(list: seq<(SeqId, int)>, e: Engine, r: Engine, id: SeqId)
    requires Lists(list, e) && Reads(list, r) && id in e.tree && e.tree[id] in e.heap
    ensures R.SameRow(r, Restored(R.Saved(e)), id)
  {
    hide Restored, R.Saved;
    SameIds(list, e, r);
    R.RestoredRow(e, id);
    var i :| 0 <= i < |list| && list[i].0 == id;
    assert LineOf(e, list[i]) && RestoredLine(r.heap, list[i]);
  }
}
