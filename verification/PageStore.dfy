/**
 Page allocation of dbe/dbe0db.c over the free list and the change list of a database file:
 several pages or none, and pages of an older checkpoint kept out of reach until the change
 list lets go of them.
 */
module PageStore {
  import opened Options

  type Daddr = nat

  /** Pages 0..size-1 of the file; `listed` are those on the change list, with their
      checkpoint number. */
  datatype Store = Store(
    size: nat,
    used: set<Daddr>,
    free: set<Daddr>,
    listed: map<Daddr, nat>,
    cpnum: nat)

  /** Every page of the file is in use, free or on the change list: in one of them. */
  ghost predicate Inv(s: Store) {
    && (forall p: Daddr :: p in s.used || p in s.free || p in s.listed <==> p < s.size)
    && s.used !! s.free && s.used !! s.listed.Keys && s.free !! s.listed.Keys
  }

  // ---------------------------------------------------------------- outcomes

  /** What the free list may answer: a free page, or a new one at the end of the file. */
  predicate Answerable(s: Store, a: Option<Daddr>) {
    a.Some? ==> a.value in s.free || a.value == s.size
  }

  /** dbe_fl_alloc when it succeeds. */
  function TakenOne(s: Store, p: Daddr): Store {
    if p in s.free then s.(used := s.used + {p}, free := s.free - {p})
    else s.(used := s.used + {p}, size := s.size + 1)
  }

  /** dbe_fl_free. */
  function FreedOne(s: Store, p: Daddr): Store {
    s.(used := s.used - {p}, free := s.free + {p})
  }

  function Taken(s: Store, ps: seq<Daddr>): Store {
    if ps == [] then s else TakenOne(Taken(s, ps[..|ps| - 1]), ps[|ps| - 1])
  }

  /** The undo loop of dbe_db_alloc_n_pages: last page first, and `oks` is whether the free
      list took it back; a page it did not take stays in use. */
  function Freed(s: Store, ps: seq<Daddr>, oks: seq<bool>): Store
    requires |oks| == |ps|
    decreases ps
  {
    if ps == [] then s
    else
      var last := if oks[|oks| - 1] then FreedOne(s, ps[|ps| - 1]) else s;
      Freed(last, ps[..|ps| - 1], oks[..|oks| - 1])
  }

  /** The pages the free list took back. */
  function Back(ps: seq<Daddr>, oks: seq<bool>): set<Daddr>
    requires |oks| == |ps|
  {
    if ps == [] then {}
    else Back(ps[..|ps| - 1], oks[..|oks| - 1]) + if oks[|oks| - 1] then {ps[|ps| - 1]} else {}
  }

  /** Successive answers of the free list, each possible when it comes. */
  predicate AllAnswerable(s: Store, ps: seq<Daddr>) {
    ps == [] || (AllAnswerable(s, ps[..|ps| - 1]) && Answerable(Taken(s, ps[..|ps| - 1]), Some(ps[|ps| - 1])))
  }

  /** One page of dbe_db_free_n_pages; `ok` is whether the list took it. */
  function GivenOne(s: Store, p: Daddr, cp: nat, ok: bool): Store {
    if !ok then s
    else if cp < s.cpnum then s.(used := s.used - {p}, listed := s.listed[p := cp])
    else FreedOne(s, p)
  }

  function Given(s: Store, ps: seq<Daddr>, cp: nat, oks: seq<bool>): Store
    requires |oks| == |ps|
  {
    if ps == [] then s
    else GivenOne(Given(s, ps[..|ps| - 1], cp, oks[..|oks| - 1]), ps[|ps| - 1], cp, oks[|oks| - 1])
  }

  /** The checkpoint manager hands pages of the change list over to the free list. */
  function Inherited(s: Store, ps: set<Daddr>): Store {
    s.(free := s.free + (ps * s.listed.Keys), listed := s.listed - ps)
  }

  // --------------------------------------------------------------- invariant

  lemma TakenOneKept(s: Store, p: Daddr)
    requires Inv(s) && Answerable(s, Some(p))
    ensures Inv(TakenOne(s, p)) && p !in s.used && p !in s.listed
  {
  }

  lemma {:induction false} TakenKept(s: Store, ps: seq<Daddr>)
    requires Inv(s) && AllAnswerable(s, ps)
    ensures var t := Taken(s, ps);
            && Inv(t) && t.listed == s.listed && t.cpnum == s.cpnum && t.size >= s.size
            && (forall p: Daddr :: p in t.used <==> p in s.used || p in ps)
            && (forall p: Daddr :: p in t.free <==> p in s.free && p !in ps)
            && (forall p | p in ps :: p !in s.used && p !in s.listed)
            && (forall i, j | 0 <= i < j < |ps| :: ps[i] != ps[j])
  {
    if ps != [] {
      var before, p := ps[..|ps| - 1], ps[|ps| - 1];
      TakenKept(s, before);
      TakenOneKept(Taken(s, before), p);
      assert ps == before + [p];
    }
  }

  lemma {:induction false} FreedAll(s: Store, ps: seq<Daddr>, oks: seq<bool>)
    requires |oks| == |ps|
    ensures var t := Freed(s, ps, oks);
            && t.size == s.size && t.listed == s.listed && t.cpnum == s.cpnum
            && t.used == s.used - Back(ps, oks) && t.free == s.free + Back(ps, oks)
    decreases ps
  {
    if ps != [] {
      var last := if oks[|oks| - 1] then FreedOne(s, ps[|ps| - 1]) else s;
      FreedAll(last, ps[..|ps| - 1], oks[..|oks| - 1]);
    }
  }

  lemma {:induction false} BackPages(ps: seq<Daddr>, oks: seq<bool>)
    requires |oks| == |ps| && forall i, j | 0 <= i < j < |ps| :: ps[i] != ps[j]
    ensures forall p | p in Back(ps, oks) :: p in ps
    ensures forall i | 0 <= i < |ps| :: ps[i] in Back(ps, oks) <==> oks[i]
  {
    if ps != [] {
      var front, p := ps[..|ps| - 1], ps[|ps| - 1];
      BackPages(front, oks[..|oks| - 1]);
      assert forall i | 0 <= i < |front| :: ps[i] == front[i];
      assert p !in front;
    }
  }

  /** An allocation that is given up keeps the file partitioned and the change list as it was,
      and the pages in use afterwards are those of before and the ones the free list did not
      take back, whose errors the code ignores. So the pages in use are as before if and only
      if every free succeeded; then the free pages are those of before and the pages by which
      the file has grown. */
  lemma FailureRestores(s: Store, ps: seq<Daddr>, oks: seq<bool>)
    requires Inv(s) && AllAnswerable(s, ps) && |oks| == |ps|
    ensures var t := Freed(Taken(s, ps), ps, oks);
            && Inv(t) && t.listed == s.listed
            && (forall p: Daddr :: p in t.used <==> p in s.used || (p in ps && p !in Back(ps, oks)))
            && (forall p: Daddr :: p in t.free <==> (p in s.free && p !in ps) || p in Back(ps, oks))
            && (t.used == s.used <==> forall i | 0 <= i < |oks| :: oks[i])
            && (t.used == s.used ==> forall p: Daddr :: p in t.free <==> p in s.free || s.size <= p < t.size)
            && (t.used == s.used && t.size == s.size ==> t == s)
  {
    TakenKept(s, ps);
    FreedAll(Taken(s, ps), ps, oks);
    BackPages(ps, oks);
    var m, t := Taken(s, ps), Freed(Taken(s, ps), ps, oks);
    if i :| 0 <= i < |oks| && !oks[i] {
      assert ps[i] in t.used && ps[i] !in s.used;
    } else {
      assert forall p | p in ps :: p in Back(ps, oks);
      assert t.used == s.used;
    }
    if t.used == s.used {
      forall p: Daddr ensures p in t.free <==> p in s.free || s.size <= p < t.size {
        assert p in m.used || p in m.free || p in m.listed <==> p < m.size;
        assert p in s.used || p in s.free || p in s.listed <==> p < s.size;
      }
      assert t.size == s.size ==> t.free == s.free;
    }
  }

  /** A page the free list does not take back is lost to the caller, who is told he has none. */
  lemma UndoLeaks()
    ensures var s := Store(1, {}, {0}, map[], 1);
            && Inv(s) && AllAnswerable(s, [0])
            && Freed(Taken(s, [0]), [0], [false]).used == {0} && Freed(Taken(s, [0]), [0], [false]).free == {}
  {
    assert [0][..0] == [] && [false][..0] == [];
  }

  lemma GivenOneKept(s: Store, p: Daddr, cp: nat, ok: bool)
    requires Inv(s) && p in s.used
    ensures Inv(GivenOne(s, p, cp, ok))
  {
  }

  lemma {:induction false} GivenKept(s: Store, ps: seq<Daddr>, cp: nat, oks: seq<bool>)
    requires Inv(s) && |oks| == |ps| && (forall p | p in ps :: p in s.used)
    requires forall i, j | 0 <= i < j < |ps| :: ps[i] != ps[j]
    ensures var t := Given(s, ps, cp, oks);
            && Inv(t) && t.size == s.size && t.cpnum == s.cpnum
            && (forall p: Daddr | p !in ps :: (p in t.used <==> p in s.used) && (p in t.free <==> p in s.free)
                                      && (p in t.listed <==> p in s.listed))
            && (cp < s.cpnum ==> forall p | p in ps :: p !in t.free)
  {
    if ps != [] {
      var before, p := ps[..|ps| - 1], ps[|ps| - 1];
      assert ps == before + [p];
      assert p !in before;
      GivenKept(s, before, cp, oks[..|oks| - 1]);
      GivenOneKept(Given(s, before, cp, oks[..|oks| - 1]), p, cp, oks[|oks| - 1]);
    }
  }

  lemma InheritedKept(s: Store, ps: set<Daddr>)
    requires Inv(s)
    ensures Inv(Inherited(s, ps))
  {
  }

  // --------------------------------------------------------------------- runs

  datatype Event =
    | Alloc(ps: seq<Daddr>)
    | AllocFailed(ps: seq<Daddr>, oks: seq<bool>)    // the pages found before, and the answers of the undo
    | Free(ps: seq<Daddr>, cp: nat, oks: seq<bool>)
    | NewCheckpoint
    | Inherit(done: set<Daddr>)

  /** Pages given back are in use and named once each. */
  predicate Legal(s: Store, ev: Event) {
    match ev
    case Alloc(ps) => AllAnswerable(s, ps)
    case AllocFailed(ps, oks) => AllAnswerable(s, ps) && |oks| == |ps|
    case Free(ps, _, oks) =>
      && |oks| == |ps| && (forall p | p in ps :: p in s.used)
      && (forall i, j | 0 <= i < j < |ps| :: ps[i] != ps[j])
    case NewCheckpoint => true
    case Inherit(_) => true
  }

  function Stepped(s: Store, ev: Event): Store
    requires Legal(s, ev)
  {
    match ev
    case Alloc(ps) => Taken(s, ps)
    case AllocFailed(ps, oks) => Freed(Taken(s, ps), ps, oks)
    case Free(ps, cp, oks) => Given(s, ps, cp, oks)
    case NewCheckpoint => s.(cpnum := s.cpnum + 1)
    case Inherit(ps) => Inherited(s, ps)
  }

  lemma StepKept(s: Store, ev: Event)
    requires Inv(s) && Legal(s, ev)
    ensures Inv(Stepped(s, ev))
    ensures forall p | p in s.listed && !(ev.Inherit? && p in ev.done) ::
              p in Stepped(s, ev).listed && (ev.Alloc? ==> p !in ev.ps)
  {
    match ev
    case Alloc(ps) => TakenKept(s, ps);
    case AllocFailed(ps, oks) => FailureRestores(s, ps, oks);
    case Free(ps, cp, oks) => GivenKept(s, ps, cp, oks);
    case NewCheckpoint =>
    case Inherit(ps) => InheritedKept(s, ps);
  }

  function Run(s: Store, evs: seq<Event>): Store {
    if evs == [] then s
    else
      var before := Run(s, evs[..|evs| - 1]);
      if Legal(before, evs[|evs| - 1]) then Stepped(before, evs[|evs| - 1]) else before
  }

  predicate LegalRun(s: Store, evs: seq<Event>) {
    evs == [] || (LegalRun(s, evs[..|evs| - 1]) && Legal(Run(s, evs[..|evs| - 1]), evs[|evs| - 1]))
  }

  /** In every run the file stays partitioned, and a page that was put on the change list is
      not handed out by any allocation until the list has been inherited with it. */
  lemma {:induction false} SnapshotSafe(s: Store, evs: seq<Event>, p: Daddr)
    requires Inv(s) && LegalRun(s, evs)
    ensures Inv(Run(s, evs))
    ensures p in s.listed && (forall ev | ev in evs && ev.Inherit? :: p !in ev.done) ==>
              p in Run(s, evs).listed && forall ev | ev in evs :: ev.Alloc? ==> p !in ev.ps
  {
    if evs != [] {
      hide Stepped, Legal;
      var before, ev := evs[..|evs| - 1], evs[|evs| - 1];
      assert evs == before + [ev];
      SnapshotSafe(s, before, p);
      StepKept(Run(s, before), ev);
    }
  }

  /** A page freed under an older checkpoint number goes to the change list, not to the free
      list, so the previous lemma holds of it from then on. */
  lemma OlderPagesListed(s: Store, ps: seq<Daddr>, cp: nat, oks: seq<bool>, i: nat)
    requires Inv(s) && Legal(s, Free(ps, cp, oks)) && cp < s.cpnum && i < |ps| && oks[i]
    ensures ps[i] in Given(s, ps, cp, oks).listed && Given(s, ps, cp, oks).listed[ps[i]] == cp
    decreases |ps|
  {
    var before, p := ps[..|ps| - 1], ps[|ps| - 1];
    assert forall q | q in before :: q in ps;
    GivenKept(s, before, cp, oks[..|oks| - 1]);
    if i < |ps| - 1 {
      OlderPagesListed(s, before, cp, oks[..|oks| - 1], i);
    }
  }

  /** Every page given back: one the list did not take stays in use, one of an older checkpoint
      is on the change list under that number, and any other is free. Change list entries that
      were there keep their numbers. */
  lemma {:induction false} PagesGiven(s: Store, ps: seq<Daddr>, cp: nat, oks: seq<bool>)
    requires Inv(s) && Legal(s, Free(ps, cp, oks))
    ensures forall i | 0 <= i < |ps| :: GivenBack(Given(s, ps, cp, oks), ps[i], cp < s.cpnum, cp, oks[i])
    ensures var t := Given(s, ps, cp, oks); forall p | p in s.listed :: p in t.listed && t.listed[p] == s.listed[p]
  {
    if ps != [] {
      var before, p := ps[..|ps| - 1], ps[|ps| - 1];
      assert forall q | q in before :: q in ps;
      PagesGiven(s, before, cp, oks[..|oks| - 1]);
      GivenKept(s, before, cp, oks[..|oks| - 1]);
      assert ps == before + [p] && p !in before;
      var m := Given(s, before, cp, oks[..|oks| - 1]);
      hide Inv, Given, GivenBack;
      GivenOneBack(m, p, cp, oks[|oks| - 1]);
      forall i | 0 <= i < |ps| ensures GivenBack(Given(s, ps, cp, oks), ps[i], cp < s.cpnum, cp, oks[i]) {
        if i < |ps| - 1 {
          assert GivenBack(m, before[i], cp < s.cpnum, cp, oks[..|oks| - 1][i]);
        }
      }
    }
  }

  lemma GivenOneBack(s: Store, p: Daddr, cp: nat, ok: bool)
    requires Inv(s) && p in s.used
    ensures var t := GivenOne(s, p, cp, ok);
            && GivenBack(t, p, cp < s.cpnum, cp, ok)
            && (forall q: Daddr, older: bool, c: nat, o: bool | q != p && GivenBack(s, q, older, c, o) ::
                  GivenBack(t, q, older, c, o))
            && forall q | q in s.listed :: q in t.listed && t.listed[q] == s.listed[q]
  {
  }

  predicate GivenBack(t: Store, p: Daddr, older: bool, cp: nat, ok: bool) {
    if !ok then p in t.used && p !in t.free && p !in t.listed
    else if older then p in t.listed && t.listed[p] == cp && p !in t.used && p !in t.free
    else p in t.free && p !in t.used && p !in t.listed
  }

  /** Pages the change list lets go of are free. */
  lemma InheritedFree(s: Store, ps: set<Daddr>, p: Daddr)
    requires Inv(s)
    ensures var t := Stepped(s, Inherit(ps));
            && (p in s.listed && p in ps ==> p in t.free && p !in t.listed)
            && (p in s.listed && p !in ps ==> p in t.listed && t.listed[p] == s.listed[p])
            && (p !in s.listed ==> (p in t.free <==> p in s.free)) && t.used == s.used
  {
  }

  // ----------------------------------------------------------------- history

  const EMPTY := Store(0, {}, {}, map[], 1)

  /** The page was asked about with this answer. */
  predicate Answered(ps: seq<Daddr>, oks: seq<bool>, p: Daddr, ok: bool) {
    exists i | 0 <= i < |ps| && i < |oks| :: ps[i] == p && oks[i] == ok
  }

  function Checkpoints(evs: seq<Event>): nat {
    if evs == [] then 0 else Checkpoints(evs[..|evs| - 1]) + if evs[|evs| - 1].NewCheckpoint? then 1 else 0
  }

  /** Told from the events: an allocation came upon the page. */
  predicate Found(evs: seq<Event>, p: Daddr) {
    exists ev | ev in evs :: (ev.Alloc? || ev.AllocFailed?) && p in ev.ps
  }

  predicate UseMoves(inUse: bool, ev: Event, p: Daddr) {
    match ev
    case Alloc(ps) => inUse || p in ps
    case AllocFailed(ps, oks) => inUse || Answered(ps, oks, p, false)
    case Free(ps, _, oks) => inUse && !Answered(ps, oks, p, true)
    case NewCheckpoint => inUse
    case Inherit(_) => inUse
  }

  function WaitMoves(waits: Option<nat>, cpnum: nat, ev: Event, p: Daddr): Option<nat> {
    match ev
    case Alloc(_) => waits
    case AllocFailed(_, _) => waits
    case Free(ps, cp, oks) => if cp < cpnum && Answered(ps, oks, p, true) then Some(cp) else waits
    case NewCheckpoint => waits
    case Inherit(done) => if p in done then None else waits
  }

  /** Told from the events: the page was handed out or lost in an undo, and nobody has given it
      back since. */
  predicate InUse(evs: seq<Event>, p: Daddr) {
    evs != [] && UseMoves(InUse(evs[..|evs| - 1], p), evs[|evs| - 1], p)
  }

  /** Told from the events: the checkpoint number under which the page waits, having been given
      back under an older number than that of the time. */
  function Waiting(evs: seq<Event>, p: Daddr): Option<nat> {
    if evs == [] then None
    else
      var before := evs[..|evs| - 1];
      WaitMoves(Waiting(before, p), 1 + Checkpoints(before), evs[|evs| - 1], p)
  }

  predicate Told(s: Store, evs: seq<Event>, p: Daddr) {
    && s.cpnum == 1 + Checkpoints(evs)
    && (p < s.size <==> Found(evs, p))
    && (p in s.used <==> InUse(evs, p))
    && (p in s.listed <==> Waiting(evs, p).Some?)
    && (p in s.listed ==> Some(s.listed[p]) == Waiting(evs, p))
    && (p in s.free <==> Found(evs, p) && !InUse(evs, p) && Waiting(evs, p).None?)
  }

  lemma ToldNext(evs: seq<Event>, ev: Event, p: Daddr)
    ensures var all := evs + [ev];
            && Checkpoints(all) == Checkpoints(evs) + (if ev.NewCheckpoint? then 1 else 0)
            && (Found(all, p) <==> Found(evs, p) || ((ev.Alloc? || ev.AllocFailed?) && p in ev.ps))
            && (InUse(all, p) <==> UseMoves(InUse(evs, p), ev, p))
            && Waiting(all, p) == WaitMoves(Waiting(evs, p), 1 + Checkpoints(evs), ev, p)
  {
    var all := evs + [ev];
    assert all[..|evs|] == evs;
    assert forall x :: x in all <==> x in evs || x == ev;
  }

  /** A page that is named once gets one answer. */
  lemma AnsweredOnce(ps: seq<Daddr>, oks: seq<bool>, p: Daddr)
    requires |oks| == |ps| && forall i, j | 0 <= i < j < |ps| :: ps[i] != ps[j]
    ensures forall i | 0 <= i < |ps| && ps[i] == p :: Answered(ps, oks, p, oks[i]) && !Answered(ps, oks, p, !oks[i])
    ensures p !in ps ==> !Answered(ps, oks, p, true) && !Answered(ps, oks, p, false)
  {
  }

  lemma ToldStep(s: Store, evs: seq<Event>, ev: Event, p: Daddr)
    requires Inv(s) && Legal(s, ev) && Told(s, evs, p)
    ensures Told(Stepped(s, ev), evs + [ev], p)
  {
    hide Checkpoints, Found, InUse, Waiting;
    ToldNext(evs, ev, p);
    StepKept(s, ev);
    match ev
    case Alloc(ps) => TakenKept(s, ps);
    case AllocFailed(ps, oks) =>
      FailureRestores(s, ps, oks);
      TakenKept(s, ps);
      FreedAll(Taken(s, ps), ps, oks);
      BackPages(ps, oks);
      AnsweredOnce(ps, oks, p);
      if i :| 0 <= i < |ps| && ps[i] == p {
        assert ps[i] in Back(ps, oks) <==> oks[i];
      }
    case Free(ps, cp, oks) =>
      PagesGiven(s, ps, cp, oks);
      GivenKept(s, ps, cp, oks);
      AnsweredOnce(ps, oks, p);
      if i :| 0 <= i < |ps| && ps[i] == p {
        assert GivenBack(Given(s, ps, cp, oks), ps[i], cp < s.cpnum, cp, oks[i]);
      }
    case NewCheckpoint =>
    case Inherit(done) => InheritedFree(s, done, p);
  }

  /** In every run from the empty file each page is where the events say: unknown, in use, waiting
      on the change list under its number, or free. */
  lemma {:induction false} PagesTold(evs: seq<Event>, p: Daddr)
    requires LegalRun(EMPTY, evs)
    ensures Inv(Run(EMPTY, evs)) && Told(Run(EMPTY, evs), evs, p)
  {
    if evs != [] {
      hide Stepped, Legal, Told;
      var before, ev := evs[..|evs| - 1], evs[|evs| - 1];
      assert evs == before + [ev];
      PagesTold(before, p);
      StepKept(Run(EMPTY, before), ev);
      ToldStep(Run(EMPTY, before), before, ev, p);
    }
  }

  lemma SomeSteps()
    ensures Run(EMPTY, []) == EMPTY && LegalRun(EMPTY, [])
    ensures Legal(EMPTY, Alloc([0])) && Stepped(EMPTY, Alloc([0])) == Store(1, {0}, {}, map[], 1)
    ensures Legal(Store(1, {0}, {}, map[], 1), NewCheckpoint) && Legal(Store(1, {}, {}, map[0 := 1], 2), Inherit({0}))
    ensures Stepped(Store(1, {0}, {}, map[], 1), NewCheckpoint) == Store(1, {0}, {}, map[], 2)
    ensures Legal(Store(1, {0}, {}, map[], 2), Free([0], 1, [true]))
    ensures Stepped(Store(1, {0}, {}, map[], 2), Free([0], 1, [true])) == Store(1, {}, {}, map[0 := 1], 2)
    ensures Stepped(Store(1, {}, {}, map[0 := 1], 2), Inherit({0})) == Store(1, {}, {0}, map[], 2)
    ensures Legal(Store(1, {}, {0}, map[], 2), Alloc([0]))
    ensures Stepped(Store(1, {}, {0}, map[], 2), Alloc([0])) == Store(1, {0}, {}, map[], 2)
  {
    assert [0][..0] == [] && [true][..0] == [];
    assert {} + {0} == {0} && {0} - {0} == {};
  }

  /** A page given back under an older number waits until the change list lets go of it, and is
      handed out again then. */
  lemma SomeRun()
    ensures var evs := [Alloc([0]), NewCheckpoint, Free([0], 1, [true])];
            && Run(EMPTY, evs) == Store(1, {}, {}, map[0 := 1], 2)
            && LegalRun(EMPTY, evs + [Inherit({0})] + [Alloc([0])])
            && Run(EMPTY, evs + [Inherit({0})] + [Alloc([0])]) == Store(1, {0}, {}, map[], 2)
  {
    SomeSteps();
    hide Run, LegalRun, Stepped, Legal;
    var a, b, c := Alloc([0]), NewCheckpoint, Free([0], 1, [true]);
    assert [] + [a] + [b] + [c] == [a, b, c];
    RunMore([], a);
    RunMore([] + [a], b);
    RunMore([] + [a] + [b], c);
    RunMore([a, b, c], Inherit({0}));
    RunMore([a, b, c] + [Inherit({0})], Alloc([0]));
  }

  lemma RunMore(evs: seq<Event>, ev: Event)
    ensures LegalRun(EMPTY, evs + [ev]) <==> LegalRun(EMPTY, evs) && Legal(Run(EMPTY, evs), ev)
    ensures Legal(Run(EMPTY, evs), ev) ==> Run(EMPTY, evs + [ev]) == Stepped(Run(EMPTY, evs), ev)
  {
    hide Stepped, Legal;
    assert (evs + [ev])[..|evs|] == evs;
  }

  // ------------------------------------------------------------------- object

  class Pages {
    var size: nat
    var used: set<Daddr>
    var free: set<Daddr>
    var listed: map<Daddr, nat>
    var cpnum: nat

    ghost function State(): Store
      reads this
    {
      Store(size, used, free, listed, cpnum)
    }

    constructor ()
      ensures State() == Store(0, {}, {}, map[], 1) && Inv(State())
    {
      size, used, free, listed, cpnum := 0, {}, {}, map[], 1;
    }

    /** dbe_fl_alloc; `answer` is the page it finds, None when the disk is full. */
    method AllocOne(answer: Option<Daddr>) returns (p: Option<Daddr>)
      requires Answerable(State(), answer)
      modifies this
      ensures p == answer && State() == if answer.None? then old(State()) else TakenOne(old(State()), answer.value)
    {
      p := answer;
      if answer.Some? {
        if answer.value in free {
          free := free - {answer.value};
        } else {
          size := size + 1;
        }
        used := used + {answer.value};
      }
    }

    method FreeOne(p: Daddr)
      modifies this
      ensures State() == FreedOne(old(State()), p)
    {
      used := used - {p};
      free := free + {p};
    }

    /** dbe_db_alloc_n_pages. The free list finds the pages `finds`, then, if those are not
        enough, none; `oks` is how it answers when they are given back. */
    method AllocPages(out: array<Daddr>, n: nat, finds: seq<Daddr>, oks: seq<bool>) returns (ok: bool, got: nat)
      requires n <= out.Length && |finds| <= n && AllAnswerable(State(), finds) && |oks| == |finds|
      modifies this, out
      ensures ok <==> |finds| == n
      ensures ok ==> got == n && out[..n] == finds && State() == Taken(old(State()), finds)
      ensures !ok ==> got == 0 && State() == Freed(Taken(old(State()), finds), finds, oks)
    {
      var i := 0;
      ok := true;
      while i < n && ok
        invariant 0 <= i <= |finds|
        invariant forall k | 0 <= k < i :: out[k] == finds[k]
        invariant State() == Taken(old(State()), finds[..i])
        invariant !ok ==> i == |finds| < n
        decreases n - i, ok
      {
        Answers(old(State()), finds, i);
        var p := AllocOne(if i < |finds| then Some(finds[i]) else None);
        if p.None? {
          ok := false;
        } else {
          out[i] := p.value;
          assert finds[..i + 1][..i] == finds[..i];
          i := i + 1;
        }
      }
      assert finds[..i] == finds && oks[..i] == oks;
      assert out[..i] == finds;
      if !ok {
        while i > 0
          invariant 0 <= i <= |finds|
          invariant forall k | 0 <= k < i :: out[k] == finds[k]
          invariant Freed(State(), finds[..i], oks[..i]) == Freed(Taken(old(State()), finds), finds, oks)
        {
          i := i - 1;
          assert finds[..i + 1][..i] == finds[..i] && oks[..i + 1][..i] == oks[..i];
          // The answer of the free list is not looked at.
          if oks[i] {
            FreeOne(out[i]);
          }
        }
      }
      got := i;
    }

    /** dbe_db_free_n_pages; the result is the first error. */
    method FreePages(ps: seq<Daddr>, cp: nat, oks: seq<bool>) returns (ok: bool)
      requires |oks| == |ps|
      modifies this
      ensures State() == Given(old(State()), ps, cp, oks)
      ensures old(Inv(State()) && Legal(State(), Free(ps, cp, oks))) ==>
                && Inv(State())
                && (forall i | 0 <= i < |ps| ::
                      if !oks[i] then ps[i] in used
                      else if cp < cpnum then ps[i] in listed && listed[ps[i]] == cp else ps[i] in free)
                && forall p | p in old(listed) :: p in listed && listed[p] == old(listed)[p]
      ensures ok <==> forall i | 0 <= i < |oks| :: oks[i]
    {
      ok := true;
      var older := cp < cpnum;
      var i := 0;
      GivenCpnum(State(), ps, cp, oks);
      while i < |ps|
        invariant 0 <= i <= |ps| && cpnum == old(cpnum)
        invariant State() == Given(old(State()), ps[..i], cp, oks[..i])
        invariant ok <==> forall k | 0 <= k < i :: oks[k]
      {
        if !oks[i] {
          ok := false;
        } else if older {
          used := used - {ps[i]};
          listed := listed[ps[i] := cp];
        } else {
          FreeOne(ps[i]);
        }
        assert ps[..i + 1][..i] == ps[..i] && oks[..i + 1][..i] == oks[..i];
        i := i + 1;
      }
      assert ps[..i] == ps && oks[..i] == oks;
      if old(Inv(State()) && Legal(State(), Free(ps, cp, oks))) {
        PagesGiven(old(State()), ps, cp, oks);
        GivenKept(old(State()), ps, cp, oks);
      }
    }
  }

  lemma {:induction false} GivenCpnum(s: Store, ps: seq<Daddr>, cp: nat, oks: seq<bool>)
    requires |oks| == |ps|
    ensures Given(s, ps, cp, oks).cpnum == s.cpnum
  {
    if ps != [] {
      GivenCpnum(s, ps[..|ps| - 1], cp, oks[..|oks| - 1]);
    }
  }

  lemma {:induction false} Answers(s: Store, ps: seq<Daddr>, i: nat)
    requires AllAnswerable(s, ps) && i <= |ps|
    ensures i < |ps| ==> Answerable(Taken(s, ps[..i]), Some(ps[i]))
  {
    if i < |ps| - 1 {
      Answers(s, ps[..|ps| - 1], i);
      assert ps[..|ps| - 1][..i] == ps[..i];
    }
  }
}
