/**
 The space manager of dbe/dbe0spm.c: requests take free space or wait in line; adding space
 wakes those at the head of the line.
 */
module SpaceManager {

  type Waiter = nat

  datatype Spm = Spm(
    maxsize: nat,
    free: int,
    active: bool,
    rate: nat,
    line: seq<Waiter>,     // asleep, in the order they came
    woken: seq<Waiter>)    // woken so far, in order

  datatype Event =
    | SetActive(active: bool)
    | SetRate(rate: nat)
    | AddSpace(size: nat)
    | GetSpace(who: Waiter, size: nat)

  function Start(maxsize: nat): Spm {
    Spm(maxsize, maxsize, false, 0, [], [])
  }

  function Min(a: int, b: int): int {
    if a < b then a else b
  }

  // ---------------------------------------------------------------- outcomes

  function Activated(s: Spm, active: bool): Spm {
    if s.active && active then s
    else s.(active := active, free := s.maxsize,
            woken := if active then s.woken else s.woken + s.line,
            line := if active then s.line else [])
  }

  /** The free space after an addition, before anybody is woken. */
  function Grown(s: Spm, size: nat): int {
    if size > s.maxsize then s.free
    else
      var free := Min(s.free + size, s.maxsize);
      if s.rate == 0 then free else if free * s.rate / 100 == 0 then 1 else free * s.rate / 100
  }

  function Added(s: Spm, size: nat): Spm {
    var free := Grown(s, size);
    var n := if free <= 0 then 0 else if s.active then Min(free, |s.line|) else |s.line|;
    s.(free := if s.active then free - n else free, woken := s.woken + s.line[..n], line := s.line[n..])
  }

  function Got(s: Spm, who: Waiter, size: nat): Spm {
    if !s.active then s
    else if s.free >= size then s.(free := s.free - size)
    else if size > 1 && s.free > 0 then s.(free := 0)
    else s.(line := s.line + [who])
  }

  function Stepped(s: Spm, ev: Event): Spm {
    match ev
    case SetActive(active) => Activated(s, active)
    case SetRate(rate) => s.(rate := rate)
    case AddSpace(size) => Added(s, size)
    case GetSpace(who, size) => Got(s, who, size)
  }

  predicate Legal(ev: Event) {
    ev.SetRate? ==> ev.rate <= 100
  }

  function Run(s: Spm, evs: seq<Event>): Spm {
    if evs == [] then s else Stepped(Run(s, evs[..|evs| - 1]), evs[|evs| - 1])
  }

  // --------------------------------------------------------------- invariant

  /** Free space is never negative nor above the maximum, and anybody asleep is asleep
      because the manager is active and has nothing left. */
  predicate Inv(s: Spm) {
    && s.maxsize >= 1 && s.rate <= 100
    && 0 <= s.free <= s.maxsize
    && (s.line != [] ==> s.active && s.free == 0)
  }

  lemma GrownBounds(s: Spm, size: nat)
    requires Inv(s)
    ensures 0 <= Grown(s, size) <= s.maxsize
    ensures 1 <= size <= s.maxsize ==> Grown(s, size) >= 1
  {
    if size <= s.maxsize {
      var free := Min(s.free + size, s.maxsize);
      Scaled(free, s.rate);
    }
  }

  /** The given percentage, if there is one, and at least 1. */
  function Scale(n: int, percent: nat): (r: int)
    ensures percent == 0 ==> r == n
    ensures percent > 0 && n >= 0 ==> 100 * r <= n * percent < 100 * (r + 1) || (r == 1 && n * percent < 100)
  {
    if percent == 0 then n else if n * percent / 100 == 0 then 1 else n * percent / 100
  }

  lemma GrownIs(s: Spm, size: nat)
    ensures var sum := if size > s.maxsize then s.free else if s.free + size < s.maxsize then s.free + size
                       else s.maxsize;
            Grown(s, size) == Scale(sum, if size > s.maxsize then 0 else s.rate)
  {
  }

  lemma Scaled(free: nat, rate: nat)
    requires rate <= 100
    ensures 0 <= free * rate / 100 <= free
  {
    assert free * rate <= free * 100;
  }

  lemma StepKept(s: Spm, ev: Event)
    requires Inv(s) && Legal(ev)
    ensures Inv(Stepped(s, ev))
  {
    if ev.AddSpace? {
      GrownBounds(s, ev.size);
    }
  }

  lemma {:induction false} RunKept(s: Spm, evs: seq<Event>)
    requires Inv(s) && forall ev | ev in evs :: Legal(ev)
    ensures Inv(Run(s, evs))
  {
    if evs != [] {
      assert evs[|evs| - 1] in evs;
      RunKept(s, evs[..|evs| - 1]);
      StepKept(Run(s, evs[..|evs| - 1]), evs[|evs| - 1]);
    }
  }

  // -------------------------------------------------------------------- line

  /** Those who had to wait, in the order they came. */
  function Arrivals(s: Spm, evs: seq<Event>): seq<Waiter> {
    if evs == [] then []
    else
      var before, ev := Run(s, evs[..|evs| - 1]), evs[|evs| - 1];
      Arrivals(s, evs[..|evs| - 1]) +
      if ev.GetSpace? && |Stepped(before, ev).line| > |before.line| then [ev.who] else []
  }

  lemma LineStep(s: Spm, ev: Event)
    ensures var t := Stepped(s, ev);
            t.woken + t.line == s.woken + s.line + if ev.GetSpace? && |t.line| > |s.line| then [ev.who] else []
    ensures s.woken <= Stepped(s, ev).woken
  {
  }

  /** First come, first woken: the woken followed by those asleep are the arrivals in order. */
  lemma {:induction false} FirstComeFirstWoken(s: Spm, evs: seq<Event>)
    ensures Run(s, evs).woken + Run(s, evs).line == s.woken + s.line + Arrivals(s, evs)
    ensures s.woken <= Run(s, evs).woken
  {
    hide Stepped;
    if evs != [] {
      FirstComeFirstWoken(s, evs[..|evs| - 1]);
      LineStep(Run(s, evs[..|evs| - 1]), evs[|evs| - 1]);
    }
  }

  /** Additions that count: at least one, and not more than the manager holds. */
  function Additions(maxsize: nat, evs: seq<Event>): nat {
    if evs == [] then 0
    else
      Additions(maxsize, evs[..|evs| - 1]) +
      if evs[|evs| - 1].AddSpace? && 1 <= evs[|evs| - 1].size <= maxsize then 1 else 0
  }

  lemma WakesOne(s: Spm, ev: Event)
    requires Inv(s) && ev.AddSpace? && 1 <= ev.size <= s.maxsize && s.line != []
    ensures |Stepped(s, ev).woken| >= |s.woken| + 1
  {
    GrownBounds(s, ev.size);
  }

  lemma {:induction false} SameMax(s: Spm, evs: seq<Event>)
    ensures Run(s, evs).maxsize == s.maxsize
  {
    if evs != [] {
      SameMax(s, evs[..|evs| - 1]);
    }
  }

  /** Nobody waits for ever: the k-th in line is awake after at most k additions that count,
      whatever else happens in between. */
  lemma {:induction false} WaitIsBounded(s: Spm, evs: seq<Event>, k: nat)
    requires Inv(s) && (forall ev | ev in evs :: Legal(ev)) && k < |s.line|
    ensures |Run(s, evs).woken| >= |s.woken| + Min(Additions(s.maxsize, evs), |s.line|)
    ensures Additions(s.maxsize, evs) >= k + 1 ==>
              |Run(s, evs).woken| > |s.woken| + k && Run(s, evs).woken[|s.woken| + k] == s.line[k]
  {
    hide Stepped;
    FirstComeFirstWoken(s, evs);
    Wakes(s, evs);
    var t := Run(s, evs);
    if Additions(s.maxsize, evs) >= k + 1 {
      assert (t.woken + t.line)[|s.woken| + k] == (s.woken + s.line + Arrivals(s, evs))[|s.woken| + k];
    }
  }

  lemma {:induction false} Wakes(s: Spm, evs: seq<Event>)
    requires Inv(s) && forall ev | ev in evs :: Legal(ev)
    ensures |Run(s, evs).woken| >= |s.woken| + Min(Additions(s.maxsize, evs), |s.line|)
  {
    hide Stepped;
    if evs != [] {
      var before, ev := evs[..|evs| - 1], evs[|evs| - 1];
      Wakes(s, before);
      RunKept(s, before);
      SameMax(s, before);
      LineStep(Run(s, before), ev);
      FirstComeFirstWoken(s, before);
      var t := Run(s, before);
      assert |t.woken| + |t.line| == |t.woken + t.line| >= |s.woken| + |s.line|;
      if ev.AddSpace? && 1 <= ev.size <= s.maxsize && t.line != [] {
        WakesOne(t, ev);
      }
    }
  }

  lemma RunMore(s: Spm, evs: seq<Event>, ev: Event)
    ensures Run(s, evs + [ev]) == Stepped(Run(s, evs), ev)
  {
    hide Stepped;
    assert (evs + [ev])[..|evs|] == evs;
  }

  lemma WaitSteps()
    ensures Run(Start(3), []) == Start(3) == Spm(3, 3, false, 0, [], [])
    ensures Stepped(Spm(3, 3, false, 0, [], []), SetActive(true)) == Spm(3, 3, true, 0, [], [])
    ensures Stepped(Spm(3, 3, true, 0, [], []), GetSpace(1, 3)) == Spm(3, 0, true, 0, [], [])
    ensures Stepped(Spm(3, 0, true, 0, [], []), GetSpace(2, 1)) == Spm(3, 0, true, 0, [2], [])
    ensures Stepped(Spm(3, 0, true, 0, [2], []), SetRate(50)) == Spm(3, 0, true, 50, [2], [])
    ensures Stepped(Spm(3, 0, true, 50, [2], []), AddSpace(3)) == Spm(3, 0, true, 50, [], [2])
  {
    assert [] + [2] == [2] && [2][..1] == [2] && [2][1..] == [];
  }

  /** Of three units the first caller takes all, the second has to wait, and an addition of
      three at a rate of one half wakes him and leaves nothing. */
  lemma WaitInLine()
    ensures var evs := [SetActive(true), GetSpace(1, 3), GetSpace(2, 1)];
            && Inv(Start(3)) && Legal(SetRate(50)) && Legal(SetActive(true)) && Legal(AddSpace(3))
            && Run(Start(3), evs) == Spm(3, 0, true, 0, [2], [])
            && Run(Start(3), evs + [SetRate(50)] + [AddSpace(3)]) == Spm(3, 0, true, 50, [], [2])
  {
    WaitSteps();
    hide Run, Stepped;
    var a, b, c := SetActive(true), GetSpace(1, 3), GetSpace(2, 1);
    assert [] + [a] + [b] + [c] == [a, b, c];
    RunMore(Start(3), [], a);
    RunMore(Start(3), [] + [a], b);
    RunMore(Start(3), [] + [a] + [b], c);
    RunMore(Start(3), [a, b, c], SetRate(50));
    RunMore(Start(3), [a, b, c] + [SetRate(50)], AddSpace(3));
  }

  // ------------------------------------------------------------------- object

  class Manager {
    var maxsize: nat
    var free: int
    var active: bool
    var rate: nat
    var line: seq<Waiter>
    var woken: seq<Waiter>

    ghost function State(): Spm
      reads this
    {
      Spm(maxsize, free, active, rate, line, woken)
    }

    constructor (maxsize: nat)
      ensures State() == Start(maxsize) && free == maxsize && (maxsize >= 1 ==> Inv(State()))
    {
      this.maxsize, free, active, rate, line, woken := maxsize, maxsize, false, 0, [], [];
    }

    /** dbe_spm_setactive: switching off wakes everybody, in order. */
    method SetActiveTo(on: bool)
      requires Inv(State())
      modifies this
      ensures State() == Activated(old(State()), on) && Inv(State())
      ensures active == on && woken + line == old(woken + line)
      ensures !on ==> line == []
      ensures if old(active) && on then free == old(free) else free == maxsize
    {
      if active && on {
        return;
      }
      active := on;
      free := maxsize;
      if !on {
        woken := woken + line;
        line := [];
      }
    }

    /** The new space, before anybody is woken. */
    method GrowBy(size: nat)
      requires Inv(State())
      modifies this`free
      ensures free == Grown(old(State()), size)
    {
      if size <= maxsize {
        free := free + size;
        if free >= maxsize {
          free := maxsize;
        }
        if rate > 0 {
          free := free * rate / 100;
          if free == 0 {
            free := 1;
          }
        }
      }
    }

    /** dbe_spm_addspace. */
    method AddSpaceOf(size: nat)
      requires Inv(State())
      modifies this
      ensures State() == Added(old(State()), size) && Inv(State())
      ensures var sum := if size > maxsize then old(free) else if old(free) + size < maxsize then old(free) + size
                         else maxsize;
              free == Scale(sum, if size > maxsize then 0 else rate) - if active then |woken| - |old(woken)| else 0
      ensures line == [] || free == 0
    {
      GrowBy(size);
      ghost var grown := free;
      assert grown == Grown(old(State()), size);
      GrownBounds(old(State()), size);
      GrownIs(old(State()), size);
      ghost var n := 0;
      while line != [] && free > 0
        invariant maxsize == old(maxsize) && active == old(active) && rate == old(rate)
        invariant 0 <= n <= |old(line)| && line == old(line)[n..] && woken == old(woken) + old(line)[..n]
        invariant if active then free == grown - n && free >= 0 else free == grown
        decreases |line|
      {
        assert old(line)[..n + 1] == old(line)[..n] + [line[0]];
        woken := woken + [line[0]];
        line := line[1..];
        if active {
          free := free - 1;
        }
        n := n + 1;
      }
    }

    /** dbe_spm_getspace, up to the point where the caller goes to sleep. */
    method GetSpaceOf(who: Waiter, size: nat) returns (wait: bool)
      requires Inv(State())
      modifies this
      ensures State() == Got(old(State()), who, size) && Inv(State())
      ensures if wait then active && free == 0 && line == old(line) + [who] else line == old(line)
      ensures wait <==> active && size > 0 && old(free) == 0
      ensures active && !wait ==> old(free) - free == Min(size, old(free))
      ensures !active ==> free == old(free)
    {
      if !active {
        return false;
      }
      wait := false;
      if free >= size {
        free := free - size;
      } else if size > 1 && free > 0 {
        free := 0;
      } else {
        wait := true;
      }
      if wait {
        line := line + [who];
      }
    }
  }
}
