/**
 The mode flags of the database object in dbe/dbe0db.c: checkpoint and backup exclude each
 other, and a disabled merge is a stopped one.
 */
module Modes {

  datatype Mode = Mode(
    cpActive: bool,
    backup: bool,
    ddOps: nat,
    merge: bool,          // full or quick merge object of the main slot
    quickMerge: bool,
    disables: nat)

  const IDLE := Mode(false, false, 0, false, false, 0)

  datatype Rc = Succ | BackupActive | DdOpActive | CpActive | Failed

  type Caller = nat

  datatype Event =
    | CpFlag(c: Caller)                     // the guards of a checkpoint, and its flag, under the semaphore
    | CpPrepared(c: Caller, ok: bool)       // the preparation of that checkpoint, outside the semaphore
    | CpEnd(c: Caller)
    | BackupStart(made: bool)               // whether the backup object could be made
    | BackupStop
    | DdOpStart
    | DdOpEnd
    | MergeStart(writable: bool)            // database can be changed and is not read-only
    | QuickMergeStart(writable: bool)
    | MergeStop
    | QuickMergeStop
    | Disable
    | Enable

  // ---------------------------------------------------------------- outcomes

  function CpFlagged(m: Mode): (Mode, Rc) {
    if m.backup then (m, BackupActive)
    else if m.ddOps > 0 then (m, DdOpActive)
    else if m.cpActive then (m, CpActive)
    else (m.(cpActive := true), Succ)
  }

  function BackupStarted(m: Mode, made: bool): (Mode, Rc) {
    if m.cpActive then (m, CpActive)
    else if m.backup then (m, BackupActive)
    else (m.(backup := made), if made then Succ else Failed)
  }

  function MergeDisabled(m: Mode): Mode {
    m.(merge := false, quickMerge := false, disables := m.disables + 1)
  }

  function Stepped(m: Mode, ev: Event): Mode {
    match ev
    case CpFlag(_) => CpFlagged(m).0
    case CpPrepared(_, ok) => if ok then m else m.(cpActive := false)
    case CpEnd(_) => m.(cpActive := false)
    case BackupStart(made) => BackupStarted(m, made).0
    case BackupStop => m.(backup := false)
    case DdOpStart => m.(ddOps := m.ddOps + 1)
    case DdOpEnd => if m.ddOps > 0 then m.(ddOps := m.ddOps - 1) else m
    case MergeStart(writable) => if writable && m.disables == 0 then m.(merge := true) else m
    case QuickMergeStart(writable) => if writable && m.disables == 0 then m.(quickMerge := true) else m
    case MergeStop => m.(merge := false)
    case QuickMergeStop => m.(quickMerge := false)
    case Disable => MergeDisabled(m)
    case Enable => if m.disables > 0 then m.(disables := m.disables - 1) else m
  }

  function Run(evs: seq<Event>): Mode {
    if evs == [] then IDLE else Stepped(Run(evs[..|evs| - 1]), evs[|evs| - 1])
  }

  predicate Safe(m: Mode) {
    && !(m.cpActive && m.backup)
    && (m.disables > 0 ==> !m.merge && !m.quickMerge)
  }

  /** The callers that were told to go ahead with a checkpoint and have neither failed to
      prepare it nor ended it. */
  function Checkpointers(evs: seq<Event>): set<Caller> {
    if evs == [] then {}
    else
      var before, ev := evs[..|evs| - 1], evs[|evs| - 1];
      match ev
      case CpFlag(c) =>
        if CpFlagged(Run(before)).1 == Succ then Checkpointers(before) + {c} else Checkpointers(before)
      case CpPrepared(c, ok) => if ok then Checkpointers(before) else Checkpointers(before) - {c}
      case CpEnd(c) => Checkpointers(before) - {c}
      case _ => Checkpointers(before)
  }

  /** Only who was told to go ahead prepares and ends a checkpoint. */
  predicate Legal(evs: seq<Event>) {
    evs == [] ||
    var before, ev := evs[..|evs| - 1], evs[|evs| - 1];
    Legal(before) && (ev.CpPrepared? || ev.CpEnd? ==> ev.c in Checkpointers(before))
  }

  /** In every run, although a failed preparation clears the flag outside the semaphore: at
      most one caller is at a checkpoint at a time, the flag is up exactly as long as one
      is, no backup is active then, and while merge is disabled there is neither a merge nor
      a quick merge. */
  lemma {:induction false} ModesSafe(evs: seq<Event>)
    requires Legal(evs)
    ensures Safe(Run(evs))
    ensures Run(evs).cpActive <==> Checkpointers(evs) != {}
    ensures forall c, d | c in Checkpointers(evs) && d in Checkpointers(evs) :: c == d
  {
    if evs != [] {
      ModesSafe(evs[..|evs| - 1]);
    }
  }

  /** Neither the preparation that fails nor the end of a checkpoint. */
  predicate KeepsCp(ev: Event) {
    !ev.CpEnd? && !(ev.CpPrepared? && !ev.ok)
  }

  predicate AllKeepCp(evs: seq<Event>) {
    forall ev | ev in evs :: KeepsCp(ev)
  }

  /** From the flag on, through the preparation and until the checkpoint fails or ends, every
      backup and every further checkpoint is refused, whatever else happens in between. */
  lemma {:induction false} WindowHolds(evs: seq<Event>, later: seq<Event>, made: bool)
    requires Legal(evs) && Run(evs).cpActive && AllKeepCp(later)
    ensures var m := Run(evs + later);
            && m.cpActive && !m.backup
            && BackupStarted(m, made) == (m, CpActive)
            && CpFlagged(m) == (m, if m.ddOps > 0 then DdOpActive else CpActive)
  {
    if later == [] {
      assert evs + later == evs;
      ModesSafe(evs);
    } else {
      hide Stepped;
      var before, ev := later[..|later| - 1], later[|later| - 1];
      assert ev in later && (evs + later)[..|evs + later| - 1] == evs + before;
      WindowHolds(evs, before, made);
      WindowStep(Run(evs + before), ev);
    }
  }

  lemma WindowStep(m: Mode, ev: Event)
    requires m.cpActive && !m.backup && KeepsCp(ev)
    ensures Stepped(m, ev).cpActive && !Stepped(m, ev).backup
  {
  }

  function Disables(evs: seq<Event>): int {
    if evs == [] then 0
    else
      Disables(evs[..|evs| - 1]) +
      if evs[|evs| - 1] == Disable then 1 else if evs[|evs| - 1] == Enable then -1 else 0
  }

  /** As long as nobody enables more often than was disabled. */
  predicate Balanced(evs: seq<Event>) {
    evs == [] || (Balanced(evs[..|evs| - 1]) && Disables(evs) >= 0)
  }

  /** Disabling nests: as long as one of several disablers has not enabled again, no merge
      runs and none can be started. */
  lemma {:induction false} DisablesNest(evs: seq<Event>, writable: bool)
    requires Balanced(evs)
    ensures Run(evs).disables == Disables(evs)
    ensures Disables(evs) > 0 ==>
              Stepped(Run(evs), MergeStart(writable)) == Run(evs) == Stepped(Run(evs), QuickMergeStart(writable))
  {
    if evs != [] {
      DisablesNest(evs[..|evs| - 1], writable);
    }
  }

  /** Dictionary operations at work, told from the events. */
  function DdOps(evs: seq<Event>): nat {
    if evs == [] then 0
    else
      var n, ev := DdOps(evs[..|evs| - 1]), evs[|evs| - 1];
      if ev == DdOpStart then n + 1 else if ev == DdOpEnd && n > 0 then n - 1 else n
  }

  /** A backup was made and has not stopped, told from the events and the checkpoints. */
  predicate BackedUp(evs: seq<Event>) {
    evs != [] &&
    var before, ev := evs[..|evs| - 1], evs[|evs| - 1];
    if ev.BackupStart? then BackedUp(before) || (ev.made && Checkpointers(before) == {})
    else BackedUp(before) && ev != BackupStop
  }

  /** The disablers that have not enabled again, told from the events. */
  function Disablers(evs: seq<Event>): nat {
    if evs == [] then 0
    else
      var n, ev := Disablers(evs[..|evs| - 1]), evs[|evs| - 1];
      if ev == Disable then n + 1 else if ev == Enable && n > 0 then n - 1 else n
  }

  /** A merge of this kind was started while the database was writable and nobody had disabled
      merges, and neither stopped nor was disabled since. */
  predicate Merging(evs: seq<Event>, quick: bool) {
    evs != [] &&
    var before, ev := evs[..|evs| - 1], evs[|evs| - 1];
    if ev == (if quick then QuickMergeStart(true) else MergeStart(true)) then
      Merging(before, quick) || Disablers(before) == 0
    else Merging(before, quick) && ev != Disable && ev != if quick then QuickMergeStop else MergeStop
  }

  /** Both merge objects are there exactly when the events say so. */
  lemma {:induction false} MergesTold(evs: seq<Event>)
    ensures Run(evs).disables == Disablers(evs)
    ensures Run(evs).merge == Merging(evs, false) && Run(evs).quickMerge == Merging(evs, true)
  {
    if evs != [] {
      MergesTold(evs[..|evs| - 1]);
    }
  }

  lemma FlagsStep(m: Mode, ev: Event)
    ensures Stepped(m, ev).ddOps ==
            if ev == DdOpStart then m.ddOps + 1 else if ev == DdOpEnd && m.ddOps > 0 then m.ddOps - 1 else m.ddOps
    ensures Stepped(m, ev).backup ==
            if ev.BackupStart? then m.backup || (ev.made && !m.cpActive) else m.backup && ev != BackupStop
  {
  }

  /** A caller may go ahead with a checkpoint if and only if no dictionary operation is at
      work, no backup has been made that has not stopped, and no other caller is at one. */
  lemma {:induction false} MayCheckpoint(evs: seq<Event>)
    requires Legal(evs)
    ensures Run(evs).ddOps == DdOps(evs) && Run(evs).backup == BackedUp(evs)
    ensures CpFlagged(Run(evs)).1 == Succ <==> DdOps(evs) == 0 && !BackedUp(evs) && Checkpointers(evs) == {}
    ensures forall made :: BackupStarted(Run(evs), made).1 == Succ <==>
                           made && !BackedUp(evs) && Checkpointers(evs) == {}
  {
    ModesSafe(evs);
    hide Checkpointers;
    if evs != [] {
      var before, ev := evs[..|evs| - 1], evs[|evs| - 1];
      ModesSafe(before);
      MayCheckpoint(before);
      FlagsStep(Run(before), ev);
      hide Stepped;
    }
  }

  /** A checkpoint during which a backup is refused, and the backup after it. */
  lemma SomeRun()
    ensures var evs := [CpFlag(2), CpPrepared(2, true), BackupStart(true), CpEnd(2), BackupStart(true)];
            && Legal(evs) && Checkpointers(evs[..3]) == {2} && Run(evs[..3]) == IDLE.(cpActive := true)
            && Run(evs) == IDLE.(backup := true)
  {
    var evs := [CpFlag(2), CpPrepared(2, true), BackupStart(true), CpEnd(2), BackupStart(true)];
    assert Run([]) == IDLE && Legal([]) && Checkpointers([]) == {} && evs[..0] == [] && evs[..5] == evs;
    hide Run, Legal, Checkpointers;
    Unrolled(evs, 0);
    Unrolled(evs, 1);
    Unrolled(evs, 2);
    assert Run(evs[..3]) == IDLE.(cpActive := true);
    Unrolled(evs, 3);
    Unrolled(evs, 4);
  }

  lemma Unrolled(evs: seq<Event>, n: nat)
    requires n < |evs|
    ensures Run(evs[..n + 1]) == Stepped(Run(evs[..n]), evs[n])
    ensures Checkpointers(evs[..n + 1]) ==
            match evs[n]
            case CpFlag(c) =>
              if CpFlagged(Run(evs[..n])).1 == Succ then Checkpointers(evs[..n]) + {c} else Checkpointers(evs[..n])
            case CpPrepared(c, ok) => if ok then Checkpointers(evs[..n]) else Checkpointers(evs[..n]) - {c}
            case CpEnd(c) => Checkpointers(evs[..n]) - {c}
            case _ => Checkpointers(evs[..n])
    ensures Legal(evs[..n + 1]) <==>
            Legal(evs[..n]) && (evs[n].CpPrepared? || evs[n].CpEnd? ==> evs[n].c in Checkpointers(evs[..n]))
  {
    assert evs[..n + 1][..n] == evs[..n];
  }

  // ------------------------------------------------------------------- object

  class Database {
    var cpActive: bool
    var backup: bool
    var ddOps: nat
    var merge: bool
    var quickMerge: bool
    var disables: nat

    ghost function State(): Mode
      reads this
    {
      Mode(cpActive, backup, ddOps, merge, quickMerge, disables)
    }

    constructor ()
      ensures State() == IDLE
    {
      cpActive, backup, ddOps, merge, quickMerge, disables := false, false, 0, false, false, 0;
    }

    /** The guards of db_createcp_start, under the semaphore. */
    method CreateCpStart(c: Caller) returns (rc: Rc)
      requires Safe(State())
      modifies this
      ensures State() == Stepped(old(State()), CpFlag(c)) && Safe(State())
      ensures rc == Succ <==> !old(backup) && old(ddOps) == 0 && !old(cpActive)
      ensures if rc == Succ then cpActive && !backup else State() == old(State())
    {
      if backup {
        return BackupActive;
      }
      if ddOps > 0 {
        return DdOpActive;
      }
      if cpActive {
        return CpActive;
      }
      cpActive := true;
      rc := Succ;
    }

    /** The rest of it: the checkpoint manager has prepared the checkpoint, or could not. */
    method CpPrepare(c: Caller, prepared: bool) returns (rc: Rc)
      requires Safe(State()) && cpActive
      modifies this`cpActive
      ensures State() == Stepped(old(State()), CpPrepared(c, prepared)) && Safe(State())
      ensures rc == Succ <==> prepared
      ensures cpActive <==> rc == Succ
    {
      if !prepared {
        cpActive := false;
        return Failed;
      }
      rc := Succ;
    }

    method BackupBegin(made: bool) returns (rc: Rc)
      requires Safe(State())
      modifies this
      ensures State() == Stepped(old(State()), BackupStart(made)) && Safe(State())
      ensures rc == Succ ==> backup && !cpActive && !old(backup)
      ensures rc == Succ <==> made && !old(cpActive) && !old(backup)
      ensures rc != Succ ==> State() == old(State())
      ensures rc == BackupActive ==> backup
    {
      if cpActive {
        return CpActive;
      }
      if backup {
        return BackupActive;
      }
      backup := made;
      rc := if backup then Succ else Failed;
    }

    /** dbe_db_setmergedisabled. */
    method SetMergeDisabled(disabled: bool)
      requires Safe(State()) && (!disabled ==> disables > 0)
      modifies this
      ensures Safe(State())
      ensures disabled ==> !merge && !quickMerge && disables > 0
      ensures State() == Stepped(old(State()), if disabled then Disable else Enable)
    {
      if disabled {
        if merge {
          StopMerge();
        }
        if quickMerge {
          StopMerge();
          StopQuickMerge();
        }
        disables := disables + 1;
      } else {
        disables := disables - 1;
      }
    }

    method StopMerge()
      modifies this`merge
      ensures !merge
    {
      if merge {
        merge := false;
      }
    }

    method StopQuickMerge()
      modifies this`quickMerge
      ensures !quickMerge
    {
      if quickMerge {
        quickMerge := false;
      }
    }

    /** db_mergestart_nomutex and db_quickmergestart_nomutex. */
    method StartMerge(quick: bool, writable: bool)
      requires Safe(State())
      modifies this
      ensures Safe(State())
      ensures quick ==> merge == old(merge) && (quickMerge <==> old(quickMerge) || (writable && disables == 0))
      ensures !quick ==> quickMerge == old(quickMerge) && (merge <==> old(merge) || (writable && disables == 0))
      ensures State() == Stepped(old(State()), if quick then QuickMergeStart(writable) else MergeStart(writable))
    {
      if !writable || disables > 0 {
        return;
      }
      if quick {
        quickMerge := true;
      } else {
        merge := true;
      }
    }
  }
}
