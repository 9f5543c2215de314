/**
 Cardinality accounting of dbe/dbe0trut.c: row changes are collected per statement, pass
 through statement groups to the transaction and at last to the relations, each only as far
 as it is committed; every entry holds one link of its relation handle.
 */
module Cardinality {

  type RelId = int

  /** A relation handle object. */
  datatype Relh = Relh(relid: RelId, obj: nat)

  /** Change of tuple count, byte count and number of changes. */
  datatype Delta = Delta(tuples: int, bytes: int, changes: int)

  const ZERO := Delta(0, 0, 0)

  function Plus(a: Delta, b: Delta): Delta {
    Delta(a.tuples + b.tuples, a.bytes + b.bytes, a.changes + b.changes)
  }

  lemma PlusSwap(a: Delta, b: Delta, x: Delta, y: Delta)
    ensures Plus(Plus(a, x), Plus(b, y)) == Plus(Plus(a, b), Plus(x, y))
  {
  }

  lemma PlusZero(a: Delta)
    ensures Plus(a, ZERO) == a == Plus(ZERO, a)
  {
  }

  /** trx_cardin_t, and a tree of them; no tree at all is an empty one. */
  datatype Entry = Entry(relh: Relh, d: Delta)
  type Tree = seq<Entry>

  datatype Tci = Tci(
    stmt: Tree,
    groups: seq<Tree>,
    trx: Tree,
    applied: map<RelId, Delta>,   // what the relations were told
    links: map<Relh, int>,        // links taken and not given back
    lost: seq<Tree>)              // group lists dropped without a word

  const EMPTY := Tci([], [], [], map[], map[], [])

  datatype Event =
    | Insert(relh: Relh, nbytes: nat, nchanges: nat)
    | Delete(relh: Relh, nbytes: nat, nchanges: nat)
    | StmtEnd(commit: bool, group: bool)
    | TrxEnd(commit: bool, free: bool)

  // ---------------------------------------------------------------- outcomes

  function Find(t: Tree, r: RelId): (i: nat)
    ensures i <= |t| && (i < |t| ==> t[i].relh.relid == r)
    ensures forall k | 0 <= k < i :: t[k].relh.relid != r
  {
    if t == [] then 0 else if t[0].relh.relid == r then 0 else 1 + Find(t[1..], r)
  }

  /** The tree of trx_addcardin. */
  function Added(t: Tree, h: Relh, d: Delta): Tree {
    var i := Find(t, h.relid);
    if i < |t| then t[i := t[i].(d := Plus(t[i].d, d))] else t + [Entry(h, d)]
  }

  predicate Has(t: Tree, r: RelId) {
    Find(t, r) < |t|
  }

  function Links(m: map<Relh, int>, h: Relh): int {
    if h in m then m[h] else 0
  }

  function Linked(m: map<Relh, int>, h: Relh, n: int): map<Relh, int> {
    m[h := Links(m, h) + n]
  }

  function Applied(m: map<RelId, Delta>, r: RelId): Delta {
    if r in m then m[r] else ZERO
  }

  /** dbe_trx_insertbytes. */
  function Counted(s: Tci, h: Relh, nbytes: int, nchanges: nat): Tci {
    s.(stmt := Added(s.stmt, h, Delta(if nbytes < 0 then -1 else 1, nbytes, nchanges)),
       links := if Has(s.stmt, h.relid) then s.links else Linked(s.links, h, 1))
  }

  /** trx_cardintrans for one entry: pass it on, apply it or drop it. Its link goes along with
      it only where it becomes a new entry. */
  function EntryEnded(s: Tci, e: Entry, commit: bool, stmtp: bool): Tci {
    if commit && stmtp then
      s.(trx := Added(s.trx, e.relh, e.d),
         links := if Has(s.trx, e.relh.relid) then Linked(s.links, e.relh, -1) else s.links)
    else
      s.(applied := if commit then s.applied[e.relh.relid := Plus(Applied(s.applied, e.relh.relid), e.d)]
                    else s.applied,
         links := Linked(s.links, e.relh, -1))
  }

  function TreeEnded(s: Tci, t: Tree, commit: bool, stmtp: bool): Tci {
    if t == [] then s else EntryEnded(TreeEnded(s, t[..|t| - 1], commit, stmtp), t[|t| - 1], commit, stmtp)
  }

  function GroupsEnded(s: Tci, groups: seq<Tree>, commit: bool): Tci {
    if groups == [] then s
    else TreeEnded(GroupsEnded(s, groups[..|groups| - 1], commit), groups[|groups| - 1], commit, true)
  }

  /** dbe_trx_cardinstmttrans_mutexif. */
  function StmtEnded(s: Tci, commit: bool, group: bool): Tci {
    if group && commit then
      if s.stmt == [] then s else s.(groups := s.groups + [s.stmt], stmt := [])
    else
      var g := if group then s else GroupsEnded(s, s.groups, commit).(groups := []);
      TreeEnded(g, s.stmt, commit, true).(stmt := [])
  }

  /** dbe_trx_cardintrans_mutexif; freeing the object forgets the group list. */
  function TrxEnded(s: Tci, commit: bool, free: bool): Tci {
    var ended := TreeEnded(s, s.trx, commit, false).(trx := []);
    if free then TreeEnded(ended, s.stmt, false, true).(stmt := [], groups := [], lost := s.lost + s.groups)
    else ended
  }

  function Stepped(s: Tci, ev: Event): Tci {
    match ev
    case Insert(h, n, c) => Counted(s, h, n, c)
    case Delete(h, n, c) => Counted(s, h, -(n as int), c)
    case StmtEnd(commit, group) => StmtEnded(s, commit, group)
    case TrxEnd(commit, free) => TrxEnded(s, commit, free)
  }

  function Run(evs: seq<Event>): Tci {
    if evs == [] then EMPTY else Stepped(Run(evs[..|evs| - 1]), evs[|evs| - 1])
  }

  // ---------------------------------------------------------- what is promised

  /** How far a row change has come. */
  datatype Fate = InStmt | InGroup | InTrx | Told | Gone

  function Moved(f: Fate, ev: Event): Fate {
    match ev
    case StmtEnd(commit, group) =>
      if f == InStmt then (if !commit then Gone else if group then InGroup else InTrx)
      else if f == InGroup && !group then (if commit then InTrx else Gone)
      else f
    case TrxEnd(commit, free) =>
      if f == InTrx then (if commit then Told else Gone)
      else if free && (f == InStmt || f == InGroup) then Gone
      else f
    case Insert(_, _, _) => f
    case Delete(_, _, _) => f
  }

  /** The fate of the row change at event `i`: that of its statement, its group and its
      transaction, as they end later. */
  function FateOf(evs: seq<Event>, i: nat): Fate
    requires i < |evs|
  {
    if i == |evs| - 1 then InStmt else Moved(FateOf(evs[..|evs| - 1], i), evs[|evs| - 1])
  }

  /** What a row change means to a relation: one tuple more or less, and its size. */
  function Meaning(ev: Event, r: RelId): Delta {
    match ev
    case Insert(h, n, c) => if h.relid == r then Delta(1, n, c) else ZERO
    case Delete(h, n, c) => if h.relid == r then Delta(-1, -(n as int), c) else ZERO
    case StmtEnd(_, _) => ZERO
    case TrxEnd(_, _) => ZERO
  }

  /** What the code makes of it: a deleted row of size zero counts as an inserted one. */
  function Recorded(ev: Event, r: RelId): Delta {
    if ev.Delete? && ev.nbytes == 0 && ev.relh.relid == r then Delta(1, 0, ev.nchanges) else Meaning(ev, r)
  }

  /** The recorded changes of relation `r` among the first `n` events that got to `f`. */
  function Total(evs: seq<Event>, n: nat, f: Fate, r: RelId): Delta
    requires n <= |evs|
  {
    if n == 0 then ZERO
    else Plus(Total(evs, n - 1, f, r), if FateOf(evs, n - 1) == f then Recorded(evs[n - 1], r) else ZERO)
  }

  // --------------------------------------------------------------------- sums

  function Sum(t: Tree, r: RelId): Delta {
    if t == [] then ZERO
    else Plus(Sum(t[..|t| - 1], r), if t[|t| - 1].relh.relid == r then t[|t| - 1].d else ZERO)
  }

  function SumAll(ts: seq<Tree>, r: RelId): Delta {
    if ts == [] then ZERO else Plus(SumAll(ts[..|ts| - 1], r), Sum(ts[|ts| - 1], r))
  }

  function Holders(t: Tree, h: Relh): nat {
    if t == [] then 0 else Holders(t[..|t| - 1], h) + if t[|t| - 1].relh == h then 1 else 0
  }

  function HoldersAll(ts: seq<Tree>, h: Relh): nat {
    if ts == [] then 0 else HoldersAll(ts[..|ts| - 1], h) + Holders(ts[|ts| - 1], h)
  }

  lemma {:induction false} SumUpdate(t: Tree, i: nat, e: Entry, r: RelId)
    requires i < |t| && e.relh == t[i].relh
    ensures Sum(t[i := e], r) ==
            (if e.relh.relid == r
             then Plus(Sum(t, r), Delta(e.d.tuples - t[i].d.tuples, e.d.bytes - t[i].d.bytes,
                                        e.d.changes - t[i].d.changes))
             else Sum(t, r))
    ensures forall h :: Holders(t[i := e], h) == Holders(t, h)
  {
    var u := t[i := e];
    if i < |t| - 1 {
      assert u[..|t| - 1] == t[..|t| - 1][i := e];
      SumUpdate(t[..|t| - 1], i, e, r);
    } else {
      assert u[..|t| - 1] == t[..|t| - 1];
    }
  }

  lemma SumMore(t: Tree, e: Entry)
    ensures forall r :: Sum(t + [e], r) == Plus(Sum(t, r), if e.relh.relid == r then e.d else ZERO)
    ensures forall h :: Holders(t + [e], h) == Holders(t, h) + if e.relh == h then 1 else 0
  {
    assert (t + [e])[..|t|] == t;
  }

  lemma SumAllMore(ts: seq<Tree>, t: Tree)
    ensures forall r :: SumAll(ts + [t], r) == Plus(SumAll(ts, r), Sum(t, r))
    ensures forall h :: HoldersAll(ts + [t], h) == HoldersAll(ts, h) + Holders(t, h)
  {
    assert (ts + [t])[..|ts|] == ts;
  }

  lemma {:induction false} HoldersAppend(xs: seq<Tree>, ys: seq<Tree>, h: Relh)
    ensures HoldersAll(xs + ys, h) == HoldersAll(xs, h) + HoldersAll(ys, h)
  {
    if ys == [] {
      assert xs + ys == xs;
    } else {
      assert (xs + ys)[..|xs + ys| - 1] == xs + ys[..|ys| - 1];
      HoldersAppend(xs, ys[..|ys| - 1], h);
    }
  }

  lemma AddedSums(t: Tree, h: Relh, d: Delta, r: RelId)
    ensures Sum(Added(t, h, d), r) == Plus(Sum(t, r), if h.relid == r then d else ZERO)
  {
    hide Sum, Holders;
    var i := Find(t, h.relid);
    if i < |t| {
      SumUpdate(t, i, t[i].(d := Plus(t[i].d, d)), r);
    } else {
      SumMore(t, Entry(h, d));
    }
  }

  lemma AddedHolders(t: Tree, h: Relh, d: Delta, g: Relh)
    ensures Holders(Added(t, h, d), g) == Holders(t, g) + if !Has(t, h.relid) && h == g then 1 else 0
  {
    var i := Find(t, h.relid);
    if i < |t| {
      SumUpdate(t, i, t[i].(d := Plus(t[i].d, d)), 0);
    } else {
      SumMore(t, Entry(h, d));
    }
  }

  /** What ending a tree does to sums and links, entry by entry. */
  lemma {:induction false} TreeEndedSums(s: Tci, t: Tree, commit: bool, stmtp: bool, r: RelId, h: Relh)
    ensures var e := TreeEnded(s, t, commit, stmtp);
            && e.stmt == s.stmt && e.groups == s.groups && e.lost == s.lost
            && (commit && stmtp ==> e.applied == s.applied)
            && (!(commit && stmtp) ==> e.trx == s.trx)
            && Sum(e.trx, r) == (if commit && stmtp then Plus(Sum(s.trx, r), Sum(t, r)) else Sum(s.trx, r))
            && Applied(e.applied, r) ==
               (if commit && !stmtp then Plus(Applied(s.applied, r), Sum(t, r)) else Applied(s.applied, r))
            && Links(e.links, h) - Holders(e.trx, h) == Links(s.links, h) - Holders(s.trx, h) - Holders(t, h)
  {
    hide Sum, Holders, EntryEnded, TreeEnded, Links, Applied;
    if t == [] {
      NothingEnded(s, commit, stmtp, r, h);
    } else {
      var before, e := t[..|t| - 1], t[|t| - 1];
      TreeEndedSums(s, before, commit, stmtp, r, h);
      EntryEndedSums(TreeEnded(s, before, commit, stmtp), e, commit, stmtp, r, h);
      LastEntry(s, t, commit, stmtp, r, h);
    }
  }

  lemma NothingEnded(s: Tci, commit: bool, stmtp: bool, r: RelId, h: Relh)
    ensures TreeEnded(s, [], commit, stmtp) == s && GroupsEnded(s, [], commit) == s
    ensures Sum([], r) == ZERO == SumAll([], r) && Holders([], h) == 0 == HoldersAll([], h)
  {
  }

  lemma LastEntry(s: Tci, t: Tree, commit: bool, stmtp: bool, r: RelId, h: Relh)
    requires t != []
    ensures var before, e := t[..|t| - 1], t[|t| - 1];
            && Sum(t, r) == Plus(Sum(before, r), if e.relh.relid == r then e.d else ZERO)
            && Holders(t, h) == Holders(before, h) + (if e.relh == h then 1 else 0)
            && TreeEnded(s, t, commit, stmtp) == EntryEnded(TreeEnded(s, before, commit, stmtp), e, commit, stmtp)
  {
    hide EntryEnded;
  }

  lemma LastGroup(s: Tci, gs: seq<Tree>, commit: bool, r: RelId, h: Relh)
    requires gs != []
    ensures var before, t := gs[..|gs| - 1], gs[|gs| - 1];
            && SumAll(gs, r) == Plus(SumAll(before, r), Sum(t, r))
            && HoldersAll(gs, h) == HoldersAll(before, h) + Holders(t, h)
            && GroupsEnded(s, gs, commit) == TreeEnded(GroupsEnded(s, before, commit), t, commit, true)
  {
    hide TreeEnded, Sum, Holders;
  }

  lemma EntryEndedSums(s: Tci, e: Entry, commit: bool, stmtp: bool, r: RelId, h: Relh)
    ensures var n := EntryEnded(s, e, commit, stmtp);
            && n.stmt == s.stmt && n.groups == s.groups && n.lost == s.lost
            && (commit && stmtp ==> n.applied == s.applied)
            && (!(commit && stmtp) ==> n.trx == s.trx)
            && Sum(n.trx, r) ==
               (if commit && stmtp && e.relh.relid == r then Plus(Sum(s.trx, r), e.d) else Sum(s.trx, r))
            && Applied(n.applied, r) ==
               (if commit && !stmtp && e.relh.relid == r then Plus(Applied(s.applied, r), e.d)
                else Applied(s.applied, r))
            && Links(n.links, h) - Holders(n.trx, h) ==
               Links(s.links, h) - Holders(s.trx, h) - if e.relh == h then 1 else 0
  {
    hide Sum, Holders, Added, Has;
    if commit && stmtp {
      AddedSums(s.trx, e.relh, e.d, r);
      AddedHolders(s.trx, e.relh, e.d, h);
    }
  }

  lemma {:induction false} GroupsEndedSums(s: Tci, gs: seq<Tree>, commit: bool, r: RelId, h: Relh)
    ensures var e := GroupsEnded(s, gs, commit);
            && e.stmt == s.stmt && e.groups == s.groups && e.lost == s.lost
            && Applied(e.applied, r) == Applied(s.applied, r)
            && Sum(e.trx, r) == (if commit then Plus(Sum(s.trx, r), SumAll(gs, r)) else Sum(s.trx, r))
            && Links(e.links, h) - Holders(e.trx, h) == Links(s.links, h) - Holders(s.trx, h) - HoldersAll(gs, h)
  {
    hide Sum, Holders, SumAll, HoldersAll, TreeEnded, GroupsEnded, Links, Applied;
    if gs == [] {
      NothingEnded(s, commit, true, r, h);
    } else {
      LastGroup(s, gs, commit, r, h);
      GroupsEndedSums(s, gs[..|gs| - 1], commit, r, h);
      TreeEndedSums(GroupsEnded(s, gs[..|gs| - 1], commit), gs[|gs| - 1], commit, true, r, h);
    }
  }

  // ------------------------------------------------------------- fates and sums

  /** The recorded changes that got to one of several places. */
  function TotalIn(evs: seq<Event>, n: nat, fs: set<Fate>, r: RelId): Delta
    requires n <= |evs|
  {
    if n == 0 then ZERO
    else Plus(TotalIn(evs, n - 1, fs, r), if FateOf(evs, n - 1) in fs then Recorded(evs[n - 1], r) else ZERO)
  }

  const FATES := {InStmt, InGroup, InTrx, Told, Gone}

  function Sources(ev: Event, f: Fate): set<Fate> {
    set g | g in FATES && Moved(g, ev) == f
  }

  lemma FateMoves(evs: seq<Event>, ev: Event, i: nat)
    requires i < |evs|
    ensures FateOf(evs + [ev], i) == Moved(FateOf(evs, i), ev)
  {
    hide Moved;
    assert (evs + [ev])[..|evs|] == evs;
  }

  lemma {:induction false} TotalMoves(evs: seq<Event>, ev: Event, n: nat, f: Fate, r: RelId)
    requires n <= |evs|
    ensures Total(evs + [ev], n, f, r) == TotalIn(evs, n, Sources(ev, f), r)
  {
    hide Moved, Recorded, FateOf, Plus;
    if n > 0 {
      TotalMoves(evs, ev, n - 1, f, r);
      FateMoves(evs, ev, n - 1);
      AllFates(FateOf(evs, n - 1));
    }
  }

  lemma AllFates(f: Fate)
    ensures f in FATES
  {
  }

  lemma {:induction false} TotalSplit(evs: seq<Event>, n: nat, fs: set<Fate>, gs: set<Fate>, r: RelId)
    requires n <= |evs| && fs !! gs
    ensures TotalIn(evs, n, fs + gs, r) == Plus(TotalIn(evs, n, fs, r), TotalIn(evs, n, gs, r))
  {
    hide FateOf, Recorded, Plus;
    if n == 0 {
      PlusZero(ZERO);
    } else {
      TotalSplit(evs, n - 1, fs, gs, r);
      var d, f := Recorded(evs[n - 1], r), FateOf(evs, n - 1);
      PlusSwap(TotalIn(evs, n - 1, fs, r), TotalIn(evs, n - 1, gs, r),
               if f in fs then d else ZERO, if f in gs then d else ZERO);
      PlusZero(d);
      PlusZero(ZERO);
    }
  }

  lemma {:induction false} TotalOne(evs: seq<Event>, n: nat, f: Fate, r: RelId)
    requires n <= |evs|
    ensures TotalIn(evs, n, {f}, r) == Total(evs, n, f, r)
    ensures TotalIn(evs, n, {}, r) == ZERO
  {
    hide FateOf, Recorded;
    if n > 0 {
      TotalOne(evs, n - 1, f, r);
    }
  }

  lemma TotalNext(evs: seq<Event>, ev: Event, f: Fate, r: RelId)
    ensures var all := evs + [ev];
            && Total(all, |all|, f, r) ==
               Plus(TotalIn(evs, |evs|, Sources(ev, f), r), if f == InStmt then Recorded(ev, r) else ZERO)
            && (f != InStmt || ev.StmtEnd? || ev.TrxEnd? ==>
                  Total(all, |all|, f, r) == TotalIn(evs, |evs|, Sources(ev, f), r))
  {
    hide Moved, TotalIn, Plus;
    TotalMoves(evs, ev, |evs|, f, r);
    PlusZero(TotalIn(evs, |evs|, Sources(ev, f), r));
    assert FateOf(evs + [ev], |evs|) == InStmt;
  }

  /** A row change moves nothing. */
  lemma RowTotals(evs: seq<Event>, ev: Event, f: Fate, r: RelId)
    requires ev.Insert? || ev.Delete?
    ensures Total(evs + [ev], |evs| + 1, f, r) ==
            Plus(Total(evs, |evs|, f, r), if f == InStmt then Recorded(ev, r) else ZERO)
  {
    hide TotalIn, Total, Recorded, Plus;
    TotalNext(evs, ev, f, r);
    PlusZero(Total(evs, |evs|, f, r));
    TotalOne(evs, |evs|, f, r);
    AllFates(f);
    assert Sources(ev, f) == {f};
  }

  lemma StmtTotals(evs: seq<Event>, commit: bool, group: bool, r: RelId)
    ensures var ev, n := StmtEnd(commit, group), |evs|;
            var all := evs + [ev];
            var stmt, grp, trx := Total(evs, n, InStmt, r), Total(evs, n, InGroup, r), Total(evs, n, InTrx, r);
            && Total(all, n + 1, InStmt, r) == ZERO
            && Total(all, n + 1, InGroup, r) == (if !group then ZERO else if commit then Plus(grp, stmt) else grp)
            && Total(all, n + 1, InTrx, r) == (if commit && !group then Plus(Plus(trx, grp), stmt) else trx)
            && Total(all, n + 1, Told, r) == Total(evs, n, Told, r)
  {
    hide TotalIn, Total, Recorded, Moved, Sources, Plus;
    var ev, n := StmtEnd(commit, group), |evs|;
    StmtSources(commit, group);
    ToStmt(evs, ev, r);
    TotalNext(evs, ev, InGroup, r);
    TotalNext(evs, ev, InTrx, r);
    TotalNext(evs, ev, Told, r);
    TotalOne(evs, n, InStmt, r);
    TotalOne(evs, n, InGroup, r);
    TotalOne(evs, n, InTrx, r);
    TotalOne(evs, n, Told, r);
    TotalSplit(evs, n, {InGroup}, {InStmt}, r);
    TotalSplit(evs, n, {InTrx}, {InGroup}, r);
    TotalSplit(evs, n, {InTrx} + {InGroup}, {InStmt}, r);
  }

  /** The end of a statement leaves nothing in it. */
  lemma ToStmt(evs: seq<Event>, ev: Event, r: RelId)
    requires ev.StmtEnd?
    ensures Total(evs + [ev], |evs| + 1, InStmt, r) == ZERO
  {
    hide TotalIn, Total;
    TotalNext(evs, ev, InStmt, r);
    TotalOne(evs, |evs|, InStmt, r);
    assert Sources(ev, InStmt) == {};
  }

  lemma StmtSources(commit: bool, group: bool)
    ensures var ev := StmtEnd(commit, group);
            && Sources(ev, InGroup) == (if !group then {} else if commit then {InGroup} + {InStmt} else {InGroup})
            && Sources(ev, InTrx) == (if commit && !group then {InTrx} + {InGroup} + {InStmt} else {InTrx})
            && Sources(ev, Told) == {Told}
  {
  }

  lemma TrxTotals(evs: seq<Event>, commit: bool, free: bool, r: RelId)
    ensures var ev, n := TrxEnd(commit, free), |evs|;
            var all := evs + [ev];
            && Total(all, n + 1, InStmt, r) == (if free then ZERO else Total(evs, n, InStmt, r))
            && Total(all, n + 1, InGroup, r) == (if free then ZERO else Total(evs, n, InGroup, r))
            && Total(all, n + 1, InTrx, r) == ZERO
            && Total(all, n + 1, Told, r) ==
               (if commit then Plus(Total(evs, n, Told, r), Total(evs, n, InTrx, r)) else Total(evs, n, Told, r))
  {
    hide TotalIn, Total, Recorded, Moved, Sources, Plus;
    var ev, n := TrxEnd(commit, free), |evs|;
    TrxSources(commit, free);
    TotalNext(evs, ev, InStmt, r);
    TotalNext(evs, ev, InGroup, r);
    TotalNext(evs, ev, InTrx, r);
    TotalNext(evs, ev, Told, r);
    TotalOne(evs, n, InStmt, r);
    TotalOne(evs, n, InGroup, r);
    TotalOne(evs, n, InTrx, r);
    TotalOne(evs, n, Told, r);
    TotalSplit(evs, n, {Told}, {InTrx}, r);
  }

  lemma TrxSources(commit: bool, free: bool)
    ensures var ev := TrxEnd(commit, free);
            && Sources(ev, InStmt) == (if free then {} else {InStmt})
            && Sources(ev, InGroup) == (if free then {} else {InGroup})
            && Sources(ev, InTrx) == {}
            && Sources(ev, Told) == (if commit then {Told} + {InTrx} else {Told})
  {
  }

  predicate SumsOk(s: Tci, evs: seq<Event>, r: RelId) {
    && Sum(s.stmt, r) == Total(evs, |evs|, InStmt, r)
    && SumAll(s.groups, r) == Total(evs, |evs|, InGroup, r)
    && Sum(s.trx, r) == Total(evs, |evs|, InTrx, r)
    && Applied(s.applied, r) == Total(evs, |evs|, Told, r)
  }

  predicate LinksOk(s: Tci, h: Relh) {
    Links(s.links, h) == Holders(s.stmt, h) + HoldersAll(s.groups, h) + Holders(s.trx, h) + HoldersAll(s.lost, h)
  }

  /** The entry a row change makes. */
  function RowDelta(ev: Event): Delta
    requires ev.Insert? || ev.Delete?
  {
    var n := if ev.Insert? then ev.nbytes else -(ev.nbytes as int);
    Delta(if n < 0 then -1 else 1, n, ev.nchanges)
  }

  lemma RowRecorded(ev: Event, r: RelId)
    requires ev.Insert? || ev.Delete?
    ensures Recorded(ev, r) == if ev.relh.relid == r then RowDelta(ev) else ZERO
  {
  }

  lemma RowStep(s: Tci, ev: Event)
    requires ev.Insert? || ev.Delete?
    ensures Stepped(s, ev) ==
            s.(stmt := Added(s.stmt, ev.relh, RowDelta(ev)),
               links := if Has(s.stmt, ev.relh.relid) then s.links else Linked(s.links, ev.relh, 1))
  {
    hide Added, Has;
  }

  lemma CountedOk(s: Tci, evs: seq<Event>, ev: Event, r: RelId, h: Relh)
    requires SumsOk(s, evs, r) && LinksOk(s, h) && (ev.Insert? || ev.Delete?)
    ensures SumsOk(Stepped(s, ev), evs + [ev], r) && LinksOk(Stepped(s, ev), h)
  {
    hide Sum, Holders, SumAll, HoldersAll, Total, Added, Has, Plus, Recorded, RowDelta, Stepped;
    RowStep(s, ev);
    RowRecorded(ev, r);
    AddedSums(s.stmt, ev.relh, RowDelta(ev), r);
    AddedHolders(s.stmt, ev.relh, RowDelta(ev), h);
    RowTotals(evs, ev, InStmt, r);
    RowTotals(evs, ev, InGroup, r);
    RowTotals(evs, ev, InTrx, r);
    RowTotals(evs, ev, Told, r);
    PlusZero(Total(evs, |evs|, InGroup, r));
    PlusZero(Total(evs, |evs|, InTrx, r));
    PlusZero(Total(evs, |evs|, Told, r));
  }

  lemma StmtEndOk(s: Tci, evs: seq<Event>, commit: bool, group: bool, r: RelId, h: Relh)
    requires SumsOk(s, evs, r) && LinksOk(s, h)
    ensures SumsOk(StmtEnded(s, commit, group), evs + [StmtEnd(commit, group)], r)
    ensures LinksOk(StmtEnded(s, commit, group), h)
  {
    hide Sum, Holders, SumAll, HoldersAll, Total, TreeEnded, GroupsEnded, Links, Applied;
    StmtTotals(evs, commit, group, r);
    NothingEnded(s, commit, true, r, h);
    SumAllMore(s.groups, s.stmt);
    if !(group && commit) {
      if !group {
        GroupsEndedSums(s, s.groups, commit, r, h);
      }
      var g := if group then s else GroupsEnded(s, s.groups, commit).(groups := []);
      TreeEndedSums(g, s.stmt, commit, true, r, h);
    }
  }

  lemma TrxEndOk(s: Tci, evs: seq<Event>, commit: bool, free: bool, r: RelId, h: Relh)
    requires SumsOk(s, evs, r) && LinksOk(s, h)
    ensures SumsOk(TrxEnded(s, commit, free), evs + [TrxEnd(commit, free)], r)
    ensures LinksOk(TrxEnded(s, commit, free), h)
  {
    hide Sum, Holders, SumAll, HoldersAll, Total, TreeEnded, GroupsEnded, Links, Applied;
    TrxTotals(evs, commit, free, r);
    NothingEnded(s, commit, false, r, h);
    TreeEndedSums(s, s.trx, commit, false, r, h);
    var ended := TreeEnded(s, s.trx, commit, false).(trx := []);
    TreeEndedSums(ended, s.stmt, false, true, r, h);
    HoldersAppend(s.lost, s.groups, h);
  }

  /** In every run: each tree holds the recorded changes that have come just so far, the
      relations were told exactly those whose statement, group and transaction committed, and
      each handle has as many links as entries hold it. */
  lemma {:induction false} Accounts(evs: seq<Event>, r: RelId, h: Relh)
    ensures SumsOk(Run(evs), evs, r) && LinksOk(Run(evs), h)
  {
    hide Stepped, SumsOk, LinksOk;
    if evs == [] {
      EmptyOk(r, h);
    } else {
      var before, ev := evs[..|evs| - 1], evs[|evs| - 1];
      Accounts(before, r, h);
      assert evs == before + [ev];
      StepOk(Run(before), before, ev, r, h);
    }
  }

  lemma EmptyOk(r: RelId, h: Relh)
    ensures SumsOk(EMPTY, [], r) && LinksOk(EMPTY, h)
  {
  }

  lemma StepOk(s: Tci, evs: seq<Event>, ev: Event, r: RelId, h: Relh)
    requires SumsOk(s, evs, r) && LinksOk(s, h)
    ensures SumsOk(Stepped(s, ev), evs + [ev], r) && LinksOk(Stepped(s, ev), h)
  {
    hide SumsOk, LinksOk, StmtEnded, TrxEnded, Counted;
    match ev
    case Insert(_, _, _) => CountedOk(s, evs, ev, r, h);
    case Delete(_, _, _) => CountedOk(s, evs, ev, r, h);
    case StmtEnd(commit, group) => StmtEndOk(s, evs, commit, group, r, h);
    case TrxEnd(commit, free) => TrxEndOk(s, evs, commit, free, r, h);
  }

  // ---------------------------------------------------------------- theorems

  /** The changes of relation `r` that committed all the way, as they were meant. */
  function Committed(evs: seq<Event>, n: nat, r: RelId): Delta
    requires n <= |evs|
  {
    if n == 0 then ZERO
    else Plus(Committed(evs, n - 1, r), if FateOf(evs, n - 1) == Told then Meaning(evs[n - 1], r) else ZERO)
  }

  /** Committed deletes of rows of size zero. */
  function EmptyDeletes(evs: seq<Event>, n: nat, r: RelId): nat
    requires n <= |evs|
  {
    if n == 0 then 0
    else
      EmptyDeletes(evs, n - 1, r) +
      if FateOf(evs, n - 1) == Told && evs[n - 1].Delete? && evs[n - 1].nbytes == 0 && evs[n - 1].relh.relid == r
      then 1 else 0
  }

  lemma {:induction false} RecordedTruth(evs: seq<Event>, n: nat, r: RelId)
    requires n <= |evs|
    ensures Total(evs, n, Told, r) == Plus(Committed(evs, n, r), Delta(2 * EmptyDeletes(evs, n, r), 0, 0))
  {
    hide FateOf, Plus, Recorded, Meaning;
    if n == 0 {
      PlusZero(ZERO);
    } else {
      RecordedTruth(evs, n - 1, r);
      TruthStep(Committed(evs, n - 1, r), EmptyDeletes(evs, n - 1, r), evs[n - 1], r, FateOf(evs, n - 1) == Told);
    }
  }

  lemma TruthStep(c: Delta, k: nat, ev: Event, r: RelId, told: bool)
    ensures Plus(Plus(c, Delta(2 * k, 0, 0)), if told then Recorded(ev, r) else ZERO) ==
            Plus(Plus(c, if told then Meaning(ev, r) else ZERO),
                 Delta(2 * (k + if told && ev.Delete? && ev.nbytes == 0 && ev.relh.relid == r then 1 else 0), 0, 0))
  {
  }

  /** What a relation is told is the sum of the row changes whose statement, group and
      transaction all committed, if and only if none of them deletes a row of size zero; each
      of those makes the tuple count two too high. */
  lemma {:induction false} TellsTheTruth(evs: seq<Event>, r: RelId)
    ensures Applied(Run(evs).applied, r) ==
            Plus(Committed(evs, |evs|, r), Delta(2 * EmptyDeletes(evs, |evs|, r), 0, 0))
    ensures Applied(Run(evs).applied, r) == Committed(evs, |evs|, r) <==> EmptyDeletes(evs, |evs|, r) == 0
  {
    hide Total, Committed, EmptyDeletes, Run, Applied;
    Accounts(evs, r, Relh(r, 0));
    RecordedTruth(evs, |evs|, r);
  }

  /** A delete of an empty row raises the tuple count. */
  lemma EmptyDeleteCountsUp(h: Relh)
    ensures Applied(Run([Delete(h, 0, 1), StmtEnd(true, false), TrxEnd(true, false)]).applied, h.relid).tuples == 1
  {
    hide Run, Applied, Committed, EmptyDeletes;
    var evs := [Delete(h, 0, 1), StmtEnd(true, false), TrxEnd(true, false)];
    var d, e, t := Delete(h, 0, 1), StmtEnd(true, false), TrxEnd(true, false);
    assert [d] + [e] == [d, e] && [d, e] + [t] == evs;
    FateMoves([d], e, 0);
    FateMoves([d, e], t, 0);
    FateMoves([d, e], t, 1);
    assert FateOf([d], 0) == InStmt && FateOf([d, e], 1) == InStmt && FateOf(evs, 2) == InStmt;
    TellsTheTruth(evs, h.relid);
    OneDelete(evs, h);
  }

  lemma OneDelete(evs: seq<Event>, h: Relh)
    requires |evs| == 3 && evs[0] == Delete(h, 0, 1)
    requires FateOf(evs, 0) == Told && FateOf(evs, 1) == InStmt && FateOf(evs, 2) == InStmt
    ensures Committed(evs, 3, h.relid) == Delta(-1, 0, 1) && EmptyDeletes(evs, 3, h.relid) == 1
  {
    hide FateOf, Plus;
    PlusZero(Meaning(evs[0], h.relid));
    assert Committed(evs, 1, h.relid) == Meaning(evs[0], h.relid) && EmptyDeletes(evs, 1, h.relid) == 1;
    PlusZero(Committed(evs, 1, h.relid));
    assert Committed(evs, 2, h.relid) == Committed(evs, 1, h.relid) && EmptyDeletes(evs, 2, h.relid) == 1;
    PlusZero(Committed(evs, 2, h.relid));
  }

  predicate IsRow(ev: Event) {
    ev.Insert? || ev.Delete?
  }

  /** Some row change has come just so far. */
  ghost predicate Waits(evs: seq<Event>, f: Fate) {
    exists i | 0 <= i < |evs| :: IsRow(evs[i]) && FateOf(evs, i) == f
  }

  /** The object is only ever freed when no row change waits in a statement group. */
  ghost predicate FreedInTime(evs: seq<Event>) {
    forall k | 0 <= k < |evs| && evs[k].TrxEnd? && evs[k].free :: !Waits(evs[..k], InGroup)
  }

  lemma WaitsNext(evs: seq<Event>, ev: Event, f: Fate)
    ensures Waits(evs + [ev], f) <==>
            (IsRow(ev) && f == InStmt) || exists g | Waits(evs, g) :: Moved(g, ev) == f
  {
    hide Moved;
    var all := evs + [ev];
    if i :| 0 <= i < |all| && IsRow(all[i]) && FateOf(all, i) == f {
      if i < |evs| {
        FateMoves(evs, ev, i);
        assert Waits(evs, FateOf(evs, i));
      }
    }
    if IsRow(ev) && f == InStmt {
      assert IsRow(all[|evs|]) && FateOf(all, |evs|) == f;
    }
    if g :| Waits(evs, g) && Moved(g, ev) == f {
      var i :| 0 <= i < |evs| && IsRow(evs[i]) && FateOf(evs, i) == g;
      FateMoves(evs, ev, i);
      assert IsRow(all[i]) && FateOf(all, i) == f;
    }
  }

  lemma WaitsStep(evs: seq<Event>, ev: Event)
    ensures Waits(evs + [ev], InStmt) <==>
            IsRow(ev) || (Waits(evs, InStmt) && !ev.StmtEnd? && !(ev.TrxEnd? && ev.free))
    ensures Waits(evs + [ev], InGroup) <==>
            || (Waits(evs, InGroup) && !(ev.StmtEnd? && !ev.group) && !(ev.TrxEnd? && ev.free))
            || (Waits(evs, InStmt) && ev.StmtEnd? && ev.commit && ev.group)
  {
    hide Waits;
    WaitsNext(evs, ev, InStmt);
    WaitsNext(evs, ev, InGroup);
  }

  lemma FreedNext(evs: seq<Event>, ev: Event)
    ensures FreedInTime(evs + [ev]) <==>
            FreedInTime(evs) && (ev.TrxEnd? && ev.free ==> !Waits(evs, InGroup))
  {
    hide Waits;
    var all := evs + [ev];
    assert all[..|evs|] == evs;
    forall k | 0 <= k < |evs| ensures all[k] == evs[k] && all[..k] == evs[..k] {
    }
  }

  /** Trees are there exactly while a row change waits in them, and the lost ones are those
      of objects freed too early. */
  ghost predicate TreesLive(s: Tci, evs: seq<Event>) {
    && (s.stmt != [] <==> Waits(evs, InStmt))
    && (s.groups != [] <==> Waits(evs, InGroup))
    && (forall t | t in s.groups :: t != []) && (forall t | t in s.lost :: t != [])
    && (s.lost == [] <==> FreedInTime(evs))
  }

  /** What the end of a statement or transaction does to the trees, whatever is in them. */
  lemma TreesMove(s: Tci, ev: Event)
    ensures var t := Stepped(s, ev);
            match ev
            case Insert(_, _, _) => t.stmt != [] && t.groups == s.groups && t.lost == s.lost
            case Delete(_, _, _) => t.stmt != [] && t.groups == s.groups && t.lost == s.lost
            case StmtEnd(commit, group) =>
              && t.stmt == [] && t.lost == s.lost
              && t.groups == (if !group then [] else if commit && s.stmt != [] then s.groups + [s.stmt] else s.groups)
            case TrxEnd(_, free) =>
              if free then t.stmt == [] && t.groups == [] && t.lost == s.lost + s.groups
              else t.stmt == s.stmt && t.groups == s.groups && t.lost == s.lost
  {
    hide TreeEnded, GroupsEnded, Sum, Holders, SumAll, HoldersAll, Links, Applied;
    var r, h := 0, Relh(0, 0);
    match ev
    case Insert(_, _, _) =>
    case Delete(_, _, _) =>
    case StmtEnd(commit, group) =>
      var g := if group then s else GroupsEnded(s, s.groups, commit).(groups := []);
      GroupsEndedSums(s, s.groups, commit, r, h);
      TreeEndedSums(g, s.stmt, commit, true, r, h);
    case TrxEnd(commit, free) =>
      TreeEndedSums(s, s.trx, commit, false, r, h);
      TreeEndedSums(TreeEnded(s, s.trx, commit, false).(trx := []), s.stmt, false, true, r, h);
  }

  lemma TreesStep(s: Tci, evs: seq<Event>, ev: Event)
    requires TreesLive(s, evs)
    ensures TreesLive(Stepped(s, ev), evs + [ev])
  {
    hide Waits, FreedInTime, Stepped;
    WaitsStep(evs, ev);
    FreedNext(evs, ev);
    TreesMove(s, ev);
  }

  lemma {:induction false} RunTrees(evs: seq<Event>)
    ensures TreesLive(Run(evs), evs)
  {
    hide Stepped;
    if evs != [] {
      var before, ev := evs[..|evs| - 1], evs[|evs| - 1];
      RunTrees(before);
      assert evs == before + [ev];
      TreesStep(Run(before), before, ev);
    }
  }

  /** Once statement, groups and transaction are over, every link that was taken has been
      given back exactly once, if and only if the object was never freed while a row change
      waited in a statement group. */
  lemma LinksGivenBack(evs: seq<Event>)
    requires var s := Run(evs); s.stmt == [] && s.groups == [] && s.trx == []
    ensures (forall h :: Links(Run(evs).links, h) == 0) <==> FreedInTime(evs)
  {
    hide Run, FreedInTime;
    var s := Run(evs);
    RunTrees(evs);
    forall h ensures Links(s.links, h) == HoldersAll(s.lost, h) {
      Accounts(evs, h.relid, h);
    }
    if s.lost != [] {
      assert s.lost[0] in s.lost;
      var h := s.lost[0][0].relh;
      SomeHolder(s.lost, 0, h);
      assert Links(s.links, h) > 0;
    }
  }

  /** A transaction that ends inside a statement group leaves the link of its row change
      behind. */
  lemma GroupLeaks(h: Relh)
    ensures var s := Run([Insert(h, 1, 1), StmtEnd(true, true), TrxEnd(true, true)]);
            s.stmt == [] && s.groups == [] && s.trx == [] && Links(s.links, h) == 1
  {
    var i, g, t := Insert(h, 1, 1), StmtEnd(true, true), TrxEnd(true, true);
    assert [i, g, t][..2] == [i, g] && [i, g][..1] == [i] && [i][..0] == [];
    var s1 := Stepped(EMPTY, i);
    assert Run([i]) == s1;
    assert s1.stmt == [Entry(h, Delta(1, 1, 1))];
    var s2 := Stepped(s1, g);
    assert Run([i, g]) == s2;
    assert s2.stmt == [] && s2.trx == [];
    assert Run([i, g, t]) == Stepped(s2, t);
  }

  lemma {:induction false} SomeHolder(ts: seq<Tree>, i: nat, h: Relh)
    requires i < |ts| && ts[i] != [] && ts[i][0].relh == h
    ensures HoldersAll(ts, h) > 0
  {
    if i < |ts| - 1 {
      assert ts[..|ts| - 1][i] == ts[i];
      SomeHolder(ts[..|ts| - 1], i, h);
    } else {
      FirstHolder(ts[i], h);
    }
  }

  lemma {:induction false} FirstHolder(t: Tree, h: Relh)
    requires t != [] && t[0].relh == h
    ensures Holders(t, h) > 0
  {
    if |t| > 1 {
      assert t[..|t| - 1][0] == t[0];
      FirstHolder(t[..|t| - 1], h);
    }
  }

  // ------------------------------------------------------------------- object

  class CardinInfo {
    var stmt: Tree
    var groups: seq<Tree>
    var trx: Tree
    var applied: map<RelId, Delta>
    var links: map<Relh, int>
    ghost var lost: seq<Tree>

    ghost function State(): Tci
      reads this
    {
      Tci(stmt, groups, trx, applied, links, lost)
    }

    constructor ()
      ensures State() == EMPTY
    {
      stmt, groups, trx, applied, links, lost := [], [], [], map[], map[], [];
    }

    /** trx_addcardin on one of the trees. `transfer` says the caller offers its own link;
        `taken` is whether the tree kept it. */
    method AddCardin(t: Tree, h: Relh, d: Delta, transfer: bool) returns (next: Tree, taken: bool)
      modifies this`links
      ensures next == Added(t, h, d)
      ensures taken == (transfer && !Has(t, h.relid))
      ensures links == if !transfer && !Has(t, h.relid) then Linked(old(links), h, 1) else old(links)
    {
      var i := 0;
      while i < |t| && t[i].relh.relid != h.relid
        invariant 0 <= i <= |t|
        invariant forall k | 0 <= k < i :: t[k].relh.relid != h.relid
      {
        i := i + 1;
      }
      taken := false;
      if i == |t| {
        if !transfer {
          links := links[h := Links(links, h) + 1];
        } else {
          taken := true;
        }
        next := t + [Entry(h, d)];
      } else {
        next := t[i := Entry(t[i].relh, Plus(t[i].d, d))];
      }
    }

    /** trx_cardintrans. */
    method CardinTrans(t: Tree, commit: bool, stmtp: bool)
      modifies this`trx, this`applied, this`links
      ensures State() == TreeEnded(old(State()), t, commit, stmtp)
    {
      var i := 0;
      while i < |t|
        invariant 0 <= i <= |t|
        invariant State() == TreeEnded(old(State()), t[..i], commit, stmtp)
      {
        EndEntry(t[i], commit, stmtp);
        assert t[..i + 1][..i] == t[..i];
        i := i + 1;
      }
      assert t[..i] == t;
    }

    method EndEntry(e: Entry, commit: bool, stmtp: bool)
      modifies this`trx, this`applied, this`links
      ensures State() == EntryEnded(old(State()), e, commit, stmtp)
    {
      var taken := false;
      if commit {
        if stmtp {
          trx, taken := AddCardin(trx, e.relh, e.d, true);
        } else {
          applied := applied[e.relh.relid := Plus(Applied(applied, e.relh.relid), e.d)];
        }
      }
      if !taken {
        links := links[e.relh := Links(links, e.relh) - 1];
      }
    }

    /** dbe_trx_cardinstmttrans_mutexif. */
    method StmtTrans(commit: bool, group: bool)
      modifies this
      ensures State() == StmtEnded(old(State()), commit, group)
    {
      hide TreeEnded;
      if group {
        if commit && stmt != [] {
          groups := groups + [stmt];
          stmt := [];
        }
      } else if groups != [] {
        var i := 0;
        while i < |groups|
          invariant 0 <= i <= |groups| && groups == old(groups)
          invariant State() == GroupsEnded(old(State()), groups[..i], commit)
        {
          CardinTrans(groups[i], commit, true);
          GroupsStep(old(State()), groups, i, commit);
          i := i + 1;
        }
        assert groups[..i] == groups;
        groups := [];
      }
      NothingEnded(State(), commit, true, 0, Relh(0, 0));
      NothingEnded(old(State()), commit, true, 0, Relh(0, 0));
      KeepsStmt(old(State()), old(groups), commit);
      if stmt != [] {
        CardinTrans(stmt, commit, true);
        stmt := [];
      }
    }

    /** dbe_trx_cardintrans_mutexif. */
    method TrxTrans(commit: bool, free: bool)
      modifies this
      ensures State() == TrxEnded(old(State()), commit, free)
    {
      hide TreeEnded;
      NothingEnded(State(), commit, false, 0, Relh(0, 0));
      KeepsTrees(State(), trx, commit, false);
      if trx != [] {
        CardinTrans(trx, commit, false);
        trx := [];
      }
      NothingEnded(State(), false, true, 0, Relh(0, 0));
      KeepsTrees(State(), stmt, false, true);
      if free {
        if stmt != [] {
          CardinTrans(stmt, false, true);
        }
        lost := lost + groups;
        stmt, groups := [], [];
      }
    }

    method InsertBytes(h: Relh, nbytes: int, nchanges: nat)
      modifies this
      ensures State() == Counted(old(State()), h, nbytes, nchanges)
      ensures forall r | r != h.relid :: Sum(stmt, r) == Sum(old(stmt), r)
      ensures var was, now := Sum(old(stmt), h.relid), Sum(stmt, h.relid);
              && now.tuples == was.tuples + (if nbytes < 0 then -1 else 1)
              && now.bytes == was.bytes + nbytes && now.changes == was.changes + nchanges
    {
      hide Sum, Added;
      var taken;
      if nbytes < 0 {
        stmt, taken := AddCardin(stmt, h, Delta(-1, nbytes, nchanges), false);
      } else {
        stmt, taken := AddCardin(stmt, h, Delta(1, nbytes, nchanges), false);
      }
      forall r ensures RowCounted(old(stmt), stmt, h, nbytes, nchanges, r) {
        CountedSums(old(State()), h, nbytes, nchanges, r);
      }
      assert RowCounted(old(stmt), stmt, h, nbytes, nchanges, h.relid);
      forall r | r != h.relid ensures Sum(stmt, r) == Sum(old(stmt), r) {
        assert RowCounted(old(stmt), stmt, h, nbytes, nchanges, r);
      }
    }

    method DeleteBytes(h: Relh, nbytes: nat, nchanges: nat)
      modifies this
      ensures State() == Stepped(old(State()), Delete(h, nbytes, nchanges))
      ensures forall r | r != h.relid :: Sum(stmt, r) == Sum(old(stmt), r)
      ensures var was, now := Sum(old(stmt), h.relid), Sum(stmt, h.relid);
              && now.tuples == was.tuples + (if nbytes == 0 then 1 else -1)
              && now.bytes == was.bytes - nbytes && now.changes == was.changes + nchanges
    {
      InsertBytes(h, -(nbytes as int), nchanges);
    }
  }

  /** One row change, in numbers: a relation's sum moves by one tuple in the direction of the
      sign, by the bytes and by the changes; other relations stay. */
  predicate RowCounted(t: Tree, t': Tree, h: Relh, nbytes: int, nchanges: nat, r: RelId) {
    var was, now := Sum(t, r), Sum(t', r);
    if r == h.relid then
      && now.tuples == was.tuples + (if nbytes < 0 then -1 else 1)
      && now.bytes == was.bytes + nbytes && now.changes == was.changes + nchanges
    else now == was
  }

  lemma CountedSums(s: Tci, h: Relh, nbytes: int, nchanges: nat, r: RelId)
    ensures RowCounted(s.stmt, Counted(s, h, nbytes, nchanges).stmt, h, nbytes, nchanges, r)
  {
    hide Sum, Added;
    AddedSums(s.stmt, h, Delta(if nbytes < 0 then -1 else 1, nbytes, nchanges), r);
    PlusZero(Sum(s.stmt, r));
  }

  lemma GroupsStep(s: Tci, gs: seq<Tree>, i: nat, commit: bool)
    requires i < |gs|
    ensures GroupsEnded(s, gs[..i + 1], commit) == TreeEnded(GroupsEnded(s, gs[..i], commit), gs[i], commit, true)
  {
    hide TreeEnded;
    assert gs[..i + 1][..i] == gs[..i];
  }

  lemma KeepsStmt(s: Tci, gs: seq<Tree>, commit: bool)
    ensures GroupsEnded(s, gs, commit).stmt == s.stmt && GroupsEnded(s, gs, commit).groups == s.groups
  {
    GroupsEndedSums(s, gs, commit, 0, Relh(0, 0));
  }

  lemma KeepsTrees(s: Tci, t: Tree, commit: bool, stmtp: bool)
    ensures var e := TreeEnded(s, t, commit, stmtp); e.stmt == s.stmt && e.groups == s.groups && e.lost == s.lost
  {
    TreeEndedSums(s, t, commit, stmtp, 0, Relh(0, 0));
  }
}
