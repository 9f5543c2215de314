/**
 The resumable step of a main-memory checkpoint (db_createcp_mmestep in dbe/dbe0db.c): it
 takes pages from the storage, hands them to a flush batch that may refuse, and comes back
 where it left off.
 */
module MmeCheckpoint {
  import opened Options

  type Slot = nat
  type Daddr = int

  /** One answer of the storage: the address of a data page if it filled one, the address of
      the address page if that is now full, and whether this was the last answer. */
  datatype Product = Product(data: Option<Daddr>, dir: Option<Daddr>, last: bool)

  /** What a page holds: the data of a product, or the addresses of data pages. */
  datatype Content = Data(product: nat) | Dir(addrs: seq<Daddr>)

  datatype Entry = Entry(slot: Slot, daddr: Daddr, content: Content)

  datatype Phase = Init | Started | GetPage | FlushDataPage | FlushAddressPage | Completed | Done

  datatype Rc = Cont | WaitFlushBatch | WaitFlush | End

  datatype Machine = Machine(
    phase: Phase,
    page: Option<Slot>,        // data page in hand
    daddr: Option<Daddr>,      // where it goes, once it is filled
    dirPage: Option<Slot>,     // address page in hand
    dirDaddr: Option<Daddr>,
    more: bool,                // the last answer of the storage was not the end
    npages: nat,
    pageFill: nat,             // what the pages in hand hold
    dirFill: seq<Daddr>,
    pos: nat,                  // answers of the storage so far
    slots: nat,                // cache slots allocated so far
    batch: seq<Entry>,
    freed: seq<Slot>)

  /** What the flush batch answers to one step. */
  datatype Room = Room(data: bool, dir: bool, left: nat)

  const START := Machine(Started, None, None, None, None, true, 0, 0, [], 0, 0, [], [])

  // ---------------------------------------------------------------- outcomes

  function WithPage(m: Machine): Machine {
    if m.page.Some? then m else m.(page := Some(m.slots), daddr := None, slots := m.slots + 1)
  }

  function WithDirPage(m: Machine): Machine {
    if m.dirPage.Some? then m
    else m.(dirPage := Some(m.slots), dirDaddr := None, dirFill := [], slots := m.slots + 1)
  }

  /** The storage fills the pages in hand; an address it does not give stays as it was. */
  function Filled(src: seq<Product>, m: Machine): Machine
    requires m.pos < |src|
  {
    var p := src[m.pos];
    m.(pageFill := if p.data.Some? then m.pos else m.pageFill,
       daddr := if p.data.Some? then p.data else m.daddr,
       dirFill := if p.data.Some? then m.dirFill + [p.data.value] else m.dirFill,
       dirDaddr := if p.dir.Some? then p.dir else m.dirDaddr,
       more := !p.last,
       pos := m.pos + 1)
  }

  function PageTaken(src: seq<Product>, m: Machine): Machine
    requires m.pos < |src|
  {
    var start := if m.phase == Started then m.(npages := 0) else m;
    Filled(src, WithDirPage(WithPage(start)))
  }

  function DataFlushed(m: Machine): Machine {
    if m.daddr.Some? && m.page.Some? then
      m.(batch := m.batch + [Entry(m.page.value, m.daddr.value, Data(m.pageFill))],
         npages := m.npages + 1, page := None)
    else m
  }

  function DirFlushed(m: Machine): Machine {
    if m.dirDaddr.Some? && m.dirPage.Some? then
      m.(batch := m.batch + [Entry(m.dirPage.value, m.dirDaddr.value, Dir(m.dirFill))],
         npages := m.npages + 1, dirPage := None)
    else m
  }

  /** Behind the switch: go on, or give back what was not used. */
  function Wound(m: Machine): Machine {
    if m.more then m.(phase := GetPage)
    else
      var freeData := if m.page.Some? && m.daddr.None? then [m.page.value] else [];
      var freeDir := if m.dirPage.Some? && m.dirDaddr.None? then [m.dirPage.value] else [];
      m.(freed := m.freed + freeData + freeDir, page := None, dirPage := None, phase := Completed)
  }

  function FromAddress(m: Machine, room: Room): (Machine, Rc) {
    if m.dirDaddr.Some? && !room.dir then (m.(phase := FlushAddressPage), WaitFlushBatch)
    else (Wound(DirFlushed(m)), Cont)
  }

  function FromData(m: Machine, room: Room): (Machine, Rc) {
    if m.daddr.Some? && !room.data then (m.(phase := FlushDataPage), WaitFlushBatch)
    else FromAddress(DataFlushed(m), room)
  }

  /** One step. */
  function Stepped(src: seq<Product>, m: Machine, room: Room): (Machine, Rc)
    requires (m.phase == Started || m.phase == GetPage) ==> m.pos < |src|
  {
    match m.phase
    case Started => FromData(PageTaken(src, m), room)
    case GetPage => FromData(PageTaken(src, m), room)
    case FlushDataPage => FromData(m, room)
    case FlushAddressPage => FromAddress(m, room)
    case Completed => if room.left > 0 then (m, WaitFlush) else (m.(phase := Done), End)
    case Init => (m.(phase := Done), End)
    case Done => (m, End)
  }

  // ------------------------------------------------------- what should come out

  datatype Output = Output(daddr: Daddr, content: Content)

  /** A storage says it is at the end once, at the end. */
  predicate Sourced(src: seq<Product>) {
    |src| > 0 && forall i | 0 <= i < |src| :: src[i].last <==> i == |src| - 1
  }

  /** The addresses in the address page after `n` answers. */
  function Listed(src: seq<Product>, n: nat): seq<Daddr>
    requires n <= |src|
  {
    if n == 0 then []
    else
      var had := if n >= 2 && src[n - 2].dir.Some? then [] else Listed(src, n - 1);
      if src[n - 1].data.Some? then had + [src[n - 1].data.value] else had
  }

  function DataOutput(src: seq<Product>, i: nat): seq<Output>
    requires i < |src|
  {
    if src[i].data.Some? then [Output(src[i].data.value, Data(i))] else []
  }

  function DirOutput(src: seq<Product>, i: nat): seq<Output>
    requires i < |src|
  {
    if src[i].dir.Some? then [Output(src[i].dir.value, Dir(Listed(src, i + 1)))] else []
  }

  /** Every page of the first `n` answers, in the order they were produced. */
  function Produced(src: seq<Product>, n: nat): seq<Output>
    requires n <= |src|
  {
    if n == 0 then [] else Produced(src, n - 1) + DataOutput(src, n - 1) + DirOutput(src, n - 1)
  }

  function Outputs(batch: seq<Entry>): seq<Output> {
    if batch == [] then []
    else Outputs(batch[..|batch| - 1]) + [Output(batch[|batch| - 1].daddr, batch[|batch| - 1].content)]
  }

  lemma OutputsOne(batch: seq<Entry>, e: Entry)
    ensures Outputs(batch + [e]) == Outputs(batch) + [Output(e.daddr, e.content)]
  {
    assert (batch + [e])[..|batch|] == batch;
  }

  /** Data pages, in order. */
  function DataAddrs(outs: seq<Output>): seq<Daddr> {
    if outs == [] then []
    else
      var last := outs[|outs| - 1];
      DataAddrs(outs[..|outs| - 1]) + if last.content.Data? then [last.daddr] else []
  }

  /** What the address pages list, one after the other. */
  function DirAddrs(outs: seq<Output>): seq<Daddr> {
    if outs == [] then []
    else
      var last := outs[|outs| - 1];
      DirAddrs(outs[..|outs| - 1]) + if last.content.Dir? then last.content.addrs else []
  }

  lemma AddrsOne(outs: seq<Output>, o: Output)
    ensures DataAddrs(outs + [o]) == DataAddrs(outs) + if o.content.Data? then [o.daddr] else []
    ensures DirAddrs(outs + [o]) == DirAddrs(outs) + if o.content.Dir? then o.content.addrs else []
  {
    assert (outs + [o])[..|outs|] == outs;
  }

  function Unlisted(src: seq<Product>, n: nat): seq<Daddr>
    requires n <= |src|
  {
    if n > 0 && src[n - 1].dir.Some? then [] else Listed(src, n)
  }

  lemma ListedStep(src: seq<Product>, n: nat)
    requires 0 < n <= |src|
    ensures Listed(src, n) == Unlisted(src, n - 1) + if src[n - 1].data.Some? then [src[n - 1].data.value] else []
  {
  }

  /** The address pages list the data pages, but for those of the page still being filled. */
  lemma {:induction false} DirectoryFollows(src: seq<Product>, n: nat)
    requires n <= |src|
    ensures DataAddrs(Produced(src, n)) == DirAddrs(Produced(src, n)) + Unlisted(src, n)
  {
    if n > 0 {
      DirectoryFollows(src, n - 1);
      DirectoryStep(src, n);
    }
  }

  lemma DirectoryStep(src: seq<Product>, n: nat)
    requires 0 < n <= |src|
    requires DataAddrs(Produced(src, n - 1)) == DirAddrs(Produced(src, n - 1)) + Unlisted(src, n - 1)
    ensures DataAddrs(Produced(src, n)) == DirAddrs(Produced(src, n)) + Unlisted(src, n)
  {
    hide DataAddrs, DirAddrs, Listed;
    var outs, p := Produced(src, n - 1), src[n - 1];
    ListedStep(src, n);
    AddrsTwo(outs, DataOutput(src, n - 1), DirOutput(src, n - 1));
  }

  /** A data page and an address page, if there are any. */
  lemma AddrsTwo(outs: seq<Output>, data: seq<Output>, dir: seq<Output>)
    requires |data| <= 1 && |dir| <= 1
    requires (|data| == 1 ==> data[0].content.Data?) && (|dir| == 1 ==> dir[0].content.Dir?)
    ensures DataAddrs(outs + data + dir) == DataAddrs(outs) + if |data| == 1 then [data[0].daddr] else []
    ensures DirAddrs(outs + data + dir) == DirAddrs(outs) + if |dir| == 1 then dir[0].content.addrs else []
  {
    hide DataAddrs, DirAddrs;
    var mid := outs + data;
    if |data| == 1 {
      assert data == [data[0]];
      AddrsOne(outs, data[0]);
    } else {
      assert mid == outs;
    }
    if |dir| == 1 {
      assert dir == [dir[0]];
      AddrsOne(mid, dir[0]);
    } else {
      assert mid + dir == mid;
    }
  }

  // --------------------------------------------------------------- invariant

  /** Right after an answer of the storage: nothing of it is in the batch yet. */
  predicate Taken(src: seq<Product>, m: Machine) {
    && 0 < m.pos <= |src| && m.more == !src[m.pos - 1].last && m.npages == |m.batch|
    && m.page.Some? && m.daddr == src[m.pos - 1].data && (m.daddr.Some? ==> m.pageFill == m.pos - 1)
    && m.dirPage.Some? && m.dirDaddr == src[m.pos - 1].dir && m.dirFill == Listed(src, m.pos)
    && Outputs(m.batch) == Produced(src, m.pos - 1)
  }

  /** The data page of the last answer is in the batch, its address page not yet. */
  predicate HalfOut(src: seq<Product>, m: Machine) {
    && 0 < m.pos <= |src| && m.more == !src[m.pos - 1].last && m.npages == |m.batch|
    && (m.page.Some? ==> m.daddr.None?)
    && m.dirPage.Some? && m.dirDaddr == src[m.pos - 1].dir && m.dirFill == Listed(src, m.pos)
    && Outputs(m.batch) == Produced(src, m.pos - 1) + DataOutput(src, m.pos - 1)
  }

  /** Everything the storage produced so far is in the batch. */
  predicate Between(src: seq<Product>, m: Machine) {
    && 0 < m.pos <= |src| && m.more == !src[m.pos - 1].last && m.npages == |m.batch|
    && (m.page.Some? ==> m.daddr.None?)
    && (if m.dirPage.Some? then m.dirDaddr.None? && m.dirFill == Unlisted(src, m.pos) else src[m.pos - 1].dir.Some?)
    && Outputs(m.batch) == Produced(src, m.pos)
  }

  predicate Inv(src: seq<Product>, m: Machine) {
    match m.phase
    case Started => m == START
    case GetPage => Between(src, m) && m.more
    case FlushDataPage => Taken(src, m) && m.daddr.Some?
    case FlushAddressPage => HalfOut(src, m) && m.dirDaddr.Some?
    case Completed => AllOut(src, m)
    case Done => AllOut(src, m)
    case Init => false
  }

  predicate AllOut(src: seq<Product>, m: Machine) {
    && m.pos == |src| && m.npages == |m.batch| && m.page.None? && m.dirPage.None?
    && Outputs(m.batch) == Produced(src, |src|)
  }

  lemma TakesPage(src: seq<Product>, m: Machine)
    requires Sourced(src) && (m == START || (m.phase == GetPage && Between(src, m) && m.more))
    ensures m.pos < |src| && Taken(src, PageTaken(src, m))
  {
    hide Outputs, Produced;
    ListedStep(src, m.pos + 1);
    EmptyOut(src);
  }

  lemma EmptyOut(src: seq<Product>)
    ensures Outputs([]) == [] && Produced(src, 0) == [] && Listed(src, 0) == []
  {
  }

  lemma FlushesData(src: seq<Product>, m: Machine)
    requires Taken(src, m)
    ensures HalfOut(src, DataFlushed(m))
  {
    hide Outputs, Produced, Listed;
    if m.daddr.Some? {
      OutputsOne(m.batch, Entry(m.page.value, m.daddr.value, Data(m.pageFill)));
    }
  }

  lemma FlushesDir(src: seq<Product>, m: Machine)
    requires HalfOut(src, m)
    ensures Between(src, DirFlushed(m))
  {
    hide Outputs, Listed;
    if m.dirDaddr.Some? {
      OutputsOne(m.batch, Entry(m.dirPage.value, m.dirDaddr.value, Dir(m.dirFill)));
    }
  }

  lemma Winds(src: seq<Product>, m: Machine)
    requires Sourced(src) && Between(src, m)
    ensures Inv(src, Wound(m))
  {
    hide Outputs, Produced, Listed;
  }

  lemma StepKept(src: seq<Product>, m: Machine, room: Room)
    requires Sourced(src) && Inv(src, m)
    ensures (m.phase == Started || m.phase == GetPage) ==> m.pos < |src|
    ensures Inv(src, Stepped(src, m, room).0)
    ensures Stepped(src, m, room).1 == End ==>
              m.phase == Done || (m.phase == Completed && room.left == 0)
  {
    hide Outputs, Produced, Listed, PageTaken;
    if m.phase == Started || m.phase == GetPage {
      TakesPage(src, m);
      FromDataKept(src, PageTaken(src, m), room);
    } else if m.phase == FlushDataPage {
      FromDataKept(src, m, room);
    } else if m.phase == FlushAddressPage {
      FromAddressKept(src, m, room);
    }
  }

  lemma FromDataKept(src: seq<Product>, m: Machine, room: Room)
    requires Sourced(src) && Taken(src, m)
    ensures Inv(src, FromData(m, room).0)
  {
    hide Outputs, Produced, Listed;
    FlushesData(src, m);
    FromAddressKept(src, DataFlushed(m), room);
  }

  lemma FromAddressKept(src: seq<Product>, m: Machine, room: Room)
    requires Sourced(src) && HalfOut(src, m)
    ensures Inv(src, FromAddress(m, room).0)
  {
    hide Outputs, Produced, Listed;
    FlushesDir(src, m);
    Winds(src, DirFlushed(m));
  }

  // ------------------------------------------------------------- cache slots

  function InBatch(batch: seq<Entry>, s: Slot): nat {
    if batch == [] then 0 else InBatch(batch[..|batch| - 1], s) + if batch[|batch| - 1].slot == s then 1 else 0
  }

  function InFreed(freed: seq<Slot>, s: Slot): nat {
    if freed == [] then 0 else InFreed(freed[..|freed| - 1], s) + if freed[|freed| - 1] == s then 1 else 0
  }

  function Held(m: Machine, s: Slot): nat {
    (if m.page == Some(s) then 1 else 0) + (if m.dirPage == Some(s) then 1 else 0)
  }

  /** Every slot ever allocated is in hand, in the batch or freed: once, in one of them. */
  predicate SlotOk(m: Machine, s: Slot) {
    Held(m, s) + InBatch(m.batch, s) + InFreed(m.freed, s) == if s < m.slots then 1 else 0
  }

  ghost predicate SlotInv(m: Machine) {
    forall s: Slot :: SlotOk(m, s)
  }

  lemma InBatchOne(batch: seq<Entry>, e: Entry, s: Slot)
    ensures InBatch(batch + [e], s) == InBatch(batch, s) + if e.slot == s then 1 else 0
  {
    assert (batch + [e])[..|batch|] == batch;
  }

  lemma InFreedMore(freed: seq<Slot>, more: seq<Slot>, s: Slot)
    requires |more| <= 1
    ensures InFreed(freed + more, s) == InFreed(freed, s) + if more == [s] then 1 else 0
  {
    if |more| == 1 {
      assert (freed + more)[..|freed|] == freed;
    } else {
      assert freed + more == freed;
    }
  }

  lemma SlotsTaken(src: seq<Product>, m: Machine)
    requires SlotInv(m) && m.pos < |src|
    ensures SlotInv(PageTaken(src, m))
  {
    var start := if m.phase == Started then m.(npages := 0) else m;
    SlotsPage(start, m);
    var n := WithDirPage(WithPage(start));
    forall s: Slot ensures SlotOk(PageTaken(src, m), s) {
      assert SlotOk(n, s);
    }
  }

  lemma SlotsPage(start: Machine, m: Machine)
    requires SlotInv(m) && start.(npages := m.npages) == m
    ensures SlotInv(WithDirPage(WithPage(start)))
  {
    forall s: Slot ensures SlotOk(WithDirPage(WithPage(start)), s) {
      assert SlotOk(m, s) && SlotOk(m, m.slots) && SlotOk(m, m.slots + 1);
    }
  }

  lemma SlotsData(m: Machine)
    requires SlotInv(m)
    ensures SlotInv(DataFlushed(m))
  {
    forall s: Slot ensures SlotOk(DataFlushed(m), s) {
      assert SlotOk(m, s);
      if m.daddr.Some? && m.page.Some? {
        InBatchOne(m.batch, Entry(m.page.value, m.daddr.value, Data(m.pageFill)), s);
      }
    }
  }

  lemma SlotsDir(m: Machine)
    requires SlotInv(m)
    ensures SlotInv(DirFlushed(m))
  {
    forall s: Slot ensures SlotOk(DirFlushed(m), s) {
      assert SlotOk(m, s);
      if m.dirDaddr.Some? && m.dirPage.Some? {
        InBatchOne(m.batch, Entry(m.dirPage.value, m.dirDaddr.value, Dir(m.dirFill)), s);
      }
    }
  }

  lemma SlotsWound(src: seq<Product>, m: Machine)
    requires SlotInv(m) && Between(src, m)
    ensures SlotInv(Wound(m))
  {
    hide Outputs, Produced, Listed, SlotOk, Wound;
    forall s: Slot ensures SlotOk(Wound(m), s) {
      assert SlotOk(m, s);
      SlotWound(m, s);
    }
  }

  lemma SlotWound(m: Machine, s: Slot)
    requires SlotOk(m, s) && (m.page.Some? ==> m.daddr.None?) && (m.dirPage.Some? ==> m.dirDaddr.None?)
    ensures SlotOk(Wound(m), s)
  {
    hide InBatch, InFreed;
    if !m.more {
      var freeData := if m.page.Some? && m.daddr.None? then [m.page.value] else [];
      var freeDir := if m.dirPage.Some? && m.dirDaddr.None? then [m.dirPage.value] else [];
      InFreedMore(m.freed, freeData, s);
      InFreedMore(m.freed + freeData, freeDir, s);
    }
  }

  lemma SlotsPhase(m: Machine, phase: Phase)
    requires SlotInv(m)
    ensures SlotInv(m.(phase := phase))
  {
    forall s: Slot ensures SlotOk(m.(phase := phase), s) {
      assert SlotOk(m, s);
    }
  }

  lemma SlotsFromAddress(src: seq<Product>, m: Machine, room: Room)
    requires SlotInv(m) && HalfOut(src, m)
    ensures SlotInv(FromAddress(m, room).0)
  {
    hide Outputs, Produced, Listed, SlotInv, HalfOut, Between, Wound;
    FlushesDir(src, m);
    SlotsDir(m);
    SlotsWound(src, DirFlushed(m));
    SlotsPhase(m, FlushAddressPage);
  }

  lemma SlotsFromData(src: seq<Product>, m: Machine, room: Room)
    requires SlotInv(m) && Taken(src, m)
    ensures SlotInv(FromData(m, room).0)
  {
    hide Outputs, Produced, Listed, SlotInv, HalfOut, Taken, FromAddress;
    FlushesData(src, m);
    SlotsData(m);
    SlotsFromAddress(src, DataFlushed(m), room);
    SlotsPhase(m, FlushDataPage);
  }

  lemma SlotsKept(src: seq<Product>, m: Machine, room: Room)
    requires Sourced(src) && Inv(src, m) && SlotInv(m)
    ensures (m.phase == Started || m.phase == GetPage) ==> m.pos < |src|
    ensures SlotInv(Stepped(src, m, room).0)
  {
    hide Outputs, Produced, Listed, SlotInv, HalfOut, Taken, FromAddress, FromData, PageTaken;
    SlotsPhase(m, Done);
    if m.phase == Started || m.phase == GetPage {
      TakesPage(src, m);
      SlotsTaken(src, m);
      SlotsFromData(src, PageTaken(src, m), room);
    } else if m.phase == FlushDataPage {
      SlotsFromData(src, m, room);
    } else if m.phase == FlushAddressPage {
      SlotsFromAddress(src, m, room);
    }
  }

  // -------------------------------------------------------------------- runs

  predicate Steppable(src: seq<Product>, m: Machine) {
    (m.phase == Started || m.phase == GetPage) ==> m.pos < |src|
  }

  function Run(src: seq<Product>, rooms: seq<Room>): Machine {
    if rooms == [] then START
    else
      var m := Run(src, rooms[..|rooms| - 1]);
      if Steppable(src, m) then Stepped(src, m, rooms[|rooms| - 1]).0 else m
  }

  /** Every run of steps over every finite source and every pattern of refusals. */
  lemma {:induction false} RunSafe(src: seq<Product>, rooms: seq<Room>)
    requires Sourced(src)
    ensures Inv(src, Run(src, rooms)) && SlotInv(Run(src, rooms)) && Steppable(src, Run(src, rooms))
  {
    hide Outputs, Produced, Listed;
    if rooms == [] {
      forall s: Slot ensures SlotOk(START, s) {
      }
    } else {
      var m := Run(src, rooms[..|rooms| - 1]);
      hide Inv, SlotInv, Stepped;
      RunSafe(src, rooms[..|rooms| - 1]);
      StepKept(src, m, rooms[|rooms| - 1]);
      SlotsKept(src, m, rooms[|rooms| - 1]);
      CanStep(src, Stepped(src, m, rooms[|rooms| - 1]).0);
    }
  }

  lemma CanStep(src: seq<Product>, m: Machine)
    requires Sourced(src) && Inv(src, m)
    ensures Steppable(src, m)
  {
  }

  /** When a step answers END, each page the storage produced is in the batch exactly once and
      in order, the batch has nothing left to flush, every cache slot is in the batch or was
      freed, exactly once, and, if the storage closed its last address page, the address
      pages in the batch list exactly the data pages in it. */
  lemma {:induction false} EndMeansAll(src: seq<Product>, rooms: seq<Room>, room: Room)
    requires Sourced(src) && Run(src, rooms).phase != Done && Steppable(src, Run(src, rooms))
    requires Stepped(src, Run(src, rooms), room).1 == End
    ensures var m := Stepped(src, Run(src, rooms), room).0;
            && room.left == 0
            && Outputs(m.batch) == Produced(src, |src|) && m.npages == |m.batch|
            && (forall s: Slot :: InBatch(m.batch, s) + InFreed(m.freed, s) == if s < m.slots then 1 else 0)
            && (DataAddrs(Outputs(m.batch)) == DirAddrs(Outputs(m.batch)) <==> Unlisted(src, |src|) == [])
  {
    hide Outputs, Produced, Listed, DataAddrs, DirAddrs, Stepped, SlotInv;
    var v := Run(src, rooms);
    RunSafe(src, rooms);
    StepKept(src, v, room);
    SlotsKept(src, v, room);
    DirectoryFollows(src, |src|);
    var m := Stepped(src, v, room).0;
    EndPhase(src, v, room);
    forall s: Slot ensures InBatch(m.batch, s) + InFreed(m.freed, s) == if s < m.slots then 1 else 0 {
      SlotAt(m, s);
    }
  }

  lemma EndPhase(src: seq<Product>, m: Machine, room: Room)
    requires Steppable(src, m) && m.phase == Completed && room.left == 0
    ensures Stepped(src, m, room).0.phase == Done
  {
  }

  lemma SlotAt(m: Machine, s: Slot)
    requires SlotInv(m)
    ensures SlotOk(m, s)
  {
  }

  /** A page of this entry may be added to the batch. */
  predicate HasRoom(room: Room, e: Entry) {
    if e.content.Data? then room.data else room.dir
  }

  /** A page is in the batch only if the batch took it. A step that has to wait has a page in hand
      that was refused, or is done but for what the batch has left. */
  lemma OnlyWithRoom(src: seq<Product>, m: Machine, room: Room)
    requires Steppable(src, m)
    ensures var (n, rc) := Stepped(src, m, room);
            && m.batch <= n.batch
            && (forall i | |m.batch| <= i < |n.batch| :: HasRoom(room, n.batch[i]))
            && (rc == WaitFlushBatch ==>
                  || (n.phase == FlushDataPage && n.daddr.Some? && !room.data)
                  || (n.phase == FlushAddressPage && n.dirDaddr.Some? && !room.dir))
            && (rc == WaitFlush <==> m.phase == Completed && room.left > 0)
  {
    hide PageTaken;
    if m.phase == Started || m.phase == GetPage {
      TakenBatch(src, m);
    }
  }

  lemma TakenBatch(src: seq<Product>, m: Machine)
    requires m.pos < |src|
    ensures PageTaken(src, m).batch == m.batch
  {
  }

  /** What is left to do; a refusal leaves it as it was, any other step takes from it. */
  function Remaining(src: seq<Product>, m: Machine): nat {
    match m.phase
    case Done => 0
    case Init => 1
    case Completed => 1
    case FlushAddressPage => 3 + if m.pos <= |src| then 3 * (|src| - m.pos) else 0
    case FlushDataPage => 4 + if m.pos <= |src| then 3 * (|src| - m.pos) else 0
    case _ => 2 + if m.pos <= |src| then 3 * (|src| - m.pos) else 0
  }

  /** The checkpoint gets on: a step either makes progress or was refused by the batch at the
      very page it stands at, and then the same machine is offered again. */
  lemma {:induction false} StepsProgress(src: seq<Product>, m: Machine, room: Room)
    requires Sourced(src) && Inv(src, m) && m.phase != Done && Steppable(src, m)
    ensures var (n, rc) := Stepped(src, m, room);
            if n == m then rc == WaitFlushBatch || rc == WaitFlush
            else Remaining(src, n) < Remaining(src, m)
  {
    hide Outputs, Produced, Listed;
    if m.phase == Started || m.phase == GetPage {
      TakesPage(src, m);
    }
  }

  /** The steps of a run that did not answer that the caller has to wait. */
  function Moves(src: seq<Product>, rooms: seq<Room>): nat {
    if rooms == [] then 0
    else
      var m := Run(src, rooms[..|rooms| - 1]);
      Moves(src, rooms[..|rooms| - 1]) +
      if Steppable(src, m) && Stepped(src, m, rooms[|rooms| - 1]).1 in {Cont, End} then 1 else 0
  }

  /** Whenever and however often the batch refuses: a run of which 3n + 2 steps did not have
      to wait, over a source of n answers, is done, and everything is in the batch. */
  lemma {:induction false} StepsReachEnd(src: seq<Product>, rooms: seq<Room>)
    requires Sourced(src)
    ensures var m := Run(src, rooms);
            && (m.phase != Done ==> Moves(src, rooms) + Remaining(src, m) <= 3 * |src| + 2)
            && (Moves(src, rooms) >= 3 * |src| + 2 ==> m.phase == Done && AllOut(src, m))
    ensures (forall room | room in rooms :: room.data && room.dir && room.left == 0) ==> Moves(src, rooms) == |rooms|
  {
    hide Stepped, AllOut, Outputs, Produced;
    if rooms != [] {
      var before, room := rooms[..|rooms| - 1], rooms[|rooms| - 1];
      assert rooms == before + [room];
      StepsReachEnd(src, before);
      RunSafe(src, before);
      OnlyWithRoom(src, Run(src, before), room);
      var m := Run(src, before);
      if m.phase == Done {
        StaysDone(src, m, room);
      } else {
        StepsProgress(src, m, room);
      }
    }
    RunSafe(src, rooms);
  }

  lemma StaysDone(src: seq<Product>, m: Machine, room: Room)
    requires m.phase == Done
    ensures Stepped(src, m, room) == (m, End)
  {
  }

  /** A data page at 5 and an address page at 6 that lists it: two steps fill and hand them over,
      with the second data page given back, and the third is the end. */
  lemma SomeRun()
    ensures var src := [Product(Some(5), None, false), Product(None, Some(6), true)];
            var free := Room(true, true, 0);
            && Sourced(src)
            && Run(src, [free, free, free]).phase == Done
            && Run(src, [free, free, free]).batch == [Entry(0, 5, Data(0)), Entry(1, 6, Dir([5]))]
            && Run(src, [free, free, free]).freed == [2]
  {
    var src := [Product(Some(5), None, false), Product(None, Some(6), true)];
    var free := Room(true, true, 0);
    assert [free, free, free][..2] == [free, free] && [free, free][..1] == [free] && [free][..0] == [];
    var m := Stepped(src, START, free).0;
    assert Run(src, [free]) == m;
    assert m.phase == GetPage && m.batch == [Entry(0, 5, Data(0))] && m.dirFill == [5] && m.slots == 2;
    var n := Stepped(src, m, free).0;
    assert Run(src, [free, free]) == n;
    assert n.phase == Completed;
  }

  // ------------------------------------------------------------------ object

  /** The checkpoint fields of the database object, changed in place. */
  class Checkpoint {
    var phase: Phase
    var page: Option<Slot>
    var daddr: Option<Daddr>
    var dirPage: Option<Slot>
    var dirDaddr: Option<Daddr>
    var more: bool
    var npages: nat
    var pageFill: nat
    var dirFill: seq<Daddr>
    var pos: nat
    var slots: nat
    var batch: seq<Entry>
    var freed: seq<Slot>

    ghost function State(): Machine
      reads this
    {
      Machine(phase, page, daddr, dirPage, dirDaddr, more, npages, pageFill, dirFill, pos, slots, batch, freed)
    }

    constructor ()
      ensures State() == START
    {
      phase, page, daddr, dirPage, dirDaddr, more := Started, None, None, None, None, true;
      npages, pageFill, dirFill, pos, slots, batch, freed := 0, 0, [], 0, 0, [], [];
    }

    /** db_createcp_mmestep; `next` is the answer the storage gives if it is asked. */
    method Step(ghost src: seq<Product>, next: Option<Product>, room: Room) returns (rc: Rc)
      requires Steppable(src, State())
      requires phase == Started || phase == GetPage ==> next == Some(src[pos])
      modifies this
      ensures (State(), rc) == Stepped(src, old(State()), room)
      ensures old(batch) <= batch && forall i | |old(batch)| <= i < |batch| :: HasRoom(room, batch[i])
      ensures rc == End ==> phase == Done
      ensures old(phase) == Init || old(phase) == Done ==> rc == End
    {
      OnlyWithRoom(src, State(), room);
      hide Filled, WithPage, WithDirPage, Wound, FromData, FromAddress;
      match phase {
        case Started =>
          npages := 0;
          TakePage(src, next.value);
          assert State() == PageTaken(src, old(State()));
          rc := FlushData(room);
        case GetPage =>
          TakePage(src, next.value);
          assert State() == PageTaken(src, old(State()));
          rc := FlushData(room);
        case FlushDataPage =>
          rc := FlushData(room);
        case FlushAddressPage =>
          rc := FlushAddress(room);
        case Completed =>
          if room.left > 0 {
            return WaitFlush;
          }
          phase := Done;
          rc := End;
        case Init =>
          phase := Done;
          rc := End;
        case Done =>
          rc := End;
      }
    }

    method TakePage(ghost src: seq<Product>, next: Product)
      requires pos < |src| && next == src[pos]
      modifies this
      ensures old(WithDirPage(WithPage(State())).pos) < |src|
      ensures State() == Filled(src, WithDirPage(WithPage(old(State()))))
    {
      GrabPages();
      if next.data.Some? {
        pageFill, daddr, dirFill := pos, next.data, dirFill + [next.data.value];
      }
      if next.dir.Some? {
        dirDaddr := next.dir;
      }
      more := !next.last;
      pos := pos + 1;
    }

    method GrabPages()
      modifies this
      ensures State() == WithDirPage(WithPage(old(State())))
    {
      if page.None? {
        page, daddr := Some(slots), None;
        slots := slots + 1;
      }
      if dirPage.None? {
        dirPage, dirDaddr, dirFill := Some(slots), None, [];
        slots := slots + 1;
      }
    }

    /** From the data page on. */
    method FlushData(room: Room) returns (rc: Rc)
      modifies this
      ensures (State(), rc) == FromData(old(State()), room) && rc != End
    {
      hide Wound;
      if daddr.Some? {
        if !room.data {
          phase := FlushDataPage;
          return WaitFlushBatch;
        }
        if page.Some? {
          batch := batch + [Entry(page.value, daddr.value, Data(pageFill))];
          npages := npages + 1;
          page := None;
        }
      }
      rc := FlushAddress(room);
    }

    /** From the address page on. */
    method FlushAddress(room: Room) returns (rc: Rc)
      modifies this
      ensures (State(), rc) == FromAddress(old(State()), room) && rc != End
    {
      if dirDaddr.Some? {
        if !room.dir {
          phase := FlushAddressPage;
          return WaitFlushBatch;
        }
        if dirPage.Some? {
          batch := batch + [Entry(dirPage.value, dirDaddr.value, Dir(dirFill))];
          npages := npages + 1;
          dirPage := None;
        }
      }
      WindUp();
      rc := Cont;
    }

    method WindUp()
      modifies this
      ensures State() == Wound(old(State()))
    {
      if more {
        phase := GetPage;
      } else {
        if page.Some? && daddr.None? {
          freed := freed + [page.value];
        }
        if dirPage.Some? && dirDaddr.None? {
          freed := freed + [dirPage.value];
        }
        page, dirPage, phase := None, None, Completed;
      }
    }
  }
}
