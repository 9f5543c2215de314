/**
 What every run of a BLOB write stream keeps, whatever fails on the way: page contents and
 directory, the order of log and cache, and the books on cache slots.
 */
module BlobWriter {
  import opened Options
  import opened BlobPage
  import opened Blob

  // -------------------------------------------------------------------- runs

  /** What a call needs of the stream; every reachable state offers it. */
  predicate Ready(p: Setup, w: World, ev: Event) {
    Sensible(p) && PageFits(p, w.s) && (ev.Release? ==> w.s.page.Some?) && Legal(p, w, ev)
  }

  function Run(p: Setup, w: World, evs: seq<Event>): World {
    if evs == [] then w
    else
      var before, ev := Run(p, w, evs[..|evs| - 1]), evs[|evs| - 1];
      if Ready(p, before, ev) then Stepped(p, before, ev) else before
  }

  predicate LegalRun(p: Setup, w: World, evs: seq<Event>) {
    evs == [] ||
    (LegalRun(p, w, evs[..|evs| - 1]) && Legal(p, Run(p, w, evs[..|evs| - 1]), evs[|evs| - 1]))
  }

  function Start(disk: map<Daddr, seq<byte>>): World {
    World(Stream(false, None, 0, 0, false), 0, disk, [], [], [], false)
  }

  // ------------------------------------------------------- the page in hand

  /** The page in hand always has room, and only an open stream has one. */
  predicate HandInv(p: Setup, w: World) {
    && PageFits(p, w.s)
    && (w.s.page.Some? ==> w.s.writepos < NetSize(p) && !w.s.done)
    && (w.s.page.None? ==> w.s.writepos == 0 && (!w.s.reached || w.s.done))
  }

  /** As HandInv, but the page may just have become full. */
  predicate HandInv'(p: Setup, w: World) {
    && PageFits(p, w.s)
    && (w.s.page.None? ==> w.s.writepos == 0)
  }

  /** After a flush there is no page in hand, whatever it reported. */
  lemma FlushedHand(p: Setup, w: World, ans: Answers)
    requires Sensible(p) && HandInv'(p, w)
    ensures var s := Flushed(p, w, ans).s;
            s.page.None? && s.writepos == 0 && s.reached == w.s.reached && s.done == w.s.done
  {
  }

  lemma HandKept(p: Setup, w: World, ev: Event)
    requires Sensible(p) && HandInv(p, w) && Legal(p, w, ev)
    ensures Ready(p, w, ev) && HandInv(p, Stepped(p, w, ev))
  {
    hide Flushed;
    match ev
    case Reach(_, _) =>
    case Release(chunk, ans) => FlushedHand(p, Filled(p, w, chunk), ans);
    case Flush(ans) => FlushedHand(p, w, ans);
    case Close(ans) => FlushedHand(p, w, ans);
    case Cancel =>
  }

  // ------------------------------------------------------------- cache slots

  function Allocs(acts: seq<Act>, slot: Slot): nat {
    if acts == [] then 0
    else Allocs(acts[..|acts| - 1], slot) + if acts[|acts| - 1] == Alloc(slot) then 1 else 0
  }

  predicate Ends(a: Act, slot: Slot) {
    (a.Free? || a.HandOver?) && a.slot == slot
  }

  function Endings(acts: seq<Act>, slot: Slot): nat {
    if acts == [] then 0
    else Endings(acts[..|acts| - 1], slot) + if Ends(acts[|acts| - 1], slot) then 1 else 0
  }

  /** Each slot is allocated once, and given back once unless it is the one in hand. */
  ghost predicate SlotInv(w: World) {
    && (w.s.page.Some? ==> w.s.page.value.slot < w.slots)
    && forall slot: Slot :: Booked(w, slot)
  }

  predicate Booked(w: World, slot: Slot) {
    && Allocs(w.acts, slot) == (if slot < w.slots then 1 else 0)
    && Endings(w.acts, slot) == if slot < w.slots && !InHand(w.s, slot) then 1 else 0
  }

  predicate InHand(s: Stream, slot: Slot) {
    s.page.Some? && s.page.value.slot == slot
  }

  lemma CountOne(acts: seq<Act>, a: Act, slot: Slot)
    ensures Allocs(acts + [a], slot) == Allocs(acts, slot) + if a == Alloc(slot) then 1 else 0
    ensures Endings(acts + [a], slot) == Endings(acts, slot) + if Ends(a, slot) then 1 else 0
  {
    assert (acts + [a])[..|acts|] == acts;
  }

  lemma SlotsFreed(w: World)
    requires SlotInv(w) && w.s.page.Some?
    ensures SlotInv(FreedPage(w))
  {
    forall slot: Slot ensures Booked(FreedPage(w), slot) {
      assert Booked(w, slot);
      CountOne(w.acts, Free(w.s.page.value.slot), slot);
    }
  }

  /** Log records do not matter to slots, nor does what is in the page. */
  lemma SlotsLogged(w: World, w': World, a: Act)
    requires SlotInv(w) && (a.LogData? || a.LogComplete?) && w'.acts == w.acts + [a] && w'.slots == w.slots
    requires w'.s.page.Some? == w.s.page.Some? && (w.s.page.Some? ==> w'.s.page.value.slot == w.s.page.value.slot)
    ensures SlotInv(w')
  {
    forall slot: Slot ensures Booked(w', slot) {
      assert Booked(w, slot);
      CountOne(w.acts, a, slot);
    }
  }

  lemma SlotsSame(w: World, w': World)
    requires SlotInv(w) && w'.acts == w.acts && w'.slots == w.slots
    requires w'.s.page.Some? == w.s.page.Some? && (w.s.page.Some? ==> w'.s.page.value.slot == w.s.page.value.slot)
    ensures SlotInv(w')
  {
    forall slot: Slot ensures Booked(w', slot) {
      assert Booked(w, slot);
    }
  }

  lemma SlotsGiven(w: World, w': World, daddr: Daddr, page: seq<byte>)
    requires SlotInv(w) && w.s.page.Some? && w'.acts == w.acts + [HandOver(w.s.page.value.slot, daddr, page)]
    requires w'.slots == w.slots && w'.s.page.None?
    ensures SlotInv(w')
  {
    forall slot: Slot ensures Booked(w', slot) {
      assert Booked(w, slot);
      CountOne(w.acts, HandOver(w.s.page.value.slot, daddr, page), slot);
    }
  }

  lemma SlotsFlushed(p: Setup, w: World, ans: Answers)
    requires Sensible(p) && HandInv'(p, w) && SlotInv(w)
    ensures SlotInv(Flushed(p, w, ans))
  {
    hide SlotInv;
    if w.s.page.Some? && w.s.writepos == 0 {
      SlotsFreed(w);
    } else if w.s.page.Some? {
      var s := w.s;
      var page := Headed(s.page.value.buf, p.cpnum, s.writepos, p.id, s.startofs);
      var put := w.(s := s.(page := Some(Page(s.page.value.slot, page))));
      SlotsSame(w, put);
      var logged := if p.logging then put.(acts := put.acts + [LogData(LogPart(page, s.writepos))]) else put;
      if p.logging && !ans.log {
        SlotsFreed(put);
        SlotsSame(FreedPage(put), Flushed(p, w, ans));
      } else {
        if p.logging {
          SlotsLogged(put, logged, LogData(LogPart(page, s.writepos)));
        }
        if ans.addr.None? {
          SlotsFreed(logged);
          SlotsSame(FreedPage(logged), Flushed(p, w, ans));
        } else {
          SlotsGiven(logged, Flushed(p, w, ans), ans.addr.value, page);
        }
      }
    }
  }

  lemma SlotsKept(p: Setup, w: World, ev: Event)
    requires Sensible(p) && HandInv(p, w) && SlotInv(w) && Ready(p, w, ev)
    ensures SlotInv(Stepped(p, w, ev))
  {
    hide SlotInv, Flushed;
    match ev
    case Reach(slotFree, junk) => SlotsReached(p, w, slotFree, junk);
    case Release(chunk, ans) =>
      SlotsSame(w, Filled(p, w, chunk));
      SlotsFlushed(p, Filled(p, w, chunk), ans);
    case Flush(ans) => SlotsFlushed(p, w, ans);
    case Close(ans) =>
      SlotsFlushed(p, w, ans);
      var f := Flushed(p, w, ans);
      var marked := f.(acts := f.acts + [LogComplete(p.id)]);
      SlotsLogged(f, marked, LogComplete(p.id));
      SlotsSame(f, f.(s := f.s.(done := true)));
      SlotsSame(marked, marked.(s := marked.s.(done := true)));
    case Cancel =>
      if w.s.page.Some? {
        SlotsFreed(w);
        SlotsSame(FreedPage(w), Cancelled(w));
      } else {
        SlotsSame(w, Cancelled(w));
      }
  }

  lemma SlotsReached(p: Setup, w: World, slotFree: bool, junk: seq<byte>)
    requires SlotInv(w)
    ensures SlotInv(Reached(p, w, slotFree, junk))
  {
    hide Booked;
    if w.s.page.Some? || !slotFree {
      SlotsSame(w, Reached(p, w, slotFree, junk));
    } else {
      forall slot: Slot ensures Booked(Reached(p, w, slotFree, junk), slot) {
        assert Booked(w, slot);
        SlotAllocated(p, w, junk, slot);
      }
    }
  }

  lemma SlotAllocated(p: Setup, w: World, junk: seq<byte>, slot: Slot)
    requires w.s.page.None? && Booked(w, slot)
    ensures Booked(Reached(p, w, true, junk), slot)
  {
    hide Allocs, Endings;
    CountOne(w.acts, Alloc(w.slots), slot);
  }

  // -------------------------------------------------------- pages and bytes

  /** The bytes a directory leads to. */
  function Content(disk: map<Daddr, seq<byte>>, dir: seq<Place>): seq<byte> {
    if dir == [] then []
    else
      var last := dir[|dir| - 1].daddr;
      Content(disk, dir[..|dir| - 1]) + if last in disk then PageData(disk[last]) else []
  }

  /** A page the reader's assertions accept at this offset. */
  predicate GoodPage(p: Setup, page: seq<byte>, start: nat) {
    && DATA_OFS < |page| == p.pagesize
    && PageType(page) == BLOBG2PAGE && PageId(page) == p.id && PageStart(page) == start
    && 0 < PageBytes(page) <= NetSize(p)
  }

  /** Pages follow each other without gap or overlap. */
  predicate Stored(p: Setup, disk: map<Daddr, seq<byte>>, dir: seq<Place>) {
    forall i | 0 <= i < |dir| :: PlaceOk(p, disk, dir, i)
  }

  predicate PlaceOk(p: Setup, disk: map<Daddr, seq<byte>>, dir: seq<Place>, i: nat)
    requires i < |dir|
  {
    && dir[i].daddr in disk
    && GoodPage(p, disk[dir[i].daddr], dir[i].start)
    && dir[i].start == |Content(disk, dir[..i])|
  }

  /** The bytes in the page in hand. */
  function Pending(s: Stream): seq<byte> {
    if s.page.Some? && |s.page.value.buf| >= DATA_OFS + s.writepos then
      s.page.value.buf[DATA_OFS..DATA_OFS + s.writepos]
    else []
  }

  /** Nothing is lost as long as no flush failed; every failed flush loses something. */
  predicate DataInv(p: Setup, w: World) {
    && Stored(p, w.disk, w.dir)
    && w.s.startofs == |Content(w.disk, w.dir)|
    && |w.taken| < DWORD
    && (if w.failed then w.s.startofs + w.s.writepos < |w.taken|
        else Content(w.disk, w.dir) + Pending(w.s) == w.taken)
  }

  lemma {:induction false} ContentFrame(disk: map<Daddr, seq<byte>>, dir: seq<Place>, d: Daddr, page: seq<byte>)
    requires d !in disk && forall x | x in dir :: x.daddr in disk
    ensures Content(disk[d := page], dir) == Content(disk, dir)
  {
    if dir != [] {
      assert dir[|dir| - 1] in dir;
      ContentFrame(disk, dir[..|dir| - 1], d, page);
    }
  }

  lemma StoredFrame(p: Setup, disk: map<Daddr, seq<byte>>, dir: seq<Place>, d: Daddr, page: seq<byte>)
    requires d !in disk && Stored(p, disk, dir)
    ensures Stored(p, disk[d := page], dir) && Content(disk[d := page], dir) == Content(disk, dir)
  {
    hide GoodPage;
    var disk' := disk[d := page];
    forall x | x in dir ensures x.daddr in disk {
      var i :| 0 <= i < |dir| && dir[i] == x;
      assert PlaceOk(p, disk, dir, i);
    }
    forall i | 0 <= i < |dir| ensures PlaceOk(p, disk', dir, i) {
      assert PlaceOk(p, disk, dir, i);
      ContentFrame(disk, dir[..i], d, page);
    }
    ContentFrame(disk, dir, d, page);
  }

  /** One more page in the directory. */
  lemma StoredMore(p: Setup, disk: map<Daddr, seq<byte>>, dir: seq<Place>, d: Daddr, page: seq<byte>)
    requires d !in disk && Stored(p, disk, dir) && GoodPage(p, page, |Content(disk, dir)|)
    ensures var dir' := dir + [Place(|Content(disk, dir)|, d)];
            && Stored(p, disk[d := page], dir')
            && Content(disk[d := page], dir') == Content(disk, dir) + PageData(page)
  {
    hide GoodPage;
    var disk' := disk[d := page];
    var dir' := dir + [Place(|Content(disk, dir)|, d)];
    StoredFrame(p, disk, dir, d, page);
    assert dir'[..|dir|] == dir;
    forall i | 0 <= i < |dir'| ensures PlaceOk(p, disk', dir', i) {
      if i < |dir| {
        assert dir'[..i] == dir[..i];
        assert PlaceOk(p, disk', dir, i);
      }
    }
  }

  /** The page as it is when it leaves the stream. */
  function FullPage(p: Setup, s: Stream): seq<byte>
    requires Sensible(p) && s.page.Some? && PageFits(p, s)
  {
    Headed(s.page.value.buf, p.cpnum, s.writepos, p.id, s.startofs)
  }

  /** What a flush of a page with data does to disk, directory and offset. */
  lemma FlushedShape(p: Setup, w: World, ans: Answers)
    requires Sensible(p) && w.s.page.Some? && PageFits(p, w.s) && w.s.writepos > 0
    ensures var r := Flushed(p, w, ans);
            && r.taken == w.taken && r.s.page.None? && r.s.writepos == 0
            && (if PageLost(p, ans) then r.failed && r.dir == w.dir && r.s.startofs == w.s.startofs
                else
                  && r.failed == w.failed
                  && r.dir == w.dir + [Place(w.s.startofs, ans.addr.value)]
                  && r.s.startofs == w.s.startofs + w.s.writepos)
            && (r.disk == w.disk || (ans.addr.Some? && r.disk == w.disk[ans.addr.value := FullPage(p, w.s)]))
            && (!PageLost(p, ans) ==> r.disk == w.disk[ans.addr.value := FullPage(p, w.s)])
  {
  }

  lemma DataFlushed(p: Setup, w: World, ans: Answers)
    requires Sensible(p) && HandInv'(p, w) && DataInv(p, w) && Fresh(w, ans)
    ensures DataInv(p, Flushed(p, w, ans))
    ensures Flushed(p, w, ans).failed <==> w.failed || FlushFails(p, w, ans)
  {
    if w.s.page.Some? && w.s.writepos > 0 {
      FullFlushed(p, w, ans);
    }
  }

  lemma FullFlushed(p: Setup, w: World, ans: Answers)
    requires Sensible(p) && w.s.page.Some? && PageFits(p, w.s) && w.s.writepos > 0 && DataInv(p, w) && Fresh(w, ans)
    ensures DataInv(p, Flushed(p, w, ans))
    ensures Flushed(p, w, ans).failed <==> w.failed || FlushFails(p, w, ans)
  {
    hide Stored, Content, GoodPage, FullPage, Flushed;
    var page := FullPage(p, w.s);
    FlushedShape(p, w, ans);
    NewPageGood(p, w);
    if ans.addr.Some? {
      StoredFrame(p, w.disk, w.dir, ans.addr.value, page);
      StoredMore(p, w.disk, w.dir, ans.addr.value, page);
    }
  }

  lemma NewPageGood(p: Setup, w: World)
    requires Sensible(p) && w.s.page.Some? && PageFits(p, w.s) && w.s.writepos > 0 && w.s.startofs < DWORD
    ensures var page := FullPage(p, w.s);
            && GoodPage(p, page, w.s.startofs) && PageBytes(page) == w.s.writepos && PageData(page) == Pending(w.s)
            && LogPart(page, w.s.writepos) == Put(p.id, 8) + Put(w.s.startofs, 8) + Pending(w.s)
  {
    HeaderRoundTrip(w.s.page.value.buf, p.cpnum, w.s.writepos, p.id, w.s.startofs);
  }

  lemma DataFilled(p: Setup, w: World, chunk: seq<byte>)
    requires Sensible(p) && w.s.page.Some? && PageFits(p, w.s) && w.s.writepos + |chunk| <= NetSize(p)
    requires DataInv(p, w) && |w.taken| + |chunk| < DWORD
    ensures DataInv(p, Filled(p, w, chunk))
  {
    var buf, at := w.s.page.value.buf, DATA_OFS + w.s.writepos;
    var filled := Spliced(buf, at, chunk);
    assert filled[DATA_OFS..at + |chunk|] == buf[DATA_OFS..at] + chunk;
  }

  lemma DataKept(p: Setup, w: World, ev: Event)
    requires Sensible(p) && HandInv(p, w) && DataInv(p, w) && Ready(p, w, ev)
    ensures ev != Cancel ==> DataInv(p, Stepped(p, w, ev))
    ensures Stored(p, Stepped(p, w, ev).disk, Stepped(p, w, ev).dir)
  {
    hide Flushed, Stored, Content;
    match ev
    case Reach(_, _) =>
    case Release(chunk, ans) =>
      DataFilled(p, w, chunk);
      DataFlushed(p, Filled(p, w, chunk), ans);
    case Flush(ans) => DataFlushed(p, w, ans);
    case Close(ans) => DataFlushed(p, w, ans);
    case Cancel =>
  }

  // ------------------------------------------------------- log before page

  /** Act `i`, if it hands a page to the cache, comes right after the log record of the
      same id, start offset and bytes. */
  predicate WalAt(p: Setup, acts: seq<Act>, i: nat)
    requires i < |acts|
  {
    acts[i].HandOver? ==>
      && |acts[i].page| == p.pagesize && 0 < PageLength(acts[i].page) <= NetSize(p)
      && (p.logging ==>
            i > 0 && acts[i - 1] == LogData(LogPart(acts[i].page, PageLength(acts[i].page))))
  }

  function PageLength(page: seq<byte>): nat {
    if |page| >= DATA_OFS then PageBytes(page) else 0
  }

  predicate WalInv(p: Setup, w: World) {
    && DATA_OFS < p.pagesize
    && forall i | 0 <= i < |w.acts| :: WalAt(p, w.acts, i)
  }

  /** A completion mark is the last thing a closed stream did. */
  predicate MarkAt(p: Setup, w: World, i: nat)
    requires i < |w.acts|
  {
    && (w.acts[i].LogComplete? ==> i == |w.acts| - 1 && w.s.done && w.acts[i].id == p.id)
    && (!p.logging ==> !w.acts[i].LogComplete? && !w.acts[i].LogData?)
  }

  predicate MarkInv(p: Setup, w: World) {
    forall i | 0 <= i < |w.acts| :: MarkAt(p, w, i)
  }

  lemma WalMore(p: Setup, acts: seq<Act>, a: Act)
    requires DATA_OFS < p.pagesize && forall i | 0 <= i < |acts| :: WalAt(p, acts, i)
    requires WalAt(p, acts + [a], |acts|)
    ensures forall i | 0 <= i < |acts + [a]| :: WalAt(p, acts + [a], i)
  {
    var more := acts + [a];
    forall i | 0 <= i < |more| ensures WalAt(p, more, i) {
      if i < |acts| {
        assert WalAt(p, acts, i);
      }
    }
  }

  /** The acts of a flush. */
  function FlushActs(p: Setup, s: Stream, ans: Answers): seq<Act>
    requires Sensible(p) && PageFits(p, s)
  {
    if s.page.None? then []
    else if s.writepos == 0 then [Free(s.page.value.slot)]
    else
      var log := if p.logging then [LogData(LogPart(FullPage(p, s), s.writepos))] else [];
      if p.logging && !ans.log then [Free(s.page.value.slot)]
      else if ans.addr.None? then log + [Free(s.page.value.slot)]
      else log + [HandOver(s.page.value.slot, ans.addr.value, FullPage(p, s))]
  }

  lemma FlushedActs(p: Setup, w: World, ans: Answers)
    requires Sensible(p) && PageFits(p, w.s)
    ensures Flushed(p, w, ans).acts == w.acts + FlushActs(p, w.s, ans)
  {
    hide Headed, LogPart;
  }

  lemma WalFlushed(p: Setup, w: World, ans: Answers)
    requires Sensible(p) && PageFits(p, w.s) && WalInv(p, w) && w.s.startofs < DWORD
    ensures WalInv(p, Flushed(p, w, ans))
  {
    hide Flushed, FullPage, LogPart;
    FlushedActs(p, w, ans);
    var acts := FlushActs(p, w.s, ans);
    if |acts| > 0 {
      if w.s.writepos > 0 {
        NewPageGood(p, w);
      }
      WalMore(p, w.acts, acts[0]);
      if |acts| == 2 {
        WalMore(p, w.acts + [acts[0]], acts[1]);
        assert w.acts + acts == w.acts + [acts[0]] + [acts[1]];
      } else {
        assert acts == [acts[0]];
      }
    } else {
      assert w.acts + acts == w.acts;
    }
  }

  lemma WalKept(p: Setup, w: World, ev: Event)
    requires Sensible(p) && WalInv(p, w) && Ready(p, w, ev) && w.s.startofs < DWORD
    ensures WalInv(p, Stepped(p, w, ev))
  {
    hide Flushed, WalAt;
    match ev
    case Reach(slotFree, junk) => WalMoreQuiet(p, w.acts, Alloc(w.slots));
    case Release(chunk, ans) => WalFlushed(p, Filled(p, w, chunk), ans);
    case Flush(ans) => WalFlushed(p, w, ans);
    case Close(ans) =>
      WalFlushed(p, w, ans);
      WalMoreQuiet(p, Flushed(p, w, ans).acts, LogComplete(p.id));
    case Cancel =>
      if w.s.page.Some? {
        WalMoreQuiet(p, w.acts, Free(w.s.page.value.slot));
      }
  }

  lemma WalMoreQuiet(p: Setup, acts: seq<Act>, a: Act)
    requires DATA_OFS < p.pagesize && !a.HandOver? && forall i | 0 <= i < |acts| :: WalAt(p, acts, i)
    ensures forall i | 0 <= i < |acts + [a]| :: WalAt(p, acts + [a], i)
  {
    WalMore(p, acts, a);
  }

  /** No event but Close writes a completion mark, and nothing follows it. */
  lemma MarkKept(p: Setup, w: World, ev: Event)
    requires Sensible(p) && MarkInv(p, w) && Ready(p, w, ev)
    ensures MarkInv(p, Stepped(p, w, ev))
  {
    hide Flushed, LogPart, FullPage;
    assert forall i | 0 <= i < |w.acts| :: MarkAt(p, w, i);
    match ev
    case Reach(_, _) =>
      forall i | 0 <= i < |Stepped(p, w, ev).acts| ensures MarkAt(p, Stepped(p, w, ev), i) {
        if i < |w.acts| { assert MarkAt(p, w, i); }
      }
    case Release(chunk, ans) =>
      MarkSame(p, w, Filled(p, w, chunk));
      MarkFlushed(p, Filled(p, w, chunk), ans);
    case Flush(ans) => MarkFlushed(p, w, ans);
    case Close(ans) =>
      MarkFlushed(p, w, ans);
      forall i | 0 <= i < |Stepped(p, w, ev).acts| ensures MarkAt(p, Stepped(p, w, ev), i) {
        if i < |Flushed(p, w, ans).acts| { assert MarkAt(p, Flushed(p, w, ans), i); }
      }
    case Cancel =>
      forall i | 0 <= i < |Stepped(p, w, ev).acts| ensures MarkAt(p, Stepped(p, w, ev), i) {
        if i < |w.acts| { assert MarkAt(p, w, i); }
      }
  }

  lemma MarkSame(p: Setup, w: World, w': World)
    requires MarkInv(p, w) && w'.acts == w.acts && w'.s.done == w.s.done
    ensures MarkInv(p, w')
  {
    forall i | 0 <= i < |w'.acts| ensures MarkAt(p, w', i) {
      assert MarkAt(p, w, i);
    }
  }

  lemma MarkFlushed(p: Setup, w: World, ans: Answers)
    requires Sensible(p) && PageFits(p, w.s) && MarkInv(p, w) && !w.s.done
    ensures MarkInv(p, Flushed(p, w, ans)) && !Flushed(p, w, ans).s.done
  {
    FlushedActs(p, w, ans);
    FlushedDone(p, w, ans);
    hide Flushed, LogPart, FullPage;
    var w' := Flushed(p, w, ans);
    forall i | 0 <= i < |w'.acts| ensures MarkAt(p, w', i) {
      if i < |w.acts| {
        assert MarkAt(p, w, i);
      }
    }
  }

  lemma FlushedDone(p: Setup, w: World, ans: Answers)
    requires Sensible(p) && PageFits(p, w.s)
    ensures Flushed(p, w, ans).s.done == w.s.done
  {
  }

  // ------------------------------------------------------------ log on its own

  /** The data the log holds about a BLOB, record after record. */
  function Logged(acts: seq<Act>): seq<byte> {
    if acts == [] then []
    else
      var last := acts[|acts| - 1];
      Logged(acts[..|acts| - 1]) + if last.LogData? && |last.rec| >= 16 then last.rec[16..] else []
  }

  /** A record names the BLOB and the offset where its data belongs. */
  predicate RecordAt(p: Setup, acts: seq<Act>, i: nat)
    requires i < |acts|
  {
    acts[i].LogData? ==>
      |acts[i].rec| > 16 && Get(acts[i].rec[..8]) == p.id && Get(acts[i].rec[8..16]) == |Logged(acts[..i])|
  }

  predicate LogInv(p: Setup, w: World) {
    p.logging && !w.failed ==>
      && Logged(w.acts) == Content(w.disk, w.dir)
      && forall i | 0 <= i < |w.acts| :: RecordAt(p, w.acts, i)
  }

  lemma LoggedOne(acts: seq<Act>, a: Act)
    ensures Logged(acts + [a]) == Logged(acts) + if a.LogData? && |a.rec| >= 16 then a.rec[16..] else []
  {
    assert (acts + [a])[..|acts|] == acts;
  }

  lemma RecordMore(p: Setup, acts: seq<Act>, a: Act)
    requires forall i | 0 <= i < |acts| :: RecordAt(p, acts, i)
    requires a.LogData? ==>
               |a.rec| > 16 && Get(a.rec[..8]) == p.id && Get(a.rec[8..16]) == |Logged(acts)|
    ensures forall i | 0 <= i < |acts + [a]| :: RecordAt(p, acts + [a], i)
  {
    hide Get;
    var more := acts + [a];
    forall i | 0 <= i < |more| ensures RecordAt(p, more, i) {
      if i < |acts| {
        assert RecordAt(p, acts, i);
        assert more[..i] == acts[..i];
      } else {
        assert more[..i] == acts;
      }
    }
  }

  lemma QuietLog(p: Setup, w: World, w': World, a: Act)
    requires LogInv(p, w) && !a.LogData? && w'.acts == w.acts + [a]
    requires w'.disk == w.disk && w'.dir == w.dir && (!w'.failed ==> !w.failed)
    ensures LogInv(p, w')
  {
    if p.logging && !w.failed {
      LoggedOne(w.acts, a);
      RecordMore(p, w.acts, a);
    }
  }

  /** The record of a page: id and offset in front of the data. */
  lemma RecordOfPage(p: Setup, w: World)
    requires Sensible(p) && w.s.page.Some? && PageFits(p, w.s) && w.s.writepos > 0 && w.s.startofs < DWORD
    ensures var rec := LogPart(FullPage(p, w.s), w.s.writepos);
            && |rec| > 16 && Get(rec[..8]) == p.id && Get(rec[8..16]) == w.s.startofs && rec[16..] == Pending(w.s)
  {
    hide FullPage, LogPart, Put, Get;
    NewPageGood(p, w);
    var rec := LogPart(FullPage(p, w.s), w.s.writepos);
    assert rec[..8] == Put(p.id, 8) && rec[8..16] == Put(w.s.startofs, 8);
    WordRoundTrip(p.id);
    WordRoundTrip(w.s.startofs);
  }

  lemma LogFlushed(p: Setup, w: World, ans: Answers)
    requires Sensible(p) && HandInv'(p, w) && DataInv(p, w) && LogInv(p, w) && Fresh(w, ans)
    ensures LogInv(p, Flushed(p, w, ans))
  {
    if w.s.page.Some? && w.s.writepos == 0 {
      QuietLog(p, w, Flushed(p, w, ans), Free(w.s.page.value.slot));
    } else if w.s.page.Some? && p.logging && !w.failed && !PageLost(p, ans) {
      PageLogged(p, w, ans);
    } else if w.s.page.Some? {
      FlushedShape(p, w, ans);
    }
  }

  lemma PageLogged(p: Setup, w: World, ans: Answers)
    requires Sensible(p) && w.s.page.Some? && PageFits(p, w.s) && w.s.writepos > 0
    requires DataInv(p, w) && LogInv(p, w) && Fresh(w, ans) && p.logging && !w.failed && !PageLost(p, ans)
    ensures LogInv(p, Flushed(p, w, ans))
  {
    hide Flushed, Content, Stored, LogPart, FullPage, Get, GoodPage;
    FlushedShape(p, w, ans);
    FlushedActs(p, w, ans);
    RecordOfPage(p, w);
    NewPageGood(p, w);
    var rec, hand := LogData(LogPart(FullPage(p, w.s), w.s.writepos)),
        HandOver(w.s.page.value.slot, ans.addr.value, FullPage(p, w.s));
    assert Flushed(p, w, ans).acts == w.acts + [rec] + [hand];
    RecordMore(p, w.acts, rec);
    RecordMore(p, w.acts + [rec], hand);
    LoggedOne(w.acts, rec);
    LoggedOne(w.acts + [rec], hand);
    StoredMore(p, w.disk, w.dir, ans.addr.value, FullPage(p, w.s));
  }

  lemma LogKept(p: Setup, w: World, ev: Event)
    requires Sensible(p) && HandInv(p, w) && DataInv(p, w) && LogInv(p, w) && Ready(p, w, ev)
    ensures LogInv(p, Stepped(p, w, ev))
  {
    hide Flushed, Content, Stored, Logged, RecordAt;
    match ev
    case Reach(slotFree, junk) =>
      if w.s.page.None? && slotFree {
        QuietLog(p, w, Stepped(p, w, ev), Alloc(w.slots));
      }
    case Release(chunk, ans) =>
      DataFilled(p, w, chunk);
      LogFlushed(p, Filled(p, w, chunk), ans);
    case Flush(ans) => LogFlushed(p, w, ans);
    case Close(ans) =>
      LogFlushed(p, w, ans);
      var f := Flushed(p, w, ans);
      QuietLog(p, f, f.(acts := f.acts + [LogComplete(p.id)]), LogComplete(p.id));
    case Cancel =>
      if w.s.page.Some? {
        QuietLog(p, w, Stepped(p, w, ev), Free(w.s.page.value.slot));
      }
  }

  // ---------------------------------------------------------------- theorems

  /** Everything that holds of an open stream. */
  ghost predicate Inv(p: Setup, w: World) {
    HandInv(p, w) && SlotInv(w) && DataInv(p, w) && WalInv(p, w) && MarkInv(p, w) && LogInv(p, w)
  }

  /** What is left of it after a cancel: the bytes in hand are gone. */
  ghost predicate Safe(p: Setup, w: World) {
    HandInv(p, w) && SlotInv(w) && Stored(p, w.disk, w.dir) && WalInv(p, w) && MarkInv(p, w) && LogInv(p, w)
  }

  lemma StepInv(p: Setup, w: World, ev: Event)
    requires Sensible(p) && Inv(p, w) && Legal(p, w, ev)
    ensures Ready(p, w, ev) && Safe(p, Stepped(p, w, ev))
    ensures ev != Cancel ==> Inv(p, Stepped(p, w, ev))
    ensures Stepped(p, w, ev).s.done <==> ev.Close? || ev.Cancel?
  {
    hide HandInv, SlotInv, WalInv, MarkInv, LogInv, Stored, Content;
    HandKept(p, w, ev);
    SlotsKept(p, w, ev);
    DataKept(p, w, ev);
    WalKept(p, w, ev);
    MarkKept(p, w, ev);
    LogKept(p, w, ev);
    DoneWhen(p, w, ev);
  }

  lemma DoneWhen(p: Setup, w: World, ev: Event)
    requires Ready(p, w, ev)
    ensures Stepped(p, w, ev).s.done <==> ev.Close? || ev.Cancel?
  {
    hide Flushed;
    match ev
    case Reach(_, _) =>
    case Release(chunk, ans) => FlushedDone(p, Filled(p, w, chunk), ans);
    case Flush(ans) => FlushedDone(p, w, ans);
    case Close(_) =>
    case Cancel =>
  }

  /** Every run of a write stream, whatever the surroundings answer. */
  lemma {:induction false} RunSafe(p: Setup, w: World, evs: seq<Event>)
    requires Sensible(p) && Inv(p, w) && !w.s.done && LegalRun(p, w, evs)
    ensures Safe(p, Run(p, w, evs))
    ensures Cancel !in evs ==> Inv(p, Run(p, w, evs))
    ensures Cancel in evs ==> Run(p, w, evs).s.done
    ensures Run(p, w, evs).s.done <==> evs != [] && (evs[|evs| - 1].Close? || evs[|evs| - 1].Cancel?)
  {
    hide Inv, Safe, Legal, Stepped, Ready;
    if evs == [] {
      InvSafe(p, w);
    } else {
      var before, ev := evs[..|evs| - 1], evs[|evs| - 1];
      RunSafe(p, w, before);
      LegalOpen(p, Run(p, w, before), ev);
      StepInv(p, Run(p, w, before), ev);
      assert evs == before + [ev];
    }
  }

  lemma InvSafe(p: Setup, w: World)
    requires Inv(p, w)
    ensures Safe(p, w)
  {
  }

  lemma LegalOpen(p: Setup, w: World, ev: Event)
    requires Legal(p, w, ev)
    ensures !w.s.done
  {
  }

  lemma StartInv(p: Setup, disk: map<Daddr, seq<byte>>)
    requires Sensible(p)
    ensures Inv(p, Start(disk))
  {
    forall slot: Slot ensures Booked(Start(disk), slot) {
    }
  }

  /** The bytes a client released, in order. */
  function Chunks(evs: seq<Event>): seq<byte> {
    if evs == [] then []
    else
      var last := evs[|evs| - 1];
      Chunks(evs[..|evs| - 1]) + if last.Release? then last.chunk else []
  }

  /** The call that lost a page said so. */
  predicate Loses(p: Setup, w: World, ev: Event)
    requires Ready(p, w, ev)
  {
    match ev
    case Release(chunk, ans) =>
      chunk != [] && w.s.writepos + |chunk| >= NetSize(p) && FlushFails(p, Filled(p, w, chunk), ans)
    case Flush(ans) => FlushFails(p, w, ans)
    case Close(ans) => FlushFails(p, w, ans)
    case _ => false
  }

  predicate SomeLoss(p: Setup, w: World, evs: seq<Event>) {
    evs != [] &&
    (SomeLoss(p, w, evs[..|evs| - 1]) ||
     (Ready(p, Run(p, w, evs[..|evs| - 1]), evs[|evs| - 1]) && Loses(p, Run(p, w, evs[..|evs| - 1]), evs[|evs| - 1])))
  }

  lemma FlushedBooks(p: Setup, w: World, ans: Answers)
    requires Sensible(p) && PageFits(p, w.s)
    ensures Flushed(p, w, ans).taken == w.taken
    ensures Flushed(p, w, ans).failed <==> w.failed || FlushFails(p, w, ans)
  {
  }

  lemma StepBooks(p: Setup, w: World, ev: Event)
    requires Ready(p, w, ev)
    ensures Stepped(p, w, ev).taken == w.taken + if ev.Release? then ev.chunk else []
    ensures Stepped(p, w, ev).failed <==> w.failed || Loses(p, w, ev)
  {
    hide Flushed, FlushFails;
    match ev
    case Reach(_, _) =>
    case Release(chunk, ans) => FlushedBooks(p, Filled(p, w, chunk), ans);
    case Flush(ans) => FlushedBooks(p, w, ans);
    case Close(ans) => FlushedBooks(p, w, ans);
    case Cancel =>
  }

  lemma {:induction false} RunBooks(p: Setup, w: World, evs: seq<Event>)
    requires Sensible(p) && Inv(p, w) && !w.s.done && LegalRun(p, w, evs)
    ensures Run(p, w, evs).taken == w.taken + Chunks(evs)
    ensures Run(p, w, evs).failed <==> w.failed || SomeLoss(p, w, evs)
  {
    hide Inv, Safe, Legal, Stepped, Ready, Loses;
    if evs != [] {
      var before, ev := evs[..|evs| - 1], evs[|evs| - 1];
      RunBooks(p, w, before);
      RunSafe(p, w, before);
      LegalOpen(p, Run(p, w, before), ev);
      StepInv(p, Run(p, w, before), ev);
      StepBooks(p, Run(p, w, before), ev);
    }
  }

  /** All slots are back where they came from. */
  ghost predicate SlotsSettled(w: World) {
    forall slot: Slot :: Allocs(w.acts, slot) == Endings(w.acts, slot) <= 1
  }

  /** Close or cancel, in any run: every cache slot the stream allocated was freed or handed
      to the cache exactly once, and every page handed over was logged right before. */
  lemma {:induction false} SlotsSafe(p: Setup, disk: map<Daddr, seq<byte>>, evs: seq<Event>)
    requires Sensible(p) && LegalRun(p, Start(disk), evs) && Run(p, Start(disk), evs).s.done
    ensures SlotsSettled(Run(p, Start(disk), evs))
    ensures WalInv(p, Run(p, Start(disk), evs)) && MarkInv(p, Run(p, Start(disk), evs))
  {
    StartInv(p, disk);
    RunSafe(p, Start(disk), evs);
    var w := Run(p, Start(disk), evs);
    forall slot: Slot ensures Allocs(w.acts, slot) == Endings(w.acts, slot) <= 1 {
      assert Booked(w, slot);
    }
  }

  /** A closed stream: the directory leads to exactly the bytes the client released if and
      only if no call reported a lost page. Then, if the log took the completion mark too,
      that mark is the last act and the log alone holds the same bytes. */
  lemma {:induction false} ClosedContent(p: Setup, disk: map<Daddr, seq<byte>>, evs: seq<Event>, ans: Answers)
    requires Sensible(p) && LegalRun(p, Start(disk), evs + [Close(ans)])
    ensures var w := Run(p, Start(disk), evs + [Close(ans)]);
            && Stored(p, w.disk, w.dir)
            && (Content(w.disk, w.dir) == Chunks(evs) <==> !SomeLoss(p, Start(disk), evs + [Close(ans)]))
            && (p.logging && !SomeLoss(p, Start(disk), evs + [Close(ans)]) ==> Logged(w.acts) == Chunks(evs))
            && (LogComplete(p.id) in w.acts <==>
                  && p.logging && ans.complete
                  && var s := Run(p, Start(disk), evs).s;
                     s.page.None? || s.writepos == 0 || (ans.log && ans.addr.Some? && ans.placed))
  {
    var all := evs + [Close(ans)];
    assert all[..|all| - 1] == evs && all[|all| - 1] == Close(ans);
    hide Inv, Safe, Legal, Stepped, Ready, Content, Stored, Logged;
    var v, w := Run(p, Start(disk), evs), Run(p, Start(disk), all);
    StartInv(p, disk);
    RunSafe(p, Start(disk), evs);
    LegalOpen(p, v, Close(ans));
    StepInv(p, v, Close(ans));
    RunBooks(p, Start(disk), all);
    ClosedParts(p, v, ans);
  }

  lemma ClosedParts(p: Setup, v: World, ans: Answers)
    requires Sensible(p) && Inv(p, v) && Ready(p, v, Close(ans)) && Inv(p, Stepped(p, v, Close(ans)))
    ensures var w := Stepped(p, v, Close(ans));
            && Stored(p, w.disk, w.dir) && (Content(w.disk, w.dir) == w.taken <==> !w.failed)
            && (p.logging && !w.failed ==> Logged(w.acts) == w.taken)
            && (LogComplete(p.id) in w.acts <==> !CloseFails(p, v, ans) && p.logging)
  {
    hide Stored, Content, Logged, SlotInv, WalInv, Flushed;
    var w := Stepped(p, v, Close(ans));
    FlushedHand(p, v, ans);
    assert w.s.page.None? && w.s.writepos == 0;
    assert Pending(w.s) == [];
    FlushedActs(p, v, ans);
    forall i | 0 <= i < |v.acts| ensures v.acts[i] != LogComplete(p.id) {
      assert MarkAt(p, v, i);
    }
    assert LogComplete(p.id) !in Flushed(p, v, ans).acts;
  }

  /** A client that goes on after an error gets a BLOB that is marked complete and is not: the
      only page is lost when the log refuses it, and the close that follows succeeds. */
  lemma LostYetComplete(junk: seq<byte>)
    requires |junk| == 26
    ensures var p := Setup(1, 1, 26, true);
            var evs := [Event.Reach(true, junk), Event.Release([7], Answers(false, None, false, false))];
            var ans := Answers(true, None, false, true);
            && LegalRun(p, Start(map[]), evs + [Close(ans)])
            && !CloseFails(p, Run(p, Start(map[]), evs), ans)
            && var w := Run(p, Start(map[]), evs + [Close(ans)]);
               LogComplete(1) in w.acts && Content(w.disk, w.dir) != Chunks(evs)
  {
    var p := Setup(1, 1, 26, true);
    var x, y := Event.Reach(true, junk), Event.Release([7], Answers(false, None, false, false));
    var ans := Answers(true, None, false, true);
    var w0 := Start(map[]);
    RunMore(p, w0, [], x);
    RunMore(p, w0, [x], y);
    RunMore(p, w0, [x, y], Close(ans));
    assert [] + [x] == [x] && [x] + [y] == [x, y];
    assert Run(p, w0, [x]).s.page == Some(Page(0, junk));
    assert Run(p, w0, [x, y]).s.page == None;
    ClosedContent(p, map[], [x, y], ans);
  }

  lemma RunMore(p: Setup, w: World, evs: seq<Event>, ev: Event)
    ensures Run(p, w, evs + [ev]) ==
            if Ready(p, Run(p, w, evs), ev) then Stepped(p, Run(p, w, evs), ev) else Run(p, w, evs)
    ensures LegalRun(p, w, evs + [ev]) <==> LegalRun(p, w, evs) && Legal(p, Run(p, w, evs), ev)
    ensures SomeLoss(p, w, evs + [ev]) <==>
            SomeLoss(p, w, evs) || (Ready(p, Run(p, w, evs), ev) && Loses(p, Run(p, w, evs), ev))
  {
    hide Legal, Ready, Stepped, Loses;
    assert (evs + [ev])[..|evs + [ev]| - 1] == evs;
  }
}
