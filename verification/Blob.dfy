/**
 BLOB write and read streams of dbe/dbe0blobg2.c as state machines over what the cache, the
 log, the page allocator and the page directory see, with every answer those may give.
 */
module Blob {
  import opened Options
  import opened BlobPage

  type Slot = nat
  type Daddr = int

  /** A cache page in hand: its slot and its bytes. */
  datatype Page = Page(slot: Slot, buf: seq<byte>)

  /** dbe_wblobg2_t. `done` says the object has been freed. */
  datatype Stream = Stream(
    reached: bool,
    page: Option<Page>,
    writepos: nat,
    startofs: nat,
    done: bool)

  /** What never changes about a stream. */
  datatype Setup = Setup(id: nat, cpnum: nat, pagesize: nat, logging: bool)

  predicate Sensible(p: Setup) {
    DATA_OFS < p.pagesize < WORD && p.id < DWORD
  }

  function NetSize(p: Setup): int {
    p.pagesize - DATA_OFS
  }

  /** What a stream does to its surroundings, in order. */
  datatype Act =
    | Alloc(slot: Slot)
    | Free(slot: Slot)
    | HandOver(slot: Slot, daddr: Daddr, page: seq<byte>)
    | LogData(rec: seq<byte>)
    | LogComplete(id: nat)

  /** A page of the directory: where it starts in the BLOB and where it is on disk. */
  datatype Place = Place(start: nat, daddr: Daddr)

  datatype World = World(
    s: Stream,
    slots: nat,                   // cache slots allocated so far
    disk: map<Daddr, seq<byte>>,
    dir: seq<Place>,
    acts: seq<Act>,
    taken: seq<byte>,             // every byte the stream accepted from its client
    failed: bool)                 // some flush reported an error

  /** The answers of the surroundings to one flush. */
  datatype Answers = Answers(log: bool, addr: Option<Daddr>, placed: bool, complete: bool)

  datatype Event =
    | Reach(slotFree: bool, junk: seq<byte>)
    | Release(chunk: seq<byte>, ans: Answers)
    | Flush(ans: Answers)
    | Close(ans: Answers)
    | Cancel

  // ---------------------------------------------------------------- outcomes

  function Dropped(s: Stream): Stream {
    s.(page := None, writepos := 0)
  }

  /** Giving the page back unused. */
  function FreedPage(w: World): World
    requires w.s.page.Some?
  {
    w.(s := Dropped(w.s), acts := w.acts + [Free(w.s.page.value.slot)])
  }

  /** The part of a page that goes to the log: id, start offset and the data in use. */
  function LogPart(page: seq<byte>, writepos: nat): seq<byte>
    requires |page| >= DATA_OFS + writepos
  {
    page[ID_OFS..DATA_OFS + writepos]
  }

  predicate PageFits(p: Setup, s: Stream) {
    s.page.Some? ==> |s.page.value.buf| == p.pagesize && s.writepos <= NetSize(p)
  }

  /** wblobg2_flush of a page that holds data. */
  function PageFlushed(p: Setup, w: World, ans: Answers): World
    requires Sensible(p) && w.s.page.Some? && PageFits(p, w.s)
  {
    var s := w.s;
    var page := Headed(s.page.value.buf, p.cpnum, s.writepos, p.id, s.startofs);
    var put := w.(s := s.(page := Some(Page(s.page.value.slot, page))));
    if p.logging && !ans.log then FreedPage(put).(failed := true)
    else
      var logged := if p.logging then put.(acts := put.acts + [LogData(LogPart(page, s.writepos))]) else put;
      if ans.addr.None? then FreedPage(logged).(failed := true)
      else
        var given := logged.(acts := logged.acts + [HandOver(s.page.value.slot, ans.addr.value, page)],
                             disk := logged.disk[ans.addr.value := page],
                             s := Dropped(logged.s));
        if !ans.placed then given.(failed := true)
        else given.(dir := given.dir + [Place(s.startofs, ans.addr.value)],
                    s := given.s.(startofs := s.startofs + s.writepos))
  }

  predicate PageLost(p: Setup, ans: Answers) {
    (p.logging && !ans.log) || ans.addr.None? || !ans.placed
  }

  /** wblobg2_flush without the completion mark. */
  function Flushed(p: Setup, w: World, ans: Answers): World
    requires Sensible(p) && PageFits(p, w.s)
  {
    if w.s.page.None? then w
    else if w.s.writepos == 0 then FreedPage(w)
    else PageFlushed(p, w, ans)
  }

  /** A flush reports an error. */
  predicate FlushFails(p: Setup, w: World, ans: Answers) {
    w.s.page.Some? && w.s.writepos > 0 && PageLost(p, ans)
  }

  function Closed(p: Setup, w: World, ans: Answers): World
    requires Sensible(p) && PageFits(p, w.s)
  {
    var flushed := Flushed(p, w, ans);
    var marked :=
      if FlushFails(p, w, ans) || !p.logging || !ans.complete then flushed
      else flushed.(acts := flushed.acts + [LogComplete(p.id)]);
    marked.(s := marked.s.(done := true))
  }

  predicate CloseFails(p: Setup, w: World, ans: Answers) {
    FlushFails(p, w, ans) || (p.logging && !ans.complete)
  }

  /** dbe_wblobg2_reach; `junk` is what the new page happens to hold. */
  function Reached(p: Setup, w: World, slotFree: bool, junk: seq<byte>): World {
    if w.s.page.Some? then w.(s := w.s.(reached := true))
    else if !slotFree then w
    else w.(s := w.s.(page := Some(Page(w.slots, junk)), reached := true),
            slots := w.slots + 1,
            acts := w.acts + [Alloc(w.slots)])
  }

  /** The client's bytes go behind those already in the page. */
  function Filled(p: Setup, w: World, chunk: seq<byte>): World
    requires w.s.page.Some? && PageFits(p, w.s) && w.s.writepos + |chunk| <= NetSize(p)
  {
    var page := w.s.page.value;
    w.(s := w.s.(page := Some(Page(page.slot, Spliced(page.buf, DATA_OFS + w.s.writepos, chunk))),
                 writepos := w.s.writepos + |chunk|,
                 reached := false),
       taken := w.taken + chunk)
  }

  function Released(p: Setup, w: World, chunk: seq<byte>, ans: Answers): World
    requires Sensible(p) && w.s.page.Some? && PageFits(p, w.s) && w.s.writepos + |chunk| <= NetSize(p)
  {
    var filled := Filled(p, w, chunk);
    if chunk != [] && filled.s.writepos >= NetSize(p) then Flushed(p, filled, ans) else filled
  }

  function Cancelled(w: World): World {
    var freed := if w.s.page.Some? then FreedPage(w) else w;
    freed.(s := freed.s.(done := true))
  }

  /** What the client and the surroundings owe each other at a call: the stream is in the
      right half of its reach/release cycle, no more is released than was reached, a new
      page address is not in use, and offsets stay within 64 bits. */
  predicate Legal(p: Setup, w: World, ev: Event) {
    && !w.s.done
    && match ev
       case Reach(slotFree, junk) => !w.s.reached && |junk| == p.pagesize
       case Release(chunk, ans) =>
         && w.s.reached && |chunk| <= NetSize(p) - w.s.writepos && Fresh(w, ans)
         && |w.taken| + |chunk| < DWORD
       case Flush(ans) => !w.s.reached && Fresh(w, ans)
       case Close(ans) => !w.s.reached && Fresh(w, ans)
       case Cancel => true
  }

  predicate Fresh(w: World, ans: Answers) {
    ans.addr.Some? ==> ans.addr.value !in w.disk
  }

  function Stepped(p: Setup, w: World, ev: Event): World
    requires Sensible(p) && PageFits(p, w.s) && (ev.Release? ==> w.s.page.Some?) && Legal(p, w, ev)
  {
    match ev
    case Reach(slotFree, junk) => Reached(p, w, slotFree, junk)
    case Release(chunk, ans) => Released(p, w, chunk, ans)
    case Flush(ans) => Flushed(p, w, ans)
    case Close(ans) => Closed(p, w, ans)
    case Cancel => Cancelled(w)
  }
}
