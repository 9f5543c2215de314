/**
 BLOB read streams, and the round trip from a client's chunks through pages and directory
 to another client's reads.
 */
module BlobReader {
  import opened Options
  import opened BlobPage
  import opened Blob
  import opened BlobWriter

  /** dbe_rblobg2_t. */
  datatype Stream = Stream(
    reached: bool,
    page: Option<seq<byte>>,
    size: nat,
    readpos: nat,
    startofs: nat,
    done: bool)

  /** The stream with its books: bytes read, pages taken from and given back to the cache,
      whether the last reach said there is no more, and whether every assertion of the code
      held so far. `idx` counts the pages read to their end. */
  datatype World = World(
    s: Stream,
    got: seq<byte>,
    takes: nat,
    gives: nat,
    ended: bool,
    sound: bool,
    idx: nat)

  datatype Event = Reach | Release(nbytes: nat) | Done

  /** The page address function of the directory. */
  function Lookup(dir: seq<Place>, start: nat): Option<Daddr> {
    if dir == [] then None
    else if dir[0].start == start then Some(dir[0].daddr)
    else Lookup(dir[1..], start)
  }

  /** dbe_rblobg2_reach. */
  function Reached(p: Setup, disk: map<Daddr, seq<byte>>, dir: seq<Place>, w: World): World {
    if w.s.page.Some? then w.(s := w.s.(reached := true), sound := w.sound && w.s.size > w.s.readpos, ended := false)
    else
      var addr := Lookup(dir, w.s.startofs);
      if addr.None? then w.(ended := true)
      else if addr.value !in disk || |disk[addr.value]| < DATA_OFS then w.(sound := false)
      else
        var page := disk[addr.value];
        w.(s := w.s.(page := Some(page), reached := true, size := PageBytes(page)),
           takes := w.takes + 1,
           ended := false,
           sound := w.sound && w.s.readpos == 0 && GoodPage(p, page, w.s.startofs))
  }

  /** rblobg2_releasepage. */
  function Given(w: World): World {
    w.(s := w.s.(page := None, size := 0, readpos := 0), gives := w.gives + 1)
  }

  /** dbe_rblobg2_release. */
  function Released(w: World, nbytes: nat): World
    requires w.s.page.Some? && w.s.readpos + nbytes <= |w.s.page.value| - DATA_OFS
  {
    var at := DATA_OFS + w.s.readpos;
    var moved := w.(s := w.s.(reached := false, readpos := w.s.readpos + nbytes),
                    got := w.got + w.s.page.value[at..at + nbytes]);
    if moved.s.readpos >= w.s.size then
      Given(moved.(s := moved.s.(startofs := w.s.startofs + moved.s.readpos), idx := w.idx + 1))
    else moved
  }

  /** dbe_rblobg2_done. */
  function Finished(w: World): World {
    var released := w.(s := w.s.(reached := false));
    var given := if w.s.page.Some? then Given(released) else released;
    given.(s := given.s.(done := true))
  }

  predicate Legal(w: World, ev: Event) {
    && !w.s.done
    && match ev
       case Reach => !w.s.reached
       case Release(n) => w.s.reached && n <= w.s.size - w.s.readpos
       case Done => true
  }

  predicate Ready(w: World, ev: Event) {
    ev.Release? ==> w.s.page.Some? && w.s.readpos + ev.nbytes <= |w.s.page.value| - DATA_OFS
  }

  function Stepped(p: Setup, disk: map<Daddr, seq<byte>>, dir: seq<Place>, w: World, ev: Event): World
    requires Ready(w, ev)
  {
    match ev
    case Reach => Reached(p, disk, dir, w)
    case Release(n) => Released(w, n)
    case Done => Finished(w)
  }

  function Run(p: Setup, disk: map<Daddr, seq<byte>>, dir: seq<Place>, evs: seq<Event>): World {
    if evs == [] then World.World(Stream.Stream(false, None, 0, 0, 0, false), [], 0, 0, false, true, 0)
    else
      var before := Run(p, disk, dir, evs[..|evs| - 1]);
      if Ready(before, evs[|evs| - 1]) then Stepped(p, disk, dir, before, evs[|evs| - 1]) else before
  }

  predicate LegalRun(p: Setup, disk: map<Daddr, seq<byte>>, dir: seq<Place>, evs: seq<Event>) {
    evs == [] ||
    (LegalRun(p, disk, dir, evs[..|evs| - 1]) && Legal(Run(p, disk, dir, evs[..|evs| - 1]), evs[|evs| - 1]))
  }

  // -------------------------------------------------------------- directory

  /** A prefix of the directory leads to a prefix of the bytes. */
  lemma {:induction false} ContentPrefix(disk: map<Daddr, seq<byte>>, dir: seq<Place>, i: nat)
    requires i <= |dir|
    ensures Content(disk, dir[..i]) <= Content(disk, dir)
  {
    if i < |dir| {
      assert dir[..|dir| - 1][..i] == dir[..i];
      ContentPrefix(disk, dir[..|dir| - 1], i);
    } else {
      assert dir[..i] == dir;
    }
  }

  lemma GoodData(p: Setup, page: seq<byte>, start: nat)
    requires GoodPage(p, page, start)
    ensures |PageData(page)| == PageBytes(page) && PageData(page) == page[DATA_OFS..DATA_OFS + PageBytes(page)]
  {
  }

  /** Page `i` holds the bytes at its offset, and the next page starts where it ends. */
  lemma PageHolds(p: Setup, disk: map<Daddr, seq<byte>>, dir: seq<Place>, i: nat)
    requires Stored(p, disk, dir) && i < |dir|
    ensures dir[i].daddr in disk && GoodPage(p, disk[dir[i].daddr], dir[i].start)
    ensures dir[i].start == |Content(disk, dir[..i])|
    ensures Content(disk, dir[..i + 1]) == Content(disk, dir[..i]) + PageData(disk[dir[i].daddr])
    ensures Content(disk, dir[..i + 1]) <= Content(disk, dir)
  {
    hide GoodPage;
    assert PlaceOk(p, disk, dir, i);
    assert dir[..i + 1][..i] == dir[..i];
    ContentPrefix(disk, dir, i + 1);
  }

  /** Offsets grow, so a lookup finds the page that starts there and no other. */
  lemma {:induction false} StartsGrow(p: Setup, disk: map<Daddr, seq<byte>>, dir: seq<Place>, i: nat, j: nat)
    requires Stored(p, disk, dir) && i < j <= |dir|
    ensures |Content(disk, dir[..i])| < |Content(disk, dir[..j])|
    decreases j
  {
    hide GoodPage, Content, Stored;
    PageHolds(p, disk, dir, j - 1);
    GoodSize(p, disk[dir[j - 1].daddr], dir[j - 1].start);
    if i < j - 1 {
      StartsGrow(p, disk, dir, i, j - 1);
    }
  }

  lemma GoodSize(p: Setup, page: seq<byte>, start: nat)
    requires GoodPage(p, page, start)
    ensures |PageData(page)| > 0
  {
  }

  lemma {:induction false} LookupFinds(dir: seq<Place>, start: nat)
    ensures Lookup(dir, start).Some? ==>
              exists i | 0 <= i < |dir| :: dir[i].start == start && dir[i].daddr == Lookup(dir, start).value
    ensures Lookup(dir, start).None? ==> forall i | 0 <= i < |dir| :: dir[i].start != start
  {
    if dir != [] {
      LookupFinds(dir[1..], start);
      if dir[0].start != start && Lookup(dir, start).Some? {
        var i :| 0 <= i < |dir[1..]| && dir[1..][i].start == start && dir[1..][i].daddr == Lookup(dir, start).value;
        assert dir[i + 1].start == start && dir[i + 1].daddr == Lookup(dir, start).value;
      }
      if Lookup(dir, start).None? {
        forall i | 0 <= i < |dir| ensures dir[i].start != start {
          assert i > 0 ==> dir[1..][i - 1] == dir[i];
        }
      }
    }
  }

  lemma LookupAt(p: Setup, disk: map<Daddr, seq<byte>>, dir: seq<Place>, i: nat)
    requires Stored(p, disk, dir) && i <= |dir|
    ensures Lookup(dir, |Content(disk, dir[..i])|) == if i < |dir| then Some(dir[i].daddr) else None
  {
    hide GoodPage, Content, Stored;
    var start := |Content(disk, dir[..i])|;
    LookupFinds(dir, start);
    forall j | 0 <= j < |dir| && j != i ensures dir[j].start != start {
      PageHolds(p, disk, dir, j);
      if j < i {
        StartsGrow(p, disk, dir, j, i);
      } else {
        StartsGrow(p, disk, dir, i, j);
      }
    }
    if i < |dir| {
      PageHolds(p, disk, dir, i);
    }
  }

  // -------------------------------------------------------------- invariant

  /** The reader is somewhere in page `idx`, has got all bytes before that place, holds
      that page and no other, and none of the assertions in the code has failed. */
  predicate Inv(p: Setup, disk: map<Daddr, seq<byte>>, dir: seq<Place>, w: World) {
    && w.sound
    && w.idx <= |dir|
    && w.s.startofs == |Content(disk, dir[..w.idx])|
    && |w.got| >= w.s.startofs && w.got <= Content(disk, dir)
    && w.takes == w.gives + (if w.s.page.Some? then 1 else 0)
    && (w.ended ==> w.got == Content(disk, dir))
    && (if w.s.page.Some? then
          && !w.s.done
          && w.idx < |dir| && dir[w.idx].daddr in disk && w.s.page.value == disk[dir[w.idx].daddr]
          && |w.s.page.value| >= DATA_OFS && w.s.size == PageBytes(w.s.page.value) && w.s.readpos < w.s.size
          && |w.got| == w.s.startofs + w.s.readpos
        else
          && w.s.size == 0 && w.s.readpos == 0 && !w.s.reached
          && (w.s.done || |w.got| == w.s.startofs))
  }

  lemma ReachKept(p: Setup, disk: map<Daddr, seq<byte>>, dir: seq<Place>, w: World)
    requires Stored(p, disk, dir) && Inv(p, disk, dir, w) && Legal(w, Event.Reach)
    ensures Inv(p, disk, dir, Reached(p, disk, dir, w))
    ensures Reached(p, disk, dir, w).ended <==> w.got == Content(disk, dir)
  {
    hide Stored, Content;
    LookupAt(p, disk, dir, w.idx);
    if w.s.page.None? {
      if w.idx < |dir| {
        PageHolds(p, disk, dir, w.idx);
        GoodData(p, disk[dir[w.idx].daddr], dir[w.idx].start);
      } else {
        assert dir[..w.idx] == dir;
      }
    } else {
      PageHolds(p, disk, dir, w.idx);
      GoodData(p, disk[dir[w.idx].daddr], dir[w.idx].start);
    }
  }

  /** The next bytes of a page are the next bytes of the BLOB. */
  lemma Advance(all: seq<byte>, pre: seq<byte>, page: seq<byte>, size: nat, got: seq<byte>, k: nat, n: nat)
    requires DATA_OFS + size <= |page| && k + n <= size
    requires pre + page[DATA_OFS..DATA_OFS + size] <= all && got <= all && |got| == |pre| + k
    ensures got + page[DATA_OFS + k..DATA_OFS + k + n] <= all
  {
    var more := page[DATA_OFS + k..DATA_OFS + k + n];
    assert forall i | 0 <= i < n :: more[i] == (pre + page[DATA_OFS..DATA_OFS + size])[|got| + i];
  }

  lemma ReleaseKept(p: Setup, disk: map<Daddr, seq<byte>>, dir: seq<Place>, w: World, n: nat)
    requires Stored(p, disk, dir) && Inv(p, disk, dir, w) && Legal(w, Event.Release(n))
    ensures Ready(w, Event.Release(n)) && Inv(p, disk, dir, Released(w, n))
  {
    hide Stored, Content;
    PageHolds(p, disk, dir, w.idx);
    var page := w.s.page.value;
    GoodData(p, page, dir[w.idx].start);
    Advance(Content(disk, dir), Content(disk, dir[..w.idx]), page, w.s.size, w.got, w.s.readpos, n);
  }

  lemma DoneKept(p: Setup, disk: map<Daddr, seq<byte>>, dir: seq<Place>, w: World)
    requires Inv(p, disk, dir, w)
    ensures Inv(p, disk, dir, Finished(w))
  {
  }

  /** Every run of a read stream over a stored BLOB. */
  lemma {:induction false} ReaderSafe(p: Setup, disk: map<Daddr, seq<byte>>, dir: seq<Place>, evs: seq<Event>)
    requires Stored(p, disk, dir) && LegalRun(p, disk, dir, evs)
    ensures Inv(p, disk, dir, Run(p, disk, dir, evs))
  {
    if evs == [] {
      assert dir[..0] == [];
    } else {
      var before, ev := evs[..|evs| - 1], evs[|evs| - 1];
      hide Stored, Inv, Reached, Released, Finished;
      ReaderSafe(p, disk, dir, before);
      var w := Run(p, disk, dir, before);
      match ev
      case Reach => ReachKept(p, disk, dir, w);
      case Release(n) => ReleaseKept(p, disk, dir, w, n);
      case Done => DoneKept(p, disk, dir, w);
    }
  }

  /** The bytes a client took, told from the events. */
  function Fetched(evs: seq<Event>): nat {
    if evs == [] then 0
    else Fetched(evs[..|evs| - 1]) + if evs[|evs| - 1].Release? then evs[|evs| - 1].nbytes else 0
  }

  lemma {:induction false} GotFetched(p: Setup, disk: map<Daddr, seq<byte>>, dir: seq<Place>, evs: seq<Event>)
    requires Stored(p, disk, dir) && LegalRun(p, disk, dir, evs)
    ensures |Run(p, disk, dir, evs).got| == Fetched(evs)
  {
    hide Stored, Inv;
    if evs != [] {
      var before, ev := evs[..|evs| - 1], evs[|evs| - 1];
      GotFetched(p, disk, dir, before);
      ReaderSafe(p, disk, dir, before);
      if ev.Release? {
        ReleaseKept(p, disk, dir, Run(p, disk, dir, before), ev.nbytes);
      }
    }
  }

  lemma RunNext(p: Setup, disk: map<Daddr, seq<byte>>, dir: seq<Place>, evs: seq<Event>, ev: Event)
    requires Ready(Run(p, disk, dir, evs), ev) && LegalRun(p, disk, dir, evs) && Legal(Run(p, disk, dir, evs), ev)
    ensures LegalRun(p, disk, dir, evs + [ev])
    ensures Run(p, disk, dir, evs + [ev]) == Stepped(p, disk, dir, Run(p, disk, dir, evs), ev)
  {
    hide Stepped, Legal, Ready;
    assert (evs + [ev])[..|evs|] == evs;
  }

  /** A client that reaches and releases page by page gets to the end with every byte. */
  lemma {:induction false} ReadOn(p: Setup, disk: map<Daddr, seq<byte>>, dir: seq<Place>, evs: seq<Event>)
    returns (more: seq<Event>)
    requires Stored(p, disk, dir) && LegalRun(p, disk, dir, evs)
    requires var s := Run(p, disk, dir, evs).s; s.page.None? && !s.reached && !s.done
    ensures LegalRun(p, disk, dir, evs + more)
    ensures var w := Run(p, disk, dir, evs + more); w.ended && w.got == Content(disk, dir) && !w.s.done
    decreases |dir| - Run(p, disk, dir, evs).idx
  {
    hide Stored, Content, Run, LegalRun;
    ReaderSafe(p, disk, dir, evs);
    var w := Run(p, disk, dir, evs);
    var on := evs + [Event.Reach];
    RunNext(p, disk, dir, evs, Event.Reach);
    ReachKept(p, disk, dir, w);
    LookupAt(p, disk, dir, w.idx);
    if w.idx == |dir| {
      more := [Event.Reach];
    } else {
      PageHolds(p, disk, dir, w.idx);
      var v := Run(p, disk, dir, on);
      var n := v.s.size - v.s.readpos;
      ReleaseKept(p, disk, dir, v, n);
      RunNext(p, disk, dir, on, Event.Release(n));
      var rest := ReadOn(p, disk, dir, on + [Event.Release(n)]);
      more := [Event.Reach, Event.Release(n)] + rest;
      assert evs + more == on + [Event.Release(n)] + rest;
    }
  }

  /** What a client wrote in any chunks, with flushes anywhere, and closed without a lost
      page, another client reads in any chunks: always a prefix of it, and all of it exactly
      when the reader has been told there is no more. No assertion of the reader fails, and
      after `Done` every page it took is given back. */
  lemma {:induction false} RoundTrip(p: Setup, disk: map<Daddr, seq<byte>>, writes: seq<Blob.Event>,
                                     ans: Answers, fetches: seq<Event>)
    requires Sensible(p) && BlobWriter.LegalRun(p, Start(disk), writes + [Close(ans)])
    requires !SomeLoss(p, Start(disk), writes + [Close(ans)])
    requires var w := BlobWriter.Run(p, Start(disk), writes + [Close(ans)]);
             LegalRun(p, w.disk, w.dir, fetches)
    ensures var w := BlobWriter.Run(p, Start(disk), writes + [Close(ans)]);
            var r := Run(p, w.disk, w.dir, fetches);
            && r.sound && r.got <= Chunks(writes) && |r.got| == Fetched(fetches)
            && (r.ended ==> r.got == Chunks(writes))
            && (r.s.done ==> r.takes == r.gives)
            && (!r.s.done && !r.s.reached ==>
                  (Reached(p, w.disk, w.dir, r).ended <==> r.got == Chunks(writes)))
  {
    hide BlobWriter.Run, BlobWriter.LegalRun, LegalRun, Run, Stored, Content, SomeLoss, Chunks, Reached;
    ClosedContent(p, disk, writes, ans);
    var w := BlobWriter.Run(p, Start(disk), writes + [Close(ans)]);
    ReaderSafe(p, w.disk, w.dir, fetches);
    GotFetched(p, w.disk, w.dir, fetches);
    var r := Run(p, w.disk, w.dir, fetches);
    if !r.s.done && !r.s.reached {
      ReachKept(p, w.disk, w.dir, r);
    }
  }
}
