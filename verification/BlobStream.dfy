/**
 BLOB streams as objects over cache pages: the code paths of dbe/dbe0blobg2.c, each proved
 against its outcome in modules Blob and BlobReader.
 */
module BlobStream {
  import opened Options
  import opened BlobPage
  import opened Blob
  import W = BlobWriter
  import R = BlobReader

  datatype Rc = Succ | End | OutOfCacheBlocks | LogFailed | NoAddress | PlaceFailed | MarkFailed

  /** A write stream together with the cache, log, disk and directory it works on. */
  class WriteStream {
    const p: Setup
    var reached: bool
    var slot: Slot
    var page: array?<byte>
    var writepos: nat
    var startofs: nat
    var done: bool
    var slots: nat
    var disk: map<Daddr, seq<byte>>
    var dir: seq<Place>
    var acts: seq<Act>
    ghost var taken: seq<byte>
    ghost var failed: bool

    ghost function State(): World
      reads this, page
    {
      World(Stream(reached, if page == null then None else Some(Page(slot, page[..])), writepos, startofs, done),
            slots, disk, dir, acts, taken, failed)
    }

    /** What the methods rely on. */
    ghost predicate Valid()
      reads this, page
    {
      && Sensible(p)
      && PageFits(p, State().s)
      && (if page == null then writepos == 0 else page.Length == p.pagesize)
    }

    constructor (p: Setup, disk: map<Daddr, seq<byte>>)
      requires Sensible(p)
      ensures Valid() && this.p == p && State() == W.Start(disk) && page == null
    {
      this.p := p;
      reached, slot, page, writepos, startofs, done := false, 0, null, 0, 0, false;
      slots, this.disk, dir, acts, taken, failed := 0, disk, [], [], [], false;
    }

    /** wblobg2_releasepage in the mode that ignores the page. */
    method FreePage()
      requires page != null
      modifies this`page, this`writepos, this`acts
      ensures State() == FreedPage(old(State())) && page == null
    {
      acts := acts + [Free(slot)];
      page := null;
      writepos := 0;
    }

    /** wblobg2_releasepage in the mode that writes the page. */
    method HandOverPage(daddr: Daddr)
      requires page != null
      modifies this`page, this`writepos, this`acts, this`disk
      ensures State() == old(State()).(s := Dropped(old(State()).s),
                                       acts := old(acts) + [HandOver(slot, daddr, old(page[..]))],
                                       disk := old(disk)[daddr := old(page[..])])
      ensures page == null
    {
      acts := acts + [HandOver(slot, daddr, page[..])];
      disk := disk[daddr := page[..]];
      page := null;
      writepos := 0;
    }

    /** wblobg2_flush. */
    method FlushPage(ans: Answers) returns (rc: Rc)
      requires Valid() && !reached
      modifies this, page
      ensures Valid() && State() == Flushed(p, old(State()), ans)
      ensures rc == Succ <==>
              old(page) == null || old(writepos) == 0 || ((p.logging ==> ans.log) && ans.addr.Some? && ans.placed)
    {
      rc := Succ;
      if page != null {
        if writepos == 0 {
          FreePage();
        } else {
          rc := FlushData(page, ans);
        }
      }
    }

    method FlushData(buf: array<byte>, ans: Answers) returns (rc: Rc)
      requires Valid() && buf == page && writepos > 0
      modifies this, page
      ensures Valid() && State() == PageFlushed(p, old(State()), ans)
      ensures rc == Succ <==> (p.logging ==> ans.log) && ans.addr.Some? && ans.placed
    {
      hide Headed;
      PutData(buf, p.cpnum, writepos, p.id, startofs);
      if p.logging {
        if !ans.log {
          FreePage();
          failed := true;
          return LogFailed;
        }
        acts := acts + [LogData(buf[ID_OFS..DATA_OFS + writepos])];
        assert buf[ID_OFS..DATA_OFS + writepos] == LogPart(buf[..], writepos);
      }
      if ans.addr.None? {
        FreePage();
        failed := true;
        return NoAddress;
      }
      if !ans.placed {
        HandOverPage(ans.addr.value);
        failed := true;
        return PlaceFailed;
      }
      dir := dir + [Place(startofs, ans.addr.value)];
      startofs := startofs + writepos;
      HandOverPage(ans.addr.value);
      rc := Succ;
    }

    /** dbe_wblobg2_reach: the free part of the page in hand, or of a new one. */
    method Reach(slotFree: bool) returns (rc: Rc, nbytes: nat, ghost junk: seq<byte>)
      requires Valid() && !reached && !done
      modifies this
      ensures Valid() && |junk| == p.pagesize && State() == Reached(p, old(State()), slotFree, junk)
      ensures rc == if old(page) == null && !slotFree then OutOfCacheBlocks else Succ
      ensures rc == Succ ==> page != null && nbytes == NetSize(p) - writepos
      ensures page != null ==> page == old(page) || fresh(page)
    {
      rc, junk := Succ, seq(p.pagesize, _ => 0);
      if page == null {
        if !slotFree {
          return OutOfCacheBlocks, 0, junk;
        }
        var buf := new byte[p.pagesize](_ => 0);
        slot, page := slots, buf;
        junk := buf[..];
        slots := slots + 1;
        acts := acts + [Alloc(slot)];
      }
      nbytes := p.pagesize - DATA_OFS - writepos;
      reached := true;
    }

    /** dbe_wblobg2_release: `nbytes` of what was reached now belong to the BLOB. */
    method Release(nbytes: nat, ans: Answers) returns (rc: Rc)
      requires Valid() && reached && page != null && nbytes <= NetSize(p) - writepos
      modifies this, page
      ensures Valid()
      ensures var chunk := old(page[DATA_OFS + writepos..DATA_OFS + writepos + nbytes]);
              && State() == Released(p, old(State()), chunk, ans)
              && (rc == Succ <==> !(chunk != [] && old(writepos) + nbytes >= NetSize(p)
                                    && FlushFails(p, Filled(p, old(State()), chunk), ans)))
      ensures page == null || page == old(page)
    {
      ghost var chunk := page[DATA_OFS + writepos..DATA_OFS + writepos + nbytes];
      FilledInPlace(State(), chunk);
      reached := false;
      rc := Succ;
      if nbytes == 0 {
        assert taken + chunk == taken;
        return;
      }
      writepos := writepos + nbytes;
      taken := taken + chunk;
      assert State() == Filled(p, old(State()), chunk);
      if writepos >= p.pagesize - DATA_OFS {
        rc := FlushPage(ans);
      }
    }

    /** Releasing what is in the buffer already splices nothing. */
    lemma FilledInPlace(w: World, chunk: seq<byte>)
      requires w.s.page.Some? && PageFits(p, w.s) && w.s.writepos + |chunk| <= NetSize(p)
      requires w.s.page.value.buf[DATA_OFS + w.s.writepos..DATA_OFS + w.s.writepos + |chunk|] == chunk
      ensures Filled(p, w, chunk) == w.(s := w.s.(writepos := w.s.writepos + |chunk|, reached := false),
                                        taken := w.taken + chunk)
    {
      var buf, at := w.s.page.value.buf, DATA_OFS + w.s.writepos;
      assert forall i | at <= i < at + |chunk| :: buf[i] == buf[at..at + |chunk|][i - at];
      assert Spliced(buf, at, chunk) == buf;
    }

    /** dbe_wblobg2_close. */
    method CloseStream(ans: Answers) returns (rc: Rc)
      requires Valid() && !reached
      modifies this, page
      ensures State() == Closed(p, old(State()), ans)
      ensures rc == Succ <==>
              && (p.logging ==> ans.complete)
              && (old(page) == null || old(writepos) == 0 || ((p.logging ==> ans.log) && ans.addr.Some? && ans.placed))
    {
      rc := FlushPage(ans);
      if rc == Succ && p.logging {
        if ans.complete {
          acts := acts + [LogComplete(p.id)];
        } else {
          rc := MarkFailed;
        }
      }
      done := true;
    }

    /** dbe_wblobg2_cancel. */
    method CancelStream()
      requires Valid()
      modifies this
      ensures State() == Cancelled(old(State()))
    {
      if page != null {
        FreePage();
      }
      done := true;
    }

    /** memcpy into the reached buffer. */
    method Fill(data: seq<byte>)
      requires Valid() && page != null && |data| <= NetSize(p) - writepos
      modifies page
      ensures page[..] == Spliced(old(page[..]), DATA_OFS + writepos, data)
    {
      var i, at := 0, DATA_OFS + writepos;
      while i < |data|
        invariant 0 <= i <= |data|
        invariant forall k | at <= k < at + i :: page[k] == data[k - at]
        invariant forall k | 0 <= k < page.Length && !(at <= k < at + i) :: page[k] == old(page[k])
      {
        page[at + i] := data[i];
        i := i + 1;
      }
    }
  }

  /** The answers of the surroundings to successive calls name different new pages. */
  ghost predicate NewPages(ans: nat -> Answers, from: nat, disk: map<Daddr, seq<byte>>) {
    && (forall i: nat | i >= from && ans(i).addr.Some? :: ans(i).addr.value !in disk)
    && (forall i: nat, j: nat | i != j && ans(i).addr.Some? && ans(j).addr.Some? :: ans(i).addr != ans(j).addr)
  }

  lemma DiskGrows(p: Setup, w: World, ans: Answers)
    requires Sensible(p) && PageFits(p, w.s)
    ensures forall d | d in Flushed(p, w, ans).disk :: d in w.disk || ans.addr == Some(d)
  {
  }

  lemma NewPagesLeft(p: Setup, w: World, chunk: seq<byte>, ans: nat -> Answers, i: nat)
    requires Sensible(p) && w.s.page.Some? && PageFits(p, w.s) && w.s.writepos + |chunk| <= NetSize(p)
    requires NewPages(ans, i, w.disk)
    ensures NewPages(ans, i + 1, Released(p, w, chunk, ans(i)).disk)
  {
    DiskGrows(p, Filled(p, w, chunk), ans(i));
  }

  /** Copying the bytes first or with the release comes to the same. */
  lemma FillFirst(p: Setup, w: World, chunk: seq<byte>, ans: Answers)
    requires Sensible(p) && w.s.page.Some? && PageFits(p, w.s) && w.s.writepos + |chunk| <= NetSize(p)
    ensures var at := DATA_OFS + w.s.writepos;
            var buf := Spliced(w.s.page.value.buf, at, chunk);
            && buf[at..at + |chunk|] == chunk
            && Filled(p, w.(s := w.s.(page := Some(Page(w.s.page.value.slot, buf)))), chunk) == Filled(p, w, chunk)
  {
    var at := DATA_OFS + w.s.writepos;
    var buf := Spliced(w.s.page.value.buf, at, chunk);
    assert Spliced(buf, at, chunk) == buf;
  }

  /** The facts about an open stream that the copy loop keeps. */
  ghost predicate Copying(p: Setup, w: World, copied: seq<byte>) {
    W.Inv(p, w) && !w.s.reached && !w.s.done && !w.failed && w.taken == copied
  }

  lemma ReachStep(p: Setup, w: World, slotFree: bool, junk: seq<byte>)
    requires Sensible(p) && W.Inv(p, w) && !w.s.reached && !w.s.done && |junk| == p.pagesize
    ensures var w' := Reached(p, w, slotFree, junk);
            && W.Inv(p, w') && !w'.s.done && w'.taken == w.taken && w'.failed == w.failed && w'.disk == w.disk
            && (w'.s.page.Some? ==> w'.s.writepos < NetSize(p))
  {
    W.StepInv(p, w, Event.Reach(slotFree, junk));
  }

  lemma ReleaseStep(p: Setup, w: World, chunk: seq<byte>, ans: Answers)
    requires Sensible(p) && W.Inv(p, w) && !w.s.done && w.s.reached && w.s.page.Some? && PageFits(p, w.s)
    requires w.s.writepos + |chunk| <= NetSize(p) && Fresh(w, ans) && |w.taken| + |chunk| < DWORD
    ensures var w' := Released(p, w, chunk, ans);
            && W.Inv(p, w') && !w'.s.done && !w'.s.reached && w'.taken == w.taken + chunk
            && (w'.failed <==> w.failed || (chunk != [] && w.s.writepos + |chunk| >= NetSize(p)
                                            && FlushFails(p, Filled(p, w, chunk), ans)))
  {
    hide W.Inv, Flushed, FlushFails;
    var ev := Event.Release(chunk, ans);
    W.StepInv(p, w, ev);
    W.StepBooks(p, w, ev);
    StaysReleased(p, w, chunk, ans);
  }

  lemma StaysReleased(p: Setup, w: World, chunk: seq<byte>, ans: Answers)
    requires Sensible(p) && w.s.page.Some? && PageFits(p, w.s) && w.s.writepos + |chunk| <= NetSize(p)
    ensures !Released(p, w, chunk, ans).s.reached
  {
    W.FlushedHand(p, Filled(p, w, chunk), ans);
  }

  lemma CloseStep(p: Setup, w: World, ans: Answers)
    requires Sensible(p) && W.Inv(p, w) && !w.s.reached && !w.s.done && !w.failed && Fresh(w, ans) && PageFits(p, w.s)
    ensures var w' := Closed(p, w, ans);
            && W.SlotsSettled(w') && W.Stored(p, w'.disk, w'.dir)
            && (!CloseFails(p, w, ans) ==>
                  && W.Content(w'.disk, w'.dir) == w.taken
                  && (p.logging ==>
                        W.Logged(w'.acts) == w.taken && w'.acts != [] && w'.acts[|w'.acts| - 1] == LogComplete(p.id)))
            && (CloseFails(p, w, ans) ==> LogComplete(p.id) !in w'.acts)
  {
    hide Flushed, FlushFails, W.Stored, W.Content, W.Logged;
    var ev := Event.Close(ans);
    W.StepInv(p, w, ev);
    W.StepBooks(p, w, ev);
    W.ClosedParts(p, w, ans);
    Settled(p, Closed(p, w, ans));
  }

  lemma CancelStep(p: Setup, w: World)
    requires Sensible(p) && W.Inv(p, w) && !w.s.done
    ensures W.SlotsSettled(Cancelled(w)) && LogComplete(p.id) !in Cancelled(w).acts
  {
    W.StepInv(p, w, Cancel);
    Settled(p, Cancelled(w));
    forall i | 0 <= i < |w.acts| ensures w.acts[i] != LogComplete(p.id) {
      assert W.MarkAt(p, w, i);
    }
  }

  lemma Settled(p: Setup, w: World)
    requires W.Safe(p, w) && w.s.done
    ensures W.SlotsSettled(w)
  {
    forall slot: Slot ensures W.Allocs(w.acts, slot) == W.Endings(w.acts, slot) <= 1 {
      assert W.Booked(w, slot);
    }
  }

  /** The surroundings did all that was asked of them. */
  predicate Well(p: Setup, ans: Answers) {
    (p.logging ==> ans.log && ans.complete) && ans.addr.Some? && ans.placed
  }

  method FillAndRelease(wbs: WriteStream, chunk: seq<byte>, ans: Answers) returns (rc: Rc)
    requires wbs.Valid() && wbs.reached && wbs.page != null && |chunk| <= NetSize(wbs.p) - wbs.writepos
    modifies wbs, wbs.page
    ensures wbs.Valid() && wbs.State() == Released(wbs.p, old(wbs.State()), chunk, ans)
    ensures rc == Succ <==> !(chunk != [] && old(wbs.writepos) + |chunk| >= NetSize(wbs.p)
                              && FlushFails(wbs.p, Filled(wbs.p, old(wbs.State()), chunk), ans))
    ensures Well(wbs.p, ans) ==> rc == Succ
    ensures wbs.page == null || wbs.page == old(wbs.page)
  {
    FillFirst(wbs.p, wbs.State(), chunk, ans);
    wbs.Fill(chunk);
    hide Flushed, FlushFails;
    rc := wbs.Release(|chunk|, ans);
  }

  /** One round of the copy loop. */
  method CopyOnce(wbs: WriteStream, data: seq<byte>, ncopied: nat, slotFree: bool, ans: nat -> Answers, i: nat)
    returns (rc: Rc, n: nat)
    requires wbs.Valid() && ncopied < |data| < DWORD
    requires Copying(wbs.p, wbs.State(), data[..ncopied]) && NewPages(ans, i, wbs.disk)
    modifies wbs, wbs.page
    ensures wbs.Valid() && W.Inv(wbs.p, wbs.State()) && !wbs.done
    ensures wbs.page != null ==> wbs.page == old(wbs.page) || fresh(wbs.page)
    ensures slotFree && Well(wbs.p, ans(i)) ==> rc == Succ
    ensures rc == Succ ==>
              ncopied < n <= |data| && Copying(wbs.p, wbs.State(), data[..n]) && NewPages(ans, i + 1, wbs.disk)
  {
    hide W.Inv, Flushed, FlushFails, Filled, Released;
    var nbytes;
    ghost var junk;
    n := ncopied;
    rc, nbytes, junk := wbs.Reach(slotFree);
    ReachStep(wbs.p, old(wbs.State()), slotFree, junk);
    if rc != Succ {
      return;
    }
    var ntocopy := |data| - ncopied;
    if nbytes < ntocopy {
      ntocopy := nbytes;
    }
    var chunk := data[ncopied..ncopied + ntocopy];
    ghost var w := wbs.State();
    assert data[..ncopied] + chunk == data[..ncopied + ntocopy];
    assert Fresh(w, ans(i));
    ReleaseStep(wbs.p, w, chunk, ans(i));
    NewPagesLeft(wbs.p, w, chunk, ans, i);
    rc := FillAndRelease(wbs, chunk, ans(i));
    n := ncopied + ntocopy;
  }

  /** dbe_blobg2_insertaval: reach, copy as much as fits, release, until all is copied; then
      close, or cancel at the first error. */
  method InsertAval(p: Setup, disk: map<Daddr, seq<byte>>, data: seq<byte>, slotFree: nat -> bool, ans: nat -> Answers)
    returns (rc: Rc, disk': map<Daddr, seq<byte>>, dir: seq<Place>, acts: seq<Act>)
    requires Sensible(p) && |data| < DWORD && NewPages(ans, 0, disk)
    ensures rc == Succ ==> W.Stored(p, disk', dir) && W.Content(disk', dir) == data
    ensures forall slot: Slot :: W.Allocs(acts, slot) == W.Endings(acts, slot) <= 1
    ensures rc == Succ && p.logging ==> W.Logged(acts) == data && acts != [] && acts[|acts| - 1] == LogComplete(p.id)
    ensures rc != Succ ==> LogComplete(p.id) !in acts
    ensures (forall i: nat :: slotFree(i) && Well(p, ans(i))) ==> rc == Succ
  {
    var wbs := new WriteStream(p, disk);
    W.StartInv(p, disk);
    var ncopied, i := 0, 0;
    rc := Succ;
    hide W.Inv, Flushed, FlushFails, W.Stored, W.Content, W.Logged;
    while ncopied < |data| && rc == Succ
      invariant 0 <= ncopied <= |data|
      invariant wbs.p == p && wbs.Valid() && !wbs.done
      invariant fresh(wbs) && (wbs.page != null ==> fresh(wbs.page))
      invariant W.Inv(p, wbs.State())
      invariant (forall k: nat :: slotFree(k) && Well(p, ans(k))) ==> rc == Succ
      invariant rc == Succ ==> Copying(p, wbs.State(), data[..ncopied]) && NewPages(ans, i, wbs.disk)
      decreases |data| - ncopied, rc == Succ
    {
      var n;
      rc, n := CopyOnce(wbs, data, ncopied, slotFree(i), ans, i);
      if rc == Succ {
        ncopied := n;
      }
      i := i + 1;
    }
    ghost var w := wbs.State();
    if rc == Succ {
      assert data[..ncopied] == data;
      CloseStep(p, w, ans(i));
      rc := wbs.CloseStream(ans(i));
    } else {
      CancelStep(p, w);
      wbs.CancelStream();
    }
    disk', dir, acts := wbs.disk, wbs.dir, wbs.acts;
  }

  /** A read stream over a stored BLOB. */
  class ReadStream {
    const p: Setup
    const disk: map<Daddr, seq<byte>>
    const dir: seq<Place>
    var reached: bool
    var page: Option<seq<byte>>
    var size: nat
    var readpos: nat
    var startofs: nat
    var done: bool
    ghost var got: seq<byte>
    ghost var takes: nat
    ghost var gives: nat
    ghost var ended: bool
    ghost var idx: nat

    ghost function State(): R.World
      reads this
    {
      R.World.World(R.Stream.Stream(reached, page, size, readpos, startofs, done), got, takes, gives, ended, true, idx)
    }

    ghost predicate Valid()
      reads this
    {
      W.Stored(p, disk, dir) && R.Inv(p, disk, dir, State())
    }

    constructor (p: Setup, disk: map<Daddr, seq<byte>>, dir: seq<Place>)
      requires W.Stored(p, disk, dir)
      ensures Valid() && this.p == p && this.disk == disk && this.dir == dir
      ensures State() == R.Run(p, disk, dir, [])
    {
      this.p, this.disk, this.dir := p, disk, dir;
      reached, page, size, readpos, startofs, done := false, None, 0, 0, 0, false;
      got, takes, gives, ended, idx := [], 0, 0, false, 0;
      new;
      assert dir[..0] == [];
    }

    /** dbe_rblobg2_reach. The state it leaves has no assertion failed, for it is the outcome
        in which `sound` is true. */
    method Reach() returns (rc: Rc, buf: seq<byte>)
      requires Valid() && !reached && !done
      modifies this
      ensures Valid() && State() == R.Reached(p, disk, dir, old(State()))
      ensures rc == (if got == W.Content(disk, dir) then End else Succ)
      ensures rc == Succ ==> |buf| > 0 && got + buf <= W.Content(disk, dir)
      ensures rc == Succ ==> page.Some? && DATA_OFS + size <= |page.value| && readpos < size
                             && buf == page.value[DATA_OFS + readpos..DATA_OFS + size]
      ensures rc == End ==> buf == []
      ensures reached <==> rc == Succ
    {
      hide W.Stored, W.Content, R.Inv, R.Reached;
      R.ReachKept(p, disk, dir, State());
      ReachCases(State());
      if page.None? {
        var addr := R.Lookup(dir, startofs);
        if addr.None? {
          ended := true;
          return End, [];
        }
        var data := disk[addr.value];
        page := Some(data);
        size := Get(data[NBYTES_OFS..ID_OFS]);
        takes := takes + 1;
      }
      ended := false;
      reached := true;
      assert State() == R.Reached(p, disk, dir, old(State()));
      RestOfPage(State());
      buf := page.value[DATA_OFS + readpos..DATA_OFS + size];
      rc := Succ;
    }

    /** The three ways a reach can go, with every assertion of the code satisfied. */
    lemma ReachCases(w: R.World)
      requires W.Stored(p, disk, dir) && R.Inv(p, disk, dir, w) && !w.s.reached && !w.s.done
      ensures var r := R.Reached(p, disk, dir, w);
              if w.s.page.Some? then r == w.(s := w.s.(reached := true), ended := false)
              else
                var addr := R.Lookup(dir, w.s.startofs);
                if addr.None? then r == w.(ended := true)
                else
                  && addr.value in disk && |disk[addr.value]| >= DATA_OFS
                  && r == w.(s := w.s.(page := Some(disk[addr.value]), reached := true,
                                       size := PageBytes(disk[addr.value])), takes := w.takes + 1, ended := false)
    {
      hide W.Stored, W.Content;
      R.LookupAt(p, disk, dir, w.idx);
      if w.idx < |dir| {
        R.PageHolds(p, disk, dir, w.idx);
      }
    }

    /** What is left of the page in hand is what comes next. */
    lemma RestOfPage(w: R.World)
      requires W.Stored(p, disk, dir) && R.Inv(p, disk, dir, w) && w.s.page.Some?
      ensures DATA_OFS + w.s.size <= |w.s.page.value| && w.s.readpos < w.s.size
      ensures w.got + w.s.page.value[DATA_OFS + w.s.readpos..DATA_OFS + w.s.size] <= W.Content(disk, dir)
    {
      hide W.Stored, W.Content;
      R.PageHolds(p, disk, dir, w.idx);
      R.GoodData(p, w.s.page.value, dir[w.idx].start);
      R.Advance(W.Content(disk, dir), W.Content(disk, dir[..w.idx]), w.s.page.value, w.s.size, w.got, w.s.readpos,
                w.s.size - w.s.readpos);
    }

    /** dbe_rblobg2_release. */
    method Release(nbytes: nat)
      requires Valid() && reached && !done && page.Some? && nbytes <= size - readpos
      requires DATA_OFS + size <= |page.value|
      modifies this
      ensures Valid() && State() == R.Released(old(State()), nbytes)
      ensures got == old(got) + old(page).value[DATA_OFS + old(readpos)..DATA_OFS + old(readpos) + nbytes]
    {
      hide W.Stored, W.Content, W.GoodPage;
      R.ReleaseKept(p, disk, dir, State(), nbytes);
      got := got + page.value[DATA_OFS + readpos..DATA_OFS + readpos + nbytes];
      reached := false;
      readpos := readpos + nbytes;
      if readpos >= size {
        startofs := startofs + readpos;
        idx := idx + 1;
        GivePage();
      }
    }

    method GivePage()
      modifies this`page, this`size, this`readpos, this`gives
      ensures State() == R.Given(old(State()))
    {
      readpos, page, size := 0, None, 0;
      gives := gives + 1;
    }

    /** dbe_rblobg2_done. */
    method Finish()
      requires Valid() && !done
      modifies this
      ensures Valid() && State() == R.Finished(old(State())) && takes == gives
    {
      hide W.Stored, W.Content, W.GoodPage;
      R.DoneKept(p, disk, dir, State());
      if reached {
        RestOfPage(State());
        Release(0);
      }
      if page.Some? {
        GivePage();
      }
      done := true;
    }
  }
}
