/**
 The BLOB reference buffer of dbe/dbe0brb.c: who owns a BLOB between the client that wrote
 it and the row it is saved into, and who has to delete it.
 */
module BlobRefs {

  type BlobId = int

  datatype Status = NotSaved | RemoveOnSave | Saved | Deleted

  /** The pool, and the books on every BLOB ever put in: rows that refer to it, rows that
      adopted it without a copy, and requests to delete it. */
  datatype Buffer = Buffer(
    pool: Pool,
    known: set<BlobId>,
    rows: set<BlobId>,
    adopted: map<BlobId, nat>,
    deletions: map<BlobId, nat>)

  const EMPTY := Buffer(map[], {}, {}, map[], map[])

  datatype Event =
    | Insert(b: BlobId, removeOnSave: bool)
    | Save(b: BlobId)
    | RowDelete(b: BlobId)
    | Release(b: BlobId)

  function Count(m: map<BlobId, nat>, b: BlobId): nat {
    if b in m then m[b] else 0
  }

  // ---------------------------------------------------------------- outcomes

  type Pool = map<BlobId, Status>

  function InsertedPool(pool: Pool, b: BlobId, removeOnSave: bool): Pool {
    pool[b := if removeOnSave then RemoveOnSave else NotSaved]
  }

  /** dbe_brb_needtocopy_setsaved: the first save of a buffered BLOB adopts it. */
  predicate NeedToCopy(pool: Pool, b: BlobId) {
    !(b in pool && (pool[b] == NotSaved || pool[b] == RemoveOnSave))
  }

  function SavedPool(pool: Pool, b: BlobId): Pool {
    if NeedToCopy(pool, b) then pool else if pool[b] == NotSaved then pool[b := Saved] else pool - {b}
  }

  /** dbe_brb_defer_delete_va: the row is gone; a BLOB still in the buffer is deleted later. */
  predicate Deferred(pool: Pool, b: BlobId) {
    b in pool
  }

  function RowDeletedPool(pool: Pool, b: BlobId): Pool {
    if Deferred(pool, b) then pool[b := Deleted] else pool
  }

  /** dbe_brb_needtodelete_remove: the client lets go. */
  predicate NeedToDelete(pool: Pool, b: BlobId) {
    b in pool && pool[b] != Saved
  }

  function ReleasedPool(pool: Pool, b: BlobId): Pool {
    pool - {b}
  }

  function Inserted(s: Buffer, b: BlobId, removeOnSave: bool): Buffer {
    s.(pool := InsertedPool(s.pool, b, removeOnSave), known := s.known + {b})
  }

  function SavedInto(s: Buffer, b: BlobId): Buffer {
    if NeedToCopy(s.pool, b) then s
    else s.(pool := SavedPool(s.pool, b), rows := s.rows + {b}, adopted := s.adopted[b := Count(s.adopted, b) + 1])
  }

  function RowDeleted(s: Buffer, b: BlobId): Buffer {
    s.(pool := RowDeletedPool(s.pool, b), rows := s.rows - {b},
       deletions := if Deferred(s.pool, b) then s.deletions else s.deletions[b := Count(s.deletions, b) + 1])
  }

  function Released(s: Buffer, b: BlobId): Buffer {
    s.(pool := ReleasedPool(s.pool, b),
       deletions := if NeedToDelete(s.pool, b) then s.deletions[b := Count(s.deletions, b) + 1] else s.deletions)
  }

  function Stepped(s: Buffer, ev: Event): Buffer {
    match ev
    case Insert(b, r) => Inserted(s, b, r)
    case Save(b) => SavedInto(s, b)
    case RowDelete(b) => RowDeleted(s, b)
    case Release(b) => Released(s, b)
  }

  /** A BLOB is put in once, a row that refers to a BLOB is deleted once, and a client does
      not let go of a BLOB it put in to be removed on save. */
  predicate Legal(s: Buffer, ev: Event) {
    match ev
    case Insert(b, _) => b !in s.known
    case Save(b) => true
    case RowDelete(b) => b in s.rows
    case Release(b) => b in s.pool ==> s.pool[b] != RemoveOnSave
  }

  function Run(evs: seq<Event>): Buffer {
    if evs == [] then EMPTY else Stepped(Run(evs[..|evs| - 1]), evs[|evs| - 1])
  }

  predicate LegalRun(evs: seq<Event>) {
    evs == [] || (LegalRun(evs[..|evs| - 1]) && Legal(Run(evs[..|evs| - 1]), evs[|evs| - 1]))
  }

  // --------------------------------------------------------------- ownership

  /** The references there are to a BLOB: its row, and the buffer. */
  predicate Referenced(s: Buffer, b: BlobId) {
    b in s.rows || b in s.pool
  }

  /** A BLOB is adopted at most once, and its deletion is asked for exactly once, exactly
      when neither a row nor the buffer refers to it any more. */
  predicate Owned(s: Buffer, b: BlobId) {
    && (b in s.pool || b in s.rows || Count(s.adopted, b) > 0 ==> b in s.known)
    && (b in s.pool ==> (b in s.rows <==> s.pool[b] == Saved))
    && (b in s.pool && (s.pool[b] == NotSaved || s.pool[b] == RemoveOnSave) ==> Count(s.adopted, b) == 0)
    && Count(s.adopted, b) <= 1
    && (b in s.rows ==> Count(s.adopted, b) == 1)
    && Count(s.deletions, b) == if b in s.known && !Referenced(s, b) then 1 else 0
  }

  lemma StepKept(s: Buffer, ev: Event, b: BlobId)
    requires Owned(s, b) && Owned(s, ev.b) && Legal(s, ev)
    ensures Owned(Stepped(s, ev), b)
  {
  }

  /** In every run, for every BLOB. */
  lemma {:induction false} Ownership(evs: seq<Event>, b: BlobId)
    requires LegalRun(evs)
    ensures Owned(Run(evs), b)
    ensures Count(Run(evs).adopted, b) <= 1 && (b in Run(evs).rows ==> Count(Run(evs).adopted, b) == 1)
    ensures Count(Run(evs).deletions, b) ==
            if b in Run(evs).known && b !in Run(evs).rows && b !in Run(evs).pool then 1 else 0
  {
    if evs != [] {
      hide Stepped, Legal, Owned;
      Ownership(evs[..|evs| - 1], b);
      Ownership(evs[..|evs| - 1], evs[|evs| - 1].b);
      StepKept(Run(evs[..|evs| - 1]), evs[|evs| - 1], b);
      OwnedMeans(Run(evs), b);
    } else {
      assert Run(evs) == EMPTY;
    }
  }

  lemma OwnedMeans(s: Buffer, b: BlobId)
    requires Owned(s, b)
    ensures Count(s.adopted, b) <= 1 && (b in s.rows ==> Count(s.adopted, b) == 1)
    ensures Count(s.deletions, b) == if b in s.known && b !in s.rows && b !in s.pool then 1 else 0
  {
  }

  /** A save that needs no copy gives the BLOB its only row; after it every save copies. */
  lemma AdoptedOnce(evs: seq<Event>, b: BlobId)
    requires LegalRun(evs)
    ensures !NeedToCopy(Run(evs).pool, b) ==>
              Count(Run(evs).adopted, b) == 0 && NeedToCopy(SavedPool(Run(evs).pool, b), b)
    ensures Count(Run(evs).adopted, b) == 1 ==> NeedToCopy(Run(evs).pool, b)
  {
    Ownership(evs, b);
  }

  /** Telling a caller to delete a BLOB means that nothing refers to it from then on. */
  lemma DeletesTheLast(evs: seq<Event>, ev: Event)
    requires LegalRun(evs) && Legal(Run(evs), ev)
    ensures var s, t := Run(evs), Stepped(Run(evs), ev);
            Count(t.deletions, ev.b) > Count(s.deletions, ev.b) <==>
            ev.b in t.known && Referenced(s, ev.b) && !Referenced(t, ev.b)
  {
    Ownership(evs, ev.b);
    StepKept(Run(evs), ev, ev.b);
  }

  // ------------------------------------------------------------------- history

  /** Somebody put the BLOB in, to be removed on save. */
  predicate RemovesOnSave(evs: seq<Event>, b: BlobId) {
    Insert(b, true) in evs
  }

  /** What the client expects, told from the events alone: his BLOB is in the buffer until he
      lets go of it, or, if he put it in to be removed on save, until the first save. */
  predicate Keeps(evs: seq<Event>, b: BlobId) {
    evs != [] &&
    var before, ev := evs[..|evs| - 1], evs[|evs| - 1];
    match ev
    case Insert(i, _) => i == b || Keeps(before, b)
    case Save(i) => Keeps(before, b) && !(i == b && RemovesOnSave(before, b))
    case RowDelete(_) => Keeps(before, b)
    case Release(i) => i != b && Keeps(before, b)
  }

  /** A save found the BLOB in the buffer. */
  predicate WasAdopted(evs: seq<Event>, b: BlobId) {
    evs != [] &&
    var before := evs[..|evs| - 1];
    (WasAdopted(before, b) || (evs[|evs| - 1] == Save(b) && Keeps(before, b)))
  }

  /** The row that adopted the BLOB is still there. */
  predicate HasRow(evs: seq<Event>, b: BlobId) {
    evs != [] &&
    var before, ev := evs[..|evs| - 1], evs[|evs| - 1];
    if ev == RowDelete(b) then false
    else HasRow(before, b) || (ev == Save(b) && Keeps(before, b) && !WasAdopted(before, b))
  }

  predicate Told(s: Buffer, evs: seq<Event>, b: BlobId) {
    && (b in s.known <==> Insert(b, true) in evs || Insert(b, false) in evs)
    && (b in s.pool <==> Keeps(evs, b))
    && (b in s.rows <==> HasRow(evs, b))
    && (Keeps(evs, b) || WasAdopted(evs, b) ==> b in s.known)
    && (b in s.pool ==>
          s.pool[b] == if HasRow(evs, b) then Saved
                       else if WasAdopted(evs, b) then Deleted
                       else if RemovesOnSave(evs, b) then RemoveOnSave else NotSaved)
    && (b in s.pool && WasAdopted(evs, b) ==> !RemovesOnSave(evs, b))
    && (HasRow(evs, b) ==> WasAdopted(evs, b))
  }

  lemma HistoryNext(evs: seq<Event>, ev: Event, b: BlobId)
    ensures var all := evs + [ev];
            && (WasAdopted(all, b) <==> WasAdopted(evs, b) || (ev == Save(b) && Keeps(evs, b)))
            && (HasRow(all, b) <==>
                ev != RowDelete(b) && (HasRow(evs, b) || (ev == Save(b) && Keeps(evs, b) && !WasAdopted(evs, b))))
            && (Keeps(all, b) <==>
                  || (ev.Insert? && ev.b == b)
                  || (Keeps(evs, b) && ev != Release(b) && !(ev == Save(b) && RemovesOnSave(evs, b))))
            && forall x :: x in all <==> x in evs || x == ev
  {
    assert (evs + [ev])[..|evs|] == evs;
  }

  lemma HistoryStep(s: Buffer, evs: seq<Event>, ev: Event, b: BlobId)
    requires Told(s, evs, b) && Legal(s, ev)
    ensures Told(Stepped(s, ev), evs + [ev], b)
  {
    hide WasAdopted, HasRow, Keeps;
    HistoryNext(evs, ev, b);
  }

  /** In every run the buffer, the rows and every status are what the events tell. */
  lemma {:induction false} Histories(evs: seq<Event>, b: BlobId)
    requires LegalRun(evs)
    ensures Told(Run(evs), evs, b)
  {
    if evs != [] {
      hide Told, Stepped, Legal;
      var before, ev := evs[..|evs| - 1], evs[|evs| - 1];
      Histories(before, b);
      assert evs == before + [ev];
      HistoryStep(Run(before), before, ev, b);
    }
  }

  /** A BLOB put in to stay is in the buffer exactly until its client lets go of it, whatever
      saves and row deletes come between. So a row delete before that is deferred, and the
      client is told to delete exactly if the BLOB has no row then. */
  lemma {:induction false} KeptUntilRelease(before: seq<Event>, b: BlobId, after: seq<Event>)
    requires LegalRun(before + [Insert(b, false)] + after)
    ensures var evs := before + [Insert(b, false)] + after;
            && (b in Run(evs).pool <==> Release(b) !in after)
            && (Release(b) !in after ==>
                  && Deferred(Run(evs).pool, b)
                  && (NeedToDelete(Run(evs).pool, b) <==> !HasRow(evs, b)))
  {
    hide Keeps, WasAdopted, HasRow;
    var evs := before + [Insert(b, false)] + after;
    Histories(evs, b);
    InsertedOnce(before, Insert(b, false), after);
    KeepsUntil(before, Insert(b, false), after);
    assert Insert(b, true) !in evs;
  }

  /** A BLOB put in to be removed on save is in the buffer exactly until its first save, and
      that save adopts it. */
  lemma {:induction false} KeptUntilSave(before: seq<Event>, b: BlobId, after: seq<Event>)
    requires LegalRun(before + [Insert(b, true)] + after)
    ensures var evs := before + [Insert(b, true)] + after;
            && (b in Run(evs).pool <==> Save(b) !in after)
            && (Save(b) !in after ==> !NeedToCopy(Run(evs).pool, b))
  {
    hide Keeps, WasAdopted, HasRow;
    var evs := before + [Insert(b, true)] + after;
    Histories(evs, b);
    InsertedOnce(before, Insert(b, true), after);
    KeepsUntil(before, Insert(b, true), after);
    assert Insert(b, true) in evs;
  }

  /** The three answers, told from the events: the first save of a BLOB in the buffer need not
      copy; a row delete is deferred while the BLOB is in the buffer; and the client is told to
      delete what is in the buffer without a row. */
  lemma AnswersTold(evs: seq<Event>, b: BlobId)
    requires LegalRun(evs)
    ensures NeedToCopy(Run(evs).pool, b) <==> !(Keeps(evs, b) && !WasAdopted(evs, b))
    ensures Deferred(Run(evs).pool, b) <==> Keeps(evs, b)
    ensures NeedToDelete(Run(evs).pool, b) <==> Keeps(evs, b) && !HasRow(evs, b)
  {
    hide Keeps, WasAdopted, HasRow;
    Histories(evs, b);
  }

  /** What ends the stay of a BLOB in the buffer. */
  function Ending(ev: Event): Event
    requires ev.Insert?
  {
    if ev.removeOnSave then Save(ev.b) else Release(ev.b)
  }

  lemma {:induction false} KeepsUntil(before: seq<Event>, ev: Event, after: seq<Event>)
    requires ev.Insert? && LegalRun(before + [ev] + after)
    requires forall x | x in before || x in after :: x.Insert? ==> x.b != ev.b
    ensures Keeps(before + [ev] + after, ev.b) <==> Ending(ev) !in after
  {
    hide Keeps;
    if after == [] {
      assert before + [ev] + after == before + [ev];
      HistoryNext(before, ev, ev.b);
    } else {
      var front, last := after[..|after| - 1], after[|after| - 1];
      var evs := before + [ev] + front;
      assert after == front + [last] && before + [ev] + after == evs + [last];
      assert (evs + [last])[..|evs|] == evs;
      KeepsUntil(before, ev, front);
      HistoryNext(evs, last, ev.b);
      assert RemovesOnSave(evs, ev.b) <==> ev.removeOnSave;
      Histories(evs, ev.b);
    }
  }

  lemma {:induction false} InsertedOnce(before: seq<Event>, ev: Event, after: seq<Event>)
    requires ev.Insert? && LegalRun(before + [ev] + after)
    ensures forall x | x in before || x in after :: x.Insert? ==> x.b != ev.b
  {
    if after == [] {
      assert before + [ev] + after == before + [ev] && (before + [ev])[..|before|] == before;
      Histories(before, ev.b);
      NotInserted(before, ev.b);
    } else {
      var front, last := after[..|after| - 1], after[|after| - 1];
      var evs := before + [ev] + front;
      assert after == front + [last] && before + [ev] + after == evs + [last];
      assert (evs + [last])[..|evs|] == evs;
      InsertedOnce(before, ev, front);
      Histories(evs, ev.b);
      assert ev in evs && ev == Insert(ev.b, ev.removeOnSave);
    }
  }

  lemma NotInserted(evs: seq<Event>, b: BlobId)
    requires Insert(b, true) !in evs && Insert(b, false) !in evs
    ensures forall x | x in evs :: x.Insert? ==> x.b != b
  {
    forall x | x in evs && x.Insert? ensures x.b != b {
      assert x == Insert(x.b, x.removeOnSave);
    }
  }

  /** A client keeps his BLOB while a row takes it over and is deleted, and is told to delete. */
  lemma ClientDeletesLast()
    ensures var evs := [Insert(7, false), Save(7), RowDelete(7), Release(7)];
            && LegalRun(evs)
            && Run(evs[..2]).rows == {7} && Run(evs[..3]).pool == map[7 := Deleted] && Run(evs[..3]).deletions == map[]
            && Run(evs) == Buffer(map[], {7}, {}, map[7 := 1], map[7 := 1])
  {
    var evs := [Insert(7, false), Save(7), RowDelete(7), Release(7)];
    assert evs[..0] == [] && evs[..4] == evs;
    Unrolled(evs, 0);
    Unrolled(evs, 1);
    Unrolled(evs, 2);
    Unrolled(evs, 3);
  }

  lemma Unrolled(evs: seq<Event>, n: nat)
    requires n < |evs|
    ensures Run(evs[..n + 1]) == Stepped(Run(evs[..n]), evs[n])
    ensures LegalRun(evs[..n + 1]) <==> LegalRun(evs[..n]) && Legal(Run(evs[..n]), evs[n])
  {
    assert evs[..n + 1][..n] == evs[..n];
  }

  // ------------------------------------------------------------------- object

  /** The buffer, with the books on all BLOBs as a ghost. */
  class ReferenceBuffer {
    var pool: Pool
    ghost var books: Buffer

    ghost predicate Valid()
      reads this
    {
      books.pool == pool && forall b: BlobId :: Owned(books, b)
    }

    constructor ()
      ensures Valid() && books == EMPTY
    {
      pool, books := map[], EMPTY;
    }

    /** brb_insert. */
    method InsertRef(b: BlobId, removeOnSave: bool)
      requires Valid() && Legal(books, Insert(b, removeOnSave))
      modifies this
      ensures Valid() && books == Stepped(old(books), Insert(b, removeOnSave))
      ensures Referenced(books, b) && !NeedToCopy(pool, b) && Count(books.adopted, b) == 0
    {
      pool := pool[b := if removeOnSave then RemoveOnSave else NotSaved];
      assert Owned(books, b);
      Book(Insert(b, removeOnSave));
      assert Owned(books, b);
    }

    /** dbe_brb_needtocopy_setsaved: a save that need not copy takes the BLOB over for good. */
    method SaveRef(b: BlobId) returns (needToCopy: bool)
      requires Valid()
      modifies this
      ensures Valid() && books == Stepped(old(books), Save(b))
      ensures if needToCopy then books == old(books)
              else b in books.rows && b !in old(books).rows && Count(books.adopted, b) == 1
      ensures needToCopy == NeedToCopy(old(pool), b) && NeedToCopy(pool, b)
    {
      needToCopy := true;
      if b in pool {
        match pool[b]
        case Saved =>
        case Deleted =>
        case NotSaved =>
          pool := pool[b := Saved];
          needToCopy := false;
        case RemoveOnSave =>
          needToCopy := false;
          pool := pool - {b};
      }
      assert Owned(books, b);
      Book(Save(b));
      assert Owned(books, b);
    }

    /** dbe_brb_defer_delete_va: the row deletes its BLOB itself exactly when the buffer does
        not refer to it any more. */
    method DeferDelete(b: BlobId) returns (defer: bool)
      requires Valid() && Legal(books, RowDelete(b))
      modifies this
      ensures Valid() && books == Stepped(old(books), RowDelete(b))
      ensures defer <==> Referenced(books, b)
      ensures Count(books.deletions, b) == if defer then 0 else 1
    {
      defer := false;
      if b in pool {
        defer := true;
        pool := pool[b := Deleted];
      }
      assert Owned(books, b);
      Book(RowDelete(b));
      assert Owned(books, b);
    }

    /** dbe_brb_needtodelete_remove: the client deletes the BLOB exactly when its own
        reference was the last one. */
    method RemoveRef(b: BlobId) returns (needToDelete: bool)
      requires Valid() && Legal(books, Release(b))
      modifies this
      ensures Valid() && books == Stepped(old(books), Release(b))
      ensures needToDelete <==> Referenced(old(books), b) && !Referenced(books, b)
      ensures b !in pool
    {
      needToDelete := false;
      if b in pool {
        needToDelete := pool[b] == Deleted || pool[b] == NotSaved;
        pool := pool - {b};
      } else {
        assert pool - {b} == pool;
      }
      assert Owned(books, b);
      Book(Release(b));
      assert Owned(books, b);
    }

    /** Enters an event into the books. */
    ghost method Book(ev: Event)
      requires (forall b: BlobId :: Owned(books, b)) && Legal(books, ev) && pool == Stepped(books, ev).pool
      modifies this`books
      ensures Valid() && books == Stepped(old(books), ev)
    {
      forall b: BlobId ensures Owned(Stepped(books, ev), b) {
        assert Owned(books, b) && Owned(books, ev.b);
        StepKept(books, ev, b);
      }
      books := Stepped(books, ev);
    }
  }
}
