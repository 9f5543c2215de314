/**
 The byte formats of dbe/dbe0blobg2.c: integers as they go to disk, the header of a BLOB
 page and the BLOB reference at the end of a v-attribute.
 */
module BlobPage {

  type byte = x: int | 0 <= x < 256

  function Pow256(n: nat): (p: nat)
    ensures p > 0
  {
    if n == 0 then 1 else 256 * Pow256(n - 1)
  }

  /** The `n` low bytes of a number, least significant first. */
  function Put(v: nat, n: nat): (s: seq<byte>)
    ensures |s| == n
  {
    if n == 0 then [] else [v % 256] + Put(v / 256, n - 1)
  }

  function Get(s: seq<byte>): nat {
    if s == [] then 0 else s[0] + 256 * Get(s[1..])
  }

  lemma {:induction false} PutGet(v: nat, n: nat)
    requires v < Pow256(n)
    ensures Get(Put(v, n)) == v
  {
    if n > 0 {
      assert Put(v, n)[1..] == Put(v / 256, n - 1);
      PutGet(v / 256, n - 1);
    }
  }

  const WORD: nat := 0x1_0000_0000
  const DWORD: nat := 0x1_0000_0000_0000_0000

  lemma WordRoundTrip(v: nat)
    ensures v < WORD ==> Get(Put(v, 4)) == v
    ensures v < DWORD ==> Get(Put(v, 8)) == v
  {
    assert Pow256(4) == WORD;
    assert Pow256(8) == 256 * (256 * (256 * (256 * Pow256(4)))) == DWORD;
    if v < WORD {
      PutGet(v, 4);
    }
    if v < DWORD {
      PutGet(v, 8);
    }
  }

  /** A buffer with some bytes overwritten. */
  function Spliced(s: seq<byte>, at: nat, t: seq<byte>): (r: seq<byte>)
    requires at + |t| <= |s|
    ensures |r| == |s|
    ensures forall i | 0 <= i < |s| :: r[i] == if at <= i < at + |t| then t[i - at] else s[i]
  {
    s[..at] + t + s[at + |t|..]
  }

  /** Stores a number byte by byte, as SS_UINT4_STORETODISK and DBE_BLOBG2SIZE_PUTTODISK do. */
  method Store(buf: array<byte>, at: nat, v: nat, n: nat)
    requires at + n <= buf.Length
    modifies buf
    ensures buf[..] == Spliced(old(buf[..]), at, Put(v, n))
  {
    var i, rest := 0, v;
    ghost var want := Put(v, n);
    while i < n
      invariant 0 <= i <= n
      invariant forall k | at <= k < at + i :: buf[k] == want[k - at]
      invariant want[i..] == Put(rest, n - i)
      invariant forall k | 0 <= k < buf.Length && !(at <= k < at + i) :: buf[k] == old(buf[k])
    {
      buf[at + i] := rest % 256;
      assert want[i] == want[i..][0] && want[i + 1..] == want[i..][1..];
      rest, i := rest / 256, i + 1;
    }
  }

  // ------------------------------------------------------------------- page

  const TYPE_OFS: nat := 0
  const CPNUM_OFS: nat := 1
  const NBYTES_OFS: nat := 5
  const ID_OFS: nat := 9
  const STARTOFS_OFS: nat := 17
  const DATA_OFS: nat := 25
  const BLOBG2PAGE: byte := 17

  function PageType(page: seq<byte>): byte
    requires |page| >= DATA_OFS
  {
    page[TYPE_OFS]
  }

  function PageBytes(page: seq<byte>): nat
    requires |page| >= DATA_OFS
  {
    Get(page[NBYTES_OFS..ID_OFS])
  }

  function PageId(page: seq<byte>): nat
    requires |page| >= DATA_OFS
  {
    Get(page[ID_OFS..STARTOFS_OFS])
  }

  function PageStart(page: seq<byte>): nat
    requires |page| >= DATA_OFS
  {
    Get(page[STARTOFS_OFS..DATA_OFS])
  }

  /** The bytes in use of a page. */
  function PageData(page: seq<byte>): (d: seq<byte>) {
    if |page| >= DATA_OFS && PageBytes(page) <= |page| - DATA_OFS then page[DATA_OFS..DATA_OFS + PageBytes(page)]
    else []
  }

  function Header(cpnum: nat, nbytes: nat, id: nat, start: nat): (h: seq<byte>)
    ensures |h| == DATA_OFS
  {
    [BLOBG2PAGE] + Put(cpnum, 4) + Put(nbytes, 4) + Put(id, 8) + Put(start, 8)
  }

  /** wblobg2_putdata: the header goes in front of the data that is already there. */
  function Headed(buf: seq<byte>, cpnum: nat, nbytes: nat, id: nat, start: nat): (page: seq<byte>)
    requires |buf| >= DATA_OFS
    ensures |page| == |buf| && page[DATA_OFS..] == buf[DATA_OFS..]
  {
    Header(cpnum, nbytes, id, start) + buf[DATA_OFS..]
  }

  lemma HeaderFields(cpnum: nat, nbytes: nat, id: nat, start: nat)
    ensures var h := Header(cpnum, nbytes, id, start);
            && h[TYPE_OFS] == BLOBG2PAGE
            && h[CPNUM_OFS..NBYTES_OFS] == Put(cpnum, 4)
            && h[NBYTES_OFS..ID_OFS] == Put(nbytes, 4)
            && h[ID_OFS..STARTOFS_OFS] == Put(id, 8)
            && h[STARTOFS_OFS..DATA_OFS] == Put(start, 8)
            && h[ID_OFS..] == Put(id, 8) + Put(start, 8)
  {
    hide Put;
    var front := [BLOBG2PAGE] + Put(cpnum, 4);
    assert Header(cpnum, nbytes, id, start) == front + (Put(nbytes, 4) + (Put(id, 8) + Put(start, 8)));
  }

  /** Every field of the header reads back, and the data with it. */
  lemma HeaderRoundTrip(buf: seq<byte>, cpnum: nat, nbytes: nat, id: nat, start: nat)
    requires DATA_OFS <= |buf| < WORD && nbytes <= |buf| - DATA_OFS && id < DWORD && start < DWORD
    ensures var page := Headed(buf, cpnum, nbytes, id, start);
            && PageType(page) == BLOBG2PAGE && PageBytes(page) == nbytes
            && (cpnum < WORD ==> Get(page[CPNUM_OFS..NBYTES_OFS]) == cpnum)
            && PageId(page) == id && PageStart(page) == start
            && PageData(page) == buf[DATA_OFS..DATA_OFS + nbytes]
            && page[ID_OFS..DATA_OFS + nbytes] == Put(id, 8) + Put(start, 8) + buf[DATA_OFS..DATA_OFS + nbytes]
  {
    hide Put, Get, Header;
    var h, page := Header(cpnum, nbytes, id, start), Headed(buf, cpnum, nbytes, id, start);
    HeaderFields(cpnum, nbytes, id, start);
    assert page[CPNUM_OFS..NBYTES_OFS] == h[CPNUM_OFS..NBYTES_OFS];
    assert page[NBYTES_OFS..ID_OFS] == h[NBYTES_OFS..ID_OFS];
    assert page[ID_OFS..STARTOFS_OFS] == h[ID_OFS..STARTOFS_OFS];
    assert page[STARTOFS_OFS..DATA_OFS] == h[STARTOFS_OFS..DATA_OFS];
    assert page[DATA_OFS..DATA_OFS + nbytes] == buf[DATA_OFS..DATA_OFS + nbytes];
    assert page[ID_OFS..DATA_OFS + nbytes] == h[ID_OFS..] + buf[DATA_OFS..DATA_OFS + nbytes];
    WordRoundTrip(cpnum);
    WordRoundTrip(nbytes);
    WordRoundTrip(id);
    WordRoundTrip(start);
  }

  /** A header byte by byte: the type, then checkpoint number, byte count, id and start offset,
      each least significant byte first. */
  lemma HeaderBytes()
    ensures Header(0x102, 0x304, 0x506, 0x708) ==
            [17, 2, 1, 0, 0, 4, 3, 0, 0, 6, 5, 0, 0, 0, 0, 0, 0, 8, 7, 0, 0, 0, 0, 0, 0]
  {
    hide Put;
    SmallWord(0x102);
    SmallWord(0x304);
    SmallWord(0x506);
    SmallWord(0x708);
  }

  lemma SmallWord(v: nat)
    requires v < 65536
    ensures Put(v, 4) == [v % 256, v / 256, 0, 0]
    ensures Put(v, 8) == [v % 256, v / 256, 0, 0, 0, 0, 0, 0]
  {
    hide Put;
    PutZeros(8);
    PutByte(v, 4);
    PutByte(v, 8);
    PutByte(v / 256, 3);
    PutByte(v / 256, 7);
    PutZeros(2);
    PutZeros(6);
  }

  lemma PutByte(v: nat, n: nat)
    requires n > 0
    ensures Put(v, n) == [v % 256] + Put(v / 256, n - 1)
  {
  }

  lemma {:induction false} PutZeros(n: nat)
    ensures Put(0, n) == seq(n, i => 0)
  {
    if n > 0 {
      PutZeros(n - 1);
    }
  }

  method PutData(buf: array<byte>, cpnum: nat, nbytes: nat, id: nat, start: nat)
    requires buf.Length >= DATA_OFS
    modifies buf
    ensures buf[..] == Headed(old(buf[..]), cpnum, nbytes, id, start)
  {
    hide Put, Spliced;
    buf[TYPE_OFS] := BLOBG2PAGE;
    Store(buf, CPNUM_OFS, cpnum, 4);
    Store(buf, NBYTES_OFS, nbytes, 4);
    Store(buf, ID_OFS, id, 8);
    Store(buf, STARTOFS_OFS, start, 8);
  }

  // -------------------------------------------------------------- reference

  datatype Ref = Ref(id: nat, size: nat, flags: byte)

  const REF_SIZE: nat := 17
  const FLAG_ISBLOBG2: byte := 0x80

  /** The reference record: id high word, id low word, size low word, flags, size high word. */
  function RefRecord(r: Ref): (s: seq<byte>)
    ensures |s| == REF_SIZE
  {
    Put(r.id / WORD, 4) + Put(r.id % WORD, 4) + Put(r.size % WORD, 4) + [r.flags] + Put(r.size / WORD, 4)
  }

  function LoadRef(data: seq<byte>): Ref
    requires |data| >= REF_SIZE
  {
    var e := |data|;
    Ref(Get(data[e - 17..e - 13]) * WORD + Get(data[e - 13..e - 9]),
        Get(data[e - 4..]) * WORD + Get(data[e - 9..e - 5]),
        data[e - 5])
  }

  /** dbe_brefg2_isblobg2check_from_diskbuf: the flag bit of a stored reference. */
  predicate IsBlobG2(data: seq<byte>)
    requires |data| >= REF_SIZE
  {
    data[|data| - 5] / FLAG_ISBLOBG2 % 2 == 1
  }

  /** Storing a reference at the end of any buffer and loading it gives the reference back;
      nothing before it is touched, and it is taken for a G2 reference if and only if its
      highest flag is set. */
  lemma RefRoundTrip(data: seq<byte>, r: Ref)
    requires |data| >= REF_SIZE && r.id < DWORD && r.size < DWORD
    ensures var stored := data[..|data| - REF_SIZE] + RefRecord(r);
            && LoadRef(stored) == r && |stored| == |data|
            && stored[..|data| - REF_SIZE] == data[..|data| - REF_SIZE]
            && (IsBlobG2(stored) <==> r.flags >= 128)
  {
    hide Put, Get;
    var stored := data[..|data| - REF_SIZE] + RefRecord(r);
    var e := |stored|;
    assert stored[e - 17..e - 13] == Put(r.id / WORD, 4);
    assert stored[e - 13..e - 9] == Put(r.id % WORD, 4);
    assert stored[e - 9..e - 5] == Put(r.size % WORD, 4);
    assert stored[e - 5] == r.flags;
    assert stored[e - 4..] == Put(r.size / WORD, 4);
    WordRoundTrip(r.id / WORD);
    WordRoundTrip(r.id % WORD);
    WordRoundTrip(r.size / WORD);
    WordRoundTrip(r.size % WORD);
  }

  /** A reference byte by byte: the high half of the id in front of the low half, the low half
      of the size, the flags, and the high half of the size at the end. */
  lemma RefBytes()
    ensures RefRecord(Ref(0x102 * WORD + 0x304, 0x506 * WORD + 0x708, 0x80)) ==
            [2, 1, 0, 0, 4, 3, 0, 0, 8, 7, 0, 0, 128, 6, 5, 0, 0]
  {
    hide Put;
    SmallWord(0x102);
    SmallWord(0x304);
    SmallWord(0x506);
    SmallWord(0x708);
  }

  method StoreRef(r: Ref, data: array<byte>)
    requires data.Length >= REF_SIZE
    modifies data
    ensures data[..] == old(data[..data.Length - REF_SIZE]) + RefRecord(r)
  {
    hide Put, Spliced;
    var e := data.Length;
    Store(data, e - 13, r.id % WORD, 4);
    Store(data, e - 17, r.id / WORD, 4);
    Store(data, e - 9, r.size % WORD, 4);
    Store(data, e - 4, r.size / WORD, 4);
    data[e - 5] := r.flags;
  }
}
