/**
 Loading the main-memory pages of a database (the address loop of dbe_db_loadmme in
 dbe/dbe0db.c): while one array of addresses is read page by page, the other is prefetched.
 */
module MmeLoad {

  type Daddr = int

  /** mme_storage_getaddressesfromdirpage: the next addresses of a directory page, as many as
      fit. It says there are more if there are, and may say so (`coy`) when the array was
      filled with the last of them. */
  method Fetch(addrs: seq<Daddr>, npos: nat, out: array<Daddr>, size: nat, coy: bool) returns (n: nat, cont: bool)
    requires npos <= |addrs| && 0 < size <= out.Length
    modifies out
    ensures n <= size && npos + n <= |addrs| && Holds(out, n, addrs, npos)
    ensures forall k | n <= k < out.Length :: out[k] == old(out[k])
    ensures cont ==> n == size
    ensures !cont ==> npos + n == |addrs|
    ensures n == 0 ==> !cont
  {
    n := if |addrs| - npos < size then |addrs| - npos else size;
    var i := 0;
    while i < n
      invariant 0 <= i <= n
      invariant forall k | 0 <= k < i :: out[k] == addrs[npos + k]
      invariant forall k | i <= k < out.Length :: out[k] == old(out[k])
    {
      out[i] := addrs[npos + i];
      i := i + 1;
    }
    cont := npos + n < |addrs| || (coy && n == size);
  }

  /** The array starts with the `n` addresses from position `at` on. */
  ghost predicate Holds(a: array<Daddr>, n: nat, addrs: seq<Daddr>, at: nat)
    reads a
  {
    n <= a.Length && at + n <= |addrs| && forall i | 0 <= i < n :: a[i] == addrs[at + i]
  }

  /** Reads the pages of an array, one after the other. */
  method ReadPages(from: array<Daddr>, n: nat, done: seq<Daddr>, ghost addrs: seq<Daddr>) returns (loaded: seq<Daddr>)
    requires done <= addrs && Holds(from, n, addrs, |done|)
    ensures loaded <= addrs && |loaded| == |done| + n
  {
    loaded := done;
    var i := 0;
    while i < n
      invariant 0 <= i <= n
      invariant loaded <= addrs && |loaded| == |done| + i
    {
      loaded := loaded + [from[i]];
      i := i + 1;
    }
  }

  datatype State = First | Even | Odd

  /** The two halves of a full first batch. */
  method Divide(one: array<Daddr>, two: array<Daddr>, split: nat, ghost addrs: seq<Daddr>)
    requires one != two && one.Length == 2 * split && two.Length == split && Holds(one, 2 * split, addrs, 0)
    modifies two
    ensures Holds(one, split, addrs, 0) && Holds(two, split, addrs, split)
  {
    var i := 0;
    while i < split
      invariant 0 <= i <= split
      invariant forall k | 0 <= k < i :: two[k] == addrs[split + k]
    {
      two[i] := one[split + i];
      i := i + 1;
    }
  }

  /** The first batch fills the large array; a full one is shared with the small array. */
  method FirstBatch(addrs: seq<Daddr>, one: array<Daddr>, two: array<Daddr>, half: nat, coy: bool)
    returns (n1: nat, n2: nat, cont: bool)
    requires half > 0 && one != two && one.Length == 2 * half && two.Length == half
    modifies one, two
    ensures n1 + n2 <= |addrs| && Holds(one, n1, addrs, 0) && Holds(two, n2, addrs, n1)
    ensures if cont then n1 == n2 == half else n2 == 0 && n1 == |addrs|
  {
    n2 := 0;
    n1, cont := Fetch(addrs, 0, one, 2 * half, coy);
    if cont {
      Divide(one, two, half, addrs);
      n1, n2 := half, half;
    }
  }

  /** One directory page. Every address is loaded exactly once and in order, the arrays are
      never overrun, and `ahead`, the largest number of pages prefetched and not yet read, is
      at most the size of the first array. */
  method LoadPage(addrs: seq<Daddr>, half: nat, coy: bool) returns (loaded: seq<Daddr>, ahead: nat)
    requires half > 0
    ensures loaded == addrs
    ensures ahead <= 2 * half
  {
    var one, two := new Daddr[2 * half], new Daddr[half];
    hide Holds;
    var size: nat, npos: nat, n1: nat, n2: nat := 2 * half, 0, 0, 0;
    var cont, endloop, state := true, false, First;
    loaded, ahead := [], 0;
    while !endloop
      invariant npos <= |addrs| && n1 <= 2 * half && n2 <= half && ahead <= 2 * half
      invariant loaded <= addrs
      invariant if state == First then cont && npos == 0 && loaded == [] && size == 2 * half && !endloop
                else size == half || endloop
      invariant !cont ==> npos == |addrs|
      invariant endloop ==> |loaded| == |addrs|
      invariant !endloop && state == Even ==> npos == |loaded| + n2 && Holds(two, n2, addrs, |loaded|)
      invariant !endloop && state == Odd ==> n1 <= half && npos == |loaded| + n1 && Holds(one, n1, addrs, |loaded|)
      decreases |addrs| - npos, cont, !endloop
    {
      var firstbatch := state == First;
      var prefetch := if state == Odd then two else one;
      var reach := if state == Even then two else one;
      state := if state == Even then Odd else Even;
      if cont {
        if firstbatch {
          n1, n2, cont := FirstBatch(addrs, one, two, half, coy);
          npos := n1 + n2;
          size := half;
          endloop := !cont;
        } else if prefetch == one {
          n1, cont := Fetch(addrs, npos, one, size, coy);
          npos := npos + n1;
        } else {
          n2, cont := Fetch(addrs, npos, two, size, coy);
          npos := npos + n2;
        }
        if npos - |loaded| > ahead {
          ahead := npos - |loaded|;
        }
      } else {
        endloop := true;
      }
      loaded := ReadPages(reach, if reach == one then n1 else n2, loaded, addrs);
    }
  }

  function Flat(pages: seq<seq<Daddr>>): seq<Daddr> {
    if pages == [] then [] else Flat(pages[..|pages| - 1]) + pages[|pages| - 1]
  }

  /** The whole chain of directory pages, for a cache of `nslots` slots. */
  method Load(pages: seq<seq<Daddr>>, nslots: nat, coy: nat -> bool) returns (loaded: seq<Daddr>)
    requires nslots >= 2
    ensures loaded == Flat(pages)
  {
    var arraySize := nslots / 2;
    if arraySize % 2 != 0 {
      arraySize := arraySize + 1;
    }
    loaded := [];
    var i := 0;
    while i < |pages|
      invariant 0 <= i <= |pages|
      invariant loaded == Flat(pages[..i])
    {
      var some, _ := LoadPage(pages[i], arraySize / 2, coy(i));
      assert pages[..i + 1][..i] == pages[..i];
      loaded := loaded + some;
      i := i + 1;
    }
    assert pages[..i] == pages;
  }
}
