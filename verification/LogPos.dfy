/**
 Log positions of dbe/dbe0catchup.c: values, order, binary and text form.
 */
module LogPos {
  import opened BlobPage

  datatype LogPos = LogPos(id: nat, role: nat, fnum: nat, daddr: nat, bufpos: nat)

  const ROLE_NONE: nat := 100

  const NULLPOS := LogPos(0, ROLE_NONE, 0, 0, 0)

  // -------------------------------------------------------------- binary form

  const BINSIZE: nat := 21

  predicate InRange(lp: LogPos) {
    lp.id < DWORD && lp.role < 256 && lp.fnum < WORD && lp.daddr < WORD && lp.bufpos < WORD
  }

  function Binary(lp: LogPos): (s: seq<byte>)
    requires lp.role < 256
    ensures |s| == BINSIZE
  {
    Put(lp.id, 8) + [lp.role] + Put(lp.fnum, 4) + Put(lp.daddr, 4) + Put(lp.bufpos, 4)
  }

  function FromBinary(s: seq<byte>): LogPos
    requires |s| == BINSIZE
  {
    LogPos(Get(s[..8]), s[8], Get(s[9..13]), Get(s[13..17]), Get(s[17..]))
  }

  /** The binary form byte by byte: id, role, file number, block address and position. */
  lemma BinaryBytes()
    ensures Binary(LogPos(0x102, 103, 0x304, 0x506, 0x708)) ==
            [2, 1, 0, 0, 0, 0, 0, 0, 103, 4, 3, 0, 0, 6, 5, 0, 0, 8, 7, 0, 0]
  {
    hide Put;
    SmallWord(0x102);
    SmallWord(0x304);
    SmallWord(0x506);
    SmallWord(0x708);
  }

  lemma BinaryRoundTrip(lp: LogPos)
    requires InRange(lp)
    ensures FromBinary(Binary(lp)) == lp
  {
    hide Put, Get;
    var s := Binary(lp);
    assert s[..8] == Put(lp.id, 8);
    assert s[9..13] == Put(lp.fnum, 4);
    assert s[13..17] == Put(lp.daddr, 4);
    assert s[17..] == Put(lp.bufpos, 4);
    WordRoundTrip(lp.id);
    WordRoundTrip(lp.fnum);
    WordRoundTrip(lp.daddr);
    WordRoundTrip(lp.bufpos);
  }

  // ---------------------------------------------------------------- order

  /** dbe_catchup_logpos_cmp: file number, then block, then position in the block. */
  function Cmp(a: LogPos, b: LogPos): (r: int)
    ensures r == -1 || r == 0 || r == 1
  {
    Sign(if a.fnum != b.fnum then a.fnum - b.fnum
         else if a.daddr != b.daddr then a.daddr - b.daddr
         else a.bufpos - b.bufpos)
  }

  function Sign(d: int): int {
    if d < 0 then -1 else if d > 0 then 1 else 0
  }

  /** The eight bytes of an id as the signed number SsInt8Cmp takes them for. */
  function Signed(id: nat): int {
    if id < LONG_LIMIT then id else id - DWORD
  }

  /** dbe_catchup_logpos_idcmp: null comes before everything, the rest by id. */
  function IdCmp(a: LogPos, b: LogPos): (r: int)
    ensures r == -1 || r == 0 || r == 1
  {
    if a == NULLPOS && b == NULLPOS then 0
    else if a == NULLPOS then -1
    else if b == NULLPOS then 1
    else Sign(Signed(a.id) - Signed(b.id))
  }

  /** Both are total orders: antisymmetric and transitive, and equal means what it should. */
  lemma Orders(a: LogPos, b: LogPos, c: LogPos)
    requires a.id < DWORD && b.id < DWORD
    ensures Cmp(a, b) == -Cmp(b, a) && IdCmp(a, b) == -IdCmp(b, a)
    ensures Cmp(a, b) <= 0 && Cmp(b, c) <= 0 ==> Cmp(a, c) <= 0
    ensures IdCmp(a, b) <= 0 && IdCmp(b, c) <= 0 ==> IdCmp(a, c) <= 0
    ensures a.fnum < b.fnum ==> Cmp(a, b) == -1
    ensures a.fnum == b.fnum && a.daddr < b.daddr ==> Cmp(a, b) == -1
    ensures a.fnum == b.fnum && a.daddr == b.daddr && a.bufpos < b.bufpos ==> Cmp(a, b) == -1
    ensures a == NULLPOS && b != NULLPOS ==> IdCmp(a, b) == -1
    ensures a != NULLPOS && b != NULLPOS && a.id < b.id ==>
              IdCmp(a, b) == if a.id < 0x8000_0000_0000_0000 <= b.id then 1 else -1
    ensures Cmp(a, b) == 0 <==> a.fnum == b.fnum && a.daddr == b.daddr && a.bufpos == b.bufpos
    ensures IdCmp(a, b) == 0 <==> a == b == NULLPOS || (a != NULLPOS && b != NULLPOS && a.id == b.id)
  {
  }

  // ------------------------------------------------------------------ text form

  const INT_LIMIT: nat := 0x8000_0000
  const LONG_LIMIT: nat := 0x8000_0000_0000_0000

  const BLANKS := " \t\n\r\U{000B}\U{000C}"

  predicate IsDigit(c: char, hex: bool) {
    '0' <= c <= '9' || (hex && ('a' <= c <= 'f' || 'A' <= c <= 'F'))
  }

  function Base(hex: bool): nat {
    if hex then 16 else 10
  }

  function DigitChar(d: nat): (c: char)
    requires d < 10
    ensures IsDigit(c, false) && DigitValue(c, false) == d
  {
    '0' + d as char
  }

  function DigitValue(c: char, hex: bool): (d: nat)
    requires IsDigit(c, hex)
    ensures d < Base(hex)
  {
    if c <= '9' then (c - '0') as nat else if c <= 'F' then 10 + (c - 'A') as nat else 10 + (c - 'a') as nat
  }

  /** A number in decimal, filled with zeros on the left up to `width`. */
  function Padded(v: nat, width: nat): (s: string)
    ensures |s| >= width && |s| >= 1
    ensures forall c | c in s :: IsDigit(c, false)
    decreases width, v
  {
    if v < 10 && width <= 1 then [DigitChar(v)]
    else Padded(v / 10, if width == 0 then 0 else width - 1) + [DigitChar(v % 10)]
  }

  /** The value of a string of digits. */
  function Value(s: string, hex: bool): nat
    requires forall c | c in s :: IsDigit(c, hex)
  {
    if s == [] then 0
    else
      assert s[|s| - 1] in s;
      Base(hex) * Value(s[..|s| - 1], hex) + DigitValue(s[|s| - 1], hex)
  }

  lemma {:induction false} PaddedValue(v: nat, width: nat)
    ensures Value(Padded(v, width), false) == v
    decreases width, v
  {
    if v < 10 && width <= 1 {
      assert [DigitChar(v)][..0] == [];
    } else {
      PaddedValue(v / 10, if width == 0 then 0 else width - 1);
    }
  }

  /** Four bytes as the signed number the format %d takes them for. */
  function AsInt(v: nat): int {
    if v < INT_LIMIT then v else v - WORD
  }

  /** Four bytes in the format %0<width>d. */
  function PrintedInt(v: nat, width: nat): (s: string)
    requires v < WORD
    ensures |s| >= 1
  {
    if v < INT_LIMIT then Padded(v, width) else "-" + Padded(WORD - v, if width == 0 then 0 else width - 1)
  }

  /** dbe_catchup_logpos_to_string. */
  function Printed(lp: LogPos): string
    requires InRange(lp)
  {
    Padded(lp.id, 21) + ":" + PrintedInt(lp.role, 1) + ":" + PrintedInt(lp.fnum, 4) + ":" +
    PrintedInt(lp.daddr, 10) + ":" + PrintedInt(lp.bufpos, 6)
  }

  /** How many digits stand at position `i`. */
  function DigitRun(s: string, i: nat, hex: bool): (n: nat)
    requires i <= |s|
    ensures i + n <= |s|
    ensures forall c | c in s[i..i + n] :: IsDigit(c, hex)
    decreases |s| - i
  {
    if i < |s| && IsDigit(s[i], hex) then
      var n := 1 + DigitRun(s, i + 1, hex);
      assert s[i..i + n] == [s[i]] + s[i + 1..i + n];
      n
    else 0
  }

  datatype Scan = NoNumber | Number(value: int, next: nat)

  function SkipSpace(s: string, i: nat): (j: nat)
    requires i <= |s|
    ensures i <= j <= |s|
    decreases |s| - i
  {
    if i < |s| && s[i] in BLANKS then SkipSpace(s, i + 1) else i
  }

  predicate Negative(s: string, j: nat) {
    j < |s| && s[j] == '-'
  }

  predicate HasSign(s: string, j: nat) {
    j < |s| && (s[j] == '-' || s[j] == '+')
  }

  predicate HasPrefix(s: string, j: nat) {
    j + 1 < |s| && s[j] == '0' && (s[j + 1] == 'x' || s[j + 1] == 'X')
  }

  /** A magnitude with its sign, if a signed 64-bit number can hold it. */
  function Fitting(v: nat, negative: bool, next: nat): Scan {
    if v < LONG_LIMIT || (negative && v == LONG_LIMIT) then Number(if negative then -(v as int) else v, next)
    else NoNumber
  }

  /** SsStrScanInt8: blanks, a sign, digits; a value that does not fit is no number. */
  function ScannedInt8(s: string, i: nat): (r: Scan)
    requires i <= |s|
    ensures r.Number? ==> i <= r.next <= |s|
  {
    var j := SkipSpace(s, i);
    var k := if HasSign(s, j) then j + 1 else j;
    var n := DigitRun(s, k, false);
    if n == 0 then NoNumber else Fitting(Value(s[k..k + n], false), Negative(s, j), k + n)
  }

  /** SsStrScanLong: blanks, then a sign and digits or 0x and hexadecimal digits. The value is
      computed modulo 2^64, and what does not fit after that is no number. */
  function ScannedLong(s: string, i: nat): (r: Scan)
    requires i <= |s|
    ensures r.Number? ==> i <= r.next <= |s|
  {
    var j := SkipSpace(s, i);
    var hex := HasPrefix(s, j);
    var k := if HasSign(s, j) then j + 1 else if hex then j + 2 else j;
    var n := DigitRun(s, k, hex);
    if n == 0 then NoNumber else Fitting(Value(s[k..k + n], hex) % DWORD, Negative(s, j), k + n)
  }

  /** A number that must be followed by a colon. */
  function Field(s: string, r: Scan): (f: Scan)
    ensures f.Number? ==> f.next < |s|
  {
    if r.Number? && r.next < |s| && s[r.next] == ':' then r else NoNumber
  }

  /** Scanned numbers in the fields of a position: an eight-byte id, role, file number and
      block address of four bytes, and a size_t. */
  function Narrowed(id: int, role: int, fnum: int, daddr: int, bufpos: int): LogPos {
    LogPos(id % DWORD, role % WORD, fnum % WORD, daddr % WORD, bufpos % DWORD)
  }

  /** dbe_catchup_logpos_init_from_string: the null position unless all fields are there and
      the file number is positive. */
  function Parsed(s: string): LogPos {
    var id := Field(s, ScannedInt8(s, 0));
    if id.NoNumber? then NULLPOS
    else
      var role := Field(s, ScannedLong(s, id.next + 1));
      if role.NoNumber? then NULLPOS
      else
        var fnum := Field(s, ScannedLong(s, role.next + 1));
        if fnum.NoNumber? then NULLPOS
        else
          var daddr := Field(s, ScannedLong(s, fnum.next + 1));
          if daddr.NoNumber? then NULLPOS
          else
            var bufpos := ScannedLong(s, daddr.next + 1);
            if bufpos.NoNumber? || bufpos.next != |s| || fnum.value <= 0 then NULLPOS
            else Narrowed(id.value, role.value, fnum.value, daddr.value, bufpos.value)
  }

  // ------------------------------------------------------------------ round trip

  /** Digits between other text are found and read whole. */
  lemma {:induction false} DigitsFound(pre: string, ds: string, post: string)
    requires (forall c | c in ds :: IsDigit(c, false)) && (post == [] || !IsDigit(post[0], false))
    ensures DigitRun(pre + ds + post, |pre|, false) == |ds|
    decreases |ds|
  {
    var s := pre + ds + post;
    if ds != [] {
      assert ds[0] in ds;
      var pre', ds' := pre + [ds[0]], ds[1..];
      assert s == pre' + ds' + post;
      assert forall c | c in ds' :: c in ds;
      DigitsFound(pre', ds', post);
    }
  }

  /** Digits with no blank in front, and no sign but perhaps a minus. */
  lemma LongScanned(s: string, i: nat, negative: bool, n: nat)
    requires i + (if negative then 1 else 0) <= |s| && SkipSpace(s, i) == i
    requires if negative then s[i] == '-' else !HasSign(s, i) && !HasPrefix(s, i)
    requires var k := if negative then i + 1 else i;
             n > 0 && DigitRun(s, k, false) == n && Value(s[k..k + n], false) < LONG_LIMIT
    ensures var k := if negative then i + 1 else i;
            var v := Value(s[k..k + n], false);
            ScannedLong(s, i) == Number(if negative then -(v as int) else v, k + n)
  {
    hide DigitRun, SkipSpace, Value;
  }

  lemma Int8Scanned(s: string, i: nat, n: nat)
    requires i <= |s| && SkipSpace(s, i) == i && !HasSign(s, i) && n > 0 && DigitRun(s, i, false) == n
    ensures ScannedInt8(s, i) == Fitting(Value(s[i..i + n], false), false, i + n)
  {
    hide DigitRun, SkipSpace, Value, Fitting;
  }

  /** No blank, sign or prefix in front of digits. */
  lemma NumberStarts(pre: string, ds: string, post: string)
    requires ds != [] && (forall c | c in ds :: IsDigit(c, false)) && (post == [] || post[0] == ':')
    ensures var s := pre + ds + post;
            SkipSpace(s, |pre|) == |pre| && !HasSign(s, |pre|) && !HasPrefix(s, |pre|)
  {
    var s := pre + ds + post;
    assert s[|pre|] == ds[0] && ds[0] in ds;
    if |ds| > 1 {
      assert s[|pre| + 1] == ds[1] && ds[1] in ds;
    } else {
      assert |post| > 0 ==> s[|pre| + 1] == post[0];
    }
  }

  lemma DigitsRead(pre: string, v: nat, width: nat, post: string)
    requires v < LONG_LIMIT && (post == [] || post[0] == ':')
    ensures ScannedLong(pre + Padded(v, width) + post, |pre|) == Number(v, |pre| + |Padded(v, width)|)
  {
    hide Padded, Value, ScannedLong, DigitRun, SkipSpace, HasSign, HasPrefix;
    DigitsAt(pre, v, width, post);
    NumberStarts(pre, Padded(v, width), post);
    LongScanned(pre + Padded(v, width) + post, |pre|, false, |Padded(v, width)|);
  }

  lemma MinusRead(pre: string, v: nat, width: nat, post: string)
    requires v < LONG_LIMIT && (post == [] || post[0] == ':')
    ensures ScannedLong(pre + "-" + Padded(v, width) + post, |pre|) ==
            Number(-(v as int), |pre| + 1 + |Padded(v, width)|)
  {
    hide Padded, Value, ScannedLong, DigitRun, HasSign, HasPrefix;
    var s := pre + "-" + Padded(v, width) + post;
    assert s[|pre|] == '-';
    DigitsAt(pre + "-", v, width, post);
    LongScanned(s, |pre|, true, |Padded(v, width)|);
  }

  /** The scanner finds a printed number and stops behind it. */
  lemma IntFound(pre: string, v: nat, width: nat, post: string)
    requires v < WORD && (post == [] || post[0] == ':')
    ensures var s := pre + PrintedInt(v, width) + post;
            ScannedLong(s, |pre|) == Number(AsInt(v), |pre| + |PrintedInt(v, width)|)
  {
    hide Padded, ScannedLong;
    if v < INT_LIMIT {
      DigitsRead(pre, v, width, post);
    } else {
      var w := if width == 0 then 0 else width - 1;
      assert pre + PrintedInt(v, width) + post == pre + "-" + Padded(WORD - v, w) + post;
      MinusRead(pre, WORD - v, w, post);
    }
  }

  lemma DigitsAt(pre: string, v: nat, width: nat, post: string)
    requires post == [] || post[0] == ':'
    ensures var s, n := pre + Padded(v, width) + post, |Padded(v, width)|;
            DigitRun(s, |pre|, false) == n && Value(s[|pre|..|pre| + n], false) == v
  {
    hide Padded, Value, DigitRun;
    var ds := Padded(v, width);
    DigitsFound(pre, ds, post);
    assert (pre + ds + post)[|pre|..|pre| + |ds|] == ds;
    PaddedValue(v, width);
  }

  lemma IdFound(s: string, v: nat, post: string)
    requires s == Padded(v, 21) + ":" + post
    ensures Field(s, ScannedInt8(s, 0)) == if v < LONG_LIMIT then Number(v, |Padded(v, 21)|) else NoNumber
  {
    hide Padded, Value, ScannedInt8;
    assert s == [] + Padded(v, 21) + (":" + post);
    DigitsAt([], v, 21, ":" + post);
    NumberStarts([], Padded(v, 21), ":" + post);
    Int8Scanned(s, 0, |Padded(v, 21)|);
  }

  lemma FieldFound(s: string, pre: string, v: nat, width: nat, post: string)
    requires v < WORD && s == pre + PrintedInt(v, width) + ":" + post
    ensures |pre| <= |s| && Field(s, ScannedLong(s, |pre|)) == Number(AsInt(v), |pre| + |PrintedInt(v, width)|)
    ensures s == (pre + PrintedInt(v, width) + ":") + post
  {
    hide ScannedLong, PrintedInt;
    IntFound(pre, v, width, ":" + post);
    assert s == pre + PrintedInt(v, width) + (":" + post);
  }

  lemma ScanFields(lp: LogPos)
    requires InRange(lp)
    ensures Parsed(Printed(lp)) ==
            if lp.id < LONG_LIMIT && AsInt(lp.fnum) > 0 then
              Narrowed(lp.id, AsInt(lp.role), AsInt(lp.fnum), AsInt(lp.daddr), AsInt(lp.bufpos))
            else NULLPOS
  {
    hide ScannedInt8, ScannedLong, Padded, PrintedInt, Field, AsInt, Narrowed;
    var s := Printed(lp);
    var id, role, fnum := Padded(lp.id, 21), PrintedInt(lp.role, 1), PrintedInt(lp.fnum, 4);
    var daddr, bufpos := PrintedInt(lp.daddr, 10), PrintedInt(lp.bufpos, 6);
    var r3 := daddr + ":" + bufpos;
    var r2 := fnum + ":" + r3;
    var r1 := role + ":" + r2;
    assert s == id + ":" + r1;
    IdFound(s, lp.id, r1);
    var p1 := id + ":";
    assert s == p1 + role + ":" + r2;
    FieldFound(s, p1, lp.role, 1, r2);
    var p2 := p1 + role + ":";
    assert s == p2 + fnum + ":" + r3;
    FieldFound(s, p2, lp.fnum, 4, r3);
    var p3 := p2 + fnum + ":";
    assert s == p3 + daddr + ":" + bufpos;
    FieldFound(s, p3, lp.daddr, 10, bufpos);
    var p4 := p3 + daddr + ":";
    assert s == p4 + bufpos + [];
    IntFound(p4, lp.bufpos, 6, []);
  }

  lemma NarrowedBack(v: nat)
    requires v < WORD
    ensures AsInt(v) % WORD == v
    ensures AsInt(v) % DWORD == v <==> v < INT_LIMIT
  {
    if v >= INT_LIMIT {
      assert (v - WORD + WORD) % WORD == v;
      assert (v - WORD + DWORD) % DWORD == v - WORD + DWORD;
    }
  }

  /** Of all positions the fields can hold, printing one and reading it back returns it if and
      only if it is the null position, or the file number is positive as a signed number, the
      id and the position in the block are not negative as signed ones. */
  lemma {:induction false} TextRoundTrip(lp: LogPos)
    requires InRange(lp)
    ensures Parsed(Printed(lp)) == lp <==>
            lp == NULLPOS || (lp.id < LONG_LIMIT && 0 < lp.fnum < INT_LIMIT && lp.bufpos < INT_LIMIT)
  {
    hide Parsed, Printed;
    ScanFields(lp);
    NarrowedBack(lp.role);
    NarrowedBack(lp.fnum);
    NarrowedBack(lp.daddr);
    NarrowedBack(lp.bufpos);
  }

  /** A position outside any log file is not read back. */
  lemma NoFileLost()
    ensures var lp := LogPos(7, ROLE_NONE, 0, 3, 4);
            InRange(lp) && lp != NULLPOS && Parsed(Printed(lp)) == NULLPOS == LogPos(0, 100, 0, 0, 0)
  {
    hide Parsed, Printed;
    ScanFields(LogPos(7, ROLE_NONE, 0, 3, 4));
  }

  // ------------------------------------------------------------------- examples

  function Pow10(n: nat): (p: nat)
    ensures p > 0
  {
    if n == 0 then 1 else 10 * Pow10(n - 1)
  }

  lemma {:induction false} PaddedWidth(v: nat, w: nat)
    requires w > 0 && v < Pow10(w)
    ensures |Padded(v, w)| == w
    decreases w
  {
    if w > 1 {
      PaddedWidth(v / 10, w - 1);
    }
  }

  lemma PowersOfTen()
    ensures Pow10(3) == 1_000 && Pow10(4) == 1_0000 && Pow10(6) == 1_000_000 && Pow10(10) == 10_000_000_000
    ensures Pow10(21) > DWORD
  {
    assert Pow10(10) == 10_000 * Pow10(6);
    assert Pow10(16) == 1_000_000 * Pow10(10);
    assert Pow10(21) == 100_000 * Pow10(16);
  }

  /** The digits between two places of a text say a number. */
  predicate Says(s: string, i: nat, j: nat, v: nat) {
    i <= j <= |s| && (forall c | c in s[i..j] :: IsDigit(c, false)) && Value(s[i..j], false) == v
  }

  /** A position in print, as long as the numbers are not larger than their places: 21, 3, 4, 10
      and 6 digits with colons between them. */
  lemma PrintedShape(lp: LogPos)
    requires InRange(lp) && 100 <= lp.role
    requires lp.fnum < 1_0000 && lp.daddr < 0x8000_0000 && lp.bufpos < 1_000_000
    ensures var s := Printed(lp);
            && |s| == 48 && s[21] == s[25] == s[30] == s[41] == ':'
            && Says(s, 0, 21, lp.id) && Says(s, 22, 25, lp.role) && Says(s, 26, 30, lp.fnum)
            && Says(s, 31, 41, lp.daddr) && Says(s, 42, 48, lp.bufpos)
  {
    PowersOfTen();
    RoleWidth(lp.role);
    hide Padded, Value, Pow10, IsDigit;
    var id, role, fnum := Padded(lp.id, 21), Padded(lp.role, 1), Padded(lp.fnum, 4);
    var daddr, bufpos := Padded(lp.daddr, 10), Padded(lp.bufpos, 6);
    PaddedWidth(lp.id, 21);
    PaddedWidth(lp.fnum, 4);
    PaddedWidth(lp.daddr, 10);
    PaddedWidth(lp.bufpos, 6);
    PaddedValue(lp.id, 21);
    PaddedValue(lp.role, 1);
    PaddedValue(lp.fnum, 4);
    PaddedValue(lp.daddr, 10);
    PaddedValue(lp.bufpos, 6);
    assert Printed(lp) == id + ":" + role + ":" + fnum + ":" + daddr + ":" + bufpos;
    Joined(id, role, fnum, daddr, bufpos);
  }

  lemma Joined(id: string, role: string, fnum: string, daddr: string, bufpos: string)
    requires |id| == 21 && |role| == 3 && |fnum| == 4 && |daddr| == 10 && |bufpos| == 6
    ensures var s := id + ":" + role + ":" + fnum + ":" + daddr + ":" + bufpos;
            && |s| == 48 && s[21] == s[25] == s[30] == s[41] == ':'
            && s[0..21] == id && s[22..25] == role && s[26..30] == fnum && s[31..41] == daddr && s[42..48] == bufpos
  {
  }

  lemma RoleWidth(v: nat)
    requires 100 <= v < 256
    ensures |Padded(v, 1)| == 3
  {
    assert 10 <= v / 10 < 26 && 1 <= v / 10 / 10 < 10;
    assert |Padded(v / 10 / 10, 0)| == 1 && |Padded(v / 10, 0)| == 2;
  }

  /** A number whose signed form is negative has its sign in the first of its places. */
  lemma MinusShape(v: nat)
    requires 0x8000_0000 <= v < WORD
    ensures var s := PrintedInt(v, 10);
            s[0] == '-' && |s| >= 10 && Says(s, 1, |s|, 0x1_0000_0000 - v) && (v > 0xC465_3600 ==> |s| == 10)
  {
    PaddedValue(WORD - v, 9);
    hide Value, IsDigit;
    var s := PrintedInt(v, 10);
    assert s[1..|s|] == Padded(WORD - v, 9);
    if v > 0xC465_3600 {
      assert Pow10(9) == 1_000_000_000 by {
        assert Pow10(9) == 1000 * Pow10(6);
      }
      PaddedWidth(WORD - v, 9);
    }
  }

  lemma ValueMore(s: string, c: char, hex: bool)
    requires IsDigit(c, hex) && forall x | x in s :: IsDigit(x, hex)
    ensures forall x | x in s + [c] :: IsDigit(x, hex)
    ensures Value(s + [c], hex) == (if hex then 16 else 10) * Value(s, hex) + DigitValue(c, hex)
  {
    assert (s + [c])[..|s|] == s;
  }

  /** What the digits are worth. */
  lemma DigitsWorth(c: char)
    ensures '0' <= c <= '9' ==> DigitValue(c, false) == DigitValue(c, true) == (c - '0') as int
    ensures 'a' <= c <= 'f' ==> DigitValue(c, true) == 10 + (c - 'a') as int
    ensures 'A' <= c <= 'F' ==> DigitValue(c, true) == 10 + (c - 'A') as int
    ensures IsDigit(c, false) <==> '0' <= c <= '9'
    ensures IsDigit(c, true) <==> '0' <= c <= '9' || 'a' <= c <= 'f' || 'A' <= c <= 'F'
  {
  }

  lemma TwoDigits(s: string, i: nat, x: char, y: char, hex: bool)
    requires i + 2 <= |s| && s[i] == x && s[i + 1] == y && IsDigit(x, hex) && IsDigit(y, hex)
    requires i + 2 < |s| ==> !IsDigit(s[i + 2], hex)
    ensures DigitRun(s, i, hex) == 2
    ensures forall c | c in s[i..i + 2] :: IsDigit(c, hex)
    ensures Value(s[i..i + 2], hex) == (if hex then 16 else 10) * DigitValue(x, hex) + DigitValue(y, hex)
  {
    hide DigitRun, Value, IsDigit, DigitValue;
    NoDigits();
    DigitRunStep(s, i, i + 2, hex);
    ValueMore([], x, hex);
    ValueMore([x], y, hex);
    assert [] + [x] == [x];
    assert s[i..i + 2] == [x] + [y];
  }

  lemma LongIs(s: string, i: nat, j: nat, k: nat, n: nat, hex: bool)
    requires i <= |s| && SkipSpace(s, i) == j && hex == HasPrefix(s, j)
    requires k == (if HasSign(s, j) then j + 1 else if hex then j + 2 else j) && DigitRun(s, k, hex) == n > 0
    ensures ScannedLong(s, i) == Fitting(Value(s[k..k + n], hex) % DWORD, Negative(s, j), k + n)
  {
    hide SkipSpace, DigitRun, Value, Fitting;
  }

  lemma Int8Is(s: string, i: nat, j: nat, k: nat, n: nat)
    requires i <= |s| && SkipSpace(s, i) == j
    requires k == (if HasSign(s, j) then j + 1 else j) && DigitRun(s, k, false) == n > 0
    ensures ScannedInt8(s, i) == Fitting(Value(s[k..k + n], false), Negative(s, j), k + n)
  {
    hide SkipSpace, DigitRun, Value, Fitting;
  }

  /** Blanks of all six kinds and a sign are skipped by both scanners. */
  lemma ScanBlanks()
    ensures var s := " \t\n\r\U{000B}\U{000C}-12:"; ScannedLong(s, 0) == ScannedInt8(s, 0) == Number(-12, 9)
  {
    hide SkipSpace, DigitRun, Value, ScannedLong, ScannedInt8;
    var s := " \t\n\r\U{000B}\U{000C}-12:";
    SkipSpaceStep(s, 0, 6);
    TwoDigits(s, 7, '1', '2', false);
    LongIs(s, 0, 6, 7, 2, false);
    Int8Is(s, 0, 6, 7, 2);
  }

  /** With 0x in front one of them scans hexadecimal digits; the other stops behind the 0. */
  lemma ScanHex()
    ensures ScannedLong("0x1Fg", 0) == ScannedLong("0X1fg", 0) == Number(31, 4)
    ensures ScannedInt8("0x1Fg", 0) == Number(0, 1)
  {
    hide SkipSpace, DigitRun, Value, ScannedLong, ScannedInt8;
    var s, t := "0x1Fg", "0X1fg";
    SkipSpaceStep(s, 0, 0);
    SkipSpaceStep(t, 0, 0);
    TwoDigits(s, 2, '1', 'F', true);
    TwoDigits(t, 2, '1', 'f', true);
    LongIs(s, 0, 0, 2, 2, true);
    LongIs(t, 0, 0, 2, 2, true);
    OneDigit(s, 0, '0');
    Int8Is(s, 0, 0, 0, 1);
  }

  lemma OneDigit(s: string, i: nat, x: char)
    requires i + 1 < |s| && s[i] == x && IsDigit(x, false) && !IsDigit(s[i + 1], false)
    ensures DigitRun(s, i, false) == 1
    ensures (forall c | c in s[i..i + 1] :: IsDigit(c, false)) && Value(s[i..i + 1], false) == DigitValue(x, false)
  {
    hide DigitRun, Value, IsDigit, DigitValue;
    NoDigits();
    DigitRunStep(s, i, i + 1, false);
    ValueMore([], x, false);
    assert s[i..i + 1] == [] + [x];
  }

  // ------------------------------------------------------------------- scanning

  lemma {:induction false} SkipSpaceStep(s: string, i: nat, j: nat)
    requires i <= j <= |s| && (forall k | i <= k < j :: s[k] in BLANKS) && (j < |s| ==> s[j] !in BLANKS)
    ensures SkipSpace(s, i) == j
    decreases j - i
  {
    if i < j {
      SkipSpaceStep(s, i + 1, j);
    }
  }

  lemma {:induction false} DigitRunStep(s: string, i: nat, j: nat, hex: bool)
    requires i <= j <= |s| && (forall k | i <= k < j :: IsDigit(s[k], hex)) && (j < |s| ==> !IsDigit(s[j], hex))
    ensures DigitRun(s, i, hex) == j - i
    decreases j - i
  {
    if i < j {
      DigitRunStep(s, i + 1, j, hex);
    }
  }

  /** Arithmetic modulo 2^64, one digit at a time. */
  lemma ModStep(a: nat, hex: bool, d: nat)
    ensures (a % DWORD * Base(hex) + d) % DWORD == (Base(hex) * a + d) % DWORD
  {
    var q, r := a / DWORD, a % DWORD;
    var x := r * Base(hex) + d;
    assert Base(hex) * a + d == q * Base(hex) * DWORD + x by {
      assert a == q * DWORD + r;
    }
    ModShift(x, q * Base(hex));
  }

  lemma {:induction false} ModShift(x: nat, q: nat)
    ensures (q * DWORD + x) % DWORD == x % DWORD
  {
    if q > 0 {
      ModShift(x, q - 1);
      assert q * DWORD + x == (q - 1) * DWORD + x + DWORD;
    }
  }

  /** Where the digit loop stands after the characters from `start` to `p`. */
  ghost predicate Counted(s: string, start: nat, p: nat, hex: bool, v: nat) {
    && start <= p <= |s| && (forall c | c in s[start..p] :: IsDigit(c, hex))
    && v == Value(s[start..p], hex) % DWORD
  }

  lemma CountedMore(s: string, start: nat, p: nat, hex: bool, v: nat)
    requires Counted(s, start, p, hex, v) && p < |s| && IsDigit(s[p], hex)
    ensures Counted(s, start, p + 1, hex, (v * Base(hex) + DigitValue(s[p], hex)) % DWORD)
  {
    hide IsDigit, DigitValue, Base;
    var t := s[start..p + 1];
    assert t == s[start..p] + [s[p]];
    assert t[..|t| - 1] == s[start..p];
    ModStep(Value(s[start..p], hex), hex, DigitValue(s[p], hex));
  }

  lemma CountedAll(s: string, start: nat, p: nat, hex: bool, v: nat)
    requires Counted(s, start, p, hex, v) && (p < |s| ==> !IsDigit(s[p], hex))
    ensures p == start + DigitRun(s, start, hex) && v == Value(s[start..p], hex) % DWORD
  {
    hide IsDigit, DigitRun, Value;
    forall k | start <= k < p ensures IsDigit(s[k], hex) {
      assert s[k] == s[start..p][k - start];
    }
    DigitRunStep(s, start, p, hex);
  }

  /** The digit loop of SsStrScanLong. */
  method ScanDigits(s: string, start: nat, hex: bool) returns (v: nat, p: nat)
    requires start <= |s|
    ensures p == start + DigitRun(s, start, hex) && v == Value(s[start..p], hex) % DWORD
  {
    v, p := 0, start;
    assert Counted(s, start, p, hex, v);
    hide DigitRun, Value, Counted, IsDigit, DigitValue, Base;
    while p < |s| && IsDigit(s[p], hex)
      invariant start <= p <= |s| && Counted(s, start, p, hex, v)
    {
      CountedMore(s, start, p, hex, v);
      v := (v * Base(hex) + DigitValue(s[p], hex)) % DWORD;
      p := p + 1;
    }
    CountedAll(s, start, p, hex, v);
  }

  /** Digits behind a number make it at least ten times as large. */
  lemma {:induction false} ValueGrows(s: string, n: nat)
    requires n <= |s| && forall c | c in s :: IsDigit(c, false)
    ensures forall c | c in s[..n] :: IsDigit(c, false)
    ensures n < |s| ==> Value(s, false) >= 10 * Value(s[..n], false)
  {
    hide IsDigit, DigitValue;
    assert forall c | c in s[..n] :: c in s;
    if n < |s| {
      var front := s[..|s| - 1];
      assert forall c | c in front :: c in s;
      assert front[..n] == s[..n];
      assert s[|s| - 1] in s;
      ValueGrows(front, n);
      assert n == |front| ==> front[..n] == front;
    }
  }

  lemma NoDigits()
    ensures Value([], false) == 0 == Value([], true)
  {
  }

  /** One digit more, and what that means for the whole number. */
  lemma NextDigit(s: string, k: nat)
    requires k < |s| && forall c | c in s :: IsDigit(c, false)
    ensures forall c | c in s[..k] :: IsDigit(c, false)
    ensures forall c | c in s[..k + 1] :: IsDigit(c, false)
    ensures IsDigit(s[k], false) && Value(s[..k + 1], false) == 10 * Value(s[..k], false) + DigitValue(s[k], false)
    ensures Value(s, false) >= Value(s[..k + 1], false) && Value(s, false) >= 10 * Value(s[..k], false)
  {
    var t := s[..k + 1];
    assert forall c | c in t :: c in s;
    assert t[..k] == s[..k] && t[k] == s[k] && s[k] in s;
    hide IsDigit, DigitValue;
    ValueGrows(s, k);
    ValueGrows(s, k + 1);
    assert k + 1 == |s| ==> t == s;
  }

  /** The digit loop of SsStrScanInt8, which stops where the value gets too large. */
  method ScanInt8Digits(s: string, start: nat, negative: bool) returns (r: Scan)
    requires start <= |s|
    ensures var n := DigitRun(s, start, false);
            r == if n == 0 then NoNumber else Fitting(Value(s[start..start + n], false), negative, start + n)
  {
    hide DigitRun, Value, IsDigit, DigitValue;
    ghost var n := DigitRun(s, start, false);
    ghost var all := s[start..start + n];
    NoDigits();
    var v, p, succp := 0, start, true;
    while p < |s| && IsDigit(s[p], false)
      invariant start <= p <= start + n
      invariant v == Value(all[..p - start], false) <= LONG_LIMIT
      invariant if succp then v < LONG_LIMIT else v == LONG_LIMIT && negative && p > start
    {
      Inside(s, start, p);
      NextDigit(all, p - start);
      if !succp {
        return NoNumber;
      }
      v := v * 10;
      if v >= LONG_LIMIT {
        return NoNumber;
      }
      v := v + DigitValue(s[p], false);
      if v >= LONG_LIMIT {
        succp := false;
        if v != LONG_LIMIT || !negative {
          return NoNumber;
        }
      }
      p := p + 1;
    }
    Outside(s, start, p);
    assert all[..p - start] == all;
    r := if p == start then NoNumber else Number(if negative then -(v as int) else v, p);
  }

  lemma {:induction false} Inside(s: string, start: nat, p: nat)
    requires start <= p < |s| && p <= start + DigitRun(s, start, false) && IsDigit(s[p], false)
    ensures p < start + DigitRun(s, start, false)
    decreases p - start
  {
    if start < p {
      Inside(s, start + 1, p);
    }
  }

  lemma {:induction false} Outside(s: string, start: nat, p: nat)
    requires start <= p <= |s| && p <= start + DigitRun(s, start, false) && (p < |s| ==> !IsDigit(s[p], false))
    ensures p == start + DigitRun(s, start, false)
    decreases p - start
  {
    if start < p {
      Outside(s, start + 1, p);
    }
  }

  method SkipBlanks(s: string, i: nat) returns (p: nat)
    requires i <= |s|
    ensures p == SkipSpace(s, i)
  {
    p := i;
    while p < |s| && s[p] in BLANKS
      invariant i <= p <= |s| && forall k | i <= k < p :: s[k] in BLANKS
    {
      p := p + 1;
    }
    SkipSpaceStep(s, i, p);
  }

  /** SsStrScanLong, character by character. */
  method ScanLong(s: string, i: nat) returns (r: Scan)
    requires i <= |s|
    ensures r == ScannedLong(s, i)
  {
    hide SkipSpace, DigitRun, Value, IsDigit;
    var p := SkipBlanks(s, i);
    var negative, hex := false, false;
    if p < |s| {
      match s[p]
      case '-' =>
        negative := true;
        p := p + 1;
      case '+' =>
        p := p + 1;
      case '0' =>
        if p + 1 < |s| && (s[p + 1] == 'x' || s[p + 1] == 'X') {
          hex := true;
          p := p + 2;
        }
      case _ =>
    }
    var start := p;
    var v;
    v, p := ScanDigits(s, start, hex);
    var valid := p > start;
    var l: int := if v < LONG_LIMIT then v else v - DWORD;
    if negative {
      // The smallest number is its own negative.
      l := if l + LONG_LIMIT == 0 then l else -l;
      valid := valid && l <= 0;
    } else {
      valid := valid && l >= 0;
    }
    r := if valid then Number(l, p) else NoNumber;
  }

  /** SsStrScanInt8, character by character. */
  method ScanInt8(s: string, i: nat) returns (r: Scan)
    requires i <= |s|
    ensures r == ScannedInt8(s, i)
  {
    hide SkipSpace, DigitRun, Value, IsDigit;
    var p := SkipBlanks(s, i);
    var negative := false;
    if p < |s| && (s[p] == '-' || s[p] == '+') {
      negative := s[p] == '-';
      p := p + 1;
    }
    r := ScanInt8Digits(s, p, negative);
  }

  /** dbe_catchup_logpos_init_from_string: one field after the other. */
  method InitFromString(s: string) returns (r: LogPos)
    ensures r == Parsed(s)
  {
    hide ScannedInt8, ScannedLong;
    r := NULLPOS;
    var n := ScanInt8(s, 0);
    if n.NoNumber? || n.next >= |s| || s[n.next] != ':' {
      return;
    }
    var id := n.value;
    n := ScanLong(s, n.next + 1);
    if n.NoNumber? || n.next >= |s| || s[n.next] != ':' {
      return;
    }
    var role := n.value;
    n := ScanLong(s, n.next + 1);
    if n.NoNumber? || n.next >= |s| || s[n.next] != ':' {
      return;
    }
    var fnum := n.value;
    n := ScanLong(s, n.next + 1);
    if n.NoNumber? || n.next >= |s| || s[n.next] != ':' {
      return;
    }
    var daddr := n.value;
    n := ScanLong(s, n.next + 1);
    if n.NoNumber? || n.next != |s| {
      return;
    }
    if fnum > 0 {
      r := Narrowed(id, role, fnum, daddr, n.value);
    }
  }
}
