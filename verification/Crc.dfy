/** CRC-32 as in section 8 of RFC 1952 (src/common/crc.h). */
module Crc {
  import opened Types

  const POLYNOMIAL: bv32 := 0xEDB88320

  function Iterate<T>(f: T -> T, c: T, n: nat): T {
    if n == 0 then c else f(Iterate(f, c, n - 1))
  }

  /** One bit of polynomial division, least significant bit first. */
  function Shift(c: bv32): bv32 {
    if c & 1 == 1 then (c >> 1) ^ POLYNOMIAL else c >> 1
  }

  /** Eight bits of division. */
  function DivideByte(c: bv32): bv32 { Iterate(Shift, c, 8) }

  /** One byte is added to the low end of the state and divided out bit by bit. */
  function AddByte(state: bv32, b: bv8): bv32 { DivideByte(state ^ (b as bv32)) }

  function Fold<S>(step: (S, bv8) -> S, state: S, data: Bytes): S
    decreases |data|
  {
    if data == [] then state else Fold(step, step(state, data[0]), data[1..])
  }

  function Not(c: bv32): bv32 { !c }

  /** Continuing a checksum whose state is kept inverted between calls. */
  function Continue<S>(invert: S -> S, step: (S, bv8) -> S, crc: S, data: Bytes): S {
    invert(Fold(step, invert(crc), data))
  }

  /** The reference: bit-at-a-time division of the whole string. */
  function Checksum(data: Bytes): bv32 { Continue(Not, AddByte, 0, data) }

  // ---------------------------------------------------------------- division is linear

  lemma ShiftEven(a: bv32)
    requires a & 1 == 0
    ensures Shift(a) == a >> 1
  {
  }

  lemma ShiftOdd(a: bv32)
    requires a & 1 == 1
    ensures Shift(a) == (a >> 1) ^ POLYNOMIAL
  {
  }

  lemma EvenOrOdd(a: bv32)
    ensures a & 1 == 0 || a & 1 == 1
  {
  }

  lemma BothEven(a: bv32, b: bv32)
    requires a & 1 == 0 && b & 1 == 0
    ensures (a ^ b) & 1 == 0 && (a ^ b) >> 1 == (a >> 1) ^ (b >> 1)
  {
  }

  lemma OddEven(a: bv32, b: bv32)
    requires a & 1 == 1 && b & 1 == 0
    ensures (a ^ b) & 1 == 1 && ((a ^ b) >> 1) ^ POLYNOMIAL == ((a >> 1) ^ POLYNOMIAL) ^ (b >> 1)
  {
  }

  lemma BothOdd(a: bv32, b: bv32)
    requires a & 1 == 1 && b & 1 == 1
    ensures (a ^ b) & 1 == 0 && (a ^ b) >> 1 == ((a >> 1) ^ POLYNOMIAL) ^ ((b >> 1) ^ POLYNOMIAL)
  {
  }

  lemma Commutes(a: bv32, b: bv32)
    ensures a ^ b == b ^ a
  {
  }

  lemma LinearEven(a: bv32, b: bv32)
    requires a & 1 == 0 && b & 1 == 0
    ensures Shift(a ^ b) == Shift(a) ^ Shift(b)
  {
    BothEven(a, b);
    ShiftEven(a);
    ShiftEven(b);
    ShiftEven(a ^ b);
  }

  lemma LinearMixed(a: bv32, b: bv32)
    requires a & 1 == 1 && b & 1 == 0
    ensures Shift(a ^ b) == Shift(a) ^ Shift(b)
  {
    OddEven(a, b);
    ShiftOdd(a);
    ShiftEven(b);
    ShiftOdd(a ^ b);
  }

  lemma LinearOdd(a: bv32, b: bv32)
    requires a & 1 == 1 && b & 1 == 1
    ensures Shift(a ^ b) == Shift(a) ^ Shift(b)
  {
    BothOdd(a, b);
    ShiftOdd(a);
    ShiftOdd(b);
    ShiftEven(a ^ b);
  }

  lemma ShiftLinear(a: bv32, b: bv32)
    ensures Shift(a ^ b) == Shift(a) ^ Shift(b)
  {
    EvenOrOdd(a);
    EvenOrOdd(b);
    if a & 1 == 0 && b & 1 == 0 {
      LinearEven(a, b);
    } else if a & 1 == 1 && b & 1 == 0 {
      LinearMixed(a, b);
    } else if a & 1 == 1 {
      LinearOdd(a, b);
    } else {
      LinearMixed(b, a);
      Commutes(a, b);
      Commutes(Shift(a), Shift(b));
    }
  }

  ghost predicate Distributes<T(!new)>(f: T -> T, plus: (T, T) -> T) {
    forall a, b :: f(plus(a, b)) == plus(f(a), f(b))
  }

  lemma {:induction false} IterateDistributes<T(!new)>(f: T -> T, plus: (T, T) -> T, a: T, b: T, n: nat)
    requires Distributes(f, plus)
    ensures Iterate(f, plus(a, b), n) == plus(Iterate(f, a, n), Iterate(f, b, n))
  {
    if n > 0 { IterateDistributes(f, plus, a, b, n - 1); }
  }

  function Xor(a: bv32, b: bv32): bv32 { a ^ b }

  lemma ShiftDistributes()
    ensures Distributes(Shift, Xor)
  {
    forall a, b ensures Shift(Xor(a, b)) == Xor(Shift(a), Shift(b)) { ShiftLinear(a, b); }
  }

  lemma DivideByteLinear(a: bv32, b: bv32)
    ensures DivideByte(Xor(a, b)) == Xor(DivideByte(a), DivideByte(b))
  {
    ShiftDistributes();
    IterateDistributes(Shift, Xor, a, b, 8);
  }

  lemma EightTimes<T(!new)>(f: T -> T, z0: T, z1: T, z2: T, z3: T, z4: T, z5: T, z6: T, z7: T, z8: T)
    requires z1 == f(z0) && z2 == f(z1) && z3 == f(z2) && z4 == f(z3)
    requires z5 == f(z4) && z6 == f(z5) && z7 == f(z6) && z8 == f(z7)
    ensures Iterate(f, z0, 8) == z8
  {
    assert Iterate(f, z0, 2) == z2;
    assert Iterate(f, z0, 4) == z4;
    assert Iterate(f, z0, 6) == z6;
  }

  /** A step that halves even states. */
  ghost predicate HalvesEven(f: bv32 -> bv32) {
    forall a :: a & 1 == 0 ==> f(a) == a >> 1
  }

  lemma Zeros(h: bv32)
    requires h & 0xFF == 0
    ensures h & 1 == 0 && (h >> 1) & 1 == 0 && (h >> 2) & 1 == 0 && (h >> 3) & 1 == 0
    ensures (h >> 4) & 1 == 0 && (h >> 5) & 1 == 0 && (h >> 6) & 1 == 0 && (h >> 7) & 1 == 0
    ensures (h >> 1) >> 1 == h >> 2 && (h >> 2) >> 1 == h >> 3 && (h >> 3) >> 1 == h >> 4 && (h >> 4) >> 1 == h >> 5
    ensures (h >> 5) >> 1 == h >> 6 && (h >> 6) >> 1 == h >> 7 && (h >> 7) >> 1 == h >> 8
  {
  }

  lemma ZerosIterate(f: bv32 -> bv32, h: bv32)
    requires HalvesEven(f) && h & 0xFF == 0
    ensures Iterate(f, h, 8) == h >> 8
  {
    Zeros(h);
    EightTimes(f, h, h >> 1, h >> 2, h >> 3, h >> 4, h >> 5, h >> 6, h >> 7, h >> 8);
  }

  /** Bits that do not reach the low end are only moved. */
  lemma HighBits(h: bv32)
    requires h & 0xFF == 0
    ensures DivideByte(h) == h >> 8
  {
    forall a | a & 1 == 0 ensures Shift(a) == a >> 1 { ShiftEven(a); }
    ZerosIterate(Shift, h);
  }

  lemma SplitByte(c: bv32)
    ensures c == (c & 0xFFFFFF00) ^ (c & 0xFF) && (c & 0xFFFFFF00) & 0xFF == 0 && (c & 0xFFFFFF00) >> 8 == c >> 8
  {
  }

  /** One table look-up does the work of eight bit steps. */
  lemma ByteStep(c: bv32)
    ensures DivideByte(c) == Xor(c >> 8, DivideByte(c & 0xFF))
  {
    SplitByte(c);
    DivideByteLinear(c & 0xFFFFFF00, c & 0xFF);
    HighBits(c & 0xFFFFFF00);
  }

  // ---------------------------------------------------------------- the table-driven loop

  function Row(tab: seq<bv32>, i: bv8): bv32
    requires |tab| == 256
  {
    tab[i as int]
  }

  ghost predicate Tabulates(tab: seq<bv32>, f: bv32 -> bv32) {
    |tab| == 256 && forall i :: Row(tab, i) == f(i as bv32)
  }

  ghost predicate IsTable(tab: seq<bv32>) { Tabulates(tab, DivideByte) }

  method ShiftOnce(c: bv32) returns (r: bv32)
    ensures r == Shift(c)
  {
    if c & 1 == 1 {
      r := (c >> 1) ^ POLYNOMIAL;
    } else {
      r := c >> 1;
    }
  }

  method BuildRow(i: bv8) returns (crc: bv32)
    ensures RowIs(crc, i)
  {
    var start := i as bv32;
    ghost var step: bv32 -> bv32 := Shift;
    crc := start;
    for j := 0 to 8
      invariant crc == Iterate(step, start, j)
    {
      crc := ShiftOnce(crc);
    }
  }

  method BuildTable() returns (tab: array<bv32>)
    ensures fresh(tab) && IsTable(tab[..])
  {
    tab := new bv32[256];
    for i := 0 to 256
      invariant forall k :: 0 <= k < i ==> RowIs(tab[k], k as bv8)
    {
      tab[i] := BuildRow(i as bv8);
    }
    Complete(tab[..]);
  }

  ghost predicate RowIs(row: bv32, i: bv8) { row == DivideByte(i as bv32) }

  lemma Complete(tab: seq<bv32>)
    requires |tab| == 256 && forall k :: 0 <= k < 256 ==> RowIs(tab[k], k as bv8)
    ensures IsTable(tab)
  {
    forall i: bv8 ensures Row(tab, i) == DivideByte(i as bv32) {
      assert ((i as int) as bv8) == i;
      assert RowIs(tab[i as int], i);
    }
  }

  lemma LowByte(c: bv32)
    ensures c & 0xFF < 256 && ((c & 0xFF) as bv8) as bv32 == c & 0xFF
  {
  }

  lemma HighBytesKept(c: bv32, b: bv8)
    ensures (c ^ (b as bv32)) >> 8 == c >> 8
  {
  }

  /** The look-up step is bit-at-a-time division by one byte. */
  lemma LookUpStep(tab: seq<bv32>, state: bv32, b: bv8)
    requires IsTable(tab)
    ensures (state ^ (b as bv32)) & 0xFF < 256
    ensures Xor(state >> 8, Row(tab, ((state ^ (b as bv32)) & 0xFF) as bv8)) == AddByte(state, b)
  {
    ByteStep(state ^ (b as bv32));
    LowByte(state ^ (b as bv32));
    HighBytesKept(state, b);
  }

  method LookUp(tab: array<bv32>, state: bv32, b: bv8) returns (r: bv32)
    requires IsTable(tab[..])
    ensures r == AddByte(state, b)
  {
    LookUpStep(tab[..], state, b);
    var index := ((state ^ (b as bv32)) & 0xFF) as bv8;
    r := Xor(state >> 8, tab[index as int]);
  }

  lemma {:induction false} FoldAppend<S(!new)>(step: (S, bv8) -> S, state: S, a: Bytes, b: Bytes)
    ensures Fold(step, state, a + b) == Fold(step, Fold(step, state, a), b)
    decreases |a|
  {
    if a == [] {
      assert a + b == b;
    } else {
      assert (a + b)[1..] == a[1..] + b;
      FoldAppend(step, step(state, a[0]), a[1..], b);
    }
  }

  lemma FoldOne<S(!new)>(step: (S, bv8) -> S, state: S, a: Bytes, i: nat)
    requires i < |a|
    ensures Fold(step, state, a[..i + 1]) == step(Fold(step, state, a[..i]), a[i])
  {
    assert a[..i + 1] == a[..i] + [a[i]];
    FoldAppend(step, state, a[..i], [a[i]]);
  }

  /** update_crc32: the table loop computes the bit-at-a-time checksum of every byte string. */
  method UpdateCrc32(tab: array<bv32>, crc: bv32, data: Bytes) returns (r: bv32)
    requires IsTable(tab[..])
    ensures r == Continue(Not, AddByte, crc, data)
  {
    ghost var step: (bv32, bv8) -> bv32 := AddByte;
    var start := !crc;
    var state := start;
    for i := 0 to |data|
      invariant state == Fold(step, start, data[..i])
    {
      FoldOne(step, start, data, i);
      state := LookUp(tab, state, data[i]);
    }
    assert data[..|data|] == data;
    r := !state;
  }

  /** Checksumming in pieces is checksumming in one pass, whatever is done with each byte. */
  lemma ContinueInPieces<S(!new)>(invert: S -> S, step: (S, bv8) -> S, crc: S, a: Bytes, b: Bytes)
    requires forall x :: invert(invert(x)) == x
    ensures Continue(invert, step, Continue(invert, step, crc, a), b) == Continue(invert, step, crc, a + b)
  {
    FoldAppend(step, invert(crc), a, b);
  }

  /** update_crc32 on consecutive chunks gives the checksum of their concatenation. */
  lemma CrcInPieces(crc: bv32, a: Bytes, b: Bytes)
    ensures Continue(Not, AddByte, Continue(Not, AddByte, crc, a), b) == Continue(Not, AddByte, crc, a + b)
  {
    forall x ensures Not(Not(x)) == x {}
    ContinueInPieces(Not, AddByte, crc, a, b);
  }

  // ---------------------------------------------------------------- what the checksum tells apart

  /** Division loses nothing: the polynomial's top bit says whether a one was shifted out. */
  lemma ShiftInjective(a: bv32, b: bv32)
    requires Shift(a) == Shift(b)
    ensures a == b
  {
  }

  ghost predicate Injective<T(!new)>(f: T -> T) {
    forall a, b :: f(a) == f(b) ==> a == b
  }

  lemma {:induction false} IterateInjective<T(!new)>(f: T -> T, a: T, b: T, n: nat)
    requires Injective(f) && Iterate(f, a, n) == Iterate(f, b, n)
    ensures a == b
  {
    if n > 0 { IterateInjective(f, a, b, n - 1); }
  }

  lemma DivideByteInjective(a: bv32, b: bv32)
    requires DivideByte(a) == DivideByte(b)
    ensures a == b
  {
    forall x, y | Shift(x) == Shift(y) ensures x == y { ShiftInjective(x, y); }
    IterateInjective(Shift, a, b, 8);
  }

  lemma XorCancels(state: bv32, b: bv8, c: bv8)
    requires state ^ (b as bv32) == state ^ (c as bv32)
    ensures b == c
  {
    assert b as bv32 == c as bv32;
  }

  lemma XorCancelsState(a: bv32, b: bv32, c: bv32)
    requires a ^ c == b ^ c
    ensures a == b
  {
  }

  /** Neither two bytes added to one state nor two states with one byte added give the same. */
  ghost predicate TellsApart<S(!new)>(step: (S, bv8) -> S) {
    && (forall s, b, c :: step(s, b) == step(s, c) ==> b == c)
    && (forall s, t, b :: step(s, b) == step(t, b) ==> s == t)
  }

  lemma BytesApart(s: bv32, b: bv8, c: bv8)
    requires AddByte(s, b) == AddByte(s, c)
    ensures b == c
  {
    DivideByteInjective(s ^ (b as bv32), s ^ (c as bv32));
    XorCancels(s, b, c);
  }

  lemma StatesApart(s: bv32, t: bv32, b: bv8)
    requires AddByte(s, b) == AddByte(t, b)
    ensures s == t
  {
    WordsApart(s, t, b as bv32);
  }

  lemma WordsApart(s: bv32, t: bv32, c: bv32)
    requires DivideByte(s ^ c) == DivideByte(t ^ c)
    ensures s == t
  {
    DivideByteInjective(s ^ c, t ^ c);
    XorCancelsState(s, t, c);
  }

  lemma AddByteTellsApart()
    ensures TellsApart(AddByte)
  {
    forall s, b, c | AddByte(s, b) == AddByte(s, c) ensures b == c { BytesApart(s, b, c); }
    forall s, t, b | AddByte(s, b) == AddByte(t, b) ensures s == t { StatesApart(s, t, b); }
  }

  lemma StepTellsApart<S(!new)>(step: (S, bv8) -> S, s: S, t: S, b: bv8)
    requires TellsApart(step) && s != t
    ensures step(s, b) != step(t, b)
  {
  }

  lemma {:induction false} FoldTellsApart<S(!new)>(step: (S, bv8) -> S, s: S, t: S, data: Bytes)
    requires TellsApart(step) && s != t
    ensures Fold(step, s, data) != Fold(step, t, data)
    decreases |data|
  {
    if data != [] {
      StepTellsApart(step, s, t, data[0]);
      FoldTellsApart(step, step(s, data[0]), step(t, data[0]), data[1..]);
    }
  }

  lemma OneByteFolds<S(!new)>(step: (S, bv8) -> S, s: S, data: Bytes, k: nat, b: bv8)
    requires TellsApart(step) && k < |data| && data[k] != b
    ensures Fold(step, s, data[k := b]) != Fold(step, s, data)
  {
    var changed := data[k := b];
    FoldOne(step, s, data, k);
    FoldOne(step, s, changed, k);
    assert changed[..k] == data[..k];
    assert data == data[..k + 1] + data[k + 1..] && changed == changed[..k + 1] + data[k + 1..];
    FoldAppend(step, s, data[..k + 1], data[k + 1..]);
    FoldAppend(step, s, changed[..k + 1], data[k + 1..]);
    FoldTellsApart(step, Fold(step, s, changed[..k + 1]), Fold(step, s, data[..k + 1]), data[k + 1..]);
  }

  /** A change of one byte, anywhere in a string of any length, changes the checksum. */
  lemma OneByteIsSeen(data: Bytes, k: nat, b: bv8)
    requires k < |data| && data[k] != b
    ensures Checksum(data[k := b]) != Checksum(data)
  {
    AddByteTellsApart();
    OneByteFolds(AddByte, Not(0), data, k, b);
    NotTellsApart(Fold(AddByte, Not(0), data[k := b]), Fold(AddByte, Not(0), data));
  }

  lemma NotTellsApart(a: bv32, b: bv32)
    requires a != b
    ensures Not(a) != Not(b)
  {
  }

  // ---------------------------------------------------------------- the check value

  /** One byte added, bit by bit. */
  lemma Adds(state: bv32, b: bv8, z0: bv32, z1: bv32, z2: bv32, z3: bv32, z4: bv32, z5: bv32, z6: bv32, z7: bv32,
             z8: bv32)
    requires z0 == state ^ (b as bv32) && z1 == Shift(z0) && z2 == Shift(z1) && z3 == Shift(z2) && z4 == Shift(z3)
    requires z5 == Shift(z4) && z6 == Shift(z5) && z7 == Shift(z6) && z8 == Shift(z7)
    ensures AddByte(state, b) == z8
  {
    EightTimes(Shift, z0, z1, z2, z3, z4, z5, z6, z7, z8);
  }

  lemma FoldNine<S(!new)>(step: (S, bv8) -> S, d: Bytes, s0: S, s1: S, s2: S, s3: S, s4: S, s5: S, s6: S, s7: S, s8: S,
                          s9: S)
    requires |d| == 9 && s1 == step(s0, d[0]) && s2 == step(s1, d[1]) && s3 == step(s2, d[2]) && s4 == step(s3, d[3])
    requires s5 == step(s4, d[4]) && s6 == step(s5, d[5]) && s7 == step(s6, d[6]) && s8 == step(s7, d[7])
    requires s9 == step(s8, d[8])
    ensures Fold(step, s0, d) == s9
  {
    assert Fold(step, s8, d[8..]) == s9;
    assert Fold(step, s7, d[7..]) == s9 by { assert d[7..][1..] == d[8..]; }
    assert Fold(step, s5, d[5..]) == s9 by { assert d[5..][1..] == d[6..] && d[6..][1..] == d[7..]; }
    assert Fold(step, s3, d[3..]) == s9 by { assert d[3..][1..] == d[4..] && d[4..][1..] == d[5..]; }
    assert Fold(step, s1, d[1..]) == s9 by { assert d[1..][1..] == d[2..] && d[2..][1..] == d[3..]; }
  }

  /** The digits 1 to 9 as characters. */
  const DIGITS: Bytes := [0x31, 0x32, 0x33, 0x34, 0x35, 0x36, 0x37, 0x38, 0x39]

  lemma FirstDigits()
    ensures AddByte(0xFFFFFFFF, 0x31) == 0x7C231048
    ensures AddByte(0x7C231048, 0x32) == 0xB0ACBB32
    ensures AddByte(0xB0ACBB32, 0x33) == 0x77B79C2D
  {
    Adds(0xFFFFFFFF, 0x31, 0xFFFFFFCE, 0x7FFFFFE7, 0xD2477CD3, 0x849B3D49, 0xAFF51D84,
         0x57FA8EC2, 0x2BFD4761, 0xF8462090, 0x7C231048);
    Adds(0x7C231048, 0x32, 0x7C23107A, 0x3E11883D, 0xF2B0473E, 0x7958239F, 0xD11492EF,
         0x8532CA57, 0xAF21E60B, 0xBA287025, 0xB0ACBB32);
    Adds(0xB0ACBB32, 0x33, 0xB0ACBB01, 0xB5EEDEA0, 0x5AF76F50, 0x2D7BB7A8, 0x16BDDBD4,
         0x0B5EEDEA, 0x05AF76F5, 0xEF6F385A, 0x77B79C2D);
  }

  lemma MiddleDigits()
    ensures AddByte(0x77B79C2D, 0x34) == 0x641C1F5C
    ensures AddByte(0x641C1F5C, 0x35) == 0x340AC5E3
    ensures AddByte(0x340AC5E3, 0x36) == 0xF68D2C9E
  {
    Adds(0x77B79C2D, 0x34, 0x77B79C19, 0xD6634D2C, 0x6B31A696, 0x3598D34B, 0xF774EA85,
         0x9602F662, 0x4B017B31, 0xC8383EB8, 0x641C1F5C);
    Adds(0x641C1F5C, 0x35, 0x641C1F69, 0xDFB68C94, 0x6FDB464A, 0x37EDA325, 0xF64E52B2,
         0x7B272959, 0xD02B178C, 0x68158BC6, 0x340AC5E3);
    Adds(0x340AC5E3, 0x36, 0x340AC5D5, 0xF7BDE1CA, 0x7BDEF0E5, 0xD057FB52, 0x682BFDA9,
         0xD9AD7DF4, 0x6CD6BEFA, 0x366B5F7D, 0xF68D2C9E);
  }

  lemma LastDigits()
    ensures AddByte(0xF68D2C9E, 0x37) == 0xAFFC9660
    ensures AddByte(0xAFFC9660, 0x38) == 0x651F2550
    ensures AddByte(0x651F2550, 0x39) == 0x340BC6D9
  {
    Adds(0xF68D2C9E, 0x37, 0xF68D2CA9, 0x96FE1574, 0x4B7F0ABA, 0x25BF855D, 0xFF67418E,
         0x7FB3A0C7, 0xD2615343, 0x84882A81, 0xAFFC9660);
    Adds(0xAFFC9660, 0x38, 0xAFFC9658, 0x57FE4B2C, 0x2BFF2596, 0x15FF92CB, 0xE7474A45,
         0x9E1B2602, 0x4F0D9301, 0xCA3E4AA0, 0x651F2550);
    Adds(0x651F2550, 0x39, 0x651F2569, 0xDF371194, 0x6F9B88CA, 0x37CDC465, 0xF65E6112,
         0x7B2F3089, 0xD02F1B64, 0x68178DB2, 0x340BC6D9);
  }

  /** From state to state, whatever adding a byte does. */
  lemma NineDigits(step: (bv32, bv8) -> bv32)
    requires step(0xFFFFFFFF, 0x31) == 0x7C231048 && step(0x7C231048, 0x32) == 0xB0ACBB32
    requires step(0xB0ACBB32, 0x33) == 0x77B79C2D && step(0x77B79C2D, 0x34) == 0x641C1F5C
    requires step(0x641C1F5C, 0x35) == 0x340AC5E3 && step(0x340AC5E3, 0x36) == 0xF68D2C9E
    requires step(0xF68D2C9E, 0x37) == 0xAFFC9660 && step(0xAFFC9660, 0x38) == 0x651F2550
    requires step(0x651F2550, 0x39) == 0x340BC6D9
    ensures Fold(step, 0xFFFFFFFF, DIGITS) == 0x340BC6D9
  {
    FoldNine(step, DIGITS, 0xFFFFFFFF, 0x7C231048, 0xB0ACBB32, 0x77B79C2D, 0x641C1F5C,
             0x340AC5E3, 0xF68D2C9E, 0xAFFC9660, 0x651F2550, 0x340BC6D9);
  }

  lemma Inverted()
    ensures Not(0) == 0xFFFFFFFF && Not(0x340BC6D9) == 0xCBF43926
  {
  }

  /** The polynomial, the bit order and both inversions are those of CRC-32: its published check value. */
  lemma CheckValue()
    ensures Checksum(DIGITS) == 0xCBF43926
  {
    FirstDigits();
    MiddleDigits();
    LastDigits();
    NineDigits(AddByte);
    Inverted();
  }
}
