/** Identifiers: 128 bits written as 26 base-32 digits (ids/ids.go). */
module Ids {
  import opened Arithmetic
  import opened Leaderboard

  const ALPHABET: string := "0123456789ABCDEFGHJKMNPQRSTVWXYZ"

  // ---- digits cut out of bytes ----

  function Value(b: bv8): (n: int)
    ensures 0 <= n < 256
  {
    b as int
  }

  // The eight digits of five bytes, as numbers.

  function First(n: int): int {
    n / 8
  }

  function Second(n: int, m: int): int {
    (n % 8) * 4 + m / 64
  }

  function Third(n: int): int {
    (n / 2) % 32
  }

  function Fourth(n: int, m: int): int {
    (n % 2) * 16 + m / 16
  }

  function Fifth(n: int, m: int): int {
    (n % 16) * 2 + m / 128
  }

  function Sixth(n: int): int {
    (n / 4) % 32
  }

  function Seventh(n: int, m: int): int {
    (n % 4) * 8 + m / 32
  }

  function Eighth(n: int): int {
    n % 32
  }

  // Bits moved up and down inside a byte.

  function Last4(b: bv8): (r: bv8)
    ensures Value(r) == Value(b) % 16
  {
    b & 15
  }

  function Last3(b: bv8): (r: bv8)
    ensures Value(r) == Value(b) % 8
  {
    b & 7
  }

  function Last2(b: bv8): (r: bv8)
    ensures Value(r) == Value(b) % 4
  {
    b & 3
  }

  function Last1(b: bv8): (r: bv8)
    ensures Value(r) == Value(b) % 2
  {
    b & 1
  }

  function Left1(x: bv8): (r: bv8)
    requires Value(x) < 128
    ensures Value(r) == Value(x) * 2
  {
    x << 1
  }

  function Left2(x: bv8): (r: bv8)
    requires Value(x) < 64
    ensures Value(r) == Value(x) * 4
  {
    x << 2
  }

  function Left3(x: bv8): (r: bv8)
    requires Value(x) < 32
    ensures Value(r) == Value(x) * 8
  {
    x << 3
  }

  function Left4(x: bv8): (r: bv8)
    requires Value(x) < 16
    ensures Value(r) == Value(x) * 16
  {
    x << 4
  }

  function Up1(b: bv8): (r: bv8)
    ensures Value(r) == (Value(b) % 16) * 2
  {
    hide Value, Last4, Left1;
    Left1(Last4(b))
  }

  function Up2(b: bv8): (r: bv8)
    ensures Value(r) == (Value(b) % 8) * 4
  {
    hide Value, Last3, Left2;
    Left2(Last3(b))
  }

  function Up3(b: bv8): (r: bv8)
    ensures Value(r) == (Value(b) % 4) * 8
  {
    hide Value, Last2, Left3;
    Left3(Last2(b))
  }

  function Up4(b: bv8): (r: bv8)
    ensures Value(r) == (Value(b) % 2) * 16
  {
    hide Value, Last1, Left4;
    Left4(Last1(b))
  }

  function Down4(c: bv8): (r: bv8)
    ensures Value(r) == Value(c) / 16
  {
    (c & 240) >> 4
  }

  function Down5(c: bv8): (r: bv8)
    ensures Value(r) == Value(c) / 32
  {
    (c & 224) >> 5
  }

  function Down6(c: bv8): (r: bv8)
    ensures Value(r) == Value(c) / 64
  {
    (c & 192) >> 6
  }

  function Down7(c: bv8): (r: bv8)
    ensures Value(r) == Value(c) / 128
  {
    (c & 128) >> 7
  }

  function Either(x: bv8, y: bv8): bv8 {
    x | y
  }

  predicate Apart(x: bv8, y: bv8) {
    x & y == 0
  }

  lemma Join(x: bv8, y: bv8)
    requires Apart(x, y)
    ensures Value(Either(x, y)) == Value(x) + Value(y)
  {}

  lemma AreApart(b: bv8, c: bv8)
    ensures Apart(Up1(b), Down7(c)) && Apart(Up2(b), Down6(c)) && Apart(Up3(b), Down5(c)) && Apart(Up4(b), Down4(c))
  {}

  // The digits as they are cut out of the bytes.

  function Top3(b: bv8): (d: int)
    ensures d == Value(b) / 32 && 0 <= d < 32
  {
    hide Value, Down5;
    Value(Down5(b))
  }

  function Low5(b: bv8): (d: int)
    ensures d == Eighth(Value(b)) && 0 <= d < 32
  {
    Value(b & 31)
  }

  function Top5(b: bv8): (d: int)
    ensures d == First(Value(b)) && 0 <= d < 32
  {
    Value((b & 248) >> 3)
  }

  /** The last three bits of `b`, then the first two of `c`; and so on. */
  function Low3Top2(b: bv8, c: bv8): (d: int)
    ensures d == Second(Value(b), Value(c)) && 0 <= d < 32
  {
    hide Value, Up2, Down6, Either, Apart;
    AreApart(b, c);
    Join(Up2(b), Down6(c));
    Value(Either(Up2(b), Down6(c)))
  }

  function Mid62(b: bv8): (d: int)
    ensures d == Third(Value(b)) && 0 <= d < 32
  {
    Middle(b);
    Value((b & 62) >> 1)
  }

  function Low1Top4(b: bv8, c: bv8): (d: int)
    ensures d == Fourth(Value(b), Value(c)) && 0 <= d < 32
  {
    hide Value, Up4, Down4, Either, Apart;
    AreApart(b, c);
    Join(Up4(b), Down4(c));
    Value(Either(Up4(b), Down4(c)))
  }

  function Low4Top1(b: bv8, c: bv8): (d: int)
    ensures d == Fifth(Value(b), Value(c)) && 0 <= d < 32
  {
    hide Value, Up1, Down7, Either, Apart;
    AreApart(b, c);
    Join(Up1(b), Down7(c));
    Value(Either(Up1(b), Down7(c)))
  }

  function Mid124(b: bv8): (d: int)
    ensures d == Sixth(Value(b)) && 0 <= d < 32
  {
    Middle(b);
    Value((b & 124) >> 2)
  }

  function Low2Top3(b: bv8, c: bv8): (d: int)
    ensures d == Seventh(Value(b), Value(c)) && 0 <= d < 32
  {
    hide Value, Up3, Down5, Either, Apart;
    AreApart(b, c);
    Join(Up3(b), Down5(c));
    Value(Either(Up3(b), Down5(c)))
  }

  lemma Middle(b: bv8)
    ensures ((b & 62) >> 1) as int == (b as int / 2) % 32
    ensures ((b & 124) >> 2) as int == (b as int / 4) % 32
  {
    assert (b & 62) >> 1 == (b >> 1) & 31;
    assert (b & 124) >> 2 == (b >> 2) & 31;
    LastFive(b >> 1);
    LastFive(b >> 2);
    Shifted(b);
  }

  lemma LastFive(b: bv8)
    ensures (b & 31) as int == b as int % 32
  {}

  lemma Shifted(b: bv8)
    ensures (b >> 1) as int == b as int / 2 && (b >> 2) as int == b as int / 4
  {}

  // ---- numbers in a base ----

  function Horner(ds: seq<int>, base: int): int {
    if ds == [] then 0 else Horner(ds[..|ds| - 1], base) * base + ds[|ds| - 1]
  }

  lemma HornerOne(ds: seq<int>, d: int, base: int)
    ensures Horner(ds + [d], base) == Horner(ds, base) * base + d
  {
    assert (ds + [d])[..|ds|] == ds;
  }

  ghost predicate Digits(ds: seq<int>, base: int) {
    forall k :: 0 <= k < |ds| ==> 0 <= ds[k] < base
  }

  /** Lexicographic order of digit strings of one length. */
  predicate DigitsLess(xs: seq<int>, ys: seq<int>) {
    if xs == [] || ys == [] then false
    else
      var x, y := xs[..|xs| - 1], ys[..|ys| - 1];
      DigitsLess(x, y) || (x == y && xs[|xs| - 1] < ys[|ys| - 1])
  }

  /** Among digit strings of one length, the order of the strings is the order of the
      numbers; in particular different strings are different numbers. */
  lemma {:induction false} HornerOrder(xs: seq<int>, ys: seq<int>, base: int)
    requires |xs| == |ys| && base > 0 && Digits(xs, base) && Digits(ys, base)
    ensures Horner(xs, base) < Horner(ys, base) <==> DigitsLess(xs, ys)
    ensures Horner(xs, base) == Horner(ys, base) <==> xs == ys
    decreases |xs|
  {
    if xs != [] {
      var x, y := xs[..|xs| - 1], ys[..|ys| - 1];
      HornerOrder(x, y, base);
      Carry(Horner(x, base), xs[|xs| - 1], Horner(y, base), ys[|ys| - 1], base);
      assert xs == x + [xs[|xs| - 1]] && ys == y + [ys[|ys| - 1]];
    }
  }

  lemma Carry(a: int, d: int, b: int, e: int, base: int)
    requires 0 <= d < base && 0 <= e < base
    ensures a * base + d < b * base + e <==> a < b || (a == b && d < e)
    ensures a * base + d == b * base + e <==> a == b && d == e
  {
    MultipleSize(b - a, base);
    assert (b - a) * base == b * base - a * base;
  }

  // ---- the encoding ----

  function Ints(b: seq<bv8>): (r: seq<int>)
    ensures |r| == |b|
  {
    seq(|b|, i requires 0 <= i < |b| => Value(b[i]))
  }

  ghost predicate Spells(s: string, ds: seq<int>) {
    |s| == |ds| && Digits(ds, 32) && forall k :: 0 <= k < |s| ==> s[k] == Letter(ds[k])
  }

  /** The 26 base-32 digits of the number that the 16 bytes are, most significant first. */
  ghost predicate IsEncoding(b: seq<bv8>, s: string) {
    |b| == 16 && |s| == 26 && exists ds :: Spells(s, ds) && Horner(ds, 32) == Horner(Ints(b), 256)
  }

  /** The eight digits of five bytes. */
  function Group(n1: int, n2: int, n3: int, n4: int, n5: int): (ds: seq<int>)
    ensures |ds| == 8
  {
    [First(n1), Second(n1, n2), Third(n2), Fourth(n2, n3), Fifth(n3, n4), Sixth(n4), Seventh(n4, n5), Eighth(n5)]
  }

  predicate IsByte(n: int) {
    0 <= n < 256
  }

  lemma GroupNumber(n1: int, n2: int, n3: int, n4: int, n5: int)
    requires IsByte(n1) && IsByte(n2) && IsByte(n3) && IsByte(n4) && IsByte(n5)
    ensures var d := Group(n1, n2, n3, n4, n5);
      ((((((d[0] * 32 + d[1]) * 32 + d[2]) * 32 + d[3]) * 32 + d[4]) * 32 + d[5]) * 32 + d[6]) * 32 + d[7]
      == (((n1 * 256 + n2) * 256 + n3) * 256 + n4) * 256 + n5
  {
    MiddleBits(n2, n4);
    Regroup(n1 / 8, n1 % 8, n2 / 64, (n2 / 2) % 32, n2 % 2, n3 / 16, n3 % 16, n4 / 128, (n4 / 4) % 32, n4 % 4, n5 / 32,
            n5 % 32);
  }

  lemma MiddleBits(n: int, m: int)
    requires IsByte(n) && IsByte(m)
    ensures n == 64 * (n / 64) + 2 * ((n / 2) % 32) + n % 2
    ensures m == 128 * (m / 128) + 4 * ((m / 4) % 32) + m % 4
  {}

  /** The same forty bits, cut by fives and by eights. */
  lemma Regroup(a: int, b: int, c: int, d: int, e: int, f: int, g: int, h: int, i: int, j: int, k: int, l: int)
    ensures
      ((((((a * 32 + (b * 4 + c)) * 32 + d) * 32 + (e * 16 + f)) * 32 + (g * 2 + h)) * 32 + i) * 32 + (j * 8 + k)) * 32
        + l
      == ((((8 * a + b) * 256 + (64 * c + 2 * d + e)) * 256 + (16 * f + g)) * 256 + (128 * h + 4 * i + j)) * 256
         + (32 * k + l)
  {}

  lemma HornerEight(pre: seq<int>, d: seq<int>)
    requires |d| == 8
    ensures Horner(pre + d, 32)
      == (((((((Horner(pre, 32) * 32 + d[0]) * 32 + d[1]) * 32 + d[2]) * 32 + d[3]) * 32 + d[4]) * 32 + d[5]) * 32
          + d[6]) * 32 + d[7]
  {
    hide Horner;
    HornerTake(pre, d, 8, 32);
    HornerTake(pre, d, 7, 32);
    HornerTake(pre, d, 6, 32);
    HornerTake(pre, d, 5, 32);
    HornerTake(pre, d, 4, 32);
    HornerTake(pre, d, 3, 32);
    HornerTake(pre, d, 2, 32);
    HornerTake(pre, d, 1, 32);
    assert pre + d[..8] == pre + d && pre + d[..0] == pre;
  }

  lemma HornerFive(pre: seq<int>, d: seq<int>)
    requires |d| == 5
    ensures Horner(pre + d, 256)
      == ((((Horner(pre, 256) * 256 + d[0]) * 256 + d[1]) * 256 + d[2]) * 256 + d[3]) * 256 + d[4]
  {
    hide Horner;
    HornerTake(pre, d, 5, 256);
    HornerTake(pre, d, 4, 256);
    HornerTake(pre, d, 3, 256);
    HornerTake(pre, d, 2, 256);
    HornerTake(pre, d, 1, 256);
    assert pre + d[..5] == pre + d && pre + d[..0] == pre;
  }

  lemma HornerTake(pre: seq<int>, d: seq<int>, n: nat, base: int)
    requires 0 < n <= |d|
    ensures Horner(pre + d[..n], base) == Horner(pre + d[..n - 1], base) * base + d[n - 1]
  {
    assert pre + d[..n] == (pre + d[..n - 1]) + [d[n - 1]];
    HornerOne(pre + d[..n - 1], d[n - 1], base);
  }

  /** Five more bytes and their eight digits keep the two numbers equal. */
  lemma GroupKeeps(ds: seq<int>, bs: seq<int>, more: seq<int>)
    requires Horner(ds, 32) == Horner(bs, 256) && |more| == 5 && Digits(more, 256)
    ensures Horner(ds + Group(more[0], more[1], more[2], more[3], more[4]), 32) == Horner(bs + more, 256)
  {
    hide Horner, Group;
    HornerEight(ds, Group(more[0], more[1], more[2], more[3], more[4]));
    HornerFive(bs, more);
    GroupNumber(more[0], more[1], more[2], more[3], more[4]);
  }

  // ---- in place ----

  function Letter(d: int): char
    requires 0 <= d < 32
  {
    ALPHABET[d]
  }

  /** Eight characters of the output, from position `at`. */
  method FillEight(out: array<char>, at: nat, b1: bv8, b2: bv8, b3: bv8, b4: bv8, b5: bv8)
    requires at + 8 <= out.Length
    modifies out
    ensures var d := Group(Value(b1), Value(b2), Value(b3), Value(b4), Value(b5));
      Digits(d, 32) && forall k :: 0 <= k < 8 ==> out[at + k] == Letter(d[k])
    ensures forall k :: 0 <= k < out.Length && !(at <= k < at + 8) ==> out[k] == old(out[k])
  {
    hide Top5, Low3Top2, Mid62, Low1Top4, Low4Top1, Mid124, Low2Top3, Low5, Letter, Value;
    hide First, Second, Third, Fourth, Fifth, Sixth, Seventh, Eighth;
    FillFour(out, at, Letter(Top5(b1)), Letter(Low3Top2(b1, b2)), Letter(Mid62(b2)), Letter(Low1Top4(b2, b3)));
    FillFour(out, at + 4, Letter(Low4Top1(b3, b4)), Letter(Mid124(b4)), Letter(Low2Top3(b4, b5)), Letter(Low5(b5)));
  }

  method FillFour(out: array<char>, at: nat, c0: char, c1: char, c2: char, c3: char)
    requires at + 4 <= out.Length
    modifies out
    ensures out[at] == c0 && out[at + 1] == c1 && out[at + 2] == c2 && out[at + 3] == c3
    ensures forall k :: 0 <= k < out.Length && !(at <= k < at + 4) ==> out[k] == old(out[k])
  {
    out[at] := c0;
    out[at + 1] := c1;
    out[at + 2] := c2;
    out[at + 3] := c3;
  }

  /** The 16 bytes as 26 characters. */
  method Encode(b: seq<bv8>) returns (s: string)
    requires |b| == 16
    ensures IsEncoding(b, s)
  {
    hide Horner, Group, Letter, Top3, Low5, Value, Eighth;
    var out := new char[26](_ => '0');
    out[0] := Letter(Top3(b[0]));
    out[1] := Letter(Low5(b[0]));
    FillEight(out, 2, b[1], b[2], b[3], b[4], b[5]);
    FillEight(out, 10, b[6], b[7], b[8], b[9], b[10]);
    FillEight(out, 18, b[11], b[12], b[13], b[14], b[15]);
    s := out[..];
    GroupsSpell(b, s);
    Assembled(b, s);
  }

  ghost function DigitsOf(n: seq<int>): (ds: seq<int>)
    requires |n| == 16
    ensures |ds| == 26
  {
    [n[0] / 32, Eighth(n[0])] + Group(n[1], n[2], n[3], n[4], n[5]) + Group(n[6], n[7], n[8], n[9], n[10])
    + Group(n[11], n[12], n[13], n[14], n[15])
  }

  ghost predicate SpellsGroup(s: string, at: nat, b1: bv8, b2: bv8, b3: bv8, b4: bv8, b5: bv8)
    requires at + 8 <= |s|
  {
    var d := Group(Value(b1), Value(b2), Value(b3), Value(b4), Value(b5));
    Digits(d, 32) && forall k :: 0 <= k < 8 ==> s[at + k] == Letter(d[k])
  }

  /** Two characters and three groups of eight spell all digits. */
  lemma GroupsSpell(b: seq<bv8>, s: string)
    requires |b| == 16 && |s| == 26
    requires s[0] == Letter(Top3(b[0])) && s[1] == Letter(Low5(b[0]))
    requires SpellsGroup(s, 2, b[1], b[2], b[3], b[4], b[5]) && SpellsGroup(s, 10, b[6], b[7], b[8], b[9], b[10])
    requires SpellsGroup(s, 18, b[11], b[12], b[13], b[14], b[15])
    ensures Spells(s, DigitsOf(Ints(b)))
  {
    hide Group, Letter, Top3, Low5, Value, Eighth;
    var n, ds := Ints(b), DigitsOf(Ints(b));
    assert ds[0] == n[0] / 32 && ds[1] == Eighth(n[0]);
    forall k | 0 <= k < 8
      ensures ds[2 + k] == Group(n[1], n[2], n[3], n[4], n[5])[k]
      ensures ds[10 + k] == Group(n[6], n[7], n[8], n[9], n[10])[k]
      ensures ds[18 + k] == Group(n[11], n[12], n[13], n[14], n[15])[k]
    {}
    forall k | 0 <= k < 26 ensures 0 <= ds[k] < 32 && s[k] == Letter(ds[k]) {
      if 2 <= k < 10 { assert ds[k] == ds[2 + (k - 2)] && s[k] == s[2 + (k - 2)]; }
      else if 10 <= k < 18 { assert ds[k] == ds[10 + (k - 10)] && s[k] == s[10 + (k - 10)]; }
      else if 18 <= k { assert ds[k] == ds[18 + (k - 18)] && s[k] == s[18 + (k - 18)]; }
    }
  }

  lemma DigitsNumber(n: seq<int>)
    requires |n| == 16 && Digits(n, 256)
    ensures Horner(DigitsOf(n), 32) == Horner(n, 256)
  {
    hide Group;
    var first := [n[0] / 32, Eighth(n[0])];
    assert Horner(first, 32) == Horner([n[0]], 256) by { FirstByte(n[0]); }
    hide Horner;
    GroupKeeps(first, [n[0]], n[1..6]);
    assert [n[0]] + n[1..6] == n[..6];
    var second := first + Group(n[1], n[2], n[3], n[4], n[5]);
    GroupKeeps(second, n[..6], n[6..11]);
    assert n[..6] + n[6..11] == n[..11];
    GroupKeeps(second + Group(n[6], n[7], n[8], n[9], n[10]), n[..11], n[11..16]);
    assert n[..11] + n[11..16] == n;
  }

  lemma FirstByte(x: int)
    requires IsByte(x)
    ensures Horner([x / 32, Eighth(x)], 32) == x && Horner([x], 256) == x
  {
    HornerOne([], x, 256);
    HornerOne([], x / 32, 32);
    HornerOne([x / 32], Eighth(x), 32);
    assert [] + [x] == [x] && [] + [x / 32] == [x / 32] && [x / 32] + [Eighth(x)] == [x / 32, Eighth(x)];
  }

  lemma Assembled(b: seq<bv8>, s: string)
    requires |b| == 16 && |s| == 26 && Spells(s, DigitsOf(Ints(b)))
    ensures IsEncoding(b, s)
  {
    hide Horner, DigitsOf;
    DigitsNumber(Ints(b));
  }

  // ---- the string order is the byte order ----

  /** Letters ascend with their digits. */
  lemma {:induction false} AlphabetAscends(i: int, j: int)
    requires 0 <= i < j < 32
    ensures Letter(i) < Letter(j)
    decreases j - i
  {
    if j > i + 1 { AlphabetAscends(i, j - 1); }
    NextLetter(j - 1);
  }

  lemma NextLetter(i: int)
    requires 0 <= i < 31
    ensures Letter(i) < Letter(i + 1)
  {}

  /** The order of strings compares from the front, that of digits from the back; they
      agree. */
  lemma {:induction false} SpelledOrder(s: string, ds: seq<int>, t: string, es: seq<int>)
    requires Spells(s, ds) && Spells(t, es) && |s| == |t|
    ensures s == t <==> ds == es
    ensures StringLess(s, t) <==> DigitsLess(ds, es)
    decreases |s|
  {
    hide Letter;
    if s != "" {
      SpelledOrder(s[1..], ds[1..], t[1..], es[1..]);
      FrontFirst(ds, es);
      if ds[0] < es[0] { AlphabetAscends(ds[0], es[0]); }
      if es[0] < ds[0] { AlphabetAscends(es[0], ds[0]); }
      assert s == [s[0]] + s[1..] && t == [t[0]] + t[1..] && ds == [ds[0]] + ds[1..] && es == [es[0]] + es[1..];
    }
  }

  lemma {:induction false} FrontFirst(ds: seq<int>, es: seq<int>)
    requires |ds| == |es| > 0
    ensures DigitsLess(ds, es) <==> ds[0] < es[0] || (ds[0] == es[0] && DigitsLess(ds[1..], es[1..]))
    decreases |ds|
  {
    if |ds| > 1 {
      var x, y := ds[..|ds| - 1], es[..|es| - 1];
      FrontFirst(x, y);
      assert x[1..] == ds[1..][..|ds| - 2] && y[1..] == es[1..][..|es| - 2];
      assert x == [x[0]] + x[1..] && y == [y[0]] + y[1..];
    }
  }

  /** Encodings are equal exactly when the bytes are, and are ordered as the bytes are. */
  lemma EncodingOrder(b: seq<bv8>, c: seq<bv8>, s: string, t: string)
    requires IsEncoding(b, s) && IsEncoding(c, t)
    ensures s == t <==> b == c
    ensures StringLess(s, t) <==> DigitsLess(Ints(b), Ints(c))
  {
    hide Horner, Ints;
    var ds :| Spells(s, ds) && Horner(ds, 32) == Horner(Ints(b), 256);
    var es :| Spells(t, es) && Horner(es, 32) == Horner(Ints(c), 256);
    HornerOrder(ds, es, 32);
    IntsAreBytes(b);
    IntsAreBytes(c);
    HornerOrder(Ints(b), Ints(c), 256);
    SpelledOrder(s, ds, t, es);
    IntsInjective(b, c);
  }

  lemma IntsAreBytes(b: seq<bv8>)
    ensures Digits(Ints(b), 256)
  {
    hide Value;
  }

  lemma IntsInjective(b: seq<bv8>, c: seq<bv8>)
    requires |b| == |c|
    ensures Ints(b) == Ints(c) <==> b == c
  {
    if Ints(b) == Ints(c) {
      forall i | 0 <= i < |b| ensures b[i] == c[i] {
        assert Ints(b)[i] == Ints(c)[i];
        SameValue(b[i], c[i]);
      }
    }
  }

  lemma SameValue(b: bv8, c: bv8)
    requires Value(b) == Value(c)
    ensures b == c
  {}

  // ---- identifiers sort by time ----

  /** 48 bits of milliseconds. */
  const TIME_SPAN: nat := 0x1_0000_0000_0000

  function Byte(n: int): (b: bv8)
    requires 0 <= n < 256
    ensures Value(b) == n
  {
    n as bv8
  }

  /** The low 48 bits of the time in milliseconds, most significant byte first. */
  function TimeBytes(ms: nat): (b: seq<bv8>)
    ensures |b| == 6
  {
    [Byte(ms / 0x100_0000_0000 % 256), Byte(ms / 0x1_0000_0000 % 256), Byte(ms / 0x100_0000 % 256),
     Byte(ms / 0x1_0000 % 256), Byte(ms / 0x100 % 256), Byte(ms % 256)]
  }

  /** What an identifier looks like: a prefix, and the encoding of the time and ten random
      bytes. */
  ghost predicate IsId(id: string, prefix: string, ms: nat, random: seq<bv8>) {
    |random| == 10 && exists s :: id == prefix + "_" + s && IsEncoding(TimeBytes(ms) + random, s)
  }

  method New(prefix: string, ms: nat, random: seq<bv8>) returns (id: string)
    requires |random| == 10
    ensures IsId(id, prefix, ms, random)
  {
    hide IsEncoding;
    var s := Encode(TimeBytes(ms) + random);
    id := prefix + "_" + s;
  }

  lemma OneMoreByte(ds: seq<int>, high: int, low: nat)
    requires Horner(ds, 256) == high && high == low / 256
    ensures Horner(ds + [low % 256], 256) == low
  {
    HornerOne(ds, low % 256, 256);
  }

  /** The six bytes are the time. */
  lemma TimeNumber(ms: nat)
    requires ms < TIME_SPAN
    ensures Horner(Ints(TimeBytes(ms)), 256) == ms
  {
    hide Horner;
    var m1, m2, m3, m4, m5 := ms / 0x100, ms / 0x1_0000, ms / 0x100_0000, ms / 0x1_0000_0000, ms / 0x100_0000_0000;
    assert Horner([], 256) == 0 by { NoDigits(); }
    Quotients(ms);
    OneMoreByte([], 0, m5);
    var d5 := [] + [m5 % 256];
    OneMoreByte(d5, m5, m4);
    var d4 := d5 + [m4 % 256];
    OneMoreByte(d4, m4, m3);
    var d3 := d4 + [m3 % 256];
    OneMoreByte(d3, m3, m2);
    var d2 := d3 + [m2 % 256];
    OneMoreByte(d2, m2, m1);
    var d1 := d2 + [m1 % 256];
    OneMoreByte(d1, m1, ms);
    TimeInts(ms);
    assert Ints(TimeBytes(ms)) == d1 + [ms % 256];
  }

  lemma NoDigits()
    ensures Horner([], 256) == 0
  {}

  lemma Quotients(ms: nat)
    requires ms < TIME_SPAN
    ensures ms / 0x100_0000_0000 / 256 == 0
    ensures ms / 0x1_0000_0000 / 256 == ms / 0x100_0000_0000
    ensures ms / 0x100_0000 / 256 == ms / 0x1_0000_0000
    ensures ms / 0x1_0000 / 256 == ms / 0x100_0000
    ensures ms / 0x100 / 256 == ms / 0x1_0000
  {}

  lemma TimeInts(ms: nat)
    ensures Ints(TimeBytes(ms)) == [ms / 0x100_0000_0000 % 256, ms / 0x1_0000_0000 % 256, ms / 0x100_0000 % 256,
                                    ms / 0x1_0000 % 256, ms / 0x100 % 256, ms % 256]
  {
    hide Byte, Value;
  }

  /** Digits that follow do not change which of two different numbers is less. */
  lemma {:induction false} LessExtends(xs: seq<int>, ys: seq<int>, us: seq<int>, vs: seq<int>)
    requires |us| == |vs| && DigitsLess(xs, ys)
    ensures DigitsLess(xs + us, ys + vs)
    decreases |us|
  {
    if us == [] {
      assert xs + us == xs && ys + vs == ys;
    } else {
      var k := |us| - 1;
      LessExtends(xs, ys, us[..k], vs[..k]);
      assert (xs + us)[..|xs| + k] == xs + us[..k] && (ys + vs)[..|ys| + k] == ys + vs[..k];
    }
  }

  lemma {:induction false} SamePrefix(p: string, s: string, t: string)
    ensures StringLess(p + s, p + t) <==> StringLess(s, t)
    decreases |p|
  {
    if p == "" {
      assert p + s == s && p + t == t;
    } else {
      SamePrefix(p[1..], s, t);
      assert (p + s)[1..] == p[1..] + s && (p + t)[1..] == p[1..] + t;
    }
  }

  /** Identifiers of one kind that were made in different milliseconds sort by time, whatever
      their random parts. */
  lemma EarlierSortsFirst(id: string, id': string, prefix: string, ms: nat, ms': nat, random: seq<bv8>,
          random': seq<bv8>)
    requires IsId(id, prefix, ms, random) && IsId(id', prefix, ms', random') && ms < ms' < TIME_SPAN
    ensures StringLess(id, id')
  {
    hide IsEncoding, Horner, DigitsLess, StringLess, TimeBytes, Ints;
    var s :| id == prefix + "_" + s && IsEncoding(TimeBytes(ms) + random, s);
    var t :| id' == prefix + "_" + t && IsEncoding(TimeBytes(ms') + random', t);
    TimeNumber(ms);
    TimeNumber(ms');
    IntsAreBytes(TimeBytes(ms));
    IntsAreBytes(TimeBytes(ms'));
    HornerOrder(Ints(TimeBytes(ms)), Ints(TimeBytes(ms')), 256);
    LessExtends(Ints(TimeBytes(ms)), Ints(TimeBytes(ms')), Ints(random), Ints(random'));
    IntsJoin(TimeBytes(ms), random);
    IntsJoin(TimeBytes(ms'), random');
    EncodingOrder(TimeBytes(ms) + random, TimeBytes(ms') + random', s, t);
    SamePrefix(prefix + "_", s, t);
  }

  lemma IntsJoin(b: seq<bv8>, c: seq<bv8>)
    ensures Ints(b + c) == Ints(b) + Ints(c)
  {
    hide Value;
  }
}
