/**
 The daemon fingerprint: 32-bit FNV-1a over the code units of a text, printed as eight
 hexadecimal digits.  Two texts that differ in one code unit never share a fingerprint.
 */
module DaemonFingerprint {

  const OFFSET_BASIS: nat := 2166136261

  type Word = n: nat | n < 0x1_0000_0000
  type Unit = n: nat | n < 0x1_0000

  /** Bitwise exclusive or. */
  function Xor(a: nat, b: nat): nat
    decreases a + b
  {
    if a == 0 && b == 0 then 0 else 2 * Xor(a / 2, b / 2) + (a % 2 + b % 2) % 2
  }

  lemma {:induction false} XorBounded(a: nat, b: nat, bound: nat)
    requires a < bound && b < bound && Power(bound)
    ensures Xor(a, b) < bound
    decreases a + b
  {
    if bound > 1 && (a > 0 || b > 0) { XorBounded(a / 2, b / 2, bound / 2); }
  }

  predicate Power(n: nat) {
    n == 1 || (n > 1 && n % 2 == 0 && Power(n / 2))
  }

  lemma Halves(x: nat, bit: nat)
    requires bit < 2
    ensures (2 * x + bit) / 2 == x && (2 * x + bit) % 2 == bit
  {
  }

  lemma XorHalves(a: nat, b: nat)
    ensures Xor(a, b) / 2 == Xor(a / 2, b / 2) && Xor(a, b) % 2 == (a % 2 + b % 2) % 2
  {
    if a == 0 && b == 0 {
      assert Xor(0, 0) == 0;
    } else {
      Halves(Xor(a / 2, b / 2), (a % 2 + b % 2) % 2);
    }
  }

  lemma SameHalves(m: nat, n: nat)
    requires m / 2 == n / 2 && m % 2 == n % 2
    ensures m == n
  {
  }

  lemma Parity(p: nat, q: nat)
    requires p < 2 && q < 2
    ensures ((p + q) % 2 + q) % 2 == p
  {
  }

  lemma {:induction false} XorTwice(a: nat, b: nat)
    ensures Xor(Xor(a, b), b) == a
    decreases a + b
  {
    if a > 0 || b > 0 {
      var x := Xor(a, b);
      XorHalves(a, b);
      XorHalves(x, b);
      XorTwice(a / 2, b / 2);
      Parity(a % 2, b % 2);
      assert x / 2 == Xor(a / 2, b / 2);
      SameHalves(Xor(x, b), a);
    }
  }

  lemma {:induction false} XorCommutes(a: nat, b: nat)
    ensures Xor(a, b) == Xor(b, a)
    decreases a + b
  {
    if a > 0 || b > 0 { XorCommutes(a / 2, b / 2); }
  }

  lemma PowerFour(n: nat)
    requires Power(n)
    ensures Power(4 * n)
  {
    assert (4 * n) / 2 == 2 * n && (2 * n) / 2 == n;
  }

  lemma PowerByte(n: nat)
    requires Power(n)
    ensures Power(256 * n)
  {
    PowerFour(n);
    PowerFour(4 * n);
    PowerFour(16 * n);
    PowerFour(64 * n);
  }

  lemma WordPower()
    ensures Power(0x1_0000_0000)
  {
    PowerByte(1);
    PowerByte(0x100);
    PowerByte(0x1_0000);
    PowerByte(0x100_0000);
  }

  function XorWord(h: Word, unit: Unit): Word {
    WordPower();
    XorBounded(h, unit, 0x1_0000_0000);
    Xor(h, unit)
  }

  /** The product by the FNV prime, of which the low 32 bits are kept. */
  function Times(h: Word): Word {
    (h * 16777619) % 0x1_0000_0000
  }

  function Round(h: Word, unit: Unit): Word {
    Times(XorWord(h, unit))
  }

  function HashFrom(h: Word, text: seq<Unit>): Word
    decreases text
  {
    if text == [] then h else HashFrom(Round(h, text[0]), text[1..])
  }

  // ---------------------------------------------------------------- eight hexadecimal digits

  function Digit(n: nat): char
    requires n < 16
  {
    if n < 10 then '0' + n as char else 'a' + (n - 10) as char
  }

  function DigitValue(c: char): nat {
    if '0' <= c <= '9' then c as int - '0' as int else if 'a' <= c <= 'f' then c as int - 'a' as int + 10 else 0
  }

  /** A number in hexadecimal, without leading zeros. */
  function Hex(n: nat): string {
    if n < 16 then [Digit(n)] else Hex(n / 16) + [Digit(n % 16)]
  }

  function PadStart(s: string, width: nat): string
    decreases width - |s|
  {
    if |s| < width then PadStart("0" + s, width) else s
  }

  method BuildDaemonFingerprint(text: seq<Unit>) returns (fingerprint: string)
    ensures fingerprint == PadStart(Hex(HashFrom(OFFSET_BASIS, text)), 8)
  {
    var hash: Word := OFFSET_BASIS;
    for i := 0 to |text|
      invariant HashFrom(hash, text[i..]) == HashFrom(OFFSET_BASIS, text)
    {
      assert text[i..][0] == text[i] && text[i..][1..] == text[i + 1..];
      hash := XorWord(hash, text[i]);
      hash := Times(hash);
    }
    fingerprint := PadStart(Hex(hash), 8);
  }

  // ---------------------------------------------------------------- every round is a bijection

  /** 16777619 and 899433627 are inverse to each other among 32-bit words. */
  lemma TimesUndone(h: Word)
    ensures (Times(h) * 899433627) % 0x1_0000_0000 == h
    ensures Times((h * 899433627) % 0x1_0000_0000) == h
  {
    Inverse(h, 16777619, 899433627);
    Inverse(h, 899433627, 16777619);
  }

  lemma Inverse(h: Word, p: nat, q: nat)
    requires p * q == 1 + 3513497 * 0x1_0000_0000
    ensures (((h * p) % 0x1_0000_0000) * q) % 0x1_0000_0000 == h
  {
    var t, r := (h * p) / 0x1_0000_0000, (h * p) % 0x1_0000_0000;
    assert h * p == t * 0x1_0000_0000 + r;
    assert (h * p) * q == h * (p * q) == h + (h * 3513497) * 0x1_0000_0000;
    assert r * q == (h * p) * q - (t * q) * 0x1_0000_0000;
    Remainder(r * q, h, h * 3513497 - t * q);
  }

  lemma Remainder(y: int, h: Word, t: int)
    requires y == h + t * 0x1_0000_0000
    ensures y % 0x1_0000_0000 == h
  {
  }

  lemma TimesInjective(g: Word, h: Word)
    requires Times(g) == Times(h)
    ensures g == h
  {
    TimesUndone(g);
    TimesUndone(h);
  }

  /** A round can be undone, and it reaches every word: it is a bijection. */
  lemma RoundBijective(h: Word, unit: Unit)
    ensures Xor((Round(h, unit) * 899433627) % 0x1_0000_0000, unit) == h
    ensures Round(XorWord((h * 899433627) % 0x1_0000_0000, unit), unit) == h
  {
    TimesUndone(XorWord(h, unit));
    XorTwice(h, unit);
    XorTwice((h * 899433627) % 0x1_0000_0000, unit);
    TimesUndone(h);
  }

  lemma RoundInjective(g: Word, h: Word, unit: Unit)
    requires Round(g, unit) == Round(h, unit)
    ensures g == h
  {
    RoundBijective(g, unit);
    RoundBijective(h, unit);
  }

  lemma UnitsDiffer(h: Word, a: Unit, b: Unit)
    requires Round(h, a) == Round(h, b)
    ensures a == b
  {
    TimesInjective(XorWord(h, a), XorWord(h, b));
    XorCommutes(h, a);
    XorCommutes(h, b);
    XorTwice(a, h);
    XorTwice(b, h);
  }

  lemma {:induction false} HashInjective(g: Word, h: Word, text: seq<Unit>)
    requires HashFrom(g, text) == HashFrom(h, text)
    ensures g == h
    decreases text
  {
    if text != [] {
      HashInjective(Round(g, text[0]), Round(h, text[0]), text[1..]);
      RoundInjective(g, h, text[0]);
    }
  }

  lemma {:induction false} HashConcat(h: Word, a: seq<Unit>, b: seq<Unit>)
    ensures HashFrom(h, a + b) == HashFrom(HashFrom(h, a), b)
    decreases a
  {
    if a == [] {
      assert a + b == b;
    } else {
      assert (a + b)[1..] == a[1..] + b;
      HashConcat(Round(h, a[0]), a[1..], b);
    }
  }

  // ---------------------------------------------------------------- the printed form is injective

  function Value(s: string): nat {
    if s == [] then 0 else 16 * Value(s[..|s| - 1]) + DigitValue(s[|s| - 1])
  }

  lemma {:induction false} HexValue(n: nat)
    ensures Value(Hex(n)) == n
  {
    if n >= 16 {
      HexValue(n / 16);
      var s := Hex(n);
      assert s[..|s| - 1] == Hex(n / 16) && s[|s| - 1] == Digit(n % 16);
    } else {
      assert [Digit(n)][..0] == [];
    }
  }

  lemma {:induction false} ZeroInFront(s: string)
    ensures Value("0" + s) == Value(s)
  {
    if s == [] {
      assert ("0" + s)[..0] == [];
    } else {
      assert ("0" + s)[..|s|] == "0" + s[..|s| - 1];
      ZeroInFront(s[..|s| - 1]);
    }
  }

  lemma {:induction false} PaddedValue(s: string, width: nat)
    ensures Value(PadStart(s, width)) == Value(s)
    decreases width - |s|
  {
    if |s| < width {
      ZeroInFront(s);
      PaddedValue("0" + s, width);
    }
  }

  /** The padded hexadecimal form of a word determines the word. */
  lemma HexInjective(g: Word, h: Word)
    requires PadStart(Hex(g), 8) == PadStart(Hex(h), 8)
    ensures g == h
  {
    PaddedValue(Hex(g), 8);
    PaddedValue(Hex(h), 8);
    HexValue(g);
    HexValue(h);
  }

  lemma HashAround(a: seq<Unit>, i: nat)
    requires i < |a|
    ensures HashFrom(OFFSET_BASIS, a) == HashFrom(Round(HashFrom(OFFSET_BASIS, a[..i]), a[i]), a[i + 1..])
  {
    var rest := a[i..];
    assert a == a[..i] + rest && rest[0] == a[i] && rest[1..] == a[i + 1..];
    HashConcat(OFFSET_BASIS, a[..i], rest);
  }

  /** Texts of one length that agree in all code units but one, and share a fingerprint, are the same. */
  lemma OneUnitShows(a: seq<Unit>, b: seq<Unit>, i: nat)
    requires |a| == |b| && i < |a|
    requires forall k | 0 <= k < |a| && k != i :: a[k] == b[k]
    requires PadStart(Hex(HashFrom(OFFSET_BASIS, a)), 8) == PadStart(Hex(HashFrom(OFFSET_BASIS, b)), 8)
    ensures a == b
  {
    var head, tail := a[..i], a[i + 1..];
    assert b[..i] == head && b[i + 1..] == tail;
    HashAround(a, i);
    HashAround(b, i);
    HexInjective(HashFrom(OFFSET_BASIS, a), HashFrom(OFFSET_BASIS, b));
    var h := HashFrom(OFFSET_BASIS, head);
    HashInjective(Round(h, a[i]), Round(h, b[i]), tail);
    UnitsDiffer(h, a[i], b[i]);
  }
}
