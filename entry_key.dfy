/**
 * Keys of the `logs` object store of a project database: `publicKey + ':' +`
 * the entry index written in decimal and left-padded with zeros to five
 * characters.  IndexedDB orders string keys lexicographically, so the log
 * head is found by counting the keys between the keys of index 0 and of
 * index 99999; the lemmas here show when that lexicographic order agrees
 * with the numeric order of the indices.
 */
module EntryKey {

  const MIN_INDEX: int := 0
  const INDEX_DIGITS: nat := 5
  /** `Number('9'.repeat(INDEX_DIGITS))` */
  const MAX_INDEX: int := 99999

  predicate IsDigit(c: char) {
    '0' <= c <= '9'
  }

  predicate AllDigits(s: string) {
    forall i :: 0 <= i < |s| ==> IsDigit(s[i])
  }

  function DigitValue(c: char): nat
    requires IsDigit(c)
  {
    (c as int) - ('0' as int)
  }

  function DigitChar(d: nat): (c: char)
    requires d < 10
    ensures IsDigit(c) && DigitValue(c) == d
  {
    (('0' as int) + d) as char
  }

  function Pow10(k: nat): (p: nat)
    ensures p >= 1
  {
    if k == 0 then 1 else 10 * Pow10(k - 1)
  }

  /** `n.toString()` for a non-negative integer. */
  function NatToString(n: nat): string
    decreases n
  {
    if n < 10 then [DigitChar(n)] else NatToString(n / 10) + [DigitChar(n % 10)]
  }

  /** `index.toString()` for an integer index, negative ones with a leading `-`. */
  function IntToString(i: int): string {
    if i < 0 then "-" + NatToString(-i) else NatToString(i)
  }

  function Repeat(c: char, k: nat): (r: string)
    ensures |r| == k && forall i :: 0 <= i < k ==> r[i] == c
  {
    seq(k, _ => c)
  }

  /** `s.padStart(width, fill)` for a one-character fill string. */
  function PadStart(s: string, width: nat, fill: char): (r: string)
    ensures |s| >= width ==> r == s
    ensures |s| < width ==> |r| == width && r[width - |s|..] == s
    ensures forall i :: 0 <= i < |r| - |s| ==> r[i] == fill
  {
    if |s| >= width then s else Repeat(fill, width - |s|) + s
  }

  /** `formatEntryIndex` (db/project.js:137-139). */
  function FormatEntryIndex(index: int): string {
    PadStart(IntToString(index), INDEX_DIGITS, '0')
  }

  /** `logEntryKey` (db/project.js:133-135). */
  function LogEntryKey(publicKey: string, index: int): string {
    publicKey + ":" + FormatEntryIndex(index)
  }

  /** IndexedDB's order on string keys: lexicographic, character by character. */
  predicate LexLess(a: string, b: string)
    decreases |a|
  {
    |b| > 0 && (|a| == 0 || a[0] < b[0] || (a[0] == b[0] && LexLess(a[1..], b[1..])))
  }

  predicate LexLe(a: string, b: string) {
    a == b || LexLess(a, b)
  }

  /**
   * The closed key range `IDBKeyRange.bound(logEntryKey(publicKey, MIN_INDEX),
   * logEntryKey(publicKey, MAX_INDEX))` that `getLogHead` and `_log` count over.
   */
  predicate InKeyRange(publicKey: string, key: string) {
    LexLe(LogEntryKey(publicKey, MIN_INDEX), key) && LexLe(key, LogEntryKey(publicKey, MAX_INDEX))
  }

  // ----- the numeric value of a digit string -----

  ghost function Value(s: string): nat
    requires AllDigits(s)
  {
    if |s| == 0 then 0 else 10 * Value(s[..|s| - 1]) + DigitValue(s[|s| - 1])
  }

  lemma {:induction false} ValueBound(s: string)
    requires AllDigits(s)
    ensures Value(s) < Pow10(|s|)
  {
    if |s| > 0 {
      ValueBound(s[..|s| - 1]);
    }
  }

  lemma {:induction false} ValueConcat(a: string, b: string)
    requires AllDigits(a) && AllDigits(b)
    ensures AllDigits(a + b)
    ensures Value(a + b) == Value(a) * Pow10(|b|) + Value(b)
    decreases |b|
  {
    if |b| == 0 {
      assert a + b == a;
    } else {
      var b' := b[..|b| - 1];
      assert (a + b)[..|a + b| - 1] == a + b';
      assert (a + b)[|a + b| - 1] == b[|b| - 1];
      ValueConcat(a, b');
      var va, p := Value(a), Pow10(|b'|);
      calc {
        Value(a + b);
        10 * Value(a + b') + DigitValue(b[|b| - 1]);
        10 * (va * p + Value(b')) + DigitValue(b[|b| - 1]);
        { assert 10 * (va * p) == va * (10 * p); }
        va * (10 * p) + (10 * Value(b') + DigitValue(b[|b| - 1]));
        va * Pow10(|b|) + Value(b);
      }
    }
  }

  lemma {:induction false} ZerosValue(k: nat)
    ensures AllDigits(Repeat('0', k)) && Value(Repeat('0', k)) == 0
  {
    if k > 0 {
      assert Repeat('0', k)[..k - 1] == Repeat('0', k - 1);
      ZerosValue(k - 1);
    }
  }

  /** `n.toString()` is a non-empty digit string of value `n` and at most `k` digits when `n < 10^k`. */
  lemma {:induction false} NatToStringShape(n: nat, k: nat)
    ensures AllDigits(NatToString(n)) && Value(NatToString(n)) == n
    ensures 1 <= |NatToString(n)|
    ensures 1 <= k && n < Pow10(k) ==> |NatToString(n)| <= k
    decreases n
  {
    var s := NatToString(n);
    if n < 10 {
      assert s[..0] == [];
    } else {
      var t := NatToString(n / 10);
      NatToStringShape(n / 10, if k == 0 then 0 else k - 1);
      assert s[..|s| - 1] == t;
      assert Value(s) == 10 * (n / 10) + n % 10;
      if 1 <= k && n < Pow10(k) {
        assert Pow10(1) == 10;
        assert k >= 2;
        assert n / 10 < Pow10(k - 1);
      }
    }
  }

  /**
   * For every non-negative index, `formatEntryIndex` yields only digits whose
   * value is the index; up to `MAX_INDEX` it is exactly `INDEX_DIGITS` long.
   */
  lemma FormatEntryIndexShape(n: nat)
    ensures AllDigits(FormatEntryIndex(n)) && Value(FormatEntryIndex(n)) == n
    ensures |FormatEntryIndex(n)| >= INDEX_DIGITS
    ensures n <= MAX_INDEX ==> |FormatEntryIndex(n)| == INDEX_DIGITS
  {
    var s := NatToString(n);
    assert Pow10(5) == 100000;
    NatToStringShape(n, INDEX_DIGITS);
    if |s| < INDEX_DIGITS {
      var z := Repeat('0', INDEX_DIGITS - |s|);
      ZerosValue(INDEX_DIGITS - |s|);
      ValueConcat(z, s);
      assert FormatEntryIndex(n) == z + s;
    }
  }

  // ----- lexicographic order -----

  lemma {:induction false} LexLessCommonPrefix(p: string, a: string, b: string)
    ensures LexLess(p + a, p + b) <==> LexLess(a, b)
    decreases |p|
  {
    if |p| == 0 {
      assert p + a == a && p + b == b;
    } else {
      assert (p + a)[1..] == p[1..] + a;
      assert (p + b)[1..] == p[1..] + b;
      LexLessCommonPrefix(p[1..], a, b);
    }
  }

  lemma MulStep(x: int, y: int, p: int, rx: int, ry: int)
    requires x < y && 0 <= rx < p && 0 <= ry
    ensures x * p + rx < y * p + ry
  {
    assert (y - (x + 1)) * p >= 0;
    assert y * p == (y - (x + 1)) * p + x * p + p;
  }

  /** On digit strings of one length, lexicographic order is numeric order. */
  lemma {:induction false} LexLessDigits(a: string, b: string)
    requires AllDigits(a) && AllDigits(b) && |a| == |b|
    ensures LexLess(a, b) <==> Value(a) < Value(b)
    decreases |a|
  {
    if |a| > 0 {
      var n := |a|;
      var p := Pow10(n - 1);
      assert a == [a[0]] + a[1..] && b == [b[0]] + b[1..];
      ValueConcat([a[0]], a[1..]);
      ValueConcat([b[0]], b[1..]);
      assert [a[0]][..0] == [] && [b[0]][..0] == [];
      var da, db := DigitValue(a[0]), DigitValue(b[0]);
      assert Value(a) == da * p + Value(a[1..]);
      assert Value(b) == db * p + Value(b[1..]);
      ValueBound(a[1..]);
      ValueBound(b[1..]);
      if da < db {
        MulStep(da, db, p, Value(a[1..]), Value(b[1..]));
      } else if db < da {
        MulStep(db, da, p, Value(b[1..]), Value(a[1..]));
      } else {
        assert a[0] == b[0];
        LexLessDigits(a[1..], b[1..]);
      }
    }
  }

  lemma FormatEntryIndexInjective(i: nat, j: nat)
    requires FormatEntryIndex(i) == FormatEntryIndex(j)
    ensures i == j
  {
    FormatEntryIndexShape(i);
    FormatEntryIndexShape(j);
  }

  /** Distinct non-negative indices give distinct keys under one public key. */
  lemma LogEntryKeyInjective(publicKey: string, i: nat, j: nat)
    requires LogEntryKey(publicKey, i) == LogEntryKey(publicKey, j)
    ensures i == j
  {
    var p := publicKey + ":";
    assert FormatEntryIndex(i) == LogEntryKey(publicKey, i)[|p|..];
    assert FormatEntryIndex(j) == LogEntryKey(publicKey, j)[|p|..];
    FormatEntryIndexInjective(i, j);
  }

  /** Between 0 and `MAX_INDEX`, the order of the keys is the order of the indices. */
  lemma LogEntryKeyOrder(publicKey: string, i: int, j: int)
    requires MIN_INDEX <= i <= MAX_INDEX && MIN_INDEX <= j <= MAX_INDEX
    ensures LexLess(LogEntryKey(publicKey, i), LogEntryKey(publicKey, j)) <==> i < j
  {
    FormatEntryIndexShape(i);
    FormatEntryIndexShape(j);
    LexLessCommonPrefix(publicKey + ":", FormatEntryIndex(i), FormatEntryIndex(j));
    LexLessDigits(FormatEntryIndex(i), FormatEntryIndex(j));
  }

  /** Every key of an index from 0 to `MAX_INDEX` lies in the range the head is counted over. */
  lemma LogEntryKeyInRange(publicKey: string, i: int)
    requires MIN_INDEX <= i <= MAX_INDEX
    ensures InKeyRange(publicKey, LogEntryKey(publicKey, i))
  {
    if i != MIN_INDEX {
      LogEntryKeyOrder(publicKey, MIN_INDEX, i);
    }
    if i != MAX_INDEX {
      LogEntryKeyOrder(publicKey, i, MAX_INDEX);
    }
  }
}
