/**
 * `YYYY-MM-DD` date keys: the strings `toISOString().split('T')[0]` produces and the
 * reminders, the calendar and the sales ledger compare, group and store. Years outside
 * 0..9999 are written in the extended form `+YYYYYY` / `-YYYYYY`, as `toISOString` does.
 */
module DateKeys {
  import opened Wrappers
  import opened Text
  import opened Civil

  function Pow10(w: nat): (p: nat)
    ensures p >= 1
  {
    if w == 0 then 1 else 10 * Pow10(w - 1)
  }

  /** The last `w` decimal digits of `n`, zero-padded to exactly `w` characters. */
  function Digits(n: nat, w: nat): (r: string)
    ensures |r| == w
    ensures forall i :: 0 <= i < |r| ==> '0' <= r[i] <= '9'
  {
    if w == 0 then [] else Digits(n / 10, w - 1) + [DigitChar(n % 10)]
  }

  predicate AllDigits(s: string) {
    forall i :: 0 <= i < |s| ==> '0' <= s[i] <= '9'
  }

  /** The number a string of decimal digits denotes. */
  function DigitsValue(s: string): (v: nat)
    requires AllDigits(s)
    ensures v < Pow10(|s|)
  {
    if s == [] then 0 else DigitsValue(s[..|s| - 1]) * 10 + (s[|s| - 1] as int - '0' as int)
  }

  lemma {:induction false} DigitsValueOfDigits(n: nat, w: nat)
    requires n < Pow10(w)
    ensures DigitsValue(Digits(n, w)) == n
  {
    if w > 0 {
      var s := Digits(n, w);
      assert s[..|s| - 1] == Digits(n / 10, w - 1);
      DigitsValueOfDigits(n / 10, w - 1);
    }
  }

  lemma {:induction false} DigitsOfDigitsValue(s: string)
    requires AllDigits(s)
    ensures Digits(DigitsValue(s), |s|) == s
  {
    if s != [] {
      var t := s[..|s| - 1];
      DigitsOfDigitsValue(t);
      var v := DigitsValue(s);
      assert v / 10 == DigitsValue(t) && v % 10 == s[|s| - 1] as int - '0' as int;
      assert s == t + [s[|s| - 1]];
    }
  }

  /** Zero-padded numbers of one width compare as strings exactly as they compare as numbers. */
  lemma {:induction false} DigitsOrder(a: nat, b: nat, w: nat)
    requires a < Pow10(w) && b < Pow10(w)
    ensures LexLess(Digits(a, w), Digits(b, w)) <==> a < b
  {
    if w == 0 {
    } else {
      var ha, hb := Digits(a / 10, w - 1), Digits(b / 10, w - 1);
      var la, lb := [DigitChar(a % 10)], [DigitChar(b % 10)];
      LexLessConcat(ha, la, hb, lb);
      DigitsOrder(a / 10, b / 10, w - 1);
      if ha == hb {
        DigitsValueOfDigits(a / 10, w - 1);
        DigitsValueOfDigits(b / 10, w - 1);
      }
      assert LexLess(la, lb) <==> a % 10 < b % 10;
    }
  }

  /** The year part of a key. */
  function YearKey(y: int): string {
    if 0 <= y <= 9999 then Digits(y, 4)
    else if y > 9999 then "+" + Digits(y, 6)
    else "-" + Digits(-y, 6)
  }

  /** The key of a date: `YYYY-MM-DD`. */
  function DateKeyOf(d: Date): string
    requires Valid(d)
  {
    YearKey(d.year) + "-" + Digits(d.month, 2) + "-" + Digits(d.day, 2)
  }

  /** The key of a day number, as `toISOString().split('T')[0]` writes it. */
  function DateKey(n: int): string {
    DateKeyOf(FromDay(n))
  }

  /** The range of days whose keys have the four-digit `YYYY-MM-DD` form. */
  predicate InKeyRange(n: int) {
    0 <= FromDay(n).year <= 9999
  }

  /** Reads a `YYYY-MM-DD` key back; `None` for any other text or a date that does not exist. */
  function ParseDate(s: string): Option<int> {
    if |s| == 10 && s[4] == '-' && s[7] == '-'
       && AllDigits(s[..4]) && AllDigits(s[5..7]) && AllDigits(s[8..])
    then
      var d := Date(DigitsValue(s[..4]), DigitsValue(s[5..7]), DigitsValue(s[8..]));
      if Valid(d) then Some(ToDay(d)) else None
    else None
  }

  /** Reading a text assembled from three digit strings reads back those three numbers. */
  lemma ParseParts(y: string, m: string, d: string)
    requires |y| == 4 && |m| == 2 && |d| == 2 && AllDigits(y) && AllDigits(m) && AllDigits(d)
    ensures var dt := Date(DigitsValue(y), DigitsValue(m), DigitsValue(d));
      ParseDate(y + "-" + m + "-" + d) == if Valid(dt) then Some(ToDay(dt)) else None
  {
    var s := y + "-" + m + "-" + d;
    assert s[..4] == y && s[5..7] == m && s[8..] == d;
  }

  /** Round trip: every four-digit-year key reads back as its day. */
  lemma ParseDateKey(n: int)
    requires InKeyRange(n)
    ensures ParseDate(DateKey(n)) == Some(n)
  {
    var d := FromDay(n);
    var y, m, dd := Digits(d.year, 4), Digits(d.month, 2), Digits(d.day, 2);
    assert DateKey(n) == y + "-" + m + "-" + dd;
    ParseParts(y, m, dd);
    DigitsValueOfDigits(d.year, 4);
    DigitsValueOfDigits(d.month, 2);
    DigitsValueOfDigits(d.day, 2);
  }

  /** Round trip: every text that reads as a date is that date's key. */
  lemma DateKeyOfParse(s: string)
    requires ParseDate(s).Some?
    ensures DateKey(ParseDate(s).value) == s
    ensures InKeyRange(ParseDate(s).value)
  {
    var d := Date(DigitsValue(s[..4]), DigitsValue(s[5..7]), DigitsValue(s[8..]));
    FromToDay(d);
    DigitsOfDigitsValue(s[..4]);
    DigitsOfDigitsValue(s[5..7]);
    DigitsOfDigitsValue(s[8..]);
    assert s == s[..4] + "-" + s[5..7] + "-" + s[8..];
  }

  /** Two keys of the same shape compare by year part, then month part, then day part. */
  lemma KeyCompare(ya: string, ma: string, da: string, yb: string, mb: string, db: string)
    requires |ya| == |yb| && |ma| == |mb|
    ensures LexLess(ya + "-" + ma + "-" + da, yb + "-" + mb + "-" + db) <==>
      LexLess(ya, yb) || (ya == yb && (LexLess(ma, mb) || (ma == mb && LexLess(da, db))))
  {
    var ra, rb := "-" + ma + "-" + da, "-" + mb + "-" + db;
    assert ya + "-" + ma + "-" + da == ya + ra;
    assert yb + "-" + mb + "-" + db == yb + rb;
    LexLessConcat(ya, ra, yb, rb);
    assert ra == "-" + (ma + ("-" + da)) && rb == "-" + (mb + ("-" + db));
    LexLessConcat("-", ma + ("-" + da), "-", mb + ("-" + db));
    LexLessConcat(ma, "-" + da, mb, "-" + db);
    LexLessConcat("-", da, "-", db);
  }

  lemma KeyOrderOfDates(a: Date, b: Date)
    requires Valid(a) && Valid(b) && 0 <= a.year <= 9999 && 0 <= b.year <= 9999
    ensures LexLess(DateKeyOf(a), DateKeyOf(b)) <==> Before(a, b)
  {
    assert Pow10(2) == 100 && Pow10(4) == 10000 by {
      assert Pow10(1) == 10 && Pow10(3) == 1000;
    }
    assert a.day < 100 && b.day < 100;
    var ya, yb := Digits(a.year, 4), Digits(b.year, 4);
    var ma, mb := Digits(a.month, 2), Digits(b.month, 2);
    assert DateKeyOf(a) == ya + "-" + ma + "-" + Digits(a.day, 2);
    assert DateKeyOf(b) == yb + "-" + mb + "-" + Digits(b.day, 2);
    KeyCompare(ya, ma, Digits(a.day, 2), yb, mb, Digits(b.day, 2));
    DigitsOrder(a.year, b.year, 4);
    DigitsOrder(a.month, b.month, 2);
    DigitsOrder(a.day, b.day, 2);
    DigitsValueOfDigits(a.year, 4);
    DigitsValueOfDigits(b.year, 4);
    DigitsValueOfDigits(a.month, 2);
    DigitsValueOfDigits(b.month, 2);
  }

  /** For four-digit years, comparing keys as strings is comparing days. */
  lemma KeyOrder(a: int, b: int)
    requires InKeyRange(a) && InKeyRange(b)
    ensures LexLess(DateKey(a), DateKey(b)) <==> a < b
  {
    var da, db := FromDay(a), FromDay(b);
    KeyOrderOfDates(da, db);
    if Before(da, db) {
      ToDayOrder(da, db);
    } else if Before(db, da) {
      ToDayOrder(db, da);
    }
  }

  /** For four-digit years, the key determines the day. */
  lemma DateKeyInjective(a: int, b: int)
    requires InKeyRange(a) && InKeyRange(b) && DateKey(a) == DateKey(b)
    ensures a == b
  {
    ParseDateKey(a);
    ParseDateKey(b);
  }

  /** `key <= today` on strings, as JavaScript compares them, agrees with day order. */
  lemma KeyLeOrder(a: int, b: int)
    requires InKeyRange(a) && InKeyRange(b)
    ensures LexLe(DateKey(a), DateKey(b)) <==> a <= b
  {
    KeyOrder(a, b);
    if DateKey(a) == DateKey(b) {
      DateKeyInjective(a, b);
    }
  }
}
