/**
  Stored timestamps. Every time column is TEXT in Go's RFC3339Nano layout, which
  drops the trailing zeros of the fraction (and the whole fraction when it is
  zero), and SQL compares the columns as text. This module proves exactly when
  that text order is the time order.
 */
module Timestamps {
  import opened Text
  import opened Records

  /** A UTC calendar instant with nanoseconds; field order is time order. */
  datatype Stamp = Stamp(year: nat, month: nat, day: nat, hour: nat, minute: nat, second: nat, nanos: nat) {
    predicate Valid() {
      year < 10000 && 1 <= month <= 12 && 1 <= day <= 31 && hour < 24 && minute < 60 && second < 60 && nanos < Pow10(9)
    }
  }

  function Pow10(w: nat): (p: nat)
    ensures p >= 1
  {
    if w == 0 then 1 else 10 * Pow10(w - 1)
  }

  function Digit(d: nat): char
    requires d < 10
  {
    '0' + d as char
  }

  /** n in decimal, zero-padded on the left to the given width. */
  function Pad(n: nat, width: nat): (s: string)
    ensures |s| == width
    ensures forall i | 0 <= i < width :: '0' <= s[i] <= '9'
  {
    if width == 0 then "" else Pad(n / 10, width - 1) + [Digit(n % 10)]
  }

  function TrimZeros(s: string): (t: string)
    ensures t <= s
    ensures forall i | |t| <= i < |s| :: s[i] == '0'
    ensures t == "" || t[|t| - 1] != '0'
  {
    if s != "" && s[|s| - 1] == '0' then TrimZeros(s[..|s| - 1]) else s
  }

  /** The fraction digits that survive trimming. */
  function Digits(s: Stamp): string {
    TrimZeros(Pad(s.nanos, 9))
  }

  function Tail(digits: string): string {
    if digits == "" then "Z" else "." + (digits + "Z")
  }

  /** RFC3339Nano text of a UTC instant. */
  function Format(s: Stamp): string {
    Pad(s.year, 4) + ("-" + (Pad(s.month, 2) + ("-" + (Pad(s.day, 2) + ("T" +
    (Pad(s.hour, 2) + (":" + (Pad(s.minute, 2) + (":" + (Pad(s.second, 2) + Tail(Digits(s))))))))))))
  }

  /** a falls in an earlier whole second than b. */
  predicate EarlierSecond(a: Stamp, b: Stamp) {
    a.year < b.year || (a.year == b.year && (a.month < b.month || (a.month == b.month && (
    a.day < b.day || (a.day == b.day && (a.hour < b.hour || (a.hour == b.hour && (
    a.minute < b.minute || (a.minute == b.minute && a.second < b.second)))))))))
  }

  predicate SameSecond(a: Stamp, b: Stamp) {
    a.(nanos := 0) == b.(nanos := 0)
  }

  predicate Earlier(a: Stamp, b: Stamp) {
    EarlierSecond(a, b) || (SameSecond(a, b) && a.nanos < b.nanos)
  }

  lemma {:induction false} PadOrder(a: nat, b: nat, w: nat)
    requires a < Pow10(w) && b < Pow10(w)
    ensures Less(Pad(a, w), Pad(b, w)) <==> a < b
    ensures Pad(a, w) == Pad(b, w) <==> a == b
  {
    if w > 0 {
      var p, q := Pad(a / 10, w - 1), Pad(b / 10, w - 1);
      var x, y := [Digit(a % 10)], [Digit(b % 10)];
      PadOrder(a / 10, b / 10, w - 1);
      LessConcat(p, q, x, y);
      assert Less(x, y) <==> a % 10 < b % 10;
      assert (p + x)[..w - 1] == p && (q + y)[..w - 1] == q;
      assert (p + x)[w - 1] == x[0] && (q + y)[w - 1] == y[0];
    }
  }

  /** One padded field decides first, whatever follows it decides next. */
  lemma FieldOrder(a: nat, b: nat, w: nat, x: string, y: string)
    requires a < Pow10(w) && b < Pow10(w)
    ensures Less(Pad(a, w) + x, Pad(b, w) + y) <==> a < b || (a == b && Less(x, y))
  {
    PadOrder(a, b, w);
    LessConcat(Pad(a, w), Pad(b, w), x, y);
  }

  lemma SeparatorOrder(sep: string, x: string, y: string)
    ensures Less(sep + x, sep + y) <==> Less(x, y)
  {
    LessConcat(sep, sep, x, y);
    Irreflexive(sep);
  }

  /** A two-digit field behind a separator. */
  lemma PartOrder(sep: string, a: nat, b: nat, x: string, y: string)
    requires a < 100 && b < 100
    ensures Less(sep + (Pad(a, 2) + x), sep + (Pad(b, 2) + y)) <==> a < b || (a == b && Less(x, y))
  {
    assert Pow10(2) == 100;
    SeparatorOrder(sep, Pad(a, 2) + x, Pad(b, 2) + y);
    FieldOrder(a, b, 2, x, y);
  }

  lemma SecondsDecideFirst(a: Stamp, b: Stamp)
    requires a.Valid() && b.Valid()
    ensures Less(Format(a), Format(b)) <==>
            EarlierSecond(a, b) || (SameSecond(a, b) && Less(Tail(Digits(a)), Tail(Digits(b))))
  {
    var ta, tb := Tail(Digits(a)), Tail(Digits(b));
    PartOrder(":", a.second, b.second, ta, tb);
    var sa, sb := ":" + (Pad(a.second, 2) + ta), ":" + (Pad(b.second, 2) + tb);
    PartOrder(":", a.minute, b.minute, sa, sb);
    var ma, mb := ":" + (Pad(a.minute, 2) + sa), ":" + (Pad(b.minute, 2) + sb);
    PartOrder("T", a.hour, b.hour, ma, mb);
    var ha, hb := "T" + (Pad(a.hour, 2) + ma), "T" + (Pad(b.hour, 2) + mb);
    PartOrder("-", a.day, b.day, ha, hb);
    var da, db := "-" + (Pad(a.day, 2) + ha), "-" + (Pad(b.day, 2) + hb);
    PartOrder("-", a.month, b.month, da, db);
    assert Pow10(4) == 10000;
    FieldOrder(a.year, b.year, 4, "-" + (Pad(a.month, 2) + da), "-" + (Pad(b.month, 2) + db));
  }

  lemma {:induction false} LessAt(a: string, b: string, k: nat)
    requires k < |a| && k < |b| && a[..k] == b[..k] && a[k] < b[k]
    ensures Less(a, b)
  {
    if k > 0 {
      assert a[0] == a[..k][0] == b[0];
      assert a[1..][..k - 1] == a[..k][1..] == b[1..][..k - 1];
      LessAt(a[1..], b[1..], k - 1);
    }
  }

  lemma {:induction false} FirstDifference(a: string, b: string) returns (k: nat)
    requires |a| == |b| && Less(a, b)
    ensures k < |a| && a[..k] == b[..k] && a[k] < b[k]
  {
    if a[0] < b[0] {
      k := 0;
    } else {
      k := FirstDifference(a[1..], b[1..]);
      assert a[..k + 1] == [a[0]] + a[1..][..k];
      assert b[..k + 1] == [b[0]] + b[1..][..k];
      k := k + 1;
    }
  }

  predicate AllDigits(s: string) {
    forall i | 0 <= i < |s| :: '0' <= s[i] <= '9'
  }

  /** A proper prefix sorts after the longer fraction, because 'Z' is above every digit and above '.'. */
  lemma PrefixSortsLast(s: string, t: string)
    requires s < t && AllDigits(t)
    ensures Less(Tail(t), Tail(s))
  {
    if s == "" {
      LessAt(Tail(t), Tail(s), 0);
    } else {
      var k := |s|;
      assert Tail(t)[..k + 1] == "." + t[..k] && Tail(s)[..k + 1] == "." + s[..k];
      assert Tail(t)[k + 1] == t[k] && Tail(s)[k + 1] == 'Z';
      LessAt(Tail(t), Tail(s), k + 1);
    }
  }

  lemma DigitDecides(s: string, t: string, k: nat)
    requires k < |s| && k < |t| && s[..k] == t[..k] && s[k] < t[k]
    ensures Less(Tail(s), Tail(t)) && !(s < t) && !(t < s)
  {
    assert Tail(t)[..k + 1] == "." + t[..k] && Tail(s)[..k + 1] == "." + s[..k];
    LessAt(Tail(s), Tail(t), k + 1);
  }

  /** Inside one second, trimming inverts the order exactly when the earlier fraction is a prefix of the later one. */
  lemma FractionOrder(p: string, q: string)
    requires |p| == |q| && AllDigits(p) && AllDigits(q) && Less(p, q)
    ensures var s, t := TrimZeros(p), TrimZeros(q);
            !(t < s) && s != t && if s < t then Less(Tail(t), Tail(s)) else Less(Tail(s), Tail(t))
  {
    var s, t := TrimZeros(p), TrimZeros(q);
    var k := FirstDifference(p, q);
    assert k < |t|;
    assert t == q[..|t|] && s == p[..|s|];
    if k < |s| {
      assert s[..k] == p[..k] && t[..k] == q[..k];
      DigitDecides(s, t, k);
    } else {
      assert s == p[..k][..|s|] == q[..k][..|s|] == t[..|s|];
      PrefixSortsLast(s, t);
    }
  }

  /** Text order of two stored times, for every pair of times in strict time order. */
  lemma EarlierTextOrder(a: Stamp, b: Stamp)
    requires a.Valid() && b.Valid() && Earlier(a, b)
    ensures Less(Format(a), Format(b)) <==> !(SameSecond(a, b) && Digits(a) < Digits(b))
    ensures Less(Format(b), Format(a)) <==> SameSecond(a, b) && Digits(a) < Digits(b)
  {
    SecondsDecideFirst(a, b);
    SecondsDecideFirst(b, a);
    if SameSecond(a, b) {
      var p, q := Pad(a.nanos, 9), Pad(b.nanos, 9);
      PadOrder(a.nanos, b.nanos, 9);
      FractionOrder(p, q);
      Trichotomy(Tail(Digits(a)), Tail(Digits(b)));
    }
  }

  /** The earlier one's surviving fraction is a proper prefix of the later one's. */
  predicate Inverted(a: Stamp, b: Stamp) {
    SameSecond(a, b) && Earlier(a, b) && Digits(a) < Digits(b)
  }

  /** Comparing stored times disagrees with time order exactly on inverted pairs. */
  lemma TextOrderExact(a: Stamp, b: Stamp)
    requires a.Valid() && b.Valid()
    ensures (Less(Format(a), Format(b)) <==> Earlier(a, b)) <==> !Inverted(a, b) && !Inverted(b, a)
  {
    if Earlier(a, b) {
      EarlierTextOrder(a, b);
    } else if Earlier(b, a) {
      EarlierTextOrder(b, a);
    } else {
      assert a == b;
      Irreflexive(Format(a));
    }
  }

  /** The recovery scan's test on stored text: leased_until < now. */
  predicate ScannedAsOrphan(leasedUntil: Stamp, now: Stamp) {
    Less(Format(leasedUntil), Format(now))
  }

  /** Only deadlines inside the scan's own second can be misjudged, and these are the ones. */
  lemma OrphanScanExact(leasedUntil: Stamp, now: Stamp)
    requires leasedUntil.Valid() && now.Valid()
    ensures EarlierSecond(leasedUntil, now) ==> ScannedAsOrphan(leasedUntil, now)
    ensures EarlierSecond(now, leasedUntil) ==> !ScannedAsOrphan(leasedUntil, now)
    ensures ScannedAsOrphan(leasedUntil, now) <==>
            Inverted(now, leasedUntil) || (Earlier(leasedUntil, now) && !Inverted(leasedUntil, now))
  {
    TextOrderExact(leasedUntil, now);
    if Earlier(now, leasedUntil) { EarlierTextOrder(now, leasedUntil); }
    if Earlier(leasedUntil, now) { EarlierTextOrder(leasedUntil, now); }
  }

  /** A live lease, half a second from its deadline, that the scan takes for an orphan. */
  lemma LiveLeaseScanned()
    ensures var due := Stamp(2026, 1, 1, 0, 0, 5, 500000000);
            var now := due.(nanos := 0);
            due.Valid() && now.Valid() && Earlier(now, due) && ScannedAsOrphan(due, now)
  {
    var due := Stamp(2026, 1, 1, 0, 0, 5, 500000000);
    var now := due.(nanos := 0);
    assert Pow10(9) == 1000000000;
    var p, q := Pad(0, 9), Pad(500000000, 9);
    PadOrder(0, 500000000, 9);
    FractionOrder(p, q);
    ZerosTrimAway(9);
    assert Digits(now) == "";
    OrphanScanExact(due, now);
  }

  lemma {:induction false} ZerosTrimAway(w: nat)
    ensures TrimZeros(Pad(0, w)) == ""
  {
    if w > 0 {
      assert Pad(0, w)[..w - 1] == Pad(0, w - 1);
      ZerosTrimAway(w - 1);
    }
  }

  // ---- Reading stored times back ----

  function Value(digits: string): nat
    requires AllDigits(digits)
  {
    if digits == "" then 0
    else 10 * Value(digits[..|digits| - 1]) + (digits[|digits| - 1] as nat - '0' as nat)
  }

  /** What a reader got from the front of a text, and what is left of it. */
  datatype Read = Unreadable | Read(value: nat, rest: string)

  /** A field of that many digits and the separator behind it. */
  function ReadField(text: string, width: nat, separator: string): Read {
    if |text| < width + |separator| || !AllDigits(text[..width]) || text[width..width + |separator|] != separator
    then Unreadable
    else Read(Value(text[..width]), text[width + |separator|..])
  }

  /** A fraction of up to nine digits, in nanoseconds. */
  function Nanos(digits: string): nat
    requires AllDigits(digits) && |digits| <= 9
  {
    Value(digits) * Pow10(9 - |digits|)
  }

  /** An optional fraction and the zone. */
  function ReadFraction(text: string): Read {
    if text == "Z" then Read(0, "")
    else if 3 <= |text| <= 11 && text[0] == '.' && text[|text| - 1] == 'Z' && AllDigits(text[1..|text| - 1]) then
      Read(Nanos(text[1..|text| - 1]), "")
    else Unreadable
  }

  function ReadDate(text: string): (r: (Read, Read, Read)) {
    var year := ReadField(text, 4, "-");
    var month := if year.Read? then ReadField(year.rest, 2, "-") else Unreadable;
    var day := if month.Read? then ReadField(month.rest, 2, "T") else Unreadable;
    (year, month, day)
  }

  function ReadTime(text: string): (r: (Read, Read, Read, Read)) {
    var hour := ReadField(text, 2, ":");
    var minute := if hour.Read? then ReadField(hour.rest, 2, ":") else Unreadable;
    var second := if minute.Read? then ReadField(minute.rest, 2, "") else Unreadable;
    var nanos := if second.Read? then ReadFraction(second.rest) else Unreadable;
    (hour, minute, second, nanos)
  }

  function Parse(text: string): Option<Stamp> {
    var (year, month, day) := ReadDate(text);
    if day.Unreadable? || month.Unreadable? || year.Unreadable? then None
    else
      var (hour, minute, second, nanos) := ReadTime(day.rest);
      if hour.Unreadable? || minute.Unreadable? || second.Unreadable? || nanos.Unreadable? then None
      else Some(Stamp(year.value, month.value, day.value, hour.value, minute.value, second.value, nanos.value))
  }

  lemma {:induction false} ValueOfPad(n: nat, w: nat)
    requires n < Pow10(w)
    ensures Value(Pad(n, w)) == n
  {
    if w > 0 {
      assert Pad(n, w)[..w - 1] == Pad(n / 10, w - 1);
      ValueOfPad(n / 10, w - 1);
    }
  }

  lemma TenTimes(v: nat, k: nat)
    ensures v * Pow10(k + 1) == 10 * (v * Pow10(k))
  {
    var p := Pow10(k);
    assert Pow10(k + 1) == 10 * p;
    assert v * (10 * p) == 10 * (v * p);
  }

  /** Trimmed zeros come back as a power of ten. */
  lemma {:induction false} ValueOfTrimmed(p: string, t: string)
    requires AllDigits(p) && t == TrimZeros(p)
    ensures Value(t) * Pow10(|p| - |t|) == Value(p)
  {
    if p != "" && p[|p| - 1] == '0' {
      var front := p[..|p| - 1];
      ValueOfTrimmed(front, t);
      TenTimes(Value(t), |front| - |t|);
    } else {
      assert Pow10(0) == 1;
    }
  }

  lemma FieldBack(n: nat, w: nat, separator: string, rest: string)
    requires n < Pow10(w)
    ensures ReadField(Pad(n, w) + (separator + rest), w, separator) == Read(n, rest)
  {
    var text := Pad(n, w) + (separator + rest);
    ValueOfPad(n, w);
    assert text[..w] == Pad(n, w) && text[w..w + |separator|] == separator && text[w + |separator|..] == rest;
  }

  lemma FractionOf(t: string)
    requires AllDigits(t) && |t| <= 9
    ensures ReadFraction(Tail(t)) == Read(if t == "" then 0 else Nanos(t), "")
  {
    if t != "" { assert Tail(t)[1..|Tail(t)| - 1] == t; }
  }

  lemma FractionBack(s: Stamp)
    requires s.Valid()
    ensures ReadFraction(Tail(Digits(s))) == Read(s.nanos, "")
  {
    var p, t := Pad(s.nanos, 9), Digits(s);
    ValueOfPad(s.nanos, 9);
    ValueOfTrimmed(p, t);
    FractionOf(t);
  }

  lemma TimeBack(s: Stamp, text: string)
    requires s.Valid()
    requires text == Pad(s.hour, 2) + (":" + (Pad(s.minute, 2) + (":" + (Pad(s.second, 2) + Tail(Digits(s))))))
    ensures ReadTime(text) == (
              Read(s.hour, Pad(s.minute, 2) + (":" + (Pad(s.second, 2) + Tail(Digits(s))))),
              Read(s.minute, Pad(s.second, 2) + Tail(Digits(s))), Read(s.second, Tail(Digits(s))), Read(s.nanos, ""))
  {
    assert Pow10(2) == 100;
    FieldBack(s.hour, 2, ":", Pad(s.minute, 2) + (":" + (Pad(s.second, 2) + Tail(Digits(s)))));
    FieldBack(s.minute, 2, ":", Pad(s.second, 2) + Tail(Digits(s)));
    FieldBack(s.second, 2, "", Tail(Digits(s)));
    assert "" + Tail(Digits(s)) == Tail(Digits(s));
    FractionBack(s);
  }

  /** Every time comes back from the store as it went in, to the nanosecond. */
  lemma RoundTrip(s: Stamp)
    requires s.Valid()
    ensures Parse(Format(s)) == Some(s)
  {
    var time := Pad(s.hour, 2) + (":" + (Pad(s.minute, 2) + (":" + (Pad(s.second, 2) + Tail(Digits(s))))));
    assert Pow10(2) == 100 && Pow10(4) == 10000;
    FieldBack(s.year, 4, "-", Pad(s.month, 2) + ("-" + (Pad(s.day, 2) + ("T" + time))));
    FieldBack(s.month, 2, "-", Pad(s.day, 2) + ("T" + time));
    FieldBack(s.day, 2, "T", time);
    TimeBack(s, time);
  }
}
