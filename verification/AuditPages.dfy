/** The audit log of two sources on one timeline: the comparable key of a timestamp, and paging by cursor. */
module AuditPages {
  import opened Options
  import opened Lexical
  import opened Decimal
  import Sorting

  // ---------------------------------------------------------------------------
  // Timestamps as text
  // ---------------------------------------------------------------------------

  const CLOCK_LENGTH := 19

  /** Seconds since 1970 of a date and time of day without fraction, read as UTC. */
  type Calendar = string -> int

  /** Two-digit groups and their separators: `0000-00-00T00:00:00`, with T or a blank in the middle. */
  predicate IsClock(s: string) {
    |s| == CLOCK_LENGTH && forall i :: 0 <= i < |s| ==>
      if i == 4 || i == 7 then s[i] == '-' else if i == 10 then s[i] == 'T' || s[i] == ' '
      else if i == 13 || i == 16 then s[i] == ':' else IsDigit(s[i])
  }

  /** `Z`, `+00`, `+0000` or `+00:00`, and likewise with a minus. */
  predicate IsZone(s: string) {
    || s == "Z"
    || (&& s != [] && (s[0] == '+' || s[0] == '-') && 3 <= |s| && IsDigit(s[1]) && IsDigit(s[2])
        && (|s| == 3 || (|s| == 5 && AllDigits(s[3..])) || (|s| == 6 && s[3] == ':' && AllDigits(s[4..]))))
  }

  /** The digits after the decimal point, if there is one. */
  function Fraction(rest: string): string {
    if rest != [] && rest[0] == '.' then DigitPrefix(rest[1..]) else []
  }

  function Zone(rest: string): string {
    if Fraction(rest) == [] then rest else rest[1 + |Fraction(rest)|..]
  }

  predicate IsTimestamp(s: string) {
    |s| > CLOCK_LENGTH && IsClock(s[..CLOCK_LENGTH]) && |Fraction(s[CLOCK_LENGTH..])| <= 6 && IsZone(Zone(s[CLOCK_LENGTH..]))
  }

  function OffsetMinutes(zone: string): int
    requires IsZone(zone)
  {
    if zone == "Z" then 0
    else
      var minutes := if |zone| == 3 then 0 else if |zone| == 5 then Value(zone[3..]) else Value(zone[4..]);
      (if zone[0] == '-' then -1 else 1) * (Value(zone[1..3]) * 60 + minutes)
  }

  function Zeros(n: nat): (s: string)
    ensures |s| == n && AllDigits(s)
  {
    if n == 0 then [] else Zeros(n - 1) + ['0']
  }

  function PadEnd(s: string, n: nat): (r: string)
    requires AllDigits(s) && |s| <= n
    ensures |r| == n && AllDigits(r)
  {
    s + Zeros(n - |s|)
  }

  /** The six digits of the fraction. */
  function Six(at: string): (s: string)
    requires IsTimestamp(at)
    ensures |s| == 6 && AllDigits(s)
  {
    PadEnd(Fraction(at[CLOCK_LENGTH..]), 6)
  }

  /** What Date.parse makes of it, less the offset: milliseconds, with the rest of the fraction cut off. */
  function Millis(calendar: Calendar, at: string): int
    requires IsTimestamp(at)
  {
    calendar(at[..CLOCK_LENGTH]) * 1000 + Value(Six(at)[..3]) - OffsetMinutes(Zone(at[CLOCK_LENGTH..])) * 60000
  }

  /** The instant as Postgres stores it. */
  function Micros(calendar: Calendar, at: string): int
    requires IsTimestamp(at)
  {
    (calendar(at[..CLOCK_LENGTH]) - OffsetMinutes(Zone(at[CLOCK_LENGTH..])) * 60) * 1000000 + Value(Six(at))
  }

  function Signed(n: int): string {
    if n < 0 then "-" + Print(-n) else Print(n)
  }

  function PadStart(s: string, n: nat): string {
    Zeros(Max(0, n - |s|)) + s
  }

  /** `instantKey` */
  function InstantKey(calendar: Calendar, at: string): string {
    if !IsTimestamp(at) then at else PadStart(Signed(Millis(calendar, at)), 15) + Six(at)[3..]
  }

  // ---------------------------------------------------------------------------
  // The key orders instants
  // ---------------------------------------------------------------------------

  /** Numerals of one length compare as text the way they compare as numbers. */
  lemma {:induction false} TextOrderIsOrder(a: string, b: string)
    requires |a| == |b| && AllDigits(a) && AllDigits(b)
    ensures Less(a, b) <==> Value(a) < Value(b)
    ensures a == b <==> Value(a) == Value(b)
    decreases |a|
  {
    if a != [] {
      var x, y := a[..|a| - 1], b[..|b| - 1];
      TextOrderIsOrder(x, y);
      assert a == x + [a[|a| - 1]] && b == y + [b[|b| - 1]];
      LessAtEnd(x, a[|a| - 1], y, b[|b| - 1]);
    }
  }

  lemma {:induction false} LeadingZeros(n: nat, s: string)
    requires AllDigits(s)
    ensures AllDigits(Zeros(n) + s) && Value(Zeros(n) + s) == Value(s)
    decreases n, |s|
  {
    if s != [] {
      LeadingZeros(n, s[..|s| - 1]);
      assert (Zeros(n) + s)[..n + |s| - 1] == Zeros(n) + s[..|s| - 1];
    } else if n > 0 {
      LeadingZeros(n - 1, []);
      assert Zeros(n) + [] == Zeros(n) && Zeros(n)[..n - 1] == Zeros(n - 1) && Zeros(n - 1) + [] == Zeros(n - 1);
    }
  }

  lemma ThreeMore(s: string, t: string)
    requires AllDigits(s) && AllDigits(t) && |t| == 3
    ensures AllDigits(s + t) && Value(s + t) == Value(s) * 1000 + Value(t)
  {
    var n := |s|;
    assert (s + t)[..n + 2] == s + t[..2] && (s + t[..2])[..n + 1] == s + t[..1] && (s + t[..1])[..n] == s;
    assert t[..2][..1] == t[..1] && t[..1][..0] == [];
    assert Value(t[..1]) == t[0] as int - '0' as int;
    assert Value(s + t[..1]) == 10 * Value(s) + Value(t[..1]);
    assert Value(s + t[..2]) == 100 * Value(s) + Value(t[..2]);
  }

  function Pow10(n: nat): nat {
    if n == 0 then 1 else 10 * Pow10(n - 1)
  }

  lemma {:induction false} PrintLength(n: nat, k: nat)
    requires n < Pow10(k) && k >= 1
    ensures |Print(n)| <= k
    decreases k
  {
    if n >= 10 {
      PrintLength(n / 10, k - 1);
    }
  }

  const MAX_MILLIS := 1000000000000000

  predicate FromEpochOn(calendar: Calendar, at: string) {
    IsTimestamp(at) && 0 <= Millis(calendar, at) < MAX_MILLIS
  }

  lemma TenTo15()
    ensures Pow10(15) == MAX_MILLIS
  {
    assert Pow10(2) == 100;
    assert Pow10(4) == 10000;
    assert Pow10(6) == 1000000;
    assert Pow10(8) == 100000000;
    assert Pow10(10) == 10000000000;
    assert Pow10(12) == 1000000000000;
    assert Pow10(14) == 100000000000000;
  }

  lemma PaddedNumeral(ms: nat, tail: string)
    requires ms < MAX_MILLIS && AllDigits(tail) && |tail| == 3
    ensures var key := PadStart(Print(ms), 15) + tail; |key| == 18 && AllDigits(key) && Value(key) == ms * 1000 + Value(tail)
  {
    hide Value, Print, Zeros;
    TenTo15();
    PrintLength(ms, 15);
    ReadBack(ms);
    LeadingZeros(15 - |Print(ms)|, Print(ms));
    ThreeMore(PadStart(Print(ms), 15), tail);
  }

  lemma KeyIsMicros(calendar: Calendar, at: string)
    requires FromEpochOn(calendar, at)
    ensures var key := InstantKey(calendar, at); |key| == 18 && AllDigits(key) && Value(key) == Micros(calendar, at)
  {
    hide Value, Print, Zeros, Six, OffsetMinutes, Zone, IsTimestamp, PadStart;
    var six := Six(at);
    PaddedNumeral(Millis(calendar, at), six[3..]);
    ThreeMore(six[..3], six[3..]);
    assert six == six[..3] + six[3..];
  }

  /** From 1970 on, with any fraction and offset, keys compare as the instants do, to the microsecond. */
  lemma KeyOrdersInstants(calendar: Calendar, a: string, b: string)
    requires FromEpochOn(calendar, a) && FromEpochOn(calendar, b)
    ensures Less(InstantKey(calendar, a), InstantKey(calendar, b)) <==> Micros(calendar, a) < Micros(calendar, b)
    ensures InstantKey(calendar, a) == InstantKey(calendar, b) <==> Micros(calendar, a) == Micros(calendar, b)
  {
    KeyIsMicros(calendar, a);
    KeyIsMicros(calendar, b);
    TextOrderIsOrder(InstantKey(calendar, a), InstantKey(calendar, b));
  }

  /** Before 1970 the sign sits behind the padding, and of two instants with equally long numerals the older is greater. */
  lemma KeysReverseBefore1970(calendar: Calendar, older: string, newer: string)
    requires IsTimestamp(older) && IsTimestamp(newer) && Millis(calendar, older) < Millis(calendar, newer) < 0
    requires |Print(-Millis(calendar, older))| == |Print(-Millis(calendar, newer))|
    ensures Less(InstantKey(calendar, newer), InstantKey(calendar, older))
  {
    hide Print, IsTimestamp, Millis, Six, PadStart, Less;
    var m, n: nat := -Millis(calendar, older), -Millis(calendar, newer);
    NegativeKey(m, Six(older)[3..]);
    NegativeKey(n, Six(newer)[3..]);
    ReversedNumerals(n, Six(newer)[3..], m, Six(older)[3..]);
  }

  /** The key of a negative number of milliseconds. */
  function KeyBefore(n: nat, tail: string): string {
    Zeros(Max(0, 14 - |Print(n)|)) + "-" + (Print(n) + tail)
  }

  lemma NegativeKey(n: nat, tail: string)
    requires n > 0
    ensures PadStart(Signed(-(n as int)), 15) + tail == KeyBefore(n, tail)
  {
    hide Print, Zeros;
    assert |Signed(-(n as int))| == |Print(n)| + 1;
  }

  lemma ReversedNumerals(n: nat, x: string, m: nat, y: string)
    requires n < m && |Print(n)| == |Print(m)|
    ensures Less(KeyBefore(n, x), KeyBefore(m, y))
  {
    hide Print, Zeros, Less, Value;
    ReadBack(n);
    ReadBack(m);
    TextOrderIsOrder(Print(n), Print(m));
    LessThenMore(Print(n), x, Print(m), y);
    SharedPrefix(Zeros(Max(0, 14 - |Print(n)|)) + "-", Print(n) + x, Print(m) + y);
  }

  lemma {:induction false} LessThenMore(a: string, x: string, b: string, y: string)
    requires |a| == |b| && Less(a, b)
    ensures Less(a + x, b + y)
  {
    assert (a + x)[1..] == a[1..] + x && (b + y)[1..] == b[1..] + y;
    if a[0] == b[0] {
      LessThenMore(a[1..], x, b[1..], y);
    }
  }

  lemma {:induction false} SharedPrefix(p: string, a: string, b: string)
    ensures Less(p + a, p + b) <==> Less(a, b)
  {
    if p == [] {
      assert p + a == a && p + b == b;
    } else {
      assert (p + a)[1..] == p[1..] + a && (p + b)[1..] == p[1..] + b;
      SharedPrefix(p[1..], a, b);
    }
  }

  const MIN_MILLIS := -100000000000000

  /** Instants whose milliseconds fit the padding, with their sign. */
  predicate FitsKey(calendar: Calendar, at: string) {
    IsTimestamp(at) && MIN_MILLIS < Millis(calendar, at) < MAX_MILLIS
  }

  /** Both before 1970, at different milliseconds whose numerals are equally long. */
  predicate EquallyLongBefore1970(calendar: Calendar, a: string, b: string)
    requires IsTimestamp(a) && IsTimestamp(b)
  {
    var m, n := Millis(calendar, a), Millis(calendar, b);
    m < 0 && n < 0 && m != n && |Print(-m)| == |Print(-n)|
  }

  /** A minus sign where the other text still has digits comes first. */
  lemma {:induction false} MinusFirst(p: nat, x: string, s: string)
    requires p < |s| && forall i :: 0 <= i <= p ==> IsDigit(s[i])
    ensures Less(Zeros(p) + "-" + x, s)
  {
    var t := Zeros(p) + "-" + x;
    if p == 0 {
      assert t == "-" + x;
    } else {
      ZerosFront(p);
      assert t == "0" + (Zeros(p - 1) + "-" + x);
      assert t[1..] == Zeros(p - 1) + "-" + x;
      if s[0] == '0' {
        MinusFirst(p - 1, x, s[1..]);
      }
    }
  }

  lemma {:induction false} ZerosFront(n: nat)
    requires n > 0
    ensures Zeros(n) == "0" + Zeros(n - 1)
  {
    if n > 1 {
      ZerosFront(n - 1);
    }
  }

  lemma {:induction false} PrintGrows(m: nat, n: nat)
    requires m <= n
    ensures |Print(m)| <= |Print(n)|
  {
    if m >= 10 {
      PrintGrows(m / 10, n / 10);
    }
  }

  lemma TenTo14()
    ensures Pow10(14) == -MIN_MILLIS
  {
    TenTo15();
  }

  lemma KeyOfNegative(calendar: Calendar, at: string)
    requires FitsKey(calendar, at) && Millis(calendar, at) < 0
    ensures var n: nat := -Millis(calendar, at);
      |Print(n)| <= 14 && InstantKey(calendar, at) == KeyBefore(n, Six(at)[3..])
  {
    hide Print, Millis, Six, PadStart, Pow10, IsTimestamp;
    var n: nat := -Millis(calendar, at);
    TenTo14();
    PrintLength(n, 14);
    NegativeKey(n, Six(at)[3..]);
  }

  /** An instant is its milliseconds and the three digits that follow. */
  lemma MicrosAre(calendar: Calendar, at: string)
    requires IsTimestamp(at)
    ensures Micros(calendar, at) == Millis(calendar, at) * 1000 + Value(Six(at)[3..]) && Value(Six(at)[3..]) < 1000
  {
    hide Six, IsTimestamp, Zone, OffsetMinutes, Value;
    var six := Six(at);
    assert six == six[..3] + six[3..];
    ThreeMore(six[..3], six[3..]);
    ThreeDigits(six[3..]);
  }

  lemma ThreeDigits(t: string)
    requires AllDigits(t) && |t| == 3
    ensures Value(t) < 1000
  {
    assert t[..2][..1] == t[..1] && t[..1][..0] == [];
    assert Value(t[..1]) <= 9;
    assert Value(t[..2]) <= 99;
  }

  lemma NegativeThenPositive(n: nat, x: string, s: string)
    requires |Print(n)| <= 14 && |s| == 18 && AllDigits(s)
    ensures Less(KeyBefore(n, x), s)
  {
    hide Print, Less, Zeros;
    var p := 14 - |Print(n)|;
    MinusFirst(p, Print(n) + x, s);
  }

  /** Of two negative numbers with numerals of different length, the one further back has the smaller key. */
  lemma LongerNumeralFirst(m: nat, x: string, n: nat, y: string)
    requires |Print(n)| < |Print(m)| <= 14
    ensures Less(KeyBefore(m, x), KeyBefore(n, y))
  {
    hide Print, Less, Zeros;
    var p, q := 14 - |Print(m)|, 14 - |Print(n)|;
    assert forall i :: 0 <= i <= p ==> KeyBefore(n, y)[i] == Zeros(q)[i];
    MinusFirst(p, Print(m) + x, KeyBefore(n, y));
  }

  lemma SameNumeralThenTail(n: nat, x: string, y: string)
    requires AllDigits(x) && AllDigits(y) && |x| == |y|
    ensures Less(KeyBefore(n, x), KeyBefore(n, y)) <==> Value(x) < Value(y)
  {
    hide Print, Less, Zeros, Value;
    var front := Zeros(Max(0, 14 - |Print(n)|)) + "-";
    SharedPrefix(front, Print(n) + x, Print(n) + y);
    SharedPrefix(Print(n), x, y);
    TextOrderIsOrder(x, y);
  }

  lemma NegativesInOrder(m: nat, x: string, n: nat, y: string)
    requires n <= m && |Print(m)| <= 14 && |Print(n)| <= 14 && AllDigits(x) && AllDigits(y) && |x| == |y|
    requires m == n ==> Value(x) < Value(y)
    ensures Less(KeyBefore(m, x), KeyBefore(n, y)) <==> !(m != n && |Print(m)| == |Print(n)|)
  {
    hide Print, Less, Zeros, Value, KeyBefore;
    if m == n {
      SameNumeralThenTail(n, x, y);
    } else if |Print(m)| == |Print(n)| {
      ReversedNumerals(n, y, m, x);
      LessIsStrict(KeyBefore(n, y), KeyBefore(m, x));
    } else {
      PrintGrows(n, m);
      LongerNumeralFirst(m, x, n, y);
    }
  }

  /**
   * For any two instants, on whichever side of 1970: the key of the earlier one is the smaller exactly when they are not
   * both before 1970, at different milliseconds with equally long numerals.
   */
  lemma KeyOrdersExactly(calendar: Calendar, a: string, b: string)
    requires FitsKey(calendar, a) && FitsKey(calendar, b) && Micros(calendar, a) < Micros(calendar, b)
    ensures Less(InstantKey(calendar, a), InstantKey(calendar, b)) <==> !EquallyLongBefore1970(calendar, a, b)
  {
    hide Print, Less, KeyBefore, InstantKey, IsTimestamp, Millis, Micros, Six, Value;
    MicrosAre(calendar, a);
    MicrosAre(calendar, b);
    if Millis(calendar, a) >= 0 {
      KeyOrdersInstants(calendar, a, b);
    } else {
      KeyOfNegative(calendar, a);
      if Millis(calendar, b) >= 0 {
        KeyIsMicros(calendar, b);
        NegativeThenPositive(-Millis(calendar, a), Six(a)[3..], InstantKey(calendar, b));
      } else {
        KeyOfNegative(calendar, b);
        NegativesInOrder(-Millis(calendar, a), Six(a)[3..], -Millis(calendar, b), Six(b)[3..]);
      }
    }
  }

  /** Different instants have different keys, and where their order fails it is reversed. */
  lemma KeyTellsInstantsApart(calendar: Calendar, a: string, b: string)
    requires FitsKey(calendar, a) && FitsKey(calendar, b) && Micros(calendar, a) < Micros(calendar, b)
    ensures InstantKey(calendar, a) != InstantKey(calendar, b)
    ensures EquallyLongBefore1970(calendar, a, b) ==> Less(InstantKey(calendar, b), InstantKey(calendar, a))
  {
    hide Print, Less, InstantKey, IsTimestamp, Millis, Micros, Six, Value;
    KeyOrdersExactly(calendar, a, b);
    MicrosAre(calendar, a);
    MicrosAre(calendar, b);
    if EquallyLongBefore1970(calendar, a, b) {
      KeysReverseBefore1970(calendar, a, b);
      Irreflexive(InstantKey(calendar, a));
    } else {
      Irreflexive(InstantKey(calendar, a));
    }
  }

  // ---------------------------------------------------------------------------
  // Paging
  // ---------------------------------------------------------------------------

  datatype Source = Records | Secrets

  datatype Entry = Entry(id: string, source: Source, at: string)

  /** `compareAudit` puts a at or before b: the newest first, and the greater id first at one instant. */
  function NoLater(calendar: Calendar): (Entry, Entry) -> bool {
    (a: Entry, b: Entry) =>
      if InstantKey(calendar, a.at) != InstantKey(calendar, b.at) then !Less(InstantKey(calendar, a.at), InstantKey(calendar, b.at))
      else !Less(a.id, b.id)
  }

  /** The database's order: e is strictly older than the cursor. */
  predicate Older(calendar: Calendar, e: Entry, than: Entry) {
    IsTimestamp(e.at) && IsTimestamp(than.at) &&
    (Micros(calendar, e.at) < Micros(calendar, than.at) ||
     (Micros(calendar, e.at) == Micros(calendar, than.at) && Less(e.id, than.id)))
  }

  predicate PastCursor(calendar: Calendar, e: Entry, cursor: Option<Entry>) {
    cursor.Some? ==> Older(calendar, e, cursor.value)
  }

  /** The two orders are one, from 1970 on. */
  lemma OneOrder(calendar: Calendar, a: Entry, b: Entry)
    requires FromEpochOn(calendar, a.at) && FromEpochOn(calendar, b.at)
    ensures NoLater(calendar)(a, b) <==> !Older(calendar, a, b)
  {
    hide InstantKey, Micros, Millis, IsTimestamp, Less;
    KeyOrdersInstants(calendar, a.at, b.at);
    KeyOrdersInstants(calendar, b.at, a.at);
  }

  lemma ComparatorIsOrder(calendar: Calendar)
    ensures Sorting.IsOrder(NoLater(calendar))
  {
    hide InstantKey, Less;
    forall a: Entry, b: Entry
      ensures NoLater(calendar)(a, b) || NoLater(calendar)(b, a)
    {
      Comparable(calendar, a, b);
    }
    forall a: Entry, b: Entry, c: Entry | NoLater(calendar)(a, b) && NoLater(calendar)(b, c)
      ensures NoLater(calendar)(a, c)
    {
      Composes(calendar, a, b, c);
    }
  }

  lemma Comparable(calendar: Calendar, a: Entry, b: Entry)
    ensures NoLater(calendar)(a, b) || NoLater(calendar)(b, a)
  {
    hide InstantKey;
    var s, t := InstantKey(calendar, a.at), InstantKey(calendar, b.at);
    if Less(s, t) {
      LessIsStrict(s, t);
    }
    if Less(a.id, b.id) {
      LessIsStrict(a.id, b.id);
    }
  }

  lemma NotLess(a: string, b: string, c: string)
    requires !Less(a, b) && !Less(b, c)
    ensures !Less(a, c) && (a == c ==> a == b)
  {
    Total(a, b);
    Total(b, c);
    if Less(b, a) && Less(c, b) {
      Transitive(c, b, a);
      LessIsStrict(c, a);
    } else if Less(b, a) {
      LessIsStrict(b, a);
    } else if Less(c, b) {
      LessIsStrict(c, b);
    }
  }

  lemma Composes(calendar: Calendar, a: Entry, b: Entry, c: Entry)
    requires NoLater(calendar)(a, b) && NoLater(calendar)(b, c)
    ensures NoLater(calendar)(a, c)
  {
    hide InstantKey, Less;
    var s, t, u := InstantKey(calendar, a.at), InstantKey(calendar, b.at), InstantKey(calendar, c.at);
    Irreflexive(s);
    Irreflexive(t);
    NotLess(s, t, u);
    if s == t == u {
      NotLess(a.id, b.id, c.id);
    }
  }

  lemma Irreflexive(s: string)
    ensures !Less(s, s)
  {
    if Less(s, s) {
      LessIsStrict(s, s);
    }
  }

  /** The rows of a source past the cursor, in the source's own order. */
  function Past(calendar: Calendar, rows: seq<Entry>, cursor: Option<Entry>): (r: seq<Entry>)
    ensures forall e :: e in r <==> e in rows && PastCursor(calendar, e, cursor)
  {
    if rows == [] then []
    else
      assert rows == [rows[0]] + rows[1..];
      (if PastCursor(calendar, rows[0], cursor) then [rows[0]] else []) + Past(calendar, rows[1..], cursor)
  }

  function Take(s: seq<Entry>, n: nat): seq<Entry> {
    s[..Min(n, |s|)]
  }

  /** What the health screen fetches: each source's newest limit + 1 entries past the cursor. */
  function Fetched(calendar: Calendar, records: seq<Entry>, secrets: seq<Entry>, limit: nat, cursor: Option<Entry>): seq<Entry> {
    Take(Past(calendar, records, cursor), limit + 1) + Take(Past(calendar, secrets, cursor), limit + 1)
  }

  function Page(calendar: Calendar, records: seq<Entry>, secrets: seq<Entry>, limit: nat, cursor: Option<Entry>): seq<Entry> {
    Sorting.Sorted(Fetched(calendar, records, secrets, limit, cursor), NoLater(calendar))
  }

  /** `mergeAudit`: the entries, and the cursor for the next page if there is one. */
  function Merge(calendar: Calendar, records: seq<Entry>, secrets: seq<Entry>, limit: nat, cursor: Option<Entry>)
    : (r: (seq<Entry>, Option<Entry>))
    requires limit >= 1
  {
    var all := Page(calendar, records, secrets, limit, cursor);
    var entries := Take(all, limit);
    (entries, if |all| > limit then Some(entries[|entries| - 1]) else None)
  }

  /** Strictly newest first. */
  ghost predicate Timeline(calendar: Calendar, rows: seq<Entry>) {
    forall i, j :: 0 <= i < j < |rows| ==> Older(calendar, rows[j], rows[i])
  }

  ghost predicate Dated(calendar: Calendar, rows: seq<Entry>) {
    forall e :: e in rows ==> FromEpochOn(calendar, e.at)
  }

  /** The whole log: both sources, newest first. */
  ghost predicate WholeLog(calendar: Calendar, records: seq<Entry>, secrets: seq<Entry>, log: seq<Entry>) {
    && Timeline(calendar, log) && Timeline(calendar, records) && Timeline(calendar, secrets) && Dated(calendar, log)
    && (forall e :: e in log <==> e in records || e in secrets)
    && (forall e :: e in records ==> e !in secrets)
  }

  lemma OlderIsStrict(calendar: Calendar, a: Entry, b: Entry)
    requires Older(calendar, a, b)
    ensures a != b && !Older(calendar, b, a)
  {
    hide Micros;
    if Less(a.id, b.id) {
      LessIsStrict(a.id, b.id);
    }
  }

  /** A row's place among some rows of the log is not beyond its place in the log. */
  lemma {:induction false} PlaceAmongSome(calendar: Calendar, some: seq<Entry>, log: seq<Entry>, p: nat, i: nat)
    requires Timeline(calendar, some) && Timeline(calendar, log) && (forall e :: e in some ==> e in log)
    requires p < |some| && i < |log| && some[p] == log[i]
    ensures p <= i
  {
    hide Older;
    if p > 0 {
      assert some[p - 1] in some;
      var q :| 0 <= q < |log| && log[q] == some[p - 1];
      assert Older(calendar, some[p], some[p - 1]);
      if q >= i {
        OlderIsStrict(calendar, some[p], some[p - 1]);
      }
      PlaceAmongSome(calendar, some, log, p - 1, q);
    }
  }

  /** Two timelines of which one has the front of the other have the same front. */
  lemma {:induction false} SameFront(calendar: Calendar, some: seq<Entry>, log: seq<Entry>, n: nat)
    requires Timeline(calendar, some) && Timeline(calendar, log) && (forall e :: e in some ==> e in log)
    requires n <= |log| && forall i :: 0 <= i < n ==> log[i] in some
    ensures n <= |some| && some[..n] == log[..n]
  {
    hide Older;
    if n > 0 {
      SameFront(calendar, some, log, n - 1);
      assert log[n - 1] in some;
      var p :| 0 <= p < |some| && some[p] == log[n - 1];
      PlaceAmongSome(calendar, some, log, p, n - 1);
      if p < n - 1 {
        assert some[p] == some[..n - 1][p] == log[..n - 1][p] == log[p];
        OlderIsStrict(calendar, log[n - 1], log[p]);
      }
    }
  }

  /** Past the cursor of the log's entry k - 1, a source has its entries among the log's from k on. */
  function CursorAt(log: seq<Entry>, k: nat): Option<Entry>
    requires k <= |log|
  {
    if k == 0 then None else Some(log[k - 1])
  }

  lemma PastIsSuffix(calendar: Calendar, log: seq<Entry>, k: nat, e: Entry)
    requires Timeline(calendar, log) && k <= |log| && e in log
    ensures PastCursor(calendar, e, CursorAt(log, k)) <==> e in log[k..]
  {
    hide Older;
    var i :| 0 <= i < |log| && log[i] == e;
    if k > 0 {
      if i >= k {
        assert log[k..][i - k] == e;
      } else {
        NotAfterwards(calendar, log, k, i);
      }
    } else {
      assert log[k..] == log;
    }
  }

  lemma NotAfterwards(calendar: Calendar, log: seq<Entry>, k: nat, i: nat)
    requires Timeline(calendar, log) && i < k <= |log|
    ensures !Older(calendar, log[i], log[k - 1]) && log[i] !in log[k..]
  {
    hide Older;
    OlderNotSelf(calendar, log[i]);
    if i < k - 1 {
      OlderIsStrict(calendar, log[k - 1], log[i]);
    }
    forall j | k <= j < |log|
      ensures log[j] != log[i]
    {
      OlderIsStrict(calendar, log[j], log[i]);
    }
  }

  lemma OlderNotSelf(calendar: Calendar, e: Entry)
    ensures !Older(calendar, e, e)
  {
    Irreflexive(e.id);
  }

  lemma {:induction false} PastIsTimeline(calendar: Calendar, rows: seq<Entry>, cursor: Option<Entry>)
    requires Timeline(calendar, rows)
    ensures Timeline(calendar, Past(calendar, rows, cursor))
  {
    hide Older, PastCursor;
    if rows != [] {
      assert Timeline(calendar, rows[1..]);
      PastIsTimeline(calendar, rows[1..], cursor);
      var rest := Past(calendar, rows[1..], cursor);
      forall j | 0 <= j < |rest|
        ensures Older(calendar, rest[j], rows[0])
      {
        assert rest[j] in rows[1..];
        var i :| 0 <= i < |rows| - 1 && rows[1..][i] == rest[j];
        assert rows[i + 1] == rest[j];
      }
    }
  }

  /** A source's share of the log past the cursor: it gives every entry that is among the next n of the log. */
  lemma NextOnesAreFetched(calendar: Calendar, rows: seq<Entry>, log: seq<Entry>, k: nat, n: nat, i: nat)
    requires Timeline(calendar, rows) && Timeline(calendar, log) && (forall e :: e in rows ==> e in log)
    requires k <= |log| && i < n && k + i < |log| && log[k + i] in rows
    ensures log[k + i] in Take(Past(calendar, rows, CursorAt(log, k)), n)
  {
    hide Older, PastCursor;
    var rest := log[k..];
    var past := Past(calendar, rows, CursorAt(log, k));
    PastIsTimeline(calendar, rows, CursorAt(log, k));
    forall e | e in past
      ensures e in rest
    {
      PastIsSuffix(calendar, log, k, e);
    }
    assert rest[i] == log[k + i];
    PastIsSuffix(calendar, log, k, rest[i]);
    var p :| 0 <= p < |past| && past[p] == rest[i];
    PlaceAmongSome(calendar, past, rest, p, i);
    assert Take(past, n)[p] == rest[i];
  }

  /** Sorting some different entries of the log gives a timeline. */
  lemma SortedSome(calendar: Calendar, some: seq<Entry>, log: seq<Entry>)
    requires Timeline(calendar, log) && Dated(calendar, log) && (forall e :: e in some ==> e in log)
    requires Sorting.Apart(some, (e: Entry) => e)
    ensures Timeline(calendar, Sorting.Sorted(some, NoLater(calendar)))
  {
    hide Older, FromEpochOn, NoLater;
    var all := Sorting.Sorted(some, NoLater(calendar));
    ComparatorIsOrder(calendar);
    Sorting.SortedIsOrdered(some, NoLater(calendar));
    Sorting.SortedKeepsApart(some, NoLater(calendar), (e: Entry) => e);
    forall i, j | 0 <= i < j < |all|
      ensures Older(calendar, all[j], all[i])
    {
      assert all[i] in some && all[j] in some && all[i] != all[j];
      OneOrder(calendar, all[i], all[j]);
      OneIsOlder(calendar, log, all[i], all[j]);
    }
  }

  lemma OneIsOlder(calendar: Calendar, log: seq<Entry>, a: Entry, b: Entry)
    requires Timeline(calendar, log) && a in log && b in log && a != b
    ensures Older(calendar, a, b) || Older(calendar, b, a)
  {
    hide Older;
    var i :| 0 <= i < |log| && log[i] == a;
    var j :| 0 <= j < |log| && log[j] == b;
  }

  lemma FetchedApart(calendar: Calendar, records: seq<Entry>, secrets: seq<Entry>, limit: nat, cursor: Option<Entry>)
    requires Timeline(calendar, records) && Timeline(calendar, secrets) && forall e :: e in records ==> e !in secrets
    ensures Sorting.Apart(Fetched(calendar, records, secrets, limit, cursor), (e: Entry) => e)
    ensures forall e :: e in Fetched(calendar, records, secrets, limit, cursor) ==>
      (e in records || e in secrets) && PastCursor(calendar, e, cursor)
  {
    hide Older, PastCursor;
    var a, b := Take(Past(calendar, records, cursor), limit + 1), Take(Past(calendar, secrets, cursor), limit + 1);
    TakenFrom(calendar, records, cursor, limit + 1);
    TakenFrom(calendar, secrets, cursor, limit + 1);
    ApartTogether(a, b);
  }

  lemma ApartTogether(a: seq<Entry>, b: seq<Entry>)
    requires forall i, j :: 0 <= i < j < |a| ==> a[i] != a[j]
    requires forall i, j :: 0 <= i < j < |b| ==> b[i] != b[j]
    requires forall e :: e in a ==> e !in b
    ensures Sorting.Apart(a + b, (e: Entry) => e)
  {
    var s := a + b;
    forall i, j | 0 <= i < j < |s|
      ensures s[i] != s[j]
    {
      if i < |a| <= j {
        assert s[i] in a && s[j] in b;
      } else if j < |a| {
        assert a[i] != a[j];
      } else {
        assert b[i - |a|] != b[j - |a|];
      }
    }
  }

  /** The front of what a source has past the cursor: its own rows, no two the same. */
  lemma TakenFrom(calendar: Calendar, rows: seq<Entry>, cursor: Option<Entry>, n: nat)
    requires Timeline(calendar, rows)
    ensures var a := Take(Past(calendar, rows, cursor), n);
      && (forall i, j :: 0 <= i < j < |a| ==> a[i] != a[j])
      && (forall e :: e in a ==> e in rows && PastCursor(calendar, e, cursor))
  {
    hide Older, PastCursor;
    PastIsTimeline(calendar, rows, cursor);
    TimelineApart(calendar, Past(calendar, rows, cursor));
  }

  lemma TimelineApart(calendar: Calendar, rows: seq<Entry>)
    requires Timeline(calendar, rows)
    ensures forall i, j :: 0 <= i < j < |rows| ==> rows[i] != rows[j]
  {
    hide Older;
    forall i, j | 0 <= i < j < |rows|
      ensures rows[i] != rows[j]
    {
      OlderIsStrict(calendar, rows[j], rows[i]);
    }
  }

  lemma {:induction false} SomeAreNoMore(calendar: Calendar, some: seq<Entry>, log: seq<Entry>)
    requires Timeline(calendar, some) && Timeline(calendar, log) && forall e :: e in some ==> e in log
    ensures |some| <= |log|
  {
    hide Older;
    if some != [] {
      var p := |some| - 1;
      assert some[p] in some;
      var i :| 0 <= i < |log| && log[i] == some[p];
      PlaceAmongSome(calendar, some, log, p, i);
    }
  }

  /** One page is the next entries of the whole log, and its cursor is the last of them if there is more. */
  lemma PageIsNext(calendar: Calendar, records: seq<Entry>, secrets: seq<Entry>, log: seq<Entry>, limit: nat, k: nat)
    requires WholeLog(calendar, records, secrets, log) && limit >= 1 && k <= |log|
    ensures var (entries, next) := Merge(calendar, records, secrets, limit, CursorAt(log, k));
      && entries == Take(log[k..], limit)
      && next == if |log| - k > limit then CursorAt(log, k + limit) else None
  {
    hide Older, PastCursor, FromEpochOn, Past, NoLater, Page, Dated;
    var rest := log[k..];
    var all := Page(calendar, records, secrets, limit, CursorAt(log, k));
    PageOfLog(calendar, records, secrets, log, limit, k);
    var n := Min(limit + 1, |rest|);
    SameFront(calendar, all, rest, n);
    SomeAreNoMore(calendar, all, rest);
    assert all[..n] == rest[..n];
    if |rest| > limit {
      assert all[limit - 1] == rest[..n][limit - 1] == log[k + limit - 1];
      assert Take(all, limit) == all[..n][..limit];
    }
  }

  /** What is fetched and sorted is a timeline of entries past the cursor, with the next limit + 1 among them. */
  lemma PageOfLog(calendar: Calendar, records: seq<Entry>, secrets: seq<Entry>, log: seq<Entry>, limit: nat, k: nat)
    requires WholeLog(calendar, records, secrets, log) && limit >= 1 && k <= |log|
    ensures var all := Page(calendar, records, secrets, limit, CursorAt(log, k));
      && Timeline(calendar, all) && Timeline(calendar, log[k..]) && (forall e :: e in all ==> e in log[k..])
      && forall i :: 0 <= i < Min(limit + 1, |log| - k) ==> log[k..][i] in all
  {
    hide Older, PastCursor, FromEpochOn, Past, NoLater;
    var rest := log[k..];
    var fetched := Fetched(calendar, records, secrets, limit, CursorAt(log, k));
    FetchedApart(calendar, records, secrets, limit, CursorAt(log, k));
    forall e | e in fetched
      ensures e in rest && e in log
    {
      PastIsSuffix(calendar, log, k, e);
    }
    SortedSome(calendar, fetched, log);
    forall i | 0 <= i < Min(limit + 1, |rest|)
      ensures rest[i] in fetched
    {
      NextIsFetched(calendar, records, secrets, log, limit, k, i);
    }
  }

  lemma NextIsFetched(calendar: Calendar, records: seq<Entry>, secrets: seq<Entry>, log: seq<Entry>, limit: nat, k: nat, i: nat)
    requires WholeLog(calendar, records, secrets, log) && limit >= 1 && k <= |log| && i < Min(limit + 1, |log| - k)
    ensures log[k + i] in Fetched(calendar, records, secrets, limit, CursorAt(log, k))
  {
    hide Older, PastCursor, FromEpochOn, Past, Timeline;
    assert log[k + i] in log;
    if log[k + i] in records {
      NextOnesAreFetched(calendar, records, log, k, limit + 1, i);
    } else {
      NextOnesAreFetched(calendar, secrets, log, k, limit + 1, i);
    }
  }

  /** The entries on the pages one gets by following the cursors so many times. */
  function Listing(calendar: Calendar, records: seq<Entry>, secrets: seq<Entry>, limit: nat, cursor: Option<Entry>, pages: nat)
    : seq<Entry>
    requires limit >= 1
    decreases pages
  {
    if pages == 0 then []
    else
      var (entries, next) := Merge(calendar, records, secrets, limit, cursor);
      entries + if next.None? then [] else Listing(calendar, records, secrets, limit, next, pages - 1)
  }

  lemma {:induction false} ListingIsFront(calendar: Calendar, records: seq<Entry>, secrets: seq<Entry>, log: seq<Entry>,
                                          limit: nat, k: nat, pages: nat)
    requires WholeLog(calendar, records, secrets, log) && limit >= 1 && k <= |log|
    ensures Listing(calendar, records, secrets, limit, CursorAt(log, k), pages) == Take(log[k..], pages * limit)
    decreases pages
  {
    hide WholeLog, Merge, Take;
    if pages > 0 {
      PageIsNext(calendar, records, secrets, log, limit, k);
      if |log| - k > limit {
        ListingIsFront(calendar, records, secrets, log, limit, k + limit, pages - 1);
      }
      FrontGrows(log, k, limit, pages);
    } else {
      TakeNone(log[k..], limit);
    }
  }

  lemma TakeNone(s: seq<Entry>, limit: nat)
    ensures Take(s, 0 * limit) == []
  {
  }

  /** The front of so many pages is a page and the front of one page fewer. */
  lemma FrontGrows(log: seq<Entry>, k: nat, limit: nat, pages: nat)
    requires k <= |log| && pages > 0
    ensures |log| - k > limit ==>
      Take(log[k..], pages * limit) == Take(log[k..], limit) + Take(log[k + limit..], (pages - 1) * limit)
    ensures |log| - k <= limit ==> Take(log[k..], pages * limit) == Take(log[k..], limit)
  {
    assert pages * limit == (pages - 1) * limit + limit;
    var m := (pages - 1) * limit;
    NotNegative(pages - 1, limit);
    if |log| - k > limit {
      assert log[k..][limit..] == log[k + limit..];
      FrontThenFront(log[k..], limit, m);
    }
  }

  lemma NotNegative(a: nat, b: nat)
    ensures a * b >= 0
  {
  }

  lemma FrontThenFront(s: seq<Entry>, m: nat, n: nat)
    requires m <= |s|
    ensures Take(s, m) + Take(s[m..], n) == Take(s, m + n)
  {
  }

  /**
   * Following the cursors lists every entry of both sources exactly once, newest first, and ends: any number of pages
   * shows the front of the log, and as many pages as there are entries show all of it.
   */
  lemma PagesListEverything(calendar: Calendar, records: seq<Entry>, secrets: seq<Entry>, log: seq<Entry>, limit: nat, pages: nat)
    requires WholeLog(calendar, records, secrets, log) && limit >= 1
    ensures Listing(calendar, records, secrets, limit, None, pages) == Take(log, pages * limit)
    ensures pages >= |log| ==> Listing(calendar, records, secrets, limit, None, pages) == log
  {
    hide WholeLog, Listing;
    ListingIsFront(calendar, records, secrets, log, limit, 0, pages);
    assert log[0..] == log;
    NoFewer(pages, limit);
  }

  lemma NoFewer(pages: nat, limit: nat)
    requires limit >= 1
    ensures pages * limit >= pages
  {
  }

  // ---------------------------------------------------------------------------
  // The cursor as text
  // ---------------------------------------------------------------------------

  /** Lower-case hexadecimal in groups of 8, 4, 4, 4 and 12. */
  predicate IsUuid(s: string) {
    |s| == 36 && forall i :: 0 <= i < |s| ==>
      if i == 8 || i == 13 || i == 18 || i == 23 then s[i] == '-' else IsDigit(s[i]) || 'a' <= s[i] <= 'f'
  }

  /** Where the first bar is, or the length if there is none. */
  function Bar(s: string): (i: nat)
    ensures i <= |s| && (i < |s| ==> s[i] == '|') && '|' !in s[..i]
  {
    if s == [] || s[0] == '|' then 0
    else
      var i := 1 + Bar(s[1..]);
      assert s[..i] == [s[0]] + s[1..][..i - 1];
      i
  }

  datatype Cursor = Cursor(at: string, id: Option<string>)

  function EncodeCursor(e: Entry): string {
    e.at + "|" + e.id
  }

  const MAX_CURSOR := 100

  /** `parseAuditCursor`, for ids in lower case */
  function ParseCursor(raw: string): Option<Cursor> {
    var bar := Bar(raw);
    if raw == "" || |raw| > MAX_CURSOR || !IsTimestamp(raw[..bar]) then None
    else if bar == |raw| then Some(Cursor(raw, None))
    else if IsUuid(raw[bar + 1..]) then Some(Cursor(raw[..bar], Some(raw[bar + 1..])))
    else None
  }

  lemma TimestampHasNoBar(at: string)
    requires IsTimestamp(at)
    ensures '|' !in at && |at| <= 32
  {
    hide DigitPrefix;
    var rest := at[CLOCK_LENGTH..];
    var fraction, zone := Fraction(rest), Zone(rest);
    assert fraction != [] ==> rest == ['.'] + rest[1..];
    assert fraction != [] ==> rest[1..] == fraction + zone;
    assert '|' !in zone && |zone| <= 6 by {
      ZoneHasNoBar(zone);
    }
    assert '|' !in at[..CLOCK_LENGTH];
    assert '|' !in fraction;
    assert at == at[..CLOCK_LENGTH] + rest;
  }

  lemma ZoneHasNoBar(zone: string)
    requires IsZone(zone)
    ensures '|' !in zone && |zone| <= 6
  {
    if |zone| == 5 {
      assert zone == zone[..3] + zone[3..];
    } else if |zone| == 6 {
      assert zone == zone[..4] + zone[4..];
    }
  }

  /** The cursor of an entry reads back as its timestamp, digit for digit, and its id. */
  lemma CursorReadsBack(e: Entry)
    requires IsTimestamp(e.at) && IsUuid(e.id)
    ensures ParseCursor(EncodeCursor(e)) == Some(Cursor(e.at, Some(e.id)))
  {
    hide IsTimestamp, IsUuid;
    TimestampHasNoBar(e.at);
    var raw := EncodeCursor(e);
    BarOf(e.at, e.id);
    assert raw[..|e.at|] == e.at && raw[|e.at| + 1..] == e.id;
    assert |e.id| == 36 by {
      UuidLength(e.id);
    }
  }

  lemma {:induction false} BarOf(a: string, rest: string)
    requires '|' !in a
    ensures Bar(a + "|" + rest) == |a|
  {
    if a != [] {
      assert (a + "|" + rest)[1..] == a[1..] + "|" + rest;
      BarOf(a[1..], rest);
    } else {
      assert a + "|" + rest == "|" + rest;
    }
  }

  lemma UuidLength(id: string)
    requires IsUuid(id)
    ensures |id| == 36
  {
  }
}
