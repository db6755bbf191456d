/** Readers of exactly the texts a cursor holds: dates, timestamps, identifiers and flat JSON objects. */
module CursorReaders {
  import opened Wrappers
  import opened Calendar
  import opened HistoryCursor
  import Digits

  lemma Powers()
    ensures Digits.Power(10, 2) == 100 && Digits.Power(10, 4) == 10_000 && Digits.Power(10, 6) == 1_000_000
  {
    assert Digits.Power(10, 3) == 1000;
    assert Digits.Power(10, 5) == 100_000;
  }

  function ReadDecimal(s: string): Option<nat> {
    Digits.Read(s, 10)
  }

  lemma DecimalRead(n: nat, width: nat)
    requires 0 < width && n < Digits.Power(10, width)
    ensures ReadDecimal(Decimal(n, width)) == Some(n)
  {
    Digits.ReadOfWrite(n, width, 10);
  }

  lemma Parts(a: string, b: string)
    requires Plain(a) && Plain(b)
    ensures Then(a, b)[..|a|] == a && Then(a, b)[|a|..] == b
  {
  }

  /** Two texts after one another, the second after one separating character. */
  lemma Separated(a: string, mark: string, b: string, s: string)
    requires Plain(a) && Plain(mark) && Plain(b) && |mark| == 1 && s == Then(a, Then(mark, b))
    ensures |s| == |a| + 1 + |b| && s[..|a|] == a && s[|a|] == mark[0] && s[|a| + 1..] == b
  {
  }

  // --- dates ---

  function ReadDay(s: string): Option<Day> {
    if |s| != 10 || s[4] != '-' || s[5..][2] != '-' then None
    else
      var y, m, d := ReadDecimal(s[..4]), ReadDecimal(s[5..][..2]), ReadDecimal(s[5..][3..]);
      if y.None? || m.None? || d.None? then None
      else
        var date := Date(y.value, m.value, d.value);
        if IsDate(date) && date.year <= 9999 then Some(date) else None
  }

  lemma DayRead(d: Day)
    ensures ReadDay(DayText(d)) == Some(d)
  {
    var y, m, n := Decimal(d.year, 4), Decimal(d.month, 2), Decimal(d.day, 2);
    var tail := Then(m, Then("-", n));
    Powers();
    Separated(y, "-", tail, DayText(d));
    Separated(m, "-", n, tail);
    DecimalRead(d.year, 4);
    DecimalRead(d.month, 2);
    DecimalRead(d.day, 2);
  }

  // --- timestamps ---

  datatype Clock = Clock(hour: nat, minute: nat, second: nat)

  function ReadClock(s: string): Option<Clock> {
    if |s| != 8 || s[2] != ':' || s[3..][2] != ':' then None
    else
      var h, m, t := ReadDecimal(s[..2]), ReadDecimal(s[3..][..2]), ReadDecimal(s[3..][3..]);
      if h.None? || m.None? || t.None? then None else Some(Clock(h.value, m.value, t.value))
  }

  lemma ClockRead(t: Moment)
    ensures ReadClock(ClockText(t)) == Some(Clock(t.hour, t.minute, t.second))
  {
    var h, m, n := Decimal(t.hour, 2), Decimal(t.minute, 2), Decimal(t.second, 2);
    var tail := Then(m, Then(":", n));
    Powers();
    Separated(h, ":", tail, ClockText(t));
    Separated(m, ":", n, tail);
    DecimalRead(t.hour, 2);
    DecimalRead(t.minute, 2);
    DecimalRead(t.second, 2);
  }

  /** An optional fraction of six digits, and what follows it. */
  function ReadFraction(s: string): Option<(nat, string)> {
    if s == "" || s[0] != '.' then Some((0, s))
    else if |s| < 7 then None
    else
      var v := ReadDecimal(s[1..7]);
      if v.None? then None else Some((v.value, s[7..]))
  }

  lemma FractionRead(microsecond: nat, rest: string)
    requires microsecond < 1_000_000 && Plain(rest) && (rest != "" ==> rest[0] != '.')
    ensures ReadFraction(Then(FractionText(microsecond), rest)) == Some((microsecond, rest))
  {
    var s := Then(FractionText(microsecond), rest);
    if microsecond == 0 {
      assert s == rest;
    } else {
      Powers();
      DecimalRead(microsecond, 6);
      assert s[1..7] == Decimal(microsecond, 6) && s[7..] == rest;
    }
  }

  function ReadSeconds(s: string): Option<(nat, nat)> {
    if s == "" then Some((0, 0))
    else if |s| < 3 || s[0] != ':' then None
    else
      var seconds, fraction := ReadDecimal(s[1..][..2]), ReadFraction(s[1..][2..]);
      if seconds.None? || fraction.None? || fraction.value.1 != "" then None else Some((seconds.value, fraction.value.0))
  }

  lemma SecondsRead(seconds: nat, microsecond: nat)
    requires seconds < 60 && microsecond < 1_000_000
    ensures ReadSeconds(SecondsText(seconds, microsecond)) == Some((seconds, microsecond))
  {
    if seconds != 0 || microsecond != 0 {
      Powers();
      DecimalRead(seconds, 2);
      FractionRead(microsecond, "");
      SecondsPartsRead(Decimal(seconds, 2), FractionText(microsecond), seconds, microsecond);
    }
  }

  lemma SecondsPartsRead(digits: string, fraction: string, seconds: nat, microsecond: nat)
    requires |digits| == 2 && Plain(digits) && Plain(fraction)
    requires ReadDecimal(digits) == Some(seconds) && ReadFraction(Then(fraction, "")) == Some((microsecond, ""))
    ensures ReadSeconds(Then(":", Then(digits, fraction))) == Some((seconds, microsecond))
  {
    Parts(":", Then(digits, fraction));
    Parts(digits, fraction);
    assert Then(fraction, "") == fraction;
  }

  /** Some(None) for a time without an offset. */
  function ReadOffset(s: string): Option<Option<int>> {
    if s == "" then Some(None)
    else if |s| < 6 || s[0] !in "+-" || s[1..][2] != ':' then None
    else
      var h, m, tail := ReadDecimal(s[1..][..2]), ReadDecimal(s[1..][3..][..2]), ReadSeconds(s[1..][3..][2..]);
      if h.None? || m.None? || tail.None? then None
      else
        var size := h.value * HOUR + m.value * MINUTE + tail.value.0 * SECOND + tail.value.1;
        if size < DAY_MICROSECONDS then Some(Some(if s[0] == '-' then -size else size)) else None
  }

  lemma SameRemainder(q: int, r: int, k: int, t: int, j: int, u: int)
    requires q * HOUR + r == j * MINUTE + u && r == k * MINUTE + t && 0 <= t < MINUTE && 0 <= u < MINUTE
    ensures t == u
  {
    NoSmallMultiple(60 * q + k - j, u - t);
  }

  lemma NoSmallMultiple(d: int, x: int)
    requires d * 60_000_000 == x && -60_000_000 < x < 60_000_000
    ensures x == 0
  {
    assert d >= 1 || d == 0 || d <= -1;
  }

  lemma MinuteRemainder(k: int, t: int, j: int, u: int)
    requires k * MINUTE + t == j * SECOND + u && 0 <= t < MINUTE && 0 <= u < SECOND
    ensures t == (j - 60 * k) * SECOND + u && 0 <= j - 60 * k < 60
  {
  }

  /** An offset is its hours, minutes, seconds and microseconds. */
  lemma OffsetParts(size: nat, h: nat, m: nat, seconds: nat, microsecond: nat)
    requires size < DAY_MICROSECONDS && h == size / HOUR && m == size % HOUR / MINUTE
    requires seconds == size % MINUTE / SECOND && microsecond == size % SECOND
    ensures h < 24 && m < 60 && seconds < 60 && microsecond < 1_000_000
    ensures size == h * HOUR + m * MINUTE + seconds * SECOND + microsecond
  {
    var r, t := size % HOUR, size % MINUTE;
    SameRemainder(h, r, m, r % MINUTE, size / MINUTE, t);
    MinuteRemainder(size / MINUTE, t, size / SECOND, microsecond);
    Divided(t, size / SECOND - 60 * (size / MINUTE), microsecond);
  }

  lemma Divided(t: int, q: int, u: int)
    requires t == q * SECOND + u && 0 <= u < SECOND && 0 <= q
    ensures t / SECOND == q
  {
  }

  lemma OffsetPartsRead(sign: string, hours: string, minutes: string, tail: string, h: nat, m: nat, seconds: nat, microsecond: nat, size: int)
    requires sign in {"+", "-"} && |hours| == 2 && |minutes| == 2 && Plain(hours) && Plain(minutes) && Plain(tail)
    requires ReadDecimal(hours) == Some(h) && ReadDecimal(minutes) == Some(m) && ReadSeconds(tail) == Some((seconds, microsecond))
    requires size == h * HOUR + m * MINUTE + seconds * SECOND + microsecond && size < DAY_MICROSECONDS
    ensures ReadOffset(Then(sign, Then(hours, Then(":", Then(minutes, tail))))) == Some(Some(if sign == "-" then -size else size))
  {
    Parts(sign, Then(hours, Then(":", Then(minutes, tail))));
    Separated(hours, ":", Then(minutes, tail), Then(hours, Then(":", Then(minutes, tail))));
    Parts(minutes, tail);
  }

  lemma OffsetFieldsRead(h: nat, m: nat, seconds: nat, microsecond: nat)
    requires h < 24 && m < 60 && seconds < 60 && microsecond < 1_000_000
    ensures ReadDecimal(Decimal(h, 2)) == Some(h) && ReadDecimal(Decimal(m, 2)) == Some(m)
    ensures ReadSeconds(SecondsText(seconds, microsecond)) == Some((seconds, microsecond))
  {
    Powers();
    DecimalRead(h, 2);
    DecimalRead(m, 2);
    SecondsRead(seconds, microsecond);
  }

  lemma OffsetIsWritten(offset: int, size: nat, h: nat, m: nat, seconds: nat, microsecond: nat)
    requires size == (if offset < 0 then -offset else offset) && h == size / HOUR && m == size % HOUR / MINUTE
    requires seconds == size % MINUTE / SECOND && microsecond == size % SECOND
    ensures OffsetText(offset)
         == Then(if offset < 0 then "-" else "+", Then(Decimal(h, 2), Then(":", Then(Decimal(m, 2), SecondsText(seconds, microsecond)))))
  {
  }

  lemma OffsetRead(offset: int)
    requires -DAY_MICROSECONDS < offset < DAY_MICROSECONDS
    ensures ReadOffset(OffsetText(offset)) == Some(Some(offset))
  {
    var size: nat := if offset < 0 then -offset else offset;
    var h, m, seconds, microsecond := size / HOUR, size % HOUR / MINUTE, size % MINUTE / SECOND, size % SECOND;
    OffsetParts(size, h, m, seconds, microsecond);
    OffsetIsWritten(offset, size, h, m, seconds, microsecond);
    OffsetFieldsRead(h, m, seconds, microsecond);
    OffsetPartsRead(if offset < 0 then "-" else "+", Decimal(h, 2), Decimal(m, 2), SecondsText(seconds, microsecond),
                    h, m, seconds, microsecond, size);
  }

  function ReadTail(date: Day, clock: Clock, s: string): Option<Moment> {
    var fraction := ReadFraction(s);
    if fraction.None? then None
    else
      var offset := ReadOffset(fraction.value.1);
      if offset.None? then None
      else
        var t := DateTime(date, clock.hour, clock.minute, clock.second, fraction.value.0, offset.value);
        if ValidMoment(t) then Some(t) else None
  }

  function ReadMoment(s: string): Option<Moment> {
    if |s| < 19 || s[10] != 'T' then None
    else
      var date, clock := ReadDay(s[..10]), ReadClock(s[11..][..8]);
      if date.None? || clock.None? then None else ReadTail(date.value, clock.value, s[11..][8..])
  }

  lemma TailRead(t: Moment)
    requires t.offset.Some?
    ensures ReadTail(t.date, Clock(t.hour, t.minute, t.second), Then(FractionText(t.microsecond), OffsetText(t.offset.value))) == Some(t)
  {
    OffsetRead(t.offset.value);
    FractionRead(t.microsecond, OffsetText(t.offset.value));
  }

  lemma MomentRead(t: Moment)
    requires t.offset.Some?
    ensures ReadMoment(MomentText(t)) == Some(t)
  {
    var tail := Then(FractionText(t.microsecond), OffsetText(t.offset.value));
    Separated(DayText(t.date), "T", Then(ClockText(t), tail), MomentText(t));
    Parts(ClockText(t), tail);
    DayRead(t.date);
    ClockRead(t);
    TailRead(t);
  }

  // --- identifiers ---

  function ReadUuid(s: string): Option<Uuid> {
    if |s| != 36 || s[8] != '-' || s[13] != '-' || s[18] != '-' || s[23] != '-' then None
    else
      var n := Digits.Read(s[..8] + s[9..13] + s[14..18] + s[19..23] + s[24..], 16);
      if n.Some? && n.value < UUID_LIMIT then n else None
  }

  lemma UuidRange()
    ensures Digits.Power(16, 32) == UUID_LIMIT
  {
    assert Digits.Power(16, 8) == 0x1_0000_0000;
    PowerAdds(8, 8);
    PowerAdds(16, 16);
  }

  lemma {:induction false} PowerAdds(m: nat, n: nat)
    ensures Digits.Power(16, m + n) == Digits.Power(16, m) * Digits.Power(16, n)
  {
    if m > 0 {
      PowerAdds(m - 1, n);
    }
  }

  lemma UuidRead(id: Uuid)
    ensures ReadUuid(UuidText(id)) == Some(id)
  {
    var h, s := Hex(id, 32), UuidText(id);
    UuidRange();
    Digits.ReadOfWrite(id, 32, 16);
    Hyphens(h, s);
  }

  lemma Hyphens(h: string, s: string)
    requires |h| == 32 && Plain(h)
    requires s == Then(h[..8], Then("-", Then(h[8..12], Then("-", Then(h[12..16], Then("-", Then(h[16..20], Then("-", h[20..]))))))))
    ensures |s| == 36 && s[8] == s[13] == s[18] == s[23] == '-'
    ensures s[..8] + s[9..13] + s[14..18] + s[19..23] + s[24..] == h
  {
    assert s[..8] == h[..8] && s[9..13] == h[8..12] && s[14..18] == h[12..16] && s[19..23] == h[16..20] && s[24..] == h[20..];
    assert h == h[..8] + h[8..12] + h[12..16] + h[16..20] + h[20..];
  }

  // --- flat JSON objects of plain strings ---

  /** The text up to the next quote, and what follows the quote. */
  function Until(s: string): (r: Option<(string, string)>)
    ensures r.Some? ==> |r.value.1| < |s|
  {
    if s == "" then None
    else if s[0] == '"' then Some(("", s[1..]))
    else
      var rest := Until(s[1..]);
      if rest.None? then None else Some(([s[0]] + rest.value.0, rest.value.1))
  }

  lemma {:induction false} UntilQuote(a: string, rest: string)
    requires Plain(a)
    ensures Until(a + ("\"" + rest)) == Some((a, rest))
  {
    var s := a + ("\"" + rest);
    if a == "" {
      assert s[1..] == rest;
    } else {
      UntilQuote(a[1..], rest);
      assert s[0] == a[0] && a == [a[0]] + a[1..];
      assert s[1..] == a[1..] + ("\"" + rest);
    }
  }

  function ReadMember(s: string): (r: Option<(string, string, string)>)
    ensures r.Some? ==> |r.value.2| < |s|
  {
    if s == "" || s[0] != '"' then None
    else
      var key := Until(s[1..]);
      if key.None? || |key.value.1| < 2 || key.value.1[..2] != ":\"" then None
      else
        var value := Until(key.value.1[2..]);
        if value.None? then None else Some((key.value.0, value.value.0, value.value.1))
  }

  lemma MemberRead(key: string, value: string, rest: string)
    requires Plain(key) && Plain(value)
    ensures ReadMember(Member(key, value) + rest) == Some((key, value, rest))
  {
    var s := Member(key, value) + rest;
    var tail := ":\"" + (value + ("\"" + rest));
    assert s == "\"" + (key + ("\"" + tail));
    assert s[1..] == key + ("\"" + tail);
    UntilQuote(key, tail);
    assert tail[..2] == ":\"" && tail[2..] == value + ("\"" + rest);
    UntilQuote(value, rest);
  }

  /** Members up to the closing brace; a repeated key keeps its last value. */
  function ReadMembers(s: string): Option<map<string, Json>>
    decreases |s|
  {
    var member := ReadMember(s);
    if member.None? then None
    else
      var (key, value, rest) := member.value;
      if rest == "}" then Some(map[key := Text(value)])
      else if rest == "" || rest[0] != ',' then None
      else
        var others := ReadMembers(rest[1..]);
        if others.None? then None else Some(map[key := Text(value)] + others.value)
  }

  function Chars(b: seq<Byte>): string {
    seq(|b|, i requires 0 <= i < |b| => b[i] as char)
  }

  function ReadObject(b: seq<Byte>): Option<map<string, Json>> {
    var s := Chars(b);
    if s == "" || s[0] != '{' then None else ReadMembers(s[1..])
  }

  lemma ObjectRead(c: string, d: string, i: string)
    requires Plain(c) && Plain(d) && Plain(i)
    ensures Ascii(ObjectText(c, d, i))
    ensures ReadObject(Bytes(ObjectText(c, d, i))) == Some(map["c" := Text(c), "d" := Text(d), "i" := Text(i)])
  {
    var s := ObjectText(c, d, i);
    var last := Member("i", i) + "}";
    var middle := Member("d", d) + ("," + last);
    var first := Member("c", c) + ("," + middle);
    assert Chars(Bytes(s)) == s;
    assert s[1..] == first;
    MemberRead("c", c, "," + middle);
    MemberRead("d", d, "," + last);
    MemberRead("i", i, "}");
    assert ("," + middle)[1..] == middle && ("," + last)[1..] == last;
    assert ReadMembers(last) == Some(map["i" := Text(i)]);
    assert ReadMembers(middle) == Some(map["d" := Text(d)] + map["i" := Text(i)]);
    assert map["c" := Text(c)] + (map["d" := Text(d)] + map["i" := Text(i)]) == map["c" := Text(c), "d" := Text(d), "i" := Text(i)];
  }

  function CanonicalReaders(): Readers {
    Readers(ReadObject, ReadDay, ReadMoment, ReadUuid)
  }

  /** Readers that undo the writers exist. */
  lemma CanonicalReadersAreFaithful()
    ensures Faithful(CanonicalReaders())
  {
    var r := CanonicalReaders();
    forall c, d, i | Plain(c) && Plain(d) && Plain(i) ensures ReadsObject(r, c, d, i) {
      ObjectRead(c, d, i);
    }
    forall d: Day ensures r.day(DayText(d)) == Some(d) {
      DayRead(d);
    }
    forall t: Moment ensures ReadsMoment(r, t) {
      if t.offset.Some? {
        MomentRead(t);
      }
    }
    forall id: Uuid ensures r.id(UuidText(id)) == Some(id) {
      UuidRead(id);
    }
  }

  /** So no two positions share a cursor. */
  lemma CursorsAreDistinct(p: Position, q: Position)
    requires ValidPosition(p) && ValidPosition(q) && Encode(p) == Encode(q)
    ensures p == q
  {
    var r := CanonicalReaders();
    CanonicalReadersAreFaithful();
    RoundTrip(r, p);
    RoundTrip(r, q);
  }
}
