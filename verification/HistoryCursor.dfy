/** The opaque cursor of a history page: fixed-key JSON in unpadded base64url (section 5 of RFC 4648). */
module HistoryCursor {
  import opened Wrappers
  import opened Calendar
  import Digits

  const MAX_CURSOR_LENGTH := 256

  // --- the position a cursor names ---

  type Day = d: Date | IsDate(d) && d.year <= 9999 witness Date(1, 1, 1)

  const DAY_MICROSECONDS: int := 24 * 60 * 60 * 1_000_000

  /** A date and time of day; the offset from UTC in microseconds is None for a naive one. */
  datatype DateTime = DateTime(date: Day, hour: nat, minute: nat, second: nat, microsecond: nat, offset: Option<int>)

  predicate ValidMoment(t: DateTime) {
    && t.hour < 24 && t.minute < 60 && t.second < 60 && t.microsecond < 1_000_000
    && (t.offset.Some? ==> -DAY_MICROSECONDS < t.offset.value < DAY_MICROSECONDS)
  }

  type Moment = t: DateTime | ValidMoment(t) witness DateTime(Date(1, 1, 1), 0, 0, 0, 0, None)

  const UUID_LIMIT: nat := 0x1_0000_0000_0000_0000_0000_0000_0000_0000

  type Uuid = n: nat | n < UUID_LIMIT

  datatype Position = Position(day: Day, createdAt: Moment, id: Uuid)

  /** A position's creation time is timezone-aware. */
  predicate ValidPosition(p: Position) {
    p.createdAt.offset.Some?
  }

  // --- base64url ---

  type Byte = n: nat | n < 256

  /** A-Z, a-z, 0-9, then the two symbols safe in a URL. */
  function Symbol(n: nat): (c: char)
    requires n < 64
    ensures c != '='
  {
    if n < 26 then (n + 'A' as int) as char
    else if n < 52 then (n - 26 + 'a' as int) as char
    else if n < 62 then (n - 52 + '0' as int) as char
    else if n == 62 then '-' else '_'
  }

  /** The lenient reader also takes the symbols of plain base64. */
  function SymbolValue(c: char): (r: Option<nat>)
    ensures r.Some? ==> r.value < 64
  {
    if 'A' <= c <= 'Z' then Some(c as int - 'A' as int)
    else if 'a' <= c <= 'z' then Some(c as int - 'a' as int + 26)
    else if '0' <= c <= '9' then Some(c as int - '0' as int + 52)
    else if c == '-' || c == '+' then Some(62)
    else if c == '_' || c == '/' then Some(63)
    else None
  }

  lemma SymbolRead(n: nat)
    requires n < 64
    ensures SymbolValue(Symbol(n)) == Some(n)
  {
  }

  function Quad(a: Byte, b: Byte, c: Byte): (q: string)
    ensures |q| == 4
  {
    [Symbol(a / 4), Symbol(a % 4 * 16 + b / 16), Symbol(b % 16 * 4 + c / 64), Symbol(c % 64)]
  }

  /** Three bytes to four symbols; a shorter last group is not padded. */
  function Encode64(b: seq<Byte>): string {
    if b == [] then ""
    else if |b| == 1 then Quad(b[0], 0, 0)[..2]
    else if |b| == 2 then Quad(b[0], b[1], 0)[..3]
    else Quad(b[0], b[1], b[2]) + Encode64(b[3..])
  }

  function Padding(length: nat): string {
    if length % 4 == 0 then "" else if length % 4 == 1 then "===" else if length % 4 == 2 then "==" else "="
  }

  /** Whole groups of four; the last may end in one or two pads, whose spare bits are dropped. */
  function DecodeGroups(s: string): Option<seq<Byte>> {
    if s == "" then Some([])
    else if |s| < 4 then None
    else
      var a, b, c, d := SymbolValue(s[0]), SymbolValue(s[1]), SymbolValue(s[2]), SymbolValue(s[3]);
      if a.None? || b.None? then None
      else if s[2..] == "==" then Some([a.value * 4 + b.value / 16])
      else if c.None? then None
      else if s[3..] == "=" then Some([a.value * 4 + b.value / 16, b.value % 16 * 16 + c.value / 4])
      else if d.None? then None
      else
        var rest := DecodeGroups(s[4..]);
        if rest.None? then None
        else Some([a.value * 4 + b.value / 16, b.value % 16 * 16 + c.value / 4, c.value % 4 * 64 + d.value] + rest.value)
  }

  function Decode64(s: string): Option<seq<Byte>> {
    DecodeGroups(s + Padding(|s|))
  }

  lemma QuadRead(a: Byte, b: Byte, c: Byte)
    ensures var q := Quad(a, b, c);
            && SymbolValue(q[0]) == Some(a / 4) && SymbolValue(q[1]) == Some(a % 4 * 16 + b / 16)
            && SymbolValue(q[2]) == Some(b % 16 * 4 + c / 64) && SymbolValue(q[3]) == Some(c % 64)
            && q[2] != '=' && q[3] != '='
  {
    SymbolRead(a / 4);
    SymbolRead(a % 4 * 16 + b / 16);
    SymbolRead(b % 16 * 4 + c / 64);
    SymbolRead(c % 64);
  }

  lemma OneByte(a: Byte)
    ensures DecodeGroups(Quad(a, 0, 0)[..2] + "==") == Some([a])
  {
    var q := Quad(a, 0, 0);
    var s := q[..2] + "==";
    QuadRead(a, 0, 0);
    assert s[0] == q[0] && s[1] == q[1] && s[2..] == "==";
  }

  lemma TwoBytes(a: Byte, b: Byte)
    ensures DecodeGroups(Quad(a, b, 0)[..3] + "=") == Some([a, b])
  {
    var q := Quad(a, b, 0);
    var s := q[..3] + "=";
    QuadRead(a, b, 0);
    assert s[0] == q[0] && s[1] == q[1] && s[2] == q[2] && s[3..] == "=";
    assert s[2..][0] == q[2];
  }

  lemma FourSymbols(q: string, rest: string, a: nat, b: nat, c: nat, d: nat, tail: seq<Byte>)
    requires |q| == 4 && q[2] != '=' && q[3] != '=' && DecodeGroups(rest) == Some(tail)
    requires SymbolValue(q[0]) == Some(a) && SymbolValue(q[1]) == Some(b) && SymbolValue(q[2]) == Some(c) && SymbolValue(q[3]) == Some(d)
    ensures DecodeGroups(q + rest) == Some([a * 4 + b / 16, b % 16 * 16 + c / 4, c % 4 * 64 + d] + tail)
  {
    var s := q + rest;
    assert s[0] == q[0] && s[1] == q[1] && s[2] == q[2] && s[3] == q[3] && s[4..] == rest;
    assert s[2..][0] == q[2] && s[3..][0] == q[3];
  }

  lemma ThreeBytes(a: Byte, b: Byte, c: Byte)
    ensures a / 4 * 4 + (a % 4 * 16 + b / 16) / 16 == a
    ensures (a % 4 * 16 + b / 16) % 16 * 16 + (b % 16 * 4 + c / 64) / 4 == b
    ensures (b % 16 * 4 + c / 64) % 4 * 64 + c % 64 == c
  {
  }

  lemma LongGroup(b: seq<Byte>, rest: string)
    requires |b| >= 3 && DecodeGroups(rest) == Some(b[3..])
    ensures DecodeGroups(Quad(b[0], b[1], b[2]) + rest) == Some(b)
  {
    QuadRead(b[0], b[1], b[2]);
    ThreeBytes(b[0], b[1], b[2]);
    FourSymbols(Quad(b[0], b[1], b[2]), rest, b[0] / 4, b[0] % 4 * 16 + b[1] / 16, b[1] % 16 * 4 + b[2] / 64, b[2] % 64, b[3..]);
    assert b == [b[0], b[1], b[2]] + b[3..];
  }

  /** Encoded bytes decode to themselves, in four symbols for every three bytes. */
  lemma {:induction false} Decode64OfEncode64(b: seq<Byte>)
    ensures Decode64(Encode64(b)) == Some(b)
    ensures |Encode64(b)| == (4 * |b| + 2) / 3
  {
    if |b| == 0 {
    } else if |b| == 1 {
      OneByte(b[0]);
      assert b == [b[0]] && Padding(2) == "==";
    } else if |b| == 2 {
      TwoBytes(b[0], b[1]);
      assert b == [b[0], b[1]] && Padding(3) == "=";
    } else {
      var rest := Encode64(b[3..]);
      Decode64OfEncode64(b[3..]);
      LongGroup(b, rest + Padding(|rest|));
      SamePadding(Quad(b[0], b[1], b[2]), rest);
    }
  }

  lemma SamePadding(q: string, rest: string)
    requires |q| == 4
    ensures q + (rest + Padding(|rest|)) == q + rest + Padding(|q + rest|)
  {
  }

  // --- texts ---

  function Decimal(n: nat, width: nat): (s: string)
    ensures |s| == width && Plain(s)
  {
    var s := Digits.Write(n, width, 10);
    assert forall i | 0 <= i < |s| :: s[i] in s;
    s
  }

  /** Printable ASCII that JSON leaves as it is. */
  predicate Plain(s: string) {
    forall i | 0 <= i < |s| :: ' ' <= s[i] <= '~' && s[i] != '"' && s[i] != '\\'
  }

  /** Plain texts one after another. */
  function Then(a: string, b: string): (s: string)
    requires Plain(a) && Plain(b)
    ensures Plain(s) && |s| == |a| + |b|
  {
    a + b
  }

  function DayText(d: Day): (s: string)
    ensures |s| == 10 && Plain(s)
  {
    Then(Decimal(d.year, 4), Then("-", Then(Decimal(d.month, 2), Then("-", Decimal(d.day, 2)))))
  }

  function ClockText(t: Moment): (s: string)
    ensures |s| == 8 && Plain(s)
  {
    Then(Decimal(t.hour, 2), Then(":", Then(Decimal(t.minute, 2), Then(":", Decimal(t.second, 2)))))
  }

  function FractionText(microsecond: nat): (s: string)
    ensures |s| <= 7 && Plain(s)
  {
    if microsecond == 0 then "" else Then(".", Decimal(microsecond, 6))
  }

  const SECOND: int := 1_000_000
  const MINUTE: int := 60 * SECOND
  const HOUR: int := 60 * MINUTE

  function SecondsText(seconds: nat, microsecond: nat): (s: string)
    ensures |s| <= 10 && Plain(s)
  {
    if seconds != 0 || microsecond != 0 then Then(":", Then(Decimal(seconds, 2), FractionText(microsecond))) else ""
  }

  function OffsetText(offset: int): (s: string)
    ensures 6 <= |s| <= 16 && Plain(s)
  {
    var size: nat := if offset < 0 then -offset else offset;
    Then(if offset < 0 then "-" else "+",
         Then(Decimal(size / HOUR, 2), Then(":", Then(Decimal(size % HOUR / MINUTE, 2),
         SecondsText(size % MINUTE / SECOND, size % SECOND)))))
  }

  function MomentText(t: Moment): (s: string)
    requires t.offset.Some?
    ensures 25 <= |s| <= 42 && Plain(s)
  {
    Then(DayText(t.date), Then("T", Then(ClockText(t), Then(FractionText(t.microsecond), OffsetText(t.offset.value)))))
  }

  function Hex(n: nat, width: nat): (s: string)
    ensures |s| == width && Plain(s)
  {
    var s := Digits.Write(n, width, 16);
    assert forall i | 0 <= i < |s| :: s[i] in s;
    s
  }

  function UuidText(id: Uuid): (s: string)
    ensures |s| == 36 && Plain(s)
  {
    var h := Hex(id, 32);
    Then(h[..8], Then("-", Then(h[8..12], Then("-", Then(h[12..16], Then("-", Then(h[16..20], Then("-", h[20..]))))))))
  }

  function Member(key: string, value: string): (s: string)
    ensures |s| == |key| + |value| + 5
    ensures Plain(key) && Plain(value) ==> Ascii(s)
  {
    "\"" + key + "\":\"" + value + "\""
  }

  /** Keys sorted, no spaces. */
  function ObjectText(c: string, d: string, i: string): (s: string)
    ensures |s| == |c| + |d| + |i| + 22
    ensures Plain(c) && Plain(d) && Plain(i) ==> Ascii(s)
  {
    "{" + (Member("c", c) + ("," + (Member("d", d) + ("," + (Member("i", i) + "}")))))
  }

  predicate Ascii(s: string) {
    forall i | 0 <= i < |s| :: s[i] as int < 128
  }

  function Bytes(s: string): seq<Byte>
    requires Ascii(s)
  {
    seq(|s|, i requires 0 <= i < |s| => ByteAt(s, i))
  }

  function ByteAt(s: string, i: nat): Byte
    requires Ascii(s) && i < |s|
  {
    s[i] as int
  }

  function Payload(p: Position): (s: string)
    requires ValidPosition(p)
    ensures 68 <= |s| <= 110 && Ascii(s)
  {
    ObjectText(MomentText(p.createdAt), DayText(p.day), UuidText(p.id))
  }

  function Encode(p: Position): string
    requires ValidPosition(p)
  {
    Encode64(Bytes(Payload(p)))
  }

  // --- reading, with any readers that undo the writers ---

  /** A member's value, if it is a string. */
  datatype Json = Text(text: string) | Other

  /** The library's readers, which may accept many more texts than are ever written. */
  datatype Readers = Readers(
    json: seq<Byte> -> Option<map<string, Json>>,
    day: string -> Option<Day>,
    moment: string -> Option<Moment>,
    id: string -> Option<Uuid>)

  predicate ReadsObject(r: Readers, c: string, d: string, i: string) {
    Ascii(ObjectText(c, d, i)) && r.json(Bytes(ObjectText(c, d, i))) == Some(map["c" := Text(c), "d" := Text(d), "i" := Text(i)])
  }

  predicate ReadsMoment(r: Readers, t: Moment) {
    t.offset.Some? ==> r.moment(MomentText(t)) == Some(t)
  }

  /** What is written is read back. */
  ghost predicate Faithful(r: Readers) {
    && (forall c, d, i | Plain(c) && Plain(d) && Plain(i) :: ReadsObject(r, c, d, i))
    && (forall d: Day :: r.day(DayText(d)) == Some(d))
    && (forall t: Moment :: ReadsMoment(r, t))
    && (forall id: Uuid :: r.id(UuidText(id)) == Some(id))
  }

  function DecodePosition(r: Readers, payload: map<string, Json>): Option<Position> {
    if payload.Keys != {"d", "c", "i"} then None
    else if !payload["d"].Text? || !payload["c"].Text? || !payload["i"].Text? then None
    else
      var day, createdAt, id := r.day(payload["d"].text), r.moment(payload["c"].text), r.id(payload["i"].text);
      if day.None? || createdAt.None? || id.None? then None else Some(Position(day.value, createdAt.value, id.value))
  }

  function ReadPosition(r: Readers, raw: seq<Byte>): Option<Position> {
    var payload := r.json(raw);
    if payload.None? then None else DecodePosition(r, payload.value)
  }

  predicate IsCanonical(p: Position, cursor: string) {
    ValidPosition(p) && Encode(p) == cursor
  }

  /** None stands for an invalid cursor. Only the canonical form is accepted. */
  function Decode(r: Readers, cursor: string): Option<Position> {
    if cursor == "" || |cursor| > MAX_CURSOR_LENGTH then None
    else
      var raw := Decode64(cursor);
      if raw.None? then None
      else
        var p := ReadPosition(r, raw.value);
        if p.None? || !IsCanonical(p.value, cursor) then None else p
  }

  /** A cursor has between 91 and 147 characters. */
  lemma EncodeFits(p: Position)
    requires ValidPosition(p)
    ensures 91 <= |Encode(p)| <= 147 < MAX_CURSOR_LENGTH
  {
    Decode64OfEncode64(Bytes(Payload(p)));
  }

  lemma ReadsPosition(r: Readers, p: Position, raw: seq<Byte>)
    requires Faithful(r) && ValidPosition(p) && raw == Bytes(Payload(p))
    ensures ReadPosition(r, raw) == Some(p)
  {
    var c, d, i := MomentText(p.createdAt), DayText(p.day), UuidText(p.id);
    assert ReadsObject(r, c, d, i);
    assert ReadsMoment(r, p.createdAt);
    DecodesPosition(r, p, c, d, i, map["c" := Text(c), "d" := Text(d), "i" := Text(i)]);
  }

  lemma DecodesPosition(r: Readers, p: Position, c: string, d: string, i: string, payload: map<string, Json>)
    requires payload == map["c" := Text(c), "d" := Text(d), "i" := Text(i)]
    requires r.day(d) == Some(p.day) && r.moment(c) == Some(p.createdAt) && r.id(i) == Some(p.id)
    ensures DecodePosition(r, payload) == Some(p)
  {
    assert payload.Keys == {"d", "c", "i"};
  }

  /** Every position survives the trip through its cursor. */
  lemma RoundTrip(r: Readers, p: Position)
    requires Faithful(r) && ValidPosition(p)
    ensures Decode(r, Encode(p)) == Some(p)
  {
    EncodeFits(p);
    Decode64OfEncode64(Bytes(Payload(p)));
    ReadsPosition(r, p, Bytes(Payload(p)));
  }

  lemma DecodedIsCanonical(r: Readers, cursor: string, p: Position)
    requires Decode(r, cursor) == Some(p)
    ensures IsCanonical(p, cursor)
  {
  }

  /** However lenient the readers are, the strings accepted are exactly those issued, each for its own position. */
  lemma AcceptsExactlyTheIssued(r: Readers, cursor: string, p: Position)
    requires Faithful(r)
    ensures Decode(r, cursor) == Some(p) <==> ValidPosition(p) && Encode(p) == cursor
  {
    if Decode(r, cursor) == Some(p) {
      DecodedIsCanonical(r, cursor, p);
    } else if IsCanonical(p, cursor) {
      RoundTrip(r, p);
    }
  }
}
