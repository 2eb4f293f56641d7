/** Stream cursors: internal/model/models.go, EncodeCursor and DecodeCursor. */
module Cursors {
  import opened Options
  import opened Digits
  import opened Rfc3339
  import Base64Url

  type Uuid = n: nat | n < Pow(16, 32) witness 0

  datatype Cursor = Cursor(createdAt: Time, id: Uuid)

  datatype Decoded = Ok(cursor: Option<Cursor>) | DecodeError

  // json.Unmarshal accepts more texts than json.Marshal writes: spaces, members in another order,
  // missing members, escapes, lenient times, null. What it makes of those is a parameter
  // (None is an error), so that every result below holds whatever it is.
  type Lenient = string -> Option<Cursor>

  /* ---------- section 4 of RFC 9562: the 8-4-4-4-12 text of a UUID ---------- */

  function UuidText(id: Uuid): (s: string)
    ensures |s| == 36
  {
    var h := Fixed(id, 32, 16);
    h[..8] + "-" + h[8..12] + "-" + h[12..16] + "-" + h[16..20] + "-" + h[20..]
  }

  function ReadUuid(s: string): Option<Uuid> {
    if |s| != 36 || s[8] != '-' || s[13] != '-' || s[18] != '-' || s[23] != '-' then None
    else
      var v := Read(s[..8] + s[9..13] + s[14..18] + s[19..23] + s[24..], 16);
      if v.Some? && v.value < Pow(16, 32) then Some(v.value) else None
  }

  /* ---------- JSON ---------- */

  const OPEN := "{\"t\":\""
  const MIDDLE := "\",\"id\":\""
  const CLOSE := "\"}"

  function Json(time: string, id: string): string {
    OPEN + time + MIDDLE + id + CLOSE
  }

  function ReadJson(s: string): Option<Cursor> {
    var n := |s|;
    if n < 52 || s[..6] != OPEN || s[n - 46..n - 38] != MIDDLE || s[n - 2..] != CLOSE then None
    else
      var t, id := Parse(s[6..n - 46]), ReadUuid(s[n - 38..n - 2]);
      if t.None? || id.None? then None else Some(Cursor(t.value, id.value))
  }

  // White space, or the first character of some JSON value
  predicate StartsJson(s: string) {
    s != "" && (s[0] in " \t\r\n{[\"-tfn" || '0' <= s[0] <= '9')
  }

  function Unmarshal(s: string, lenient: Lenient): Decoded {
    var strict := ReadJson(s);
    if strict.Some? then Ok(strict)
    else if !StartsJson(s) then DecodeError
    else
      var loose := lenient(s);
      if loose.Some? then Ok(loose) else DecodeError
  }

  /* ---------- the two functions ---------- */

  predicate Ascii(s: string) {
    forall i :: 0 <= i < |s| ==> s[i] < 128 as char
  }

  function ToBytes(s: string): (b: seq<Base64Url.byte>)
    requires Ascii(s)
    ensures |b| == |s| && forall i :: 0 <= i < |s| ==> b[i] == s[i] as int
  {
    if s == "" then [] else ToBytes(s[..|s| - 1]) + [s[|s| - 1] as int]
  }

  function ToText(b: seq<Base64Url.byte>): string {
    seq(|b|, i requires 0 <= i < |b| => b[i] as char)
  }

  function CursorJson(c: Cursor): (s: string)
    requires Marshals(c.createdAt)
    ensures Ascii(s)
  {
    MarshalAscii(c.createdAt);
    UuidAscii(c.id);
    JsonAscii(Marshal(c.createdAt).value, UuidText(c.id));
    Json(Marshal(c.createdAt).value, UuidText(c.id))
  }

  // When Marshal fails its error is dropped and the empty text is encoded
  function EncodeCursor(c: Option<Cursor>): string {
    if c.None? || !Marshals(c.value.createdAt) then ""
    else Base64Url.Encode(ToBytes(CursorJson(c.value)))
  }

  function DecodeCursor(s: string, lenient: Lenient): Decoded {
    if s == "" then Ok(None)
    else
      var b := Base64Url.Decode(s);
      if b.None? then DecodeError else Unmarshal(ToText(b.value), lenient)
  }

  /* ---------- round trip ---------- */

  lemma MarshalAscii(t: Time)
    requires Marshals(t)
    ensures Ascii(Marshal(t).value)
  {
    assert Ascii(Date(t)) && Ascii(Clock(t)) && Ascii(Zone(t.offset)) && Ascii(Fraction(t.nano));
  }

  lemma JsonAscii(time: string, id: string)
    requires Ascii(time) && Ascii(id)
    ensures Ascii(Json(time, id))
  {
  }

  lemma UuidAscii(id: Uuid)
    ensures Ascii(UuidText(id))
  {
    var h := Fixed(id, 32, 16);
    assert Ascii(h[..8]) && Ascii(h[8..12]) && Ascii(h[12..16]) && Ascii(h[16..20]) && Ascii(h[20..]);
  }

  lemma Dashes(h: string, s: string)
    requires |h| == 32 && s == h[..8] + "-" + h[8..12] + "-" + h[12..16] + "-" + h[16..20] + "-" + h[20..]
    ensures |s| == 36 && s[8] == '-' && s[13] == '-' && s[18] == '-' && s[23] == '-'
    ensures s[..8] + s[9..13] + s[14..18] + s[19..23] + s[24..] == h
  {
    assert s[..8] == h[..8] && s[9..13] == h[8..12] && s[14..18] == h[12..16];
    assert s[19..23] == h[16..20] && s[24..] == h[20..];
  }

  lemma UuidRoundTrip(id: Uuid)
    ensures ReadUuid(UuidText(id)) == Some(id)
  {
    ReadFixed(id, 32, 16);
    Dashes(Fixed(id, 32, 16), UuidText(id));
  }

  lemma JsonRoundTrip(time: string, id: string, c: Cursor)
    requires |id| == 36 && Parse(time) == Some(c.createdAt) && ReadUuid(id) == Some(c.id)
    ensures ReadJson(Json(time, id)) == Some(c)
  {
    var s := Json(time, id);
    var n := |s|;
    assert s[..6] == OPEN && s[n - 46..n - 38] == MIDDLE && s[n - 2..] == CLOSE;
    assert s[6..n - 46] == time && s[n - 38..n - 2] == id;
  }

  // The one thing a round trip can lose is the seconds of a zone offset
  function CutToMinutes(t: Time): Time {
    t.(offset := ZoneMinutes(t.offset) * 60)
  }

  lemma EncodeDecode(c: Cursor, lenient: Lenient)
    requires Valid(c.createdAt) && Marshals(c.createdAt)
    ensures EncodeCursor(Some(c)) != ""
    ensures DecodeCursor(EncodeCursor(Some(c)), lenient) == Ok(Some(c.(createdAt := CutToMinutes(c.createdAt))))
  {
    var text := CursorJson(c);
    TimeRoundTrip(c.createdAt);
    UuidRoundTrip(c.id);
    JsonRoundTrip(Marshal(c.createdAt).value, UuidText(c.id), c.(createdAt := CutToMinutes(c.createdAt)));
    Base64Url.RoundTrip(ToBytes(text));
    Base64Url.EncodeInAlphabet(ToBytes(text));
    assert ToText(ToBytes(text)) == text;
  }

  predicate SamePosition(a: Cursor, b: Cursor) {
    Instant(a.createdAt) == Instant(b.createdAt) && a.id == b.id
  }

  // A four-digit year, and a zone of whole minutes less than a day from UTC
  predicate Encodable(t: Time) {
    Marshals(t) && t.offset % 60 == 0
  }

  /** DecodeCursor(EncodeCursor(c)) names the same instant and id exactly when the time's year has
      four digits and its zone offset is whole minutes under 24 hours. */
  lemma CursorRoundTrip(c: Cursor, lenient: Lenient)
    requires Valid(c.createdAt)
    ensures
      var d := DecodeCursor(EncodeCursor(Some(c)), lenient);
      Encodable(c.createdAt) <==> d.Ok? && d.cursor.Some? && SamePosition(d.cursor.value, c)
  {
    if Marshals(c.createdAt) {
      EncodeDecode(c, lenient);
      OffsetShifts(c.createdAt);
    }
  }

  // Local mean time of Amsterdam until 1937: 19 minutes and 32 seconds east
  const AMSTERDAM := Time(1930, 1, 1, 12, 0, 0, 0, 1172)

  /** A cursor at that offset comes back 32 seconds later on the time line. */
  lemma OddOffsetFails(id: Uuid, lenient: Lenient)
    ensures
      var c := Cursor(AMSTERDAM, id);
      var d := DecodeCursor(EncodeCursor(Some(c)), lenient);
      && Valid(c.createdAt) && d.Ok? && d.cursor.Some? && d.cursor.value.id == id
      && Instant(d.cursor.value.createdAt) == Instant(c.createdAt) + 32_000_000_000
  {
    EncodeDecode(Cursor(AMSTERDAM, id), lenient);
    CutShifts(AMSTERDAM);
  }

  // Cutting the offset moves the instant by what is cut
  lemma CutShifts(t: Time)
    ensures Instant(CutToMinutes(t)) == Instant(t) + (t.offset - CutToMinutes(t).offset) * 1_000_000_000
  {
  }

  lemma OffsetShifts(t: Time)
    ensures Instant(CutToMinutes(t)) == Instant(t) <==> t.offset % 60 == 0
  {
    var cut := CutToMinutes(t).offset;
    assert cut == t.offset <==> t.offset % 60 == 0;
    assert Instant(CutToMinutes(t)) == Instant(t) + (t.offset - cut) * 1_000_000_000;
  }
}
