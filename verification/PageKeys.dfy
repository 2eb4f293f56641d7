/** Keys of cached pages: internal/store/redis/stream.go, pageKey. */
module PageKeys {
  import opened Options
  import opened Digits
  import opened Cursors
  import Base64Url

  // fmt's %d
  function Natural(n: nat): string {
    if n < 10 then [DigitChar(n)] else Natural(n / 10) + [DigitChar(n % 10)]
  }

  function Decimal(n: int): string {
    if n < 0 then "-" + Natural(-n) else Natural(n)
  }

  function Slot(cursor: string): string {
    if cursor == "" then "latest" else cursor
  }

  function PageKey(cursor: string, limit: int): string {
    "stream:page:" + Slot(cursor) + ":" + Decimal(limit)
  }

  /** The keys of two newest pages. */
  lemma KnownKeys()
    ensures PageKey("", 20) == "stream:page:latest:20" && PageKey("", 100) == "stream:page:latest:100"
    ensures forall c: string, n: nat :: c != "" && n < 10 ==> PageKey(c, n) == "stream:page:" + c + ":" + [DigitChar(n)]
  {
    assert Natural(20) == Natural(2) + ['0'];
    assert Natural(10) == Natural(1) + ['0'];
    assert Natural(100) == Natural(10) + ['0'];
  }

  // What GetPage uses as cursor text: a cursor that decodes, or none
  ghost predicate Usable(cursor: string, lenient: Lenient) {
    DecodeCursor(cursor, lenient).Ok?
  }

  lemma {:induction false} NaturalReads(n: nat)
    ensures Read(Natural(n), 10) == Some(n) && Natural(n) != "" && Natural(n)[0] != '-'
  {
    var s := Natural(n);
    if n < 10 {
      assert s[..0] == "";
      assert Read(s[..0], 10) == Some(0);
    } else {
      NaturalReads(n / 10);
      assert s[..|s| - 1] == Natural(n / 10);
    }
  }

  lemma DecimalInjective(a: int, b: int)
    requires Decimal(a) == Decimal(b)
    ensures a == b
  {
    NaturalReads(if a < 0 then -a else a);
    NaturalReads(if b < 0 then -b else b);
    if a < 0 && b < 0 {
      assert Decimal(a)[1..] == Natural(-a) && Decimal(b)[1..] == Natural(-b);
    }
  }

  // The first ':' ends the first part
  lemma {:induction false} SplitAtColon(a: string, x: string, b: string, y: string)
    requires ':' !in a && ':' !in b && a + ":" + x == b + ":" + y
    ensures a == b && x == y
  {
    var s, t := a + ":" + x, b + ":" + y;
    assert a != "" ==> a[0] in a && s[0] == a[0];
    assert b != "" ==> b[0] in b && t[0] == b[0];
    if a != "" && b != "" {
      assert s[1..] == a[1..] + ":" + x && t[1..] == b[1..] + ":" + y;
      SplitAtColon(a[1..], x, b[1..], y);
      assert a == [a[0]] + a[1..] && b == [b[0]] + b[1..];
    } else {
      assert s[1..] == x && t[1..] == y;
    }
  }

  lemma UsableDecodes(cursor: string, lenient: Lenient)
    requires Usable(cursor, lenient)
    ensures cursor == "" || Base64Url.Decode(cursor).Some?
  {
  }

  lemma DecodableHasNoColon(cursor: string)
    requires cursor == "" || Base64Url.Decode(cursor).Some?
    ensures ':' !in Slot(cursor)
  {
    if cursor != "" && ':' in cursor {
      Base64Url.DecodableText(cursor, ':');
    }
  }

  lemma RefusesStart(text: string, lenient: Lenient)
    requires text != "" && text[0] == 0x95 as char
    ensures Unmarshal(text, lenient) == DecodeError
  {
    assert |text| >= 6 ==> text[..6][0] != OPEN[0];
  }

  // A text that starts with "la" decodes to bytes that start with 0x95, which starts no JSON value
  lemma StartsNoJson(s: string, lenient: Lenient)
    requires Base64Url.InAlphabet(s) && |s| >= 2 && s[0] == 'l' && s[1] == 'a'
    ensures !Usable(s, lenient)
  {
    if Base64Url.Decode(s).Some? {
      Base64Url.FirstByte(s);
      RefusesStart(ToText(Base64Url.Decode(s).value), lenient);
    }
  }

  lemma LatestIsUnusable(lenient: Lenient)
    ensures !Usable("latest", lenient)
  {
    var s := "latest";
    assert forall i :: 0 <= i < |s| ==> 'a' <= s[i] <= 'z';
    StartsNoJson(s, lenient);
  }

  lemma SlotsInjective(c: string, d: string, lenient: Lenient)
    requires Usable(c, lenient) && Usable(d, lenient) && Slot(c) == Slot(d)
    ensures c == d
  {
    LatestIsUnusable(lenient);
  }

  lemma StripPrefix(p: string, a: string, x: string, b: string, y: string)
    requires p + a + ":" + x == p + b + ":" + y
    ensures a + ":" + x == b + ":" + y
  {
    assert p + a + ":" + x == p + (a + ":" + x);
    assert p + b + ":" + y == p + (b + ":" + y);
    assert (p + (a + ":" + x))[|p|..] == a + ":" + x;
    assert (p + (b + ":" + y))[|p|..] == b + ":" + y;
  }

  /** pageKey is injective on the cursors GetPage passes to it: equal keys mean the same cursor text
      and the same limit, and in particular no cursor collides with the newest page. */
  lemma KeysInjective(c: string, limit: int, d: string, limit': int, lenient: Lenient)
    requires Usable(c, lenient) && Usable(d, lenient)
    requires PageKey(c, limit) == PageKey(d, limit')
    ensures c == d && limit == limit'
  {
    StripPrefix("stream:page:", Slot(c), Decimal(limit), Slot(d), Decimal(limit'));
    UsableDecodes(c, lenient);
    UsableDecodes(d, lenient);
    DecodableHasNoColon(c);
    DecodableHasNoColon(d);
    SplitAtColon(Slot(c), Decimal(limit), Slot(d), Decimal(limit'));
    SlotsInjective(c, d, lenient);
    DecimalInjective(limit, limit');
  }
}
