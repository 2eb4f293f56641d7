/** Unpadded base64url, sections 3.2 and 5 of RFC 4648, as base64.RawURLEncoding does it: the
    decoder skips CR and LF and ignores unused trailing bits. */
module Base64Url {
  import opened Options

  type byte = x: int | 0 <= x < 256

  function SextetChar(v: int): (c: char)
    requires 0 <= v < 64
    ensures CharSextet(c) == Some(v)
  {
    if v < 26 then 'A' + v as char
    else if v < 52 then 'a' + (v - 26) as char
    else if v < 62 then '0' + (v - 52) as char
    else if v == 62 then '-' else '_'
  }

  function CharSextet(c: char): (v: Option<int>)
    ensures v.Some? ==> 0 <= v.value < 64
  {
    if 'A' <= c <= 'Z' then Some((c - 'A') as int)
    else if 'a' <= c <= 'z' then Some((c - 'a') as int + 26)
    else if '0' <= c <= '9' then Some((c - '0') as int + 52)
    else if c == '-' then Some(62)
    else if c == '_' then Some(63)
    else None
  }

  // The characters of one, two and three bytes
  function One(a: byte): string {
    [SextetChar(a / 4), SextetChar(a % 4 * 16)]
  }

  function Two(a: byte, b: byte): string {
    [SextetChar(a / 4), SextetChar(a % 4 * 16 + b / 16), SextetChar(b % 16 * 4)]
  }

  function Quantum(a: byte, b: byte, c: byte): string {
    [SextetChar(a / 4), SextetChar(a % 4 * 16 + b / 16), SextetChar(b % 16 * 4 + c / 64), SextetChar(c % 64)]
  }

  function Encode(b: seq<byte>): string {
    if |b| == 0 then ""
    else if |b| == 1 then One(b[0])
    else if |b| == 2 then Two(b[0], b[1])
    else Quantum(b[0], b[1], b[2]) + Encode(b[3..])
  }

  function Strip(s: string): string {
    if s == "" then ""
    else if s[0] == '\r' || s[0] == '\n' then Strip(s[1..])
    else [s[0]] + Strip(s[1..])
  }

  function DecodeQuanta(s: string): Option<seq<byte>> {
    if |s| == 0 then Some([])
    else if |s| == 1 then None
    else
      var a, b := CharSextet(s[0]), CharSextet(s[1]);
      if a.None? || b.None? then None
      else
        var first := a.value * 4 + b.value / 16;
        if |s| == 2 then Some([first])
        else
          var c := CharSextet(s[2]);
          if c.None? then None
          else
            var second := b.value % 16 * 16 + c.value / 4;
            if |s| == 3 then Some([first, second])
            else
              var d, rest := CharSextet(s[3]), DecodeQuanta(s[4..]);
              if d.None? || rest.None? then None
              else Some([first, second, c.value % 4 * 64 + d.value] + rest.value)
  }

  function Decode(s: string): Option<seq<byte>> {
    DecodeQuanta(Strip(s))
  }

  predicate InAlphabet(s: string) {
    forall i :: 0 <= i < |s| ==> CharSextet(s[i]).Some?
  }

  lemma {:induction false} EncodeInAlphabet(b: seq<byte>)
    ensures InAlphabet(Encode(b)) && (b != [] ==> Encode(b) != "")
  {
    if |b| >= 3 { EncodeInAlphabet(b[3..]); }
  }

  lemma {:induction false} StripAlphabet(s: string)
    requires InAlphabet(s)
    ensures Strip(s) == s
  {
    if s != "" {
      assert CharSextet(s[0]).Some?;
      assert forall i :: 0 <= i < |s[1..]| ==> s[1..][i] == s[i + 1];
      StripAlphabet(s[1..]);
    }
  }

  lemma FirstByte(s: string)
    requires InAlphabet(s) && |s| >= 2 && Decode(s).Some?
    ensures var a, b := CharSextet(s[0]).value, CharSextet(s[1]).value;
      Decode(s).value != [] && Decode(s).value[0] == a * 4 + b / 16
  {
    StripAlphabet(s);
  }

  // A byte put together from what it is cut into
  lemma CutByte(a: int, low: int)
    requires 0 <= a < 256 && 0 <= low < 16
    ensures 0 <= a / 4 < 64 && 0 <= a % 4 * 16 + low < 64 && a / 4 * 4 + (a % 4 * 16 + low) / 16 == a
    ensures (a % 4 * 16 + low) % 16 == low
  {
  }

  lemma CutMiddle(b: int, low: int)
    requires 0 <= b < 256 && 0 <= low < 4
    ensures 0 <= b / 16 < 16 && 0 <= b % 16 * 4 + low < 64 && b / 16 * 16 + (b % 16 * 4 + low) / 4 == b
    ensures (b % 16 * 4 + low) % 4 == low
  {
  }

  // What the decoder makes of two, three and four characters with these values
  lemma ReadTwo(s: string, w: int, x: int)
    requires |s| == 2 && CharSextet(s[0]) == Some(w) && CharSextet(s[1]) == Some(x)
    ensures DecodeQuanta(s) == Some([w * 4 + x / 16])
  {
  }

  lemma ReadThree(s: string, w: int, x: int, y: int)
    requires |s| == 3 && CharSextet(s[0]) == Some(w) && CharSextet(s[1]) == Some(x) && CharSextet(s[2]) == Some(y)
    ensures DecodeQuanta(s) == Some([w * 4 + x / 16, x % 16 * 16 + y / 4])
  {
  }

  lemma ReadFour(s: string, w: int, x: int, y: int, z: int, rest: seq<byte>)
    requires |s| >= 4 && CharSextet(s[0]) == Some(w) && CharSextet(s[1]) == Some(x)
    requires CharSextet(s[2]) == Some(y) && CharSextet(s[3]) == Some(z) && DecodeQuanta(s[4..]) == Some(rest)
    ensures DecodeQuanta(s) == Some([w * 4 + x / 16, x % 16 * 16 + y / 4, y % 4 * 64 + z] + rest)
  {
  }

  lemma QuantumRoundTrip(a: byte, b: byte, c: byte, text: string, rest: seq<byte>)
    requires DecodeQuanta(text) == Some(rest)
    ensures DecodeQuanta(Quantum(a, b, c) + text) == Some([a, b, c] + rest)
  {
    CutByte(a, b / 16);
    CutMiddle(b, c / 64);
    var s := Quantum(a, b, c) + text;
    assert s[4..] == text;
    ReadFour(s, a / 4, a % 4 * 16 + b / 16, b % 16 * 4 + c / 64, c % 64, rest);
  }

  lemma LastTwo(a: byte, b: byte)
    ensures DecodeQuanta(Two(a, b)) == Some([a, b])
  {
    CutByte(a, b / 16);
    CutMiddle(b, 0);
    ReadThree(Two(a, b), a / 4, a % 4 * 16 + b / 16, b % 16 * 4);
  }

  lemma LastOne(a: byte)
    ensures DecodeQuanta(One(a)) == Some([a])
  {
    CutByte(a, 0);
    ReadTwo(One(a), a / 4, a % 4 * 16);
  }

  lemma {:induction false} QuantaRoundTrip(b: seq<byte>)
    ensures DecodeQuanta(Encode(b)) == Some(b)
  {
    if |b| >= 3 {
      QuantaRoundTrip(b[3..]);
      QuantumRoundTrip(b[0], b[1], b[2], Encode(b[3..]), b[3..]);
      assert b == [b[0], b[1], b[2]] + b[3..];
    } else if |b| == 2 {
      LastTwo(b[0], b[1]);
      assert b == [b[0], b[1]];
    } else if |b| == 1 {
      LastOne(b[0]);
      assert b == [b[0]];
    }
  }

  lemma RoundTrip(b: seq<byte>)
    ensures Decode(Encode(b)) == Some(b)
  {
    EncodeInAlphabet(b);
    StripAlphabet(Encode(b));
    QuantaRoundTrip(b);
  }

  /** The ends of the alphabet's ranges (section 5), and vectors of section 10 without padding. */
  lemma KnownEncodings()
    ensures SextetChar(0) == 'A' && SextetChar(25) == 'Z' && SextetChar(26) == 'a' && SextetChar(51) == 'z'
    ensures SextetChar(52) == '0' && SextetChar(61) == '9' && SextetChar(62) == '-' && SextetChar(63) == '_'
    ensures Encode([102]) == "Zg" && Encode([102, 111]) == "Zm8" && Encode([102, 111, 111]) == "Zm9v"
  {
    assert Encode([]) == "";
  }

  // Whatever decodes holds only alphabet characters, CR and LF
  lemma {:induction false} DecodableText(s: string, c: char)
    requires Decode(s).Some? && c in s
    ensures CharSextet(c).Some? || c == '\r' || c == '\n'
  {
    if CharSextet(c).None? && c != '\r' && c != '\n' {
      StripKeeps(s, c);
      QuantaInAlphabet(Strip(s), c);
    }
  }

  lemma {:induction false} StripKeeps(s: string, c: char)
    requires c in s && c != '\r' && c != '\n'
    ensures c in Strip(s)
  {
    if s[0] != c {
      assert c in s[1..];
      StripKeeps(s[1..], c);
    }
  }

  lemma {:induction false} QuantaInAlphabet(s: string, c: char)
    requires DecodeQuanta(s).Some? && c in s
    ensures CharSextet(c).Some?
  {
    var i :| 0 <= i < |s| && s[i] == c;
    if i >= 4 {
      assert s[4..][i - 4] == c;
      QuantaInAlphabet(s[4..], c);
    }
  }
}
