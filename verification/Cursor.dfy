/** The page token: base64url of "nanoseconds|uuid" (internal/transport/http/cursor.go). */
module Cursor {
  import opened Domain

  type Byte = x: int | 0 <= x < 256

  datatype CursorError = BadEncoding | Malformed | BadTime | BadId

  // ---- Base64url without padding, section 5 of RFC 4648 ----

  type Sextet = x: int | 0 <= x < 64

  function Symbol(i: Sextet): char
  {
    if i < 26 then ('A' as int + i) as char
    else if i < 52 then ('a' as int + i - 26) as char
    else if i < 62 then ('0' as int + i - 52) as char
    else if i == 62 then '-' else '_'
  }

  function SextetOf(c: char): Option<Sextet>
  {
    if 'A' <= c <= 'Z' then Some(c as int - 'A' as int)
    else if 'a' <= c <= 'z' then Some(c as int - 'a' as int + 26)
    else if '0' <= c <= '9' then Some(c as int - '0' as int + 52)
    else if c == '-' then Some(62) else if c == '_' then Some(63) else None
  }

  function Sextet0(a: Byte): Sextet
  {
    var n: int := a as int / 4; n
  }

  function Sextet1(a: Byte, b: Byte): Sextet
  {
    var n: int := a as int % 4 * 16 + b as int / 16; n
  }

  function Sextet2(b: Byte, c: Byte): Sextet
  {
    var n: int := b as int % 16 * 4 + c as int / 64; n
  }

  function Sextet3(c: Byte): Sextet
  {
    var n: int := c as int % 64; n
  }

  /** Three bytes are four sextets; one or two left-over bytes are two or three, filled up with zero bits. */
  function Pack(b: seq<Byte>): seq<Sextet>
  {
    if |b| == 0 then []
    else if |b| == 1 then [Sextet0(b[0]), Sextet1(b[0], 0)]
    else if |b| == 2 then [Sextet0(b[0]), Sextet1(b[0], b[1]), Sextet2(b[1], 0)]
    else [Sextet0(b[0]), Sextet1(b[0], b[1]), Sextet2(b[1], b[2]), Sextet3(b[2])] + Pack(b[3..])
  }

  function Symbols(x: seq<Sextet>): string
  {
    if x == [] then "" else [Symbol(x[0])] + Symbols(x[1..])
  }

  function Encode64(b: seq<Byte>): string
  {
    Symbols(Pack(b))
  }

  /** The sextets of a text; any character outside the alphabet is an error. */
  function Sextets(s: string): Option<seq<Sextet>>
  {
    if s == "" then Some([])
    else
      var rest := Sextets(s[1..]);
      if SextetOf(s[0]).None? || rest.None? then None else Some([SextetOf(s[0]).value] + rest.value)
  }

  function Byte0(x: Sextet, y: Sextet): Byte
  {
    var n: int := x as int * 4 + y as int / 16; n
  }

  function Byte1(y: Sextet, z: Sextet): Byte
  {
    var n: int := y as int % 16 * 16 + z as int / 4; n
  }

  function Byte2(z: Sextet, w: Sextet): Byte
  {
    var n: int := z as int % 4 * 64 + w as int; n
  }

  /** Unused low bits of the last sextet are ignored; a single left-over sextet is an error. */
  function Unpack(x: seq<Sextet>): Option<seq<Byte>>
  {
    if |x| == 0 then Some([])
    else if |x| == 1 then None
    else if |x| == 2 then Some([Byte0(x[0], x[1])])
    else if |x| == 3 then Some([Byte0(x[0], x[1]), Byte1(x[1], x[2])])
    else
      var rest := Unpack(x[4..]);
      if rest.None? then None else Some([Byte0(x[0], x[1]), Byte1(x[1], x[2]), Byte2(x[2], x[3])] + rest.value)
  }

  /** The decoder skips line breaks. */
  function WithoutBreaks(s: string): string
  {
    if s == "" then ""
    else if s[0] == '\r' || s[0] == '\n' then WithoutBreaks(s[1..])
    else [s[0]] + WithoutBreaks(s[1..])
  }

  function Decode64(s: string): Option<seq<Byte>>
  {
    var x := Sextets(WithoutBreaks(s));
    if x.None? then None else Unpack(x.value)
  }

  lemma {:induction false} SymbolsRoundTrip(x: seq<Sextet>)
    ensures WithoutBreaks(Symbols(x)) == Symbols(x) && Sextets(Symbols(x)) == Some(x)
  {
    if x != [] {
      SymbolsRoundTrip(x[1..]);
      assert SextetOf(Symbol(x[0])) == Some(x[0]);
      assert Symbols(x)[1..] == Symbols(x[1..]);
      assert x == [x[0]] + x[1..];
    }
  }

  lemma BitsRoundTrip(a: Byte, b: Byte, c: Byte)
    ensures Byte0(Sextet0(a), Sextet1(a, b)) == a
    ensures Byte1(Sextet1(a, b), Sextet2(b, c)) == b
    ensures Byte2(Sextet2(b, c), Sextet3(c)) == c
  {
  }

  lemma {:induction false} PackRoundTrip(b: seq<Byte>)
    ensures Unpack(Pack(b)) == Some(b)
  {
    hide Byte0, Byte1, Byte2, Sextet0, Sextet1, Sextet2, Sextet3;
    if |b| == 1 {
      BitsRoundTrip(b[0], 0, 0);
      assert b == [b[0]];
    } else if |b| == 2 {
      BitsRoundTrip(b[0], b[1], 0);
      assert b == [b[0], b[1]];
    } else if |b| >= 3 {
      BitsRoundTrip(b[0], b[1], b[2]);
      PackRoundTrip(b[3..]);
      assert Pack(b)[4..] == Pack(b[3..]);
      assert b == [b[0], b[1], b[2]] + b[3..];
    }
  }

  /** Decoding undoes encoding for every byte string. */
  lemma Base64RoundTrip(b: seq<Byte>)
    ensures Decode64(Encode64(b)) == Some(b)
  {
    SymbolsRoundTrip(Pack(b));
    PackRoundTrip(b);
  }

  // ---- Decimal ----

  function Digits(n: nat): string
  {
    if n < 10 then [('0' as int + n) as char] else Digits(n / 10) + [('0' as int + n % 10) as char]
  }

  function FormatInt(n: int): string
  {
    if n < 0 then "-" + Digits(-n) else Digits(n)
  }

  function DigitsValue(s: string): Option<nat>
  {
    if s == "" then Some(0)
    else
      var prefix, c := DigitsValue(s[..|s| - 1]), s[|s| - 1];
      if prefix.None? || !('0' <= c <= '9') then None else Some(prefix.value * 10 + c as int - '0' as int)
  }

  const MIN_INT64: int := -0x8000_0000_0000_0000
  const MAX_INT64: int := 0x7FFF_FFFF_FFFF_FFFF

  /** An optional sign, at least one digit, within 64 bits. */
  function ParseInt64(s: string): Option<int>
  {
    var negative := s != "" && s[0] == '-';
    var digits := if s != "" && (s[0] == '-' || s[0] == '+') then s[1..] else s;
    var v := DigitsValue(digits);
    if digits == "" || v.None? then None
    else
      var n: int := if negative then -(v.value as int) else v.value;
      if MIN_INT64 <= n <= MAX_INT64 then Some(n) else None
  }

  lemma {:induction false} DigitsRoundTrip(n: nat)
    ensures DigitsValue(Digits(n)) == Some(n) && Digits(n) != ""
    ensures forall i :: 0 <= i < |Digits(n)| ==> '0' <= Digits(n)[i] <= '9'
  {
    if n >= 10 {
      DigitsRoundTrip(n / 10);
      assert Digits(n)[..|Digits(n)| - 1] == Digits(n / 10);
    } else {
      assert Digits(n)[..0] == "";
    }
  }

  lemma Int64RoundTrip(n: int)
    requires MIN_INT64 <= n <= MAX_INT64
    ensures ParseInt64(FormatInt(n)) == Some(n)
    ensures forall i :: 0 <= i < |FormatInt(n)| ==> FormatInt(n)[i] == '-' || '0' <= FormatInt(n)[i] <= '9'
  {
    DigitsRoundTrip(if n < 0 then -n else n);
    if n < 0 {
      assert FormatInt(n)[1..] == Digits(-n);
    }
  }

  // ---- Identifiers ----

  const UUID_LIMIT: nat := 0x1_0000_0000_0000_0000_0000_0000_0000_0000

  function HexDigit(n: nat): char
    requires n < 16
  {
    if n < 10 then ('0' as int + n) as char else ('a' as int + n - 10) as char
  }

  function HexValueOf(c: char): Option<nat>
  {
    if '0' <= c <= '9' then Some(c as int - '0' as int)
    else if 'a' <= c <= 'f' then Some(c as int - 'a' as int + 10)
    else if 'A' <= c <= 'F' then Some(c as int - 'A' as int + 10)
    else None
  }

  /** The low `width` hexadecimal digits. */
  function Hex(n: nat, width: nat): (s: string)
    ensures |s| == width
  {
    if width == 0 then "" else Hex(n / 16, width - 1) + [HexDigit(n % 16)]
  }

  function HexValue(s: string): Option<nat>
  {
    if s == "" then Some(0)
    else
      var prefix, last := HexValue(s[..|s| - 1]), HexValueOf(s[|s| - 1]);
      if prefix.None? || last.None? then None else Some(prefix.value * 16 + last.value)
  }

  /** The canonical 8-4-4-4-12 form. */
  function FormatId(id: nat): string
  {
    var h := Hex(id, 32);
    h[..8] + "-" + h[8..12] + "-" + h[12..16] + "-" + h[16..20] + "-" + h[20..]
  }

  function ParseId(s: string): Option<nat>
  {
    if |s| != 36 || s[8] != '-' || s[13] != '-' || s[18] != '-' || s[23] != '-' then None
    else HexValue(s[..8] + s[9..13] + s[14..18] + s[19..23] + s[24..])
  }

  function Power16(n: nat): nat
  {
    if n == 0 then 1 else 16 * Power16(n - 1)
  }

  lemma {:induction false} HexRoundTrip(n: nat, width: nat)
    requires n < Power16(width)
    ensures HexValue(Hex(n, width)) == Some(n)
    ensures forall i :: 0 <= i < width ==> Hex(n, width)[i] != '|' && Hex(n, width)[i] as int < 128
  {
    if width > 0 {
      HexRoundTrip(n / 16, width - 1);
      assert Hex(n, width)[..width - 1] == Hex(n / 16, width - 1);
      assert HexValueOf(HexDigit(n % 16)) == Some(n % 16);
    }
  }

  lemma UuidLimit()
    ensures Power16(32) == UUID_LIMIT
  {
    assert Power16(8) == 0x1_0000_0000;
    assert Power16(16) == 0x1_0000_0000_0000_0000 by { assert Power16(12) == 0x1_0000_0000_0000; }
    assert Power16(24) == 0x1_0000_0000_0000_0000_0000_0000 by { assert Power16(20) == 0x1_0000_0000_0000_0000_0000; }
    assert Power16(28) == 0x1_0000_0000_0000_0000_0000_0000_0000;
  }

  lemma Dashed(a: string, b: string, c: string, d: string, e: string)
    requires |a| == 8 && |b| == 4 && |c| == 4 && |d| == 4
    ensures var s := a + "-" + b + "-" + c + "-" + d + "-" + e;
            && |s| == |e| + 24 && s[8] == s[13] == s[18] == s[23] == '-'
            && s[..8] == a && s[9..13] == b && s[14..18] == c && s[19..23] == d && s[24..] == e
  {
  }

  lemma DashedChars(a: string, b: string, c: string, d: string, e: string, x: char)
    requires x in a + "-" + b + "-" + c + "-" + d + "-" + e
    ensures x == '-' || x in a || x in b || x in c || x in d || x in e
  {
  }

  /** An identifier's text is plain ASCII without the separator. */
  lemma IdIsPlain(id: nat, i: nat)
    requires id < UUID_LIMIT && i < |FormatId(id)|
    ensures FormatId(id)[i] != '|' && FormatId(id)[i] as int < 128
  {
    hide Hex, Power16;
    UuidLimit();
    HexRoundTrip(id, 32);
    var h := Hex(id, 32);
    var x := FormatId(id)[i];
    DashedChars(h[..8], h[8..12], h[12..16], h[16..20], h[20..], x);
    if x != '-' {
      var j :| 0 <= j < 32 && h[j] == x;
    }
  }

  lemma {:induction false} HexChars(n: nat, width: nat)
    ensures forall i :: 0 <= i < width ==> '0' <= Hex(n, width)[i] <= '9' || 'a' <= Hex(n, width)[i] <= 'f'
    decreases width
  {
    if width > 0 {
      HexChars(n / 16, width - 1);
    }
  }

  lemma FormatIdIs(id: nat)
    ensures var h := Hex(id, 32);
            FormatId(id) == h[..8] + "-" + h[8..12] + "-" + h[12..16] + "-" + h[16..20] + "-" + h[20..]
  {
  }

  /** Lower-case hexadecimal digits, and dashes after 8, 12, 16 and 20 of them. */
  lemma IdChars(id: nat)
    ensures |FormatId(id)| == 36
    ensures forall i :: 0 <= i < 36 ==>
                          if i in {8, 13, 18, 23} then FormatId(id)[i] == '-'
                          else '0' <= FormatId(id)[i] <= '9' || 'a' <= FormatId(id)[i] <= 'f'
  {
    hide Hex;
    HexChars(id, 32);
  }

  lemma IdRoundTrip(id: nat)
    requires id < UUID_LIMIT
    ensures ParseId(FormatId(id)) == Some(id)
    ensures forall i :: 0 <= i < 36 ==> FormatId(id)[i] != '|' && FormatId(id)[i] as int < 128
    ensures |FormatId(id)| == 36
    ensures forall i :: 0 <= i < 36 ==>
                          if i in {8, 13, 18, 23} then FormatId(id)[i] == '-'
                          else '0' <= FormatId(id)[i] <= '9' || 'a' <= FormatId(id)[i] <= 'f'
  {
    hide Hex, HexValue, Power16, FormatId;
    IdChars(id);
    FormatIdIs(id);
    UuidLimit();
    HexRoundTrip(id, 32);
    var h := Hex(id, 32);
    Dashed(h[..8], h[8..12], h[12..16], h[16..20], h[20..]);
    assert h[..8] + h[8..12] + h[12..16] + h[16..20] + h[20..] == h;
    forall i | 0 <= i < 36 ensures FormatId(id)[i] != '|' && FormatId(id)[i] as int < 128 {
      IdIsPlain(id, i);
    }
  }

  // ---- The token ----

  /** Instants are integers here; a value outside 64 bits wraps. */
  function Wrap64(t: int): int
  {
    (t - MIN_INT64) % 0x1_0000_0000_0000_0000 + MIN_INT64
  }

  function Bytes(s: string): seq<Byte>
    requires forall i :: 0 <= i < |s| ==> s[i] as int < 256
  {
    seq(|s|, i requires 0 <= i < |s| => s[i] as int)
  }

  function Chars(b: seq<Byte>): (s: string)
    ensures |s| == |b| && forall i :: 0 <= i < |b| ==> s[i] as int == b[i]
  {
    if b == [] then "" else [b[0] as char] + Chars(b[1..])
  }

  function Raw(id: nat, ts: int): string
  {
    FormatInt(ts) + "|" + FormatId(id)
  }

  function TimeField(at: Option<Time>): int
  {
    if at.Some? then Wrap64(at.value) else 0
  }

  function EncodeCursor(id: nat, at: Option<Time>): string
    requires id < UUID_LIMIT
  {
    RawIsAscii(id, TimeField(at));
    Encode64(Bytes(Raw(id, TimeField(at))))
  }

  function IndexOf(s: string, c: char): (i: nat)
    ensures i <= |s| && (i < |s| ==> s[i] == c) && forall j :: 0 <= j < i ==> s[j] != c
  {
    if s == "" || s[0] == c then 0 else 1 + IndexOf(s[1..], c)
  }

  function DecodeCursor(s: string): Result<(nat, Time), CursorError>
  {
    var data := Decode64(s);
    if data.None? then Err(BadEncoding)
    else
      var text := Chars(data.value);
      var bar := IndexOf(text, '|');
      if bar == |text| then Err(Malformed)
      else
        var ts := ParseInt64(text[..bar]);
        var id := ParseId(text[bar + 1..]);
        if ts.None? then Err(BadTime) else if id.None? then Err(BadId) else Ok((id.value, ts.value))
  }

  /** What lies outside 64 bits comes back modulo 2^64. */
  lemma WrapIsModular(t: int)
    ensures MIN_INT64 <= Wrap64(t) <= MAX_INT64 && (Wrap64(t) - t) % 0x1_0000_0000_0000_0000 == 0
  {
  }

  /** The decoder takes exactly the numbers that fit in 64 bits, with or without a sign. */
  lemma ParseIsExact(n: nat)
    ensures ParseInt64(Digits(n)) == (if n <= MAX_INT64 then Some(n as int) else None)
    ensures ParseInt64("+" + Digits(n)) == ParseInt64(Digits(n))
    ensures var m := -(n as int); ParseInt64("-" + Digits(n)) == if m >= MIN_INT64 then Some(m) else None
  {
    DigitsRoundTrip(n);
    hide Digits, DigitsValue;
    var d := Digits(n);
    ParseOf(d, n);
    assert ("+" + d)[1..] == d && ("-" + d)[1..] == d;
  }

  /** Nothing is read without digits, or with anything else behind the sign. */
  lemma ParseNeedsDigits(s: string)
    ensures ParseInt64(s).Some? ==>
              var d := if s != "" && (s[0] == '-' || s[0] == '+') then s[1..] else s;
              d != "" && forall i :: 0 <= i < |d| ==> '0' <= d[i] <= '9'
  {
    var d := if s != "" && (s[0] == '-' || s[0] == '+') then s[1..] else s;
    OnlyDigits(d);
    hide DigitsValue;
  }

  lemma {:induction false} OnlyDigits(d: string)
    ensures DigitsValue(d).Some? ==> forall i :: 0 <= i < |d| ==> '0' <= d[i] <= '9'
    decreases |d|
  {
    if d != "" {
      OnlyDigits(d[..|d| - 1]);
    }
  }

  lemma ParseOf(d: string, n: nat)
    requires d != "" && DigitsValue(d) == Some(n) && '0' <= d[0] <= '9'
    ensures ParseInt64(d) == if n <= MAX_INT64 then Some(n as int) else None
  {
    hide DigitsValue;
  }

  /** Line breaks in a token are ignored, wherever they are. */
  lemma BreaksAreIgnored(a: string, c: char, b: string)
    requires c == '\n' || c == '\r'
    ensures Decode64(a + [c] + b) == Decode64(a + b)
  {
    hide Sextets, Unpack, WithoutBreaks;
    BreaksOf(a + [c], b);
    BreaksOf(a, [c]);
    BreaksOf(a, b);
    BreaksStep([c]);
    NoBreaks();
    assert [c][1..] == "" && WithoutBreaks(a + [c]) == WithoutBreaks(a) + "" == WithoutBreaks(a);
    assert WithoutBreaks(a + [c] + b) == WithoutBreaks(a + b);
  }

  lemma {:induction false} BreaksOf(a: string, b: string)
    ensures WithoutBreaks(a + b) == WithoutBreaks(a) + WithoutBreaks(b)
  {
    NoBreaks();
    hide WithoutBreaks;
    if a == "" {
      assert a + b == b;
    } else {
      BreaksOf(a[1..], b);
      Regroup(a[0], WithoutBreaks(a[1..]), WithoutBreaks(b));
      BreaksStep(a + b);
      BreaksStep(a);
      assert (a + b)[1..] == a[1..] + b;
    }
  }

  lemma NoBreaks()
    ensures WithoutBreaks("") == ""
  {
  }

  lemma Regroup(c: char, x: string, y: string)
    ensures [c] + (x + y) == ([c] + x) + y
  {
  }

  lemma BreaksStep(s: string)
    requires s != ""
    ensures WithoutBreaks(s) == if s[0] in "\r\n" then WithoutBreaks(s[1..]) else [s[0]] + WithoutBreaks(s[1..])
  {
  }

  lemma RawIsAscii(id: nat, ts: int)
    requires id < UUID_LIMIT && MIN_INT64 <= ts <= MAX_INT64
    ensures forall i :: 0 <= i < |Raw(id, ts)| ==> Raw(id, ts)[i] as int < 256
    ensures IndexOf(Raw(id, ts), '|') == |FormatInt(ts)|
  {
    Int64RoundTrip(ts);
    IdRoundTrip(id);
    assert Raw(id, ts)[|FormatInt(ts)|] == '|';
  }

  lemma TimeFieldFits(at: Option<Time>)
    ensures MIN_INT64 <= TimeField(at) <= MAX_INT64
  {
  }

  lemma EpochForNone(at: Option<Time>)
    ensures at.None? ==> TimeField(at) == 0
  {
  }

  /** A token decodes to its identifier and its instant as 64 bits hold it; a missing instant becomes the epoch. */
  lemma TokenRoundTrip(id: nat, at: Option<Time>)
    requires id < UUID_LIMIT
    ensures DecodeCursor(EncodeCursor(id, at)) == Ok((id, TimeField(at)))
    ensures at.None? ==> DecodeCursor(EncodeCursor(id, at)) == Ok((id, 0))
  {
    EpochForNone(at);
    hide Encode64, Decode64, FormatInt, FormatId, ParseInt64, ParseId, IndexOf, TimeField;
    var ts := TimeField(at);
    TimeFieldFits(at);
    var raw := Raw(id, ts);
    RawIsAscii(id, ts);
    Base64RoundTrip(Bytes(raw));
    assert Chars(Bytes(raw)) == raw;
    Int64RoundTrip(ts);
    IdRoundTrip(id);
    var bar := |FormatInt(ts)|;
    assert raw[..bar] == FormatInt(ts) && raw[bar + 1..] == FormatId(id);
  }

  /** Nothing is lost exactly for instants within 64 bits of nanoseconds. */
  lemma TokenIsLosslessIff(id: nat, t: Time)
    requires id < UUID_LIMIT
    ensures DecodeCursor(EncodeCursor(id, Some(t))) == Ok((id, t)) <==> MIN_INT64 <= t <= MAX_INT64
  {
    hide EncodeCursor, DecodeCursor;
    TokenRoundTrip(id, Some(t));
  }

  // ---- What the decoder takes ----

  lemma {:induction false} SextetsAreExact(s: string)
    ensures Sextets(s).Some? <==>
            forall i :: 0 <= i < |s| ==> 'A' <= s[i] <= 'Z' || 'a' <= s[i] <= 'z' || '0' <= s[i] <= '9' || s[i] == '-' || s[i] == '_'
    ensures Sextets(s).Some? ==> |Sextets(s).value| == |s|
  {
    if s != "" {
      SextetsAreExact(s[1..]);
      assert s == [s[0]] + s[1..];
    }
  }

  lemma {:induction false} UnpackIsExact(x: seq<Sextet>)
    ensures Unpack(x).Some? <==> |x| % 4 != 1
    decreases |x|
  {
    hide Byte0, Byte1, Byte2;
    if |x| >= 4 {
      UnpackIsExact(x[4..]);
      LessFour(|x|);
    }
  }

  lemma LessFour(n: nat)
    requires n >= 4
    ensures (n - 4) % 4 == n % 4
  {
  }

  /** Base64url text is decoded exactly when it has the alphabet's characters only, and not one too many. */
  lemma Decode64IsExact(s: string)
    ensures var t := WithoutBreaks(s);
            Decode64(s).Some? <==>
            && |t| % 4 != 1
            && forall i :: 0 <= i < |t| ==> 'A' <= t[i] <= 'Z' || 'a' <= t[i] <= 'z' || '0' <= t[i] <= '9' || t[i] == '-' || t[i] == '_'
  {
    hide Sextets, Unpack;
    SextetsAreExact(WithoutBreaks(s));
    if Sextets(WithoutBreaks(s)).Some? {
      UnpackIsExact(Sextets(WithoutBreaks(s)).value);
    }
  }

  lemma {:induction false} HexValueIsExact(s: string)
    ensures HexValue(s).Some? <==> IsHex(s)
    decreases |s|
  {
    if s != "" {
      HexValueIsExact(s[..|s| - 1]);
      assert s == s[..|s| - 1] + [s[|s| - 1]];
    }
  }

  /** An identifier is read exactly from 36 characters with dashes in their places and hexadecimal digits elsewhere. */
  lemma ParseIdIsExact(s: string)
    ensures ParseId(s).Some? <==>
            && |s| == 36 && s[8] == s[13] == s[18] == s[23] == '-'
            && IsHex(s[..8]) && IsHex(s[9..13]) && IsHex(s[14..18]) && IsHex(s[19..23]) && IsHex(s[24..])
  {
    hide HexValue, IsHex;
    if |s| == 36 {
      var h := s[..8] + s[9..13] + s[14..18] + s[19..23];
      HexValueIsExact(h + s[24..]);
      HexBoth(h, s[24..]);
      HexBoth(s[..8] + s[9..13] + s[14..18], s[19..23]);
      HexBoth(s[..8] + s[9..13], s[14..18]);
      HexBoth(s[..8], s[9..13]);
    }
  }

  predicate IsHex(s: string)
  {
    forall i :: 0 <= i < |s| ==> '0' <= s[i] <= '9' || 'a' <= s[i] <= 'f' || 'A' <= s[i] <= 'F'
  }

  lemma HexBoth(a: string, b: string)
    ensures IsHex(a + b) <==> IsHex(a) && IsHex(b)
  {
    if IsHex(a + b) {
      assert forall i :: 0 <= i < |a| ==> (a + b)[i] == a[i];
      assert forall i :: 0 <= i < |b| ==> (a + b)[|a| + i] == b[i];
    }
  }

  /** A token is accepted exactly when its text is a number and an identifier around the first separator. */
  lemma DecodeIsExact(s: string, id: nat, ts: int)
    ensures DecodeCursor(s) == Ok((id, ts)) <==> Decode64(s).Some? && HoldsToken(Chars(Decode64(s).value), id, ts)
  {
    hide Decode64, ParseInt64, ParseId, Chars, HoldsToken;
    if Decode64(s).Some? {
      TextIsExact(Chars(Decode64(s).value), id, ts);
    }
  }

  ghost predicate HoldsToken(text: string, id: nat, ts: int)
  {
    exists pre, post :: IsToken(text, pre, post, id, ts)
  }

  lemma TextIsExact(text: string, id: nat, ts: int)
    ensures var bar := IndexOf(text, '|');
            HoldsToken(text, id, ts) <==>
            bar < |text| && ParseInt64(text[..bar]) == Some(ts) && ParseId(text[bar + 1..]) == Some(id)
  {
    hide ParseInt64, ParseId, IndexOf;
    var bar := IndexOf(text, '|');
    if bar < |text| && ParseInt64(text[..bar]) == Some(ts) && ParseId(text[bar + 1..]) == Some(id) {
      SplitAt(text, bar);
      assert IsToken(text, text[..bar], text[bar + 1..], id, ts);
    }
    if HoldsToken(text, id, ts) {
      var pre, post :| IsToken(text, pre, post, id, ts);
      FirstBar(pre, post);
    }
  }

  lemma SplitAt(text: string, bar: nat)
    requires bar < |text| && text[bar] == '|'
    ensures text == text[..bar] + "|" + text[bar + 1..]
  {
  }

  predicate IsToken(text: string, pre: string, post: string, id: nat, ts: int)
  {
    && text == pre + "|" + post && (forall i :: 0 <= i < |pre| ==> pre[i] != '|')
    && ParseInt64(pre) == Some(ts) && ParseId(post) == Some(id)
  }

  lemma FirstBar(pre: string, post: string)
    requires forall i :: 0 <= i < |pre| ==> pre[i] != '|'
    ensures var text := pre + "|" + post;
            IndexOf(text, '|') == |pre| && text[..|pre|] == pre && text[|pre| + 1..] == post
  {
    var text := pre + "|" + post;
    assert text[|pre|] == '|';
    assert forall i :: 0 <= i < |pre| ==> text[i] == pre[i];
  }
}
