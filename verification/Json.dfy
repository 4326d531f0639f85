/** The part of JSON (RFC 8259) that the exec stream uses: an object of strings, integers and booleans on one line,
    written as Go's encoder writes it and read back. Text is a sequence of Unicode scalar values. */
module Json {
  import opened Wrappers
  import opened Decimals

  // --- strings, section 7 of RFC 8259 ---

  const HEX := "0123456789abcdef"

  function HexDigit(n: nat): char
    requires n < 16
  {
    HEX[n]
  }

  function HexValue(c: char): Option<nat> {
    if '0' <= c <= '9' then Some(c as int - '0' as int)
    else if 'a' <= c <= 'f' then Some(c as int - 'a' as int + 10)
    else if 'A' <= c <= 'F' then Some(c as int - 'A' as int + 10)
    else None
  }

  function Unicode(n: nat): string
    requires n < 0x1_0000
  {
    ['\\', 'u', HexDigit(n / 4096), HexDigit(n / 256 % 16), HexDigit(n / 16 % 16), HexDigit(n % 16)]
  }

  /** Go escapes what the section requires, and also the characters that HTML or JavaScript would misread. */
  function EscapeChar(c: char): string {
    if c == '"' then "\\\"" else
    if c == '\\' then "\\\\" else
    if c as int == 8 then "\\b" else
    if c as int == 12 then "\\f" else
    if c == '\n' then "\\n" else
    if c == '\r' then "\\r" else
    if c == '\t' then "\\t" else
    if c < ' ' || c == '<' || c == '>' || c == '&' || c as int == 0x2028 || c as int == 0x2029 then Unicode(c as int)
    else [c]
  }

  function Escape(s: string): string {
    if s == "" then "" else EscapeChar(s[0]) + Escape(s[1..])
  }

  function ShortEscape(c: char): Option<char> {
    match c
    case '"' => Some('"')
    case '\\' => Some('\\')
    case '/' => Some('/')
    case 'b' => Some(8 as char)
    case 'f' => Some(12 as char)
    case 'n' => Some('\n')
    case 'r' => Some('\r')
    case 't' => Some('\t')
    case _ => None
  }

  function FourHex(s: string): Option<nat>
    requires |s| >= 4
  {
    var a, b, c, d := HexValue(s[0]), HexValue(s[1]), HexValue(s[2]), HexValue(s[3]);
    if a.None? || b.None? || c.None? || d.None? then None
    else Some(a.value * 4096 + b.value * 256 + c.value * 16 + d.value)
  }

  /** One character of a string, and the text after it. Surrogates are not part of this model. */
  function ReadChar(s: string): Option<(char, string)> {
    if s == "" || s[0] < ' ' || s[0] == '"' then None else
    if s[0] != '\\' then Some((s[0], s[1..])) else
    if |s| < 2 then None else
    if s[1] == 'u' then
      if |s| < 6 then None else
      var n := FourHex(s[2..6]);
      if n.None? || 0xD800 <= n.value < 0xE000 || n.value >= 0x1_0000 then None else Some((n.value as char, s[6..]))
    else
      var c := ShortEscape(s[1]);
      if c.None? then None else Some((c.value, s[2..]))
  }

  /** The rest of a string after its opening quote, and the text after its closing quote. */
  function ReadString(s: string): (r: Option<(string, string)>)
    ensures r.Some? ==> |r.value.1| < |s|
    decreases |s|
  {
    if s == "" then None else
    if s[0] == '"' then Some(("", s[1..])) else
    var c := ReadChar(s);
    if c.None? then None else
    var rest := ReadString(c.value.1);
    if rest.None? then None else Some(([c.value.0] + rest.value.0, rest.value.1))
  }

  lemma HexRoundTrip(n: nat)
    requires n < 16
    ensures HexValue(HexDigit(n)) == Some(n) && HexDigit(n) >= ' ' && HexDigit(n) != '"' && HexDigit(n) as int < 0x80
  {
  }

  lemma UnicodeRoundTrip(n: nat)
    requires n < 0x1_0000
    ensures FourHex(Unicode(n)[2..6]) == Some(n)
  {
    HexRoundTrip(n / 4096);
    HexRoundTrip(n / 256 % 16);
    HexRoundTrip(n / 16 % 16);
    HexRoundTrip(n % 16);
    hide HexValue, HexDigit;
    assert n == n / 4096 * 4096 + n / 256 % 16 * 256 + n / 16 % 16 * 16 + n % 16 by {
      assert n / 256 / 16 == n / 4096;
      assert n / 16 / 16 == n / 256;
    }
  }

  lemma ReadEscapedChar(c: char, rest: string)
    ensures ReadChar(EscapeChar(c) + rest) == Some((c, rest))
    ensures EscapeChar(c) != "" && EscapeChar(c)[0] != '"'
  {
    hide ReadChar;
    if |EscapeChar(c)| == 6 {
      ReadUnicode(c, rest);
    } else {
      ReadShort(c, rest);
    }
  }

  lemma ReadUnicode(c: char, rest: string)
    requires |EscapeChar(c)| == 6
    ensures ReadChar(EscapeChar(c) + rest) == Some((c, rest))
  {
    var s := EscapeChar(c) + rest;
    hide FourHex, HexDigit;
    UnicodeRoundTrip(c as int);
    assert s[2..6] == Unicode(c as int)[2..6];
    assert s[6..] == rest;
  }

  lemma ReadShort(c: char, rest: string)
    requires |EscapeChar(c)| != 6
    ensures ReadChar(EscapeChar(c) + rest) == Some((c, rest))
  {
    var s := EscapeChar(c) + rest;
    if |EscapeChar(c)| == 2 {
      assert s[2..] == rest;
    } else {
      assert s[1..] == rest;
    }
    hide FourHex;
  }

  /** Every text, once escaped and closed by a quote, is read back, and reading stops right after the quote. */
  lemma {:induction false} EscapeRoundTrip(s: string, rest: string)
    ensures ReadString(Escape(s) + "\"" + rest) == Some((s, rest))
  {
    hide ReadChar, EscapeChar;
    if s == "" {
      assert Escape(s) + "\"" + rest == "\"" + rest;
    } else {
      var tail := Escape(s[1..]) + "\"" + rest;
      ReadEscapedChar(s[0], tail);
      assert Escape(s) + "\"" + rest == EscapeChar(s[0]) + tail;
      EscapeRoundTrip(s[1..], rest);
      assert s == [s[0]] + s[1..];
    }
  }

  /** Escaped text holds no control character, and in particular no line end. */
  predicate OneLine(s: string) {
    forall i | 0 <= i < |s| :: s[i] >= ' '
  }

  lemma UnicodeIsOneLine(n: nat)
    requires n < 0x1_0000
    ensures OneLine(Unicode(n)) && ScriptSafe(Unicode(n))
  {
    HexRoundTrip(n / 4096);
    HexRoundTrip(n / 256 % 16);
    HexRoundTrip(n / 16 % 16);
    HexRoundTrip(n % 16);
  }

  /** Nothing that HTML or JavaScript would misread. */
  predicate ScriptSafe(s: string) {
    forall i | 0 <= i < |s| :: s[i] != '<' && s[i] != '>' && s[i] != '&' && s[i] as int != 0x2028 && s[i] as int != 0x2029
  }

  lemma {:induction false} EscapeIsOneLine(s: string)
    ensures OneLine(Escape(s)) && ScriptSafe(Escape(s))
  {
    if s != "" {
      if |EscapeChar(s[0])| == 6 {
        UnicodeIsOneLine(s[0] as int);
      }
      EscapeIsOneLine(s[1..]);
    }
  }

  // --- size in UTF-8 ---

  function CharBytes(c: char): nat {
    if c as int < 0x80 then 1 else if c as int < 0x800 then 2 else if c as int < 0x1_0000 then 3 else 4
  }

  function Bytes(s: string): nat {
    if s == "" then 0 else CharBytes(s[0]) + Bytes(s[1..])
  }

  lemma {:induction false} BytesAppend(a: string, b: string)
    ensures Bytes(a + b) == Bytes(a) + Bytes(b)
  {
    if a == "" {
      assert a + b == b;
    } else {
      assert (a + b)[1..] == a[1..] + b;
      BytesAppend(a[1..], b);
    }
  }

  predicate Ascii(s: string) {
    forall i | 0 <= i < |s| :: s[i] as int < 0x80
  }

  lemma {:induction false} AsciiBytes(s: string)
    requires Ascii(s)
    ensures Bytes(s) == |s|
  {
    if s != "" {
      AsciiBytes(s[1..]);
    }
  }

  lemma EscapeCharBytes(c: char)
    ensures Bytes(EscapeChar(c)) <= 6 * CharBytes(c)
  {
    var e := EscapeChar(c);
    if |e| == 6 {
      HexRoundTrip(c as int / 4096);
      HexRoundTrip(c as int / 256 % 16);
      HexRoundTrip(c as int / 16 % 16);
      HexRoundTrip(c as int % 16);
      AsciiBytes(e);
    } else if |e| == 2 {
      AsciiBytes(e);
    } else {
      assert e == [c] && e[1..] == "";
    }
  }

  /** Escaping grows a text to at most six times its bytes. */
  lemma {:induction false} EscapeBytes(s: string)
    ensures Bytes(Escape(s)) <= 6 * Bytes(s)
  {
    if s != "" {
      EscapeCharBytes(s[0]);
      EscapeBytes(s[1..]);
      BytesAppend(EscapeChar(s[0]), Escape(s[1..]));
    }
  }

  // --- integers ---

  function PrintInt(n: int): string {
    if n < 0 then "-" + Print(-n) else Print(n)
  }

  function DigitRun(s: string): (n: nat)
    ensures n <= |s| && AllDigits(s[..n]) && (n < |s| ==> !IsDigit(s[n]))
  {
    if s == "" || !IsDigit(s[0]) then 0 else 1 + DigitRun(s[1..])
  }

  function ReadNat(s: string): (r: Option<(nat, string)>)
    ensures r.Some? ==> |r.value.1| < |s|
  {
    var n := DigitRun(s);
    if Canonical(s[..n]) then Some((Value(s[..n]), s[n..])) else None
  }

  function ReadInt(s: string): (r: Option<(int, string)>)
    ensures r.Some? ==> |r.value.1| < |s|
  {
    if s != "" && s[0] == '-' then
      var n := ReadNat(s[1..]);
      if n.None? then None else
      var magnitude: int := n.value.0;
      Some((-magnitude, n.value.1))
    else
      var n := ReadNat(s);
      if n.None? then None else Some((n.value.0, n.value.1))
  }

  lemma {:induction false} DigitRunAppend(digits: string, rest: string)
    requires AllDigits(digits) && (rest != "" ==> !IsDigit(rest[0]))
    ensures DigitRun(digits + rest) == |digits|
  {
    if digits == "" {
      assert digits + rest == rest;
    } else {
      assert (digits + rest)[1..] == digits[1..] + rest;
      DigitRunAppend(digits[1..], rest);
    }
  }

  lemma NatRoundTrip(n: nat, rest: string)
    requires rest != "" ==> !IsDigit(rest[0])
    ensures ReadNat(Print(n) + rest) == Some((n, rest))
  {
    var digits := Print(n);
    DigitRunAppend(digits, rest);
    assert (digits + rest)[..|digits|] == digits && (digits + rest)[|digits|..] == rest;
    hide Print, DigitRun;
    assert Value(digits) == n;
    assert Canonical(digits);
  }

  lemma IntRoundTrip(n: int, rest: string)
    requires rest != "" ==> !IsDigit(rest[0])
    ensures ReadInt(PrintInt(n) + rest) == Some((n, rest))
  {
    hide Print, ReadNat;
    if n < 0 {
      NatRoundTrip(-n, rest);
      AfterSign(Print(-n), rest);
    } else {
      NatRoundTrip(n, rest);
      BeforeRest(Print(n), rest);
    }
  }

  lemma AfterSign(digits: string, rest: string)
    ensures var s := "-" + digits + rest; s != "" && s[0] == '-' && s[1..] == digits + rest
  {
  }

  lemma BeforeRest(digits: string, rest: string)
    requires digits != ""
    ensures (digits + rest)[0] == digits[0]
  {
  }

  // --- objects ---

  datatype JsonValue = Str(text: string) | Num(number: int) | Bool(flag: bool)

  datatype Member = Member(name: string, value: JsonValue)

  function PrintJson(v: JsonValue): string {
    match v
    case Str(text) => "\"" + Escape(text) + "\""
    case Num(n) => PrintInt(n)
    case Bool(flag) => if flag then "true" else "false"
  }

  function PrintMember(m: Member): string {
    "\"" + Escape(m.name) + "\":" + PrintJson(m.value)
  }

  function PrintMembers(ms: seq<Member>): string
    requires ms != []
  {
    if |ms| == 1 then PrintMember(ms[0]) else PrintMember(ms[0]) + "," + PrintMembers(ms[1..])
  }

  function PrintObject(ms: seq<Member>): string {
    if ms == [] then "{}" else "{" + PrintMembers(ms) + "}"
  }

  function ReadValue(s: string): (r: Option<(JsonValue, string)>)
    ensures r.Some? ==> |r.value.1| < |s|
  {
    if s != "" && s[0] == '"' then
      var t := ReadString(s[1..]);
      if t.None? then None else Some((Str(t.value.0), t.value.1))
    else if "true" <= s then Some((Bool(true), s[4..]))
    else if "false" <= s then Some((Bool(false), s[5..]))
    else
      var n := ReadInt(s);
      if n.None? then None else Some((Num(n.value.0), n.value.1))
  }

  function ReadMember(s: string): (r: Option<(Member, string)>)
    ensures r.Some? ==> |r.value.1| < |s|
  {
    if s == "" || s[0] != '"' then None else
    var name := ReadString(s[1..]);
    if name.None? || name.value.1 == "" || name.value.1[0] != ':' then None else
    var v := ReadValue(name.value.1[1..]);
    if v.None? then None else Some((Member(name.value.0, v.value.0), v.value.1))
  }

  /** The members of an object after its opening brace, and the text after its closing brace. */
  function ReadMembers(s: string): Option<(seq<Member>, string)>
    decreases |s|
  {
    var m := ReadMember(s);
    if m.None? || m.value.1 == "" then None
    else if m.value.1[0] == '}' then Some(([m.value.0], m.value.1[1..]))
    else if m.value.1[0] == ',' then
      var ms := ReadMembers(m.value.1[1..]);
      if ms.None? then None else Some(([m.value.0] + ms.value.0, ms.value.1))
    else None
  }

  function ReadObject(s: string): Option<seq<Member>> {
    if s == "{}" then Some([]) else
    if s == "" || s[0] != '{' then None else
    var ms := ReadMembers(s[1..]);
    if ms.None? || ms.value.1 != "" then None else Some(ms.value.0)
  }

  lemma ValueRoundTrip(v: JsonValue, rest: string)
    requires rest != "" ==> !IsDigit(rest[0])
    ensures ReadValue(PrintJson(v) + rest) == Some((v, rest))
  {
    hide Escape, ReadString, ReadInt, PrintInt;
    var s := PrintJson(v) + rest;
    match v
    case Str(text) =>
      EscapeRoundTrip(text, rest);
      assert s[1..] == Escape(text) + "\"" + rest;
    case Num(n) =>
      IntRoundTrip(n, rest);
      IntStart(n, rest);
    case Bool(flag) =>
      assert s[|PrintJson(v)|..] == rest;
      assert s[0] == PrintJson(v)[0];
  }

  lemma IntStart(n: int, rest: string)
    ensures var s := PrintInt(n) + rest;
            s != "" && s[0] != '"' && !("true" <= s) && !("false" <= s) && (s[0] == '-' || IsDigit(s[0]))
  {
    assert (PrintInt(n) + rest)[0] == PrintInt(n)[0];
  }

  lemma MemberRoundTrip(m: Member, rest: string)
    requires rest != "" ==> !IsDigit(rest[0])
    ensures ReadMember(PrintMember(m) + rest) == Some((m, rest))
  {
    hide Escape, ReadString, PrintJson, ReadValue;
    var after := ":" + PrintJson(m.value) + rest;
    EscapeRoundTrip(m.name, after);
    assert (PrintMember(m) + rest)[1..] == Escape(m.name) + "\"" + after;
    assert after[1..] == PrintJson(m.value) + rest;
    ValueRoundTrip(m.value, rest);
  }

  lemma {:induction false} MembersRoundTrip(ms: seq<Member>, rest: string)
    requires ms != []
    ensures ReadMembers(PrintMembers(ms) + "}" + rest) == Some((ms, rest))
  {
    hide PrintMember, ReadMember;
    if |ms| == 1 {
      MemberRoundTrip(ms[0], "}" + rest);
      assert PrintMembers(ms) + "}" + rest == PrintMember(ms[0]) + ("}" + rest);
      assert ms == [ms[0]];
    } else {
      var after := PrintMembers(ms[1..]) + "}" + rest;
      MemberRoundTrip(ms[0], "," + after);
      assert PrintMembers(ms) + "}" + rest == PrintMember(ms[0]) + ("," + after);
      MembersRoundTrip(ms[1..], rest);
      assert ms == [ms[0]] + ms[1..];
    }
  }

  /** Every object is read back from its text. */
  lemma ObjectRoundTrip(ms: seq<Member>)
    ensures ReadObject(PrintObject(ms)) == Some(ms)
  {
    hide PrintMembers, ReadMembers;
    if ms != [] {
      MembersRoundTrip(ms, "");
      var s := PrintObject(ms);
      assert s[1..] == PrintMembers(ms) + "}" + "";
      assert |PrintMembers(ms)| > 0 by {
        MembersNotEmpty(ms);
      }
      assert |s| > 2;
    }
  }

  lemma MembersNotEmpty(ms: seq<Member>)
    requires ms != []
    ensures |PrintMembers(ms)| > 0
  {
    hide PrintJson, Escape;
  }

  lemma {:induction false} DigitsAreOneLine(n: nat)
    ensures OneLine(Print(n)) && Ascii(Print(n))
  {
  }

  lemma ValueIsOneLine(v: JsonValue)
    ensures OneLine(PrintJson(v))
  {
    match v
    case Str(text) => EscapeIsOneLine(text);
    case Num(n) => DigitsAreOneLine(if n < 0 then -n else n);
    case Bool(flag) =>
  }

  lemma {:induction false} MembersAreOneLine(ms: seq<Member>)
    requires ms != []
    ensures OneLine(PrintMembers(ms))
  {
    hide PrintMember;
    MemberIsOneLine(ms[0]);
    if |ms| > 1 {
      MembersAreOneLine(ms[1..]);
    }
  }

  lemma MemberIsOneLine(m: Member)
    ensures OneLine(PrintMember(m))
  {
    EscapeIsOneLine(m.name);
    ValueIsOneLine(m.value);
    hide PrintJson, Escape;
  }

  lemma ObjectIsOneLine(ms: seq<Member>)
    ensures OneLine(PrintObject(ms))
  {
    if ms != [] {
      MembersAreOneLine(ms);
    }
  }

  // --- text that breaks off ---

  lemma ReadCharStays(s: string, t: string)
    requires ReadChar(s).Some?
    ensures ReadChar(s + t) == Some((ReadChar(s).value.0, ReadChar(s).value.1 + t))
  {
    hide FourHex, ShortEscape;
    assert (s + t)[1..] == s[1..] + t;
    if s[0] == '\\' {
      assert (s + t)[2..] == s[2..] + t;
      if s[1] == 'u' {
        assert (s + t)[2..6] == s[2..6] && (s + t)[6..] == s[6..] + t;
      }
    }
  }

  lemma {:induction false} ReadStringStays(s: string, t: string)
    requires ReadString(s).Some?
    ensures ReadString(s + t) == Some((ReadString(s).value.0, ReadString(s).value.1 + t))
    decreases |s|
  {
    assert s[0] != '"' ==> |ReadChar(s).value.1| < |s|;
    hide ReadChar;
    assert (s + t)[0] == s[0];
    if s[0] == '"' {
      assert (s + t)[1..] == s[1..] + t;
    } else {
      ReadCharStays(s, t);
      ReadStringStays(ReadChar(s).value.1, t);
    }
  }

  lemma ReadNatStays(s: string, t: string)
    requires ReadNat(s).Some? && ReadNat(s).value.1 != ""
    ensures ReadNat(s + t) == Some((ReadNat(s).value.0, ReadNat(s).value.1 + t))
  {
    var n := DigitRun(s);
    DigitRunAppend(s[..n], s[n..] + t);
    assert s[..n] + (s[n..] + t) == s + t;
    hide DigitRun, Value;
    assert (s + t)[..n] == s[..n] && (s + t)[n..] == s[n..] + t;
  }

  lemma ReadValueStays(s: string, t: string)
    requires ReadValue(s).Some? && ReadValue(s).value.1 != ""
    ensures ReadValue(s + t) == Some((ReadValue(s).value.0, ReadValue(s).value.1 + t))
  {
    assert s != "";
    hide ReadString, ReadNat;
    assert (s + t)[0] == s[0] && (s + t)[1..] == s[1..] + t;
    if s[0] == '"' {
      ReadStringStays(s[1..], t);
    } else if "true" <= s {
      assert (s + t)[..4] == s[..4] && (s + t)[4..] == s[4..] + t;
    } else if "false" <= s {
      assert (s + t)[..5] == s[..5] && (s + t)[5..] == s[5..] + t;
    } else {
      NumberStays(s, t);
    }
  }

  lemma NumberStays(s: string, t: string)
    requires ReadInt(s).Some? && ReadInt(s).value.1 != ""
    ensures ReadInt(s + t) == Some((ReadInt(s).value.0, ReadInt(s).value.1 + t))
    ensures s != "" && (s[0] == '-' || IsDigit(s[0]))
  {
    if s != "" && s[0] == '-' {
      assert (s + t)[1..] == s[1..] + t;
      hide ReadNat;
      ReadNatStays(s[1..], t);
    } else {
      ReadNatStays(s, t);
      assert DigitRun(s) > 0;
      hide DigitRun;
    }
  }

  lemma ReadMemberStays(s: string, t: string)
    requires ReadMember(s).Some? && ReadMember(s).value.1 != ""
    ensures ReadMember(s + t) == Some((ReadMember(s).value.0, ReadMember(s).value.1 + t))
  {
    hide ReadString, ReadValue;
    assert (s + t)[0] == s[0] && (s + t)[1..] == s[1..] + t;
    ReadStringStays(s[1..], t);
    var after := ReadString(s[1..]).value.1;
    assert (after + t)[0] == after[0] && (after + t)[1..] == after[1..] + t;
    ReadValueStays(after[1..], t);
  }

  lemma {:induction false} ReadMembersStays(s: string, t: string)
    requires ReadMembers(s).Some?
    ensures ReadMembers(s + t) == Some((ReadMembers(s).value.0, ReadMembers(s).value.1 + t))
    decreases |s|
  {
    hide ReadMember;
    ReadMemberStays(s, t);
    var after := ReadMember(s).value.1;
    assert (after + t)[0] == after[0] && (after + t)[1..] == after[1..] + t;
    if after[0] == ',' {
      ReadMembersStays(after[1..], t);
    }
  }

  /** No part of an object that lacks its end is read as an object. */
  lemma BrokenObject(ms: seq<Member>, k: nat)
    requires ms != [] && k < |PrintObject(ms)|
    ensures ReadObject(PrintObject(ms)[..k]) == None
  {
    hide PrintMembers, ReadMembers;
    var whole := PrintObject(ms);
    var part := whole[..k];
    MembersRoundTrip(ms, "");
    assert whole[1..] == PrintMembers(ms) + "}" + "";
    StartsWithName(ms);
    assert k > 1 ==> part[1] == '"';
    if k > 0 {
      assert part[1..] + whole[k..] == whole[1..];
      if ReadMembers(part[1..]).Some? {
        ReadMembersStays(part[1..], whole[k..]);
      }
    }
  }

  lemma StartsWithName(ms: seq<Member>)
    requires ms != []
    ensures |PrintMembers(ms)| > 0 && PrintMembers(ms)[0] == '"'
  {
    hide PrintJson, Escape;
  }
}
