/** IPv4 addresses and tap names as text, after ipToUint32, uint32ToIP and pickFreeTap of the registry. */
module Addresses {
  import opened Wrappers
  import opened Decimals

  const TWO32: int := 0x1_0000_0000

  /** The word with bytes a, b, c, d, most significant first. */
  function Compose(a: nat, b: nat, c: nat, d: nat): nat {
    a * 0x100_0000 + b * 0x1_0000 + c * 0x100 + d
  }

  /** Byte k of a 32-bit word, counted from the least significant. */
  function Byte(n: int, k: nat): (b: nat)
    requires k < 4
    ensures b < 256
  {
    (if k == 0 then n else if k == 1 then n / 0x100 else if k == 2 then n / 0x1_0000 else n / 0x100_0000) % 256
  }

  function Quad(a: nat, b: nat, c: nat, d: nat): string {
    Print(a) + "." + Print(b) + "." + Print(c) + "." + Print(d)
  }

  function PrintIP(n: int): string {
    Quad(Byte(n, 3), Byte(n, 2), Byte(n, 1), Byte(n, 0))
  }

  /** The fields between dots; a string without dots is a single field. */
  function Fields(s: string): (fs: seq<string>)
    ensures fs != []
  {
    if s == [] then [[]]
    else
      var rest := Fields(s[1..]);
      if s[0] == '.' then [[]] + rest else [[s[0]] + rest[0]] + rest[1..]
  }

  function Join(fs: seq<string>): string
    requires fs != []
  {
    if |fs| == 1 then fs[0] else fs[0] + "." + Join(fs[1..])
  }

  /** dec-octet of RFC 3986, section 3.2.2: 0 to 255 without superfluous leading zeros. */
  predicate DecOctet(s: string) {
    Canonical(s) && |s| <= 3 && Value(s) <= 255
  }

  predicate IsDottedQuad(s: string) {
    var fs := Fields(s);
    |fs| == 4 && forall i | 0 <= i < 4 :: DecOctet(fs[i])
  }

  function ParseIP(s: string): Option<nat> {
    if IsDottedQuad(s) then
      var fs := Fields(s);
      Some(Compose(Value(fs[0]), Value(fs[1]), Value(fs[2]), Value(fs[3])))
    else None
  }

  lemma {:induction false} FieldsOfDigits(d: string, rest: string)
    requires AllDigits(d)
    ensures Fields(d) == [d]
    ensures Fields(d + "." + rest) == [d] + Fields(rest)
  {
    if d == [] {
      assert d + "." + rest == ['.'] + rest;
      assert (['.'] + rest)[1..] == rest;
    } else {
      FieldsOfDigits(d[1..], rest);
      assert (d + "." + rest)[1..] == d[1..] + "." + rest;
      assert [d[0]] + d[1..] == d;
    }
  }

  lemma {:induction false} JoinFields(s: string)
    ensures Join(Fields(s)) == s
  {
    if s != [] {
      JoinFields(s[1..]);
      var rest := Fields(s[1..]);
      if s[0] == '.' {
        assert ([[]] + rest)[1..] == rest;
      } else {
        assert ([[s[0]] + rest[0]] + rest[1..])[1..] == rest[1..];
      }
      assert s == [s[0]] + s[1..];
    }
  }

  /** A word is composed of its four bytes. */
  lemma ComposeBytes(n: nat)
    requires n < TWO32
    ensures n == Compose(Byte(n, 3), Byte(n, 2), Byte(n, 1), Byte(n, 0))
  {
    assert n / 0x1_0000 == n / 0x100 / 0x100;
    assert n / 0x100_0000 == n / 0x1_0000 / 0x100;
  }

  lemma BytesCompose(a: nat, b: nat, c: nat, d: nat)
    requires a < 256 && b < 256 && c < 256 && d < 256
    ensures var n := Compose(a, b, c, d);
            n < TWO32 && Byte(n, 3) == a && Byte(n, 2) == b && Byte(n, 1) == c && Byte(n, 0) == d
  {
    var n := Compose(a, b, c, d);
    assert n / 0x100 == a * 0x1_0000 + b * 0x100 + c;
    assert n / 0x1_0000 == a * 0x100 + b;
    assert n / 0x100_0000 == a;
  }

  lemma QuadOfBytes(n: nat)
    ensures PrintIP(n) == Quad(Byte(n, 3), Byte(n, 2), Byte(n, 1), Byte(n, 0))
  {
    hide Byte, Print, Quad;
  }

  /** Network order: the most significant byte of the word is printed first. */
  lemma NetworkOrder(a: nat, b: nat, c: nat, d: nat)
    requires a < 256 && b < 256 && c < 256 && d < 256
    ensures PrintIP(16777216 * a + 65536 * b + 256 * c + d) == Print(a) + "." + Print(b) + "." + Print(c) + "." + Print(d)
  {
    hide Byte, Print, PrintIP;
    BytesCompose(a, b, c, d);
    QuadOfBytes(Compose(a, b, c, d));
  }

  lemma FieldsOfQuad(a: string, b: string, c: string, d: string)
    requires AllDigits(a) && AllDigits(b) && AllDigits(c) && AllDigits(d)
    ensures Fields(a + "." + b + "." + c + "." + d) == [a, b, c, d]
  {
    hide Fields, AllDigits;
    QuadParts(a, b, c, d);
    FieldsOfDigits(a, b + "." + (c + "." + d));
    FieldsOfDigits(b, c + "." + d);
    FieldsOfDigits(c, d);
    FieldsOfDigits(d, []);
  }

  lemma QuadParts(a: string, b: string, c: string, d: string)
    ensures a + "." + b + "." + c + "." + d == a + "." + (b + "." + (c + "." + d))
  {
    assert a + "." + b + "." + c == a + "." + (b + "." + c);
    assert b + "." + c + "." + d == b + "." + (c + "." + d);
  }

  lemma OctetPrinted(b: nat)
    requires b < 256
    ensures DecOctet(Print(b)) && Value(Print(b)) == b
  {
    ShortNumeral(b);
  }

  /** Parsing the dotted quad printed for n returns n, for every 32-bit n. */
  lemma ParsePrint(n: nat)
    requires n < TWO32
    ensures ParseIP(PrintIP(n)) == Some(n)
  {
    var a, b, c, d := Byte(n, 3), Byte(n, 2), Byte(n, 1), Byte(n, 0);
    FieldsOfQuad(Print(a), Print(b), Print(c), Print(d));
    OctetPrinted(a); OctetPrinted(b); OctetPrinted(c); OctetPrinted(d);
    ComposeBytes(n);
  }

  /** Distinct 32-bit words print as distinct dotted quads. */
  lemma PrintIPInjective(m: nat, n: nat)
    requires m < TWO32 && n < TWO32
    ensures PrintIP(m) == PrintIP(n) ==> m == n
  {
    ParsePrint(m);
    ParsePrint(n);
  }

  /** Every accepted spelling is the one that is printed back: parse and print are mutually inverse. */
  lemma PrintParse(s: string)
    ensures ParseIP(s).Some? ==> ParseIP(s).value < TWO32 && PrintIP(ParseIP(s).value) == s
  {
    if IsDottedQuad(s) {
      var fs := Fields(s);
      BytesCompose(Value(fs[0]), Value(fs[1]), Value(fs[2]), Value(fs[3]));
      PrintValue(fs[0]); PrintValue(fs[1]); PrintValue(fs[2]); PrintValue(fs[3]);
      JoinFields(s);
      JoinQuad(fs);
    }
  }

  lemma JoinQuad(fs: seq<string>)
    requires |fs| == 4
    ensures Join(fs) == fs[0] + "." + fs[1] + "." + fs[2] + "." + fs[3]
  {
    assert fs[1..][1..] == fs[2..] && fs[2..][1..] == fs[3..];
    assert Join(fs[2..]) == fs[2] + "." + fs[3];
    assert Join(fs[1..]) == fs[1] + "." + (fs[2] + "." + fs[3]);
  }

  /** tap names are the pool prefix followed by the slot number. */
  function TapName(prefix: string, slot: nat): string {
    prefix + Print(slot)
  }

  lemma TapNameInjective(prefix: string, i: nat, j: nat)
    ensures TapName(prefix, i) == TapName(prefix, j) ==> i == j
  {
    assert TapName(prefix, i)[|prefix|..] == Print(i);
    assert TapName(prefix, j)[|prefix|..] == Print(j);
  }
}
