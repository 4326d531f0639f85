/** One event of a streaming exec as a line of JSON (internal/agentapi/agentapi.go). */
module ExecEvents {
  import opened Wrappers
  import opened Decimals
  import opened Json

  const STDOUT := "stdout"
  const STDERR := "stderr"
  const EXIT := "exit"

  datatype ExecEvent = ExecEvent(typ: string, data: string, exitCode: int, timedOut: bool, durationMs: int)

  /** An absent field has its zero value. */
  const ZERO := ExecEvent("", "", 0, false, 0)

  function Output(typ: string, data: string): ExecEvent {
    ExecEvent(typ, data, 0, false, 0)
  }

  // --- codec ---

  /** All fields but the type are left out when they are zero. */
  function Members(ev: ExecEvent): seq<Member> {
    [Member("type", Str(ev.typ))]
    + (if ev.data != "" then [Member("data", Str(ev.data))] else [])
    + (if ev.exitCode != 0 then [Member("exit_code", Num(ev.exitCode))] else [])
    + (if ev.timedOut then [Member("timed_out", Bool(true))] else [])
    + (if ev.durationMs != 0 then [Member("duration_ms", Num(ev.durationMs))] else [])
  }

  /** One field; names that are not known are passed over, a value of another kind is an error. */
  function Absorb(ev: ExecEvent, m: Member): Option<ExecEvent> {
    if m.name == "type" then if m.value.Str? then Some(ev.(typ := m.value.text)) else None
    else if m.name == "data" then if m.value.Str? then Some(ev.(data := m.value.text)) else None
    else if m.name == "exit_code" then if m.value.Num? then Some(ev.(exitCode := m.value.number)) else None
    else if m.name == "timed_out" then if m.value.Bool? then Some(ev.(timedOut := m.value.flag)) else None
    else if m.name == "duration_ms" then if m.value.Num? then Some(ev.(durationMs := m.value.number)) else None
    else Some(ev)
  }

  function Collect(ev: ExecEvent, ms: seq<Member>): Option<ExecEvent>
    decreases |ms|
  {
    if ms == [] then Some(ev) else
    var next := Absorb(ev, ms[0]);
    if next.None? then None else Collect(next.value, ms[1..])
  }

  function Encode(ev: ExecEvent): string {
    PrintObject(Members(ev))
  }

  function Decode(line: string): Option<ExecEvent> {
    var ms := ReadObject(line);
    if ms.None? then None else Collect(ZERO, ms.value)
  }

  lemma {:induction false} CollectAppend(ev: ExecEvent, a: seq<Member>, b: seq<Member>)
    ensures Collect(ev, a + b) == match Collect(ev, a) case None => None case Some(e) => Collect(e, b)
    decreases |a|
  {
    if a == [] {
      assert a + b == b;
    } else {
      var next := Absorb(ev, a[0]);
      assert (a + b)[1..] == a[1..] + b;
      if next.Some? {
        CollectAppend(next.value, a[1..], b);
      }
    }
  }

  lemma CollectOne(ev: ExecEvent, m: Member)
    ensures Collect(ev, [m]) == Absorb(ev, m)
  {
  }

  /** Every event survives its line, zero values included. */
  lemma EventRoundTrip(ev: ExecEvent)
    ensures Decode(Encode(ev)) == Some(ev)
  {
    ObjectRoundTrip(Members(ev));
    CollectMembers(ev);
    hide PrintObject, ReadObject;
  }

  lemma CollectMembers(ev: ExecEvent)
    ensures Collect(ZERO, Members(ev)) == Some(ev)
  {
    var a := [Member("type", Str(ev.typ))];
    var b := if ev.data != "" then [Member("data", Str(ev.data))] else [];
    var c := if ev.exitCode != 0 then [Member("exit_code", Num(ev.exitCode))] else [];
    var d := if ev.timedOut then [Member("timed_out", Bool(true))] else [];
    var e := if ev.durationMs != 0 then [Member("duration_ms", Num(ev.durationMs))] else [];
    CollectAppend(ZERO, a + b + c + d, e);
    CollectAppend(ZERO, a + b + c, d);
    CollectAppend(ZERO, a + b, c);
    CollectAppend(ZERO, a, b);
    CollectOne(ZERO, a[0]);
  }

  // --- lines ---

  predicate IsSpace(c: char) {
    c == ' ' || c == '\t' || c == '\n' || c == '\r' || c as int == 11 || c as int == 12
  }

  function TrimLeft(s: string): string {
    if s != "" && IsSpace(s[0]) then TrimLeft(s[1..]) else s
  }

  function TrimRight(s: string): string {
    if s != "" && IsSpace(s[|s| - 1]) then TrimRight(s[..|s| - 1]) else s
  }

  function Trim(s: string): string {
    TrimRight(TrimLeft(s))
  }

  /** An encoded event is a line of its own: no line end within, nothing to trim. */
  lemma EncodedIsLine(ev: ExecEvent)
    ensures OneLine(Encode(ev)) && Trim(Encode(ev)) == Encode(ev) && Encode(ev) != ""
  {
    ObjectIsOneLine(Members(ev));
    assert Encode(ev)[0] == '{' && Encode(ev)[|Encode(ev)| - 1] == '}';
  }

  // --- sizes ---

  /** One read of a pipe. */
  const READ_SIZE: nat := 32 * 1024

  /** A line that the Go client's scanner can hold. */
  const MAX_LINE: nat := 0x10_0000

  const MAX_INT64: int := 0x7fff_ffff_ffff_ffff

  lemma ThreeMoreDigits(n: nat, k: nat)
    requires |Print(n / 1000)| <= k
    ensures |Print(n)| <= k + 3
  {
    if n >= 1000 {
      assert |Print(n)| == |Print(n / 10)| + 1;
      assert |Print(n / 10)| == |Print(n / 10 / 10)| + 1;
      assert |Print(n / 10 / 10)| == |Print(n / 10 / 10 / 10)| + 1;
      assert n / 10 / 10 / 10 == n / 1000;
    } else {
      ShortNumeral(n);
    }
  }

  lemma Int64Digits(n: int)
    requires -MAX_INT64 - 1 <= n <= MAX_INT64
    ensures Bytes(PrintInt(n)) <= 22
  {
    var m: nat := if n < 0 then -n else n;
    ShortNumeral(m / 1000 / 1000 / 1000 / 1000 / 1000 / 1000);
    ThreeMoreDigits(m / 1000 / 1000 / 1000 / 1000 / 1000, 3);
    ThreeMoreDigits(m / 1000 / 1000 / 1000 / 1000, 6);
    ThreeMoreDigits(m / 1000 / 1000 / 1000, 9);
    ThreeMoreDigits(m / 1000 / 1000, 12);
    ThreeMoreDigits(m / 1000, 15);
    ThreeMoreDigits(m, 18);
    AsciiBytes(PrintInt(n));
  }

  predicate PlainName(name: string) {
    |name| <= 11 && forall i | 0 <= i < |name| :: 'a' <= name[i] <= 'z' || name[i] == '_'
  }

  lemma {:induction false} PlainEscape(name: string)
    requires forall i | 0 <= i < |name| :: 'a' <= name[i] <= 'z' || name[i] == '_'
    ensures Escape(name) == name && Bytes(name) == |name|
  {
    AsciiBytes(name);
    if name != "" {
      PlainEscape(name[1..]);
      assert name == [name[0]] + name[1..];
    }
  }

  lemma MemberBytes(name: string, v: JsonValue)
    requires PlainName(name)
    ensures Bytes(PrintMember(Member(name, v))) == |name| + 3 + Bytes(PrintJson(v))
  {
    PlainEscape(name);
    BytesAppend("\"" + name + "\":", PrintJson(v));
    BytesAppend("\"" + name, "\":");
    BytesAppend("\"", name);
    AsciiBytes("\"");
    AsciiBytes("\":");
    hide PrintJson, Bytes;
  }

  lemma TextBytes(text: string)
    ensures Bytes(PrintJson(Str(text))) <= 2 + 6 * Bytes(text)
  {
    EscapeBytes(text);
    BytesAppend("\"" + Escape(text), "\"");
    BytesAppend("\"", Escape(text));
    AsciiBytes("\"");
    hide Bytes, Escape;
  }

  /** The bytes of an object with two or more members. */
  function ListBytes(ms: seq<Member>): nat {
    if ms == [] then 0 else Bytes(PrintMember(ms[0])) + 1 + ListBytes(ms[1..])
  }

  lemma {:induction false} MembersBytes(ms: seq<Member>)
    requires ms != []
    ensures Bytes(PrintMembers(ms)) + 1 == ListBytes(ms)
  {
    hide PrintMember;
    if |ms| == 1 {
      assert ListBytes(ms[1..]) == 0;
    } else {
      MembersBytes(ms[1..]);
      BytesAppend(PrintMember(ms[0]) + ",", PrintMembers(ms[1..]));
      BytesAppend(PrintMember(ms[0]), ",");
      AsciiBytes(",");
    }
  }

  lemma ObjectBytes(ms: seq<Member>)
    requires ms != []
    ensures Bytes(PrintObject(ms)) == 1 + ListBytes(ms)
  {
    MembersBytes(ms);
    BytesAppend("{" + PrintMembers(ms), "}");
    BytesAppend("{", PrintMembers(ms));
    AsciiBytes("{");
    AsciiBytes("}");
    hide Bytes, ListBytes;
  }

  lemma {:induction false} ListBytesAppend(a: seq<Member>, b: seq<Member>)
    ensures ListBytes(a + b) == ListBytes(a) + ListBytes(b)
  {
    hide PrintMember;
    if a == [] {
      assert a + b == b;
    } else {
      assert (a + b)[1..] == a[1..] + b;
      ListBytesAppend(a[1..], b);
    }
  }

  lemma OneMemberBytes(name: string, v: JsonValue, bound: nat)
    requires PlainName(name) && Bytes(PrintJson(v)) <= bound
    ensures ListBytes([Member(name, v)]) <= bound + 15
  {
    MemberBytes(name, v);
    hide PrintMember, PrintJson, Bytes;
    assert [Member(name, v)][1..] == [];
  }

  /** Every line built from one read, or from an exit, stays below the limit of the client's scanner. */
  lemma LineFits(ev: ExecEvent)
    requires ev.typ in {STDOUT, STDERR, EXIT} && Bytes(ev.data) <= READ_SIZE
    requires -MAX_INT64 - 1 <= ev.exitCode <= MAX_INT64 && -MAX_INT64 - 1 <= ev.durationMs <= MAX_INT64
    ensures Bytes(Encode(ev)) < MAX_LINE
  {
    var a := [Member("type", Str(ev.typ))];
    var b := if ev.data != "" then [Member("data", Str(ev.data))] else [];
    var c := if ev.exitCode != 0 then [Member("exit_code", Num(ev.exitCode))] else [];
    var d := if ev.timedOut then [Member("timed_out", Bool(true))] else [];
    var e := if ev.durationMs != 0 then [Member("duration_ms", Num(ev.durationMs))] else [];
    hide Bytes, Ascii, ListBytes, PrintMember, PrintJson, Escape, PrintObject;
    TypeBytes(ev);
    DataBytes(ev.data);
    NumberBytes("exit_code", ev.exitCode);
    NumberBytes("duration_ms", ev.durationMs);
    ListOfFive(a, b, c, d, e);
    ObjectBytes(Members(ev));
  }

  lemma ShortText(text: string)
    requires text in {STDOUT, STDERR, EXIT}
    ensures Bytes(text) <= 6
  {
    AsciiBytes(text);
  }

  lemma TypeBytes(ev: ExecEvent)
    requires ev.typ in {STDOUT, STDERR, EXIT}
    ensures ListBytes([Member("type", Str(ev.typ))]) <= 53 && ListBytes([Member("timed_out", Bool(true))]) <= 19
  {
    hide Bytes, ListBytes, Escape, Ascii;
    ShortText(ev.typ);
    AsciiTrue();
    TextBytes(ev.typ);
    hide PrintJson;
    OneMemberBytes("type", Str(ev.typ), 38);
    OneMemberBytes("timed_out", Bool(true), 4);
  }

  lemma AsciiTrue()
    ensures Bytes(PrintJson(Bool(true))) == 4
  {
    AsciiBytes("true");
  }

  lemma DataBytes(data: string)
    requires Bytes(data) <= READ_SIZE
    ensures ListBytes([Member("data", Str(data))]) <= 17 + 6 * READ_SIZE
  {
    TextBytes(data);
    hide Bytes, ListBytes, PrintJson;
    OneMemberBytes("data", Str(data), 2 + 6 * READ_SIZE);
  }

  lemma NumberBytes(name: string, n: int)
    requires PlainName(name) && -MAX_INT64 - 1 <= n <= MAX_INT64
    ensures ListBytes([Member(name, Num(n))]) <= 37
  {
    hide Bytes, ListBytes, PrintInt, PrintJson, PlainName;
    Int64Digits(n);
    NumberJson(n);
    OneMemberBytes(name, Num(n), 22);
  }

  lemma NumberJson(n: int)
    ensures PrintJson(Num(n)) == PrintInt(n)
  {
  }

  lemma ListOfFive(a: seq<Member>, b: seq<Member>, c: seq<Member>, d: seq<Member>, e: seq<Member>)
    ensures ListBytes(a + b + c + d + e) == ListBytes(a) + ListBytes(b) + ListBytes(c) + ListBytes(d) + ListBytes(e)
    ensures ListBytes([]) == 0
  {
    hide PrintMember, Bytes;
    ListBytesAppend(a + b + c + d, e);
    ListBytesAppend(a + b + c, d);
    ListBytesAppend(a + b, c);
    ListBytesAppend(a, b);
  }

  // --- the lines as they are written ---

  /** The members of an object after its first. */
  function More(ms: seq<Member>): string {
    if ms == [] then "" else "," + PrintMember(ms[0]) + More(ms[1..])
  }

  lemma {:induction false} FirstAndMore(m: Member, ms: seq<Member>)
    ensures PrintMembers([m] + ms) == PrintMember(m) + More(ms)
    decreases |ms|
  {
    hide PrintMember;
    if ms != [] {
      FirstAndMore(ms[0], ms[1..]);
      assert [ms[0]] + ms[1..] == ms;
      assert ([m] + ms)[1..] == ms;
    }
  }

  lemma {:induction false} MoreAppend(a: seq<Member>, b: seq<Member>)
    ensures More(a + b) == More(a) + More(b)
  {
    hide PrintMember;
    if a == [] {
      assert a + b == b;
    } else {
      assert (a + b)[1..] == a[1..] + b;
      MoreAppend(a[1..], b);
    }
  }

  /** A name that needs no escape, and its value. */
  function Field(name: string, text: string): string {
    "\"" + name + "\":" + text
  }

  function Quoted(text: string): string {
    "\"" + text + "\""
  }

  lemma MemberIsField(name: string, v: JsonValue)
    requires forall i | 0 <= i < |name| :: 'a' <= name[i] <= 'z' || name[i] == '_'
    ensures PrintMember(Member(name, v)) == Field(name, PrintJson(v))
  {
    PlainEscape(name);
    hide PrintJson, Escape;
  }

  /** A member that is left out when its value is zero. */
  lemma OneMore(name: string, v: JsonValue, there: bool)
    requires forall i | 0 <= i < |name| :: 'a' <= name[i] <= 'z' || name[i] == '_'
    ensures More(if there then [Member(name, v)] else []) == if there then "," + Field(name, PrintJson(v)) else ""
  {
    MemberIsField(name, v);
    hide PrintJson, PrintMember, Field;
    assert [Member(name, v)][1..] == [];
  }

  lemma MoreOfFour(b: seq<Member>, c: seq<Member>, d: seq<Member>, e: seq<Member>)
    ensures More(b + c + d + e) == More(b) + More(c) + More(d) + More(e)
  {
    hide More;
    MoreAppend(b + c + d, e);
    MoreAppend(b + c, d);
    MoreAppend(b, c);
  }

  lemma FiveParts(a: seq<Member>, b: seq<Member>, c: seq<Member>, d: seq<Member>, e: seq<Member>)
    ensures a + b + c + d + e == a + (b + c + d + e)
  {
  }

  /** The fields after the type: each that is not zero, in the order of the declaration. */
  function NonZero(ev: ExecEvent): string {
    (if ev.data != "" then "," + Field("data", Quoted(Escape(ev.data))) else "")
    + (if ev.exitCode != 0 then "," + Field("exit_code", PrintInt(ev.exitCode)) else "")
    + (if ev.timedOut then "," + Field("timed_out", "true") else "")
    + (if ev.durationMs != 0 then "," + Field("duration_ms", PrintInt(ev.durationMs)) else "")
  }

  lemma NonZeroMore(ev: ExecEvent)
    ensures PrintMembers(Members(ev)) == PrintMember(Member("type", Str(ev.typ))) + NonZero(ev)
  {
    var b := if ev.data != "" then [Member("data", Str(ev.data))] else [];
    var c := if ev.exitCode != 0 then [Member("exit_code", Num(ev.exitCode))] else [];
    var d := if ev.timedOut then [Member("timed_out", Bool(true))] else [];
    var e := if ev.durationMs != 0 then [Member("duration_ms", Num(ev.durationMs))] else [];
    hide More, PrintMember, PrintMembers, PrintInt, Escape, Field;
    var a := Member("type", Str(ev.typ));
    assert Members(ev) == [a] + (b + c + d + e) by {
      hide NonZero;
      FiveParts([a], b, c, d, e);
    }
    hide Members;
    FirstAndMore(a, b + c + d + e);
    MoreOfFour(b, c, d, e);
    OneMore("data", Str(ev.data), ev.data != "");
    OneMore("exit_code", Num(ev.exitCode), ev.exitCode != 0);
    OneMore("timed_out", Bool(true), ev.timedOut);
    OneMore("duration_ms", Num(ev.durationMs), ev.durationMs != 0);
    assert PrintMembers(Members(ev)) == PrintMember(a) + (More(b) + More(c) + More(d) + More(e));
  }

  /** The line of an event. */
  lemma LineOf(ev: ExecEvent)
    requires ev.typ in {STDOUT, STDERR, EXIT}
    ensures Encode(ev) == "{" + (Field("type", Quoted(ev.typ)) + NonZero(ev)) + "}"
  {
    assert Members(ev) != [];
    hide NonZero, PrintMembers, PrintMember, Field, Quoted, Members, Escape;
    NonZeroMore(ev);
    MemberIsField("type", Str(ev.typ));
    TypeText(ev);
  }

  lemma TypeText(ev: ExecEvent)
    requires ev.typ in {STDOUT, STDERR, EXIT}
    ensures PrintJson(Str(ev.typ)) == Quoted(ev.typ)
  {
    PlainEscape(ev.typ);
    hide Escape;
  }
}
