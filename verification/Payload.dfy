/**
 The hand-written JSON printer of the Keycloak extension (`WebhookPayload`),
 and a decoder by RFC 8259 that undoes it. Text is UTF-16 code units.
*/
module Payload {
  import opened Wrappers

  newtype Unit = x: int | 0 <= x < 0x10000

  type Utf16 = seq<Unit>

  const QUOTE: Unit := 0x22
  const BACKSLASH: Unit := 0x5c
  const COLON: Unit := 0x3a
  const COMMA: Unit := 0x2c
  const OPEN: Unit := 0x7b
  const CLOSE: Unit := 0x7d
  const REPLACEMENT: Unit := 0xfffd
  const NULL: Utf16 := [0x6e, 0x75, 0x6c, 0x6c]
  const REPLACED: Utf16 := [0x5c, 0x75, 0x66, 0x66, 0x66, 0x64]

  predicate High(c: Unit) {
    0xd800 <= c <= 0xdbff
  }

  predicate Low(c: Unit) {
    0xdc00 <= c <= 0xdfff
  }

  // ----- what is meant -----

  /** A surrogate that is not half of a pair. */
  predicate Lone(v: Utf16, i: nat)
    requires i < |v|
  {
    || (High(v[i]) && !(i + 1 < |v| && Low(v[i + 1])))
    || (Low(v[i]) && !(i > 0 && High(v[i - 1])))
  }

  /** The text with every unpaired surrogate replaced. */
  function Repaired(v: Utf16): (r: Utf16)
    ensures |r| == |v|
  {
    seq(|v|, i requires 0 <= i < |v| => if Lone(v, i) then REPLACEMENT else v[i])
  }

  /** Fit to be sent: no raw control character, no unpaired surrogate. */
  ghost predicate Sendable(v: Utf16) {
    forall i :: 0 <= i < |v| ==> v[i] >= 0x20 && !Lone(v, i)
  }

  // ----- what is printed -----

  function Digit(n: nat): Unit
    requires n < 16
  {
    if n < 10 then (0x30 + n) as Unit else (0x57 + n) as Unit
  }

  function ToHexString(n: nat): (r: Utf16)
    ensures |r| >= 1
  {
    if n < 16 then [Digit(n)] else ToHexString(n / 16) + [Digit(n % 16)]
  }

  function Zeros(n: nat): Utf16 {
    seq(n, _ => 0x30)
  }

  function UnicodeEscape(c: Unit): Utf16
    requires c < 0x20
  {
    var hexadecimal := ToHexString(c as int);
    [BACKSLASH, 0x75] + Zeros(if |hexadecimal| <= 4 then 4 - |hexadecimal| else 0) + hexadecimal
  }

  /** The letter of a two-character escape. */
  function ShortEscape(c: Unit): Option<Unit> {
    if c == QUOTE then Some(QUOTE)
    else if c == BACKSLASH then Some(BACKSLASH)
    else if c == 0x08 then Some(0x62)
    else if c == 0x0c then Some(0x66)
    else if c == 0x0a then Some(0x6e)
    else if c == 0x0d then Some(0x72)
    else if c == 0x09 then Some(0x74)
    else None
  }

  predicate Pair(v: Utf16) {
    |v| >= 2 && High(v[0]) && Low(v[1])
  }

  /** What the first character of a text, a pair counting as one, is printed as. */
  function Chunk(v: Utf16): Utf16
    requires v != []
  {
    if ShortEscape(v[0]).Some? then [BACKSLASH, ShortEscape(v[0]).value]
    else if v[0] < 0x20 then UnicodeEscape(v[0])
    else if Pair(v) then v[..2]
    else if High(v[0]) || Low(v[0]) then REPLACED
    else [v[0]]
  }

  function Used(v: Utf16): nat {
    if Pair(v) then 2 else 1
  }

  function Body(v: Utf16): Utf16 {
    if v == [] then [] else Chunk(v) + Body(v[Used(v)..])
  }

  function Print(v: Utf16): Utf16 {
    [QUOTE] + Body(v) + [QUOTE]
  }

  // ----- the decoder of section 7 of RFC 8259 -----

  function HexValue(c: Unit): Option<nat> {
    if 0x30 <= c <= 0x39 then Some((c - 0x30) as nat)
    else if 0x61 <= c <= 0x66 then Some((c - 0x57) as nat)
    else if 0x41 <= c <= 0x46 then Some((c - 0x37) as nat)
    else None
  }

  function FourHex(s: Utf16): Option<Unit>
    requires |s| == 4
  {
    var a, b, c, d := HexValue(s[0]), HexValue(s[1]), HexValue(s[2]), HexValue(s[3]);
    if a.None? || b.None? || c.None? || d.None? || a.value > 15 || b.value > 15 || c.value > 15
      || d.value > 15 then None
    else Some((a.value * 4096 + b.value * 256 + c.value * 16 + d.value) as Unit)
  }

  function Unescape(c: Unit): Option<Unit> {
    if c == QUOTE || c == BACKSLASH || c == 0x2f then Some(c)
    else if c == 0x62 then Some(0x08)
    else if c == 0x66 then Some(0x0c)
    else if c == 0x6e then Some(0x0a)
    else if c == 0x72 then Some(0x0d)
    else if c == 0x74 then Some(0x09)
    else None
  }

  /** The first character of a string's inside, and how much text it takes; None if it is malformed. */
  function Character(s: Utf16): (r: Option<(Utf16, nat)>)
    requires s != []
    ensures r.Some? ==> 1 <= r.value.1 <= |s|
  {
    if s[0] == BACKSLASH then
      if |s| >= 6 && s[1] == 0x75 then
        var c := FourHex(s[2..6]);
        if c.Some? then Some(([c.value], 6)) else None
      else if |s| >= 2 && Unescape(s[1]).Some? then Some(([Unescape(s[1]).value], 2))
      else None
    else if s[0] < 0x20 then None
    else if Pair(s) then Some((s[..2], 2))
    else if High(s[0]) || Low(s[0]) then None
    else Some(([s[0]], 1))
  }

  /** The rest of a string up to its closing quotation mark, and the text after it. */
  function Inside(s: Utf16): Option<(Utf16, Utf16)> {
    if s == [] then None
    else if s[0] == QUOTE then Some(([], s[1..]))
    else
      match Character(s)
      case None => None
      case Some(c) =>
        match Inside(s[c.1..])
        case None => None
        case Some(tail) => Some((c.0 + tail.0, tail.1))
  }

  function DecodeString(s: Utf16): Option<(Utf16, Utf16)> {
    if s == [] || s[0] != QUOTE then None else Inside(s[1..])
  }

  // ----- the printer is undone -----

  /** Every chunk reads back as one character. */
  lemma ChunkReads(v: Utf16, tail: Utf16)
    requires v != []
    ensures var s := Chunk(v) + tail;
      && s[0] != QUOTE
      && Character(s) == Some((if Lone(v, 0) then [REPLACEMENT] else v[..Used(v)], |Chunk(v)|))
      && s[|Chunk(v)|..] == tail
  {
    var chunk, s := Chunk(v), Chunk(v) + tail;
    assert s[|chunk|..] == tail;
    if ShortEscape(v[0]).Some? {
      assert v[..1] == [v[0]];
    } else if v[0] < 0x20 {
      EscapeReads(v[0]);
      assert s[2..6] == chunk[2..6];
      assert v[..1] == [v[0]];
    } else if Pair(v) {
      assert s[..2] == v[..2];
    } else if High(v[0]) || Low(v[0]) {
      assert s[2..6] == REPLACED[2..6] == [0x66, 0x66, 0x66, 0x64];
    } else {
      assert v[..1] == [v[0]];
    }
  }

  lemma EscapeReads(c: Unit)
    requires c < 0x20
    ensures |UnicodeEscape(c)| == 6 && FourHex(UnicodeEscape(c)[2..6]) == Some(c)
    ensures UnicodeEscape(c)[0] == BACKSLASH && UnicodeEscape(c)[1] == 0x75
    ensures forall i :: 0 <= i < 6 ==> 0x20 <= UnicodeEscape(c)[i] < 0x80
  {
    var n := c as int;
    if n < 16 {
      assert UnicodeEscape(c) == [BACKSLASH, 0x75, 0x30, 0x30, 0x30, Digit(n)];
    } else {
      assert n / 16 == 1 && ToHexString(n / 16) == [Digit(1)];
      assert UnicodeEscape(c) == [BACKSLASH, 0x75, 0x30, 0x30, Digit(1), Digit(n % 16)];
    }
  }

  /** Repairing goes character by character. */
  lemma RepairedSplit(v: Utf16)
    requires v != []
    ensures Repaired(v) == (if Lone(v, 0) then [REPLACEMENT] else v[..Used(v)]) + Repaired(v[Used(v)..])
  {
  }

  lemma {:induction false} InsideReads(v: Utf16, tail: Utf16)
    ensures Inside(Body(v) + [QUOTE] + tail) == Some((Repaired(v), tail))
    decreases |v|
  {
    if v == [] {
      assert Body(v) + [QUOTE] + tail == [QUOTE] + tail;
      assert ([QUOTE] + tail)[1..] == tail;
    } else {
      var rest := v[Used(v)..];
      InsideReads(rest, tail);
      assert Body(v) + [QUOTE] + tail == Chunk(v) + (Body(rest) + [QUOTE] + tail);
      ChunkReads(v, Body(rest) + [QUOTE] + tail);
      RepairedSplit(v);
    }
  }

  /** Decoding what was printed gives the text with each unpaired surrogate replaced, and nothing else is consumed. */
  lemma DecodePrint(v: Utf16, tail: Utf16)
    ensures DecodeString(Print(v) + tail) == Some((Repaired(v), tail))
  {
    InsideReads(v, tail);
    assert (Print(v) + tail)[1..] == Body(v) + [QUOTE] + tail;
  }

  lemma SendableTogether(a: Utf16, b: Utf16)
    requires Sendable(a) && Sendable(b)
    ensures Sendable(a + b)
  {
  }

  lemma {:induction false} BodySendable(v: Utf16)
    ensures Sendable(Body(v))
    decreases |v|
  {
    if v != [] {
      BodySendable(v[Used(v)..]);
      if ShortEscape(v[0]).None? && v[0] < 0x20 {
        EscapeReads(v[0]);
      }
      SendableTogether(Chunk(v), Body(v[Used(v)..]));
    }
  }

  /** What is printed has no raw control character and no unpaired surrogate, so its UTF-8 form is exact. */
  lemma PrintSendable(v: Utf16)
    ensures Sendable(Print(v))
  {
    BodySendable(v);
    SendableTogether([QUOTE], Body(v));
    SendableTogether([QUOTE] + Body(v), [QUOTE]);
  }

  /** Text without unpaired surrogates survives unchanged, and repairing is idempotent. */
  lemma RepairedStable(v: Utf16)
    ensures (forall i :: 0 <= i < |v| ==> !Lone(v, i)) <==> Repaired(v) == v
    ensures Repaired(Repaired(v)) == Repaired(v)
  {
  }

  // ----- the whole object -----

  /** The five members that may be absent are options; the time comes as its text. */
  datatype Webhook = Webhook(
    eventId: Option<Utf16>, occurredAt: Utf16, realmName: Option<Utf16>, resourceType: Option<Utf16>,
    operationType: Option<Utf16>, groupKey: Option<Utf16>, userKey: Option<Utf16>)

  /** Plain ASCII text as code units. */
  function Ascii(s: string): Utf16
    requires forall i :: 0 <= i < |s| ==> s[i] as int < 128
  {
    seq(|s|, i requires 0 <= i < |s| => s[i] as int as Unit)
  }

  const SPEC_VERSION := "1.0"

  datatype Field = Field(name: Utf16, value: Option<Utf16>)

  /** The eight members in the order they are sent. */
  function Fields(p: Webhook): seq<Field> {
    [
      Field(Ascii("specVersion"), Some(Ascii(SPEC_VERSION))), Field(Ascii("eventId"), p.eventId),
      Field(Ascii("occurredAt"), Some(p.occurredAt)), Field(Ascii("realmName"), p.realmName),
      Field(Ascii("resourceType"), p.resourceType), Field(Ascii("operationType"), p.operationType),
      Field(Ascii("groupKey"), p.groupKey), Field(Ascii("userKey"), p.userKey)
    ]
  }

  function PrintField(f: Field): Utf16 {
    Print(f.name) + [COLON] + if f.value.None? then NULL else Print(f.value.value)
  }

  function PrintFields(fields: seq<Field>): Utf16 {
    if fields == [] then []
    else if |fields| == 1 then PrintField(fields[0])
    else PrintField(fields[0]) + [COMMA] + PrintFields(fields[1..])
  }

  function PrintObject(fields: seq<Field>): Utf16 {
    [OPEN] + PrintFields(fields) + [CLOSE]
  }

  // ----- the decoder of sections 2 to 4 of RFC 8259, for objects of strings and nulls -----

  predicate Blank(c: Unit) {
    c == 0x20 || c == 0x09 || c == 0x0a || c == 0x0d
  }

  function SkipBlank(s: Utf16): (r: Utf16)
    ensures |r| <= |s|
  {
    if s != [] && Blank(s[0]) then SkipBlank(s[1..]) else s
  }

  /** One structural character with any white space around it. */
  function Structural(s: Utf16, c: Unit): (r: Option<Utf16>)
    ensures r.Some? ==> |r.value| < |s|
  {
    var t := SkipBlank(s);
    if t != [] && t[0] == c then Some(SkipBlank(t[1..])) else None
  }

  function DecodeValue(s: Utf16): Option<(Option<Utf16>, Utf16)> {
    if NULL <= s then Some((None, s[4..]))
    else
      match DecodeString(s)
      case None => None
      case Some(r) => Some((Some(r.0), r.1))
  }

  function DecodeMember(s: Utf16): Option<(Field, Utf16)> {
    match DecodeString(s)
    case None => None
    case Some(name) =>
      match Structural(name.1, COLON)
      case None => None
      case Some(t) =>
        match DecodeValue(t)
        case None => None
        case Some(value) => Some((Field(name.0, value.0), value.1))
  }

  lemma {:induction false} InsideShorter(s: Utf16)
    ensures Inside(s).Some? ==> |Inside(s).value.1| < |s|
    decreases |s|
  {
    if s != [] && s[0] != QUOTE && Character(s).Some? {
      InsideShorter(s[Character(s).value.1..]);
    }
  }

  lemma MemberShorter(s: Utf16)
    ensures DecodeMember(s).Some? ==> |DecodeMember(s).value.1| < |s|
  {
    if DecodeMember(s).Some? {
      InsideShorter(s[1..]);
      var t := Structural(DecodeString(s).value.1, COLON).value;
      if !(NULL <= t) {
        InsideShorter(t[1..]);
      }
    }
  }

  function DecodeMembers(s: Utf16): Option<(seq<Field>, Utf16)>
    decreases |s|
  {
    MemberShorter(s);
    match DecodeMember(s)
    case None => None
    case Some(m) =>
      if Structural(m.1, CLOSE).Some? then Some(([m.0], Structural(m.1, CLOSE).value))
      else
        match Structural(m.1, COMMA)
        case None => None
        case Some(t) =>
          match DecodeMembers(t)
          case None => None
          case Some(rest) => Some(([m.0] + rest.0, rest.1))
  }

  /** A whole JSON text holding one object. */
  function DecodeObject(s: Utf16): Option<seq<Field>> {
    match Structural(s, OPEN)
    case None => None
    case Some(t) =>
      if Structural(t, CLOSE).Some? then if Structural(t, CLOSE).value == [] then Some([]) else None
      else
        match DecodeMembers(t)
        case None => None
        case Some(m) => if m.1 == [] then Some(m.0) else None
  }

  function RepairedField(f: Field): Field {
    Field(Repaired(f.name), if f.value.None? then None else Some(Repaired(f.value.value)))
  }

  function RepairedFields(fields: seq<Field>): seq<Field> {
    seq(|fields|, i requires 0 <= i < |fields| => RepairedField(fields[i]))
  }

  /** The next character is the structural one, and what follows does not start with white space. */
  lemma StructuralReads(c: Unit, tail: Utf16)
    requires !Blank(c) && (tail != [] ==> !Blank(tail[0]))
    ensures Structural([c] + tail, c) == Some(tail)
    ensures forall d :: d != c ==> Structural([c] + tail, d).None?
  {
  }

  lemma FieldReads(f: Field, tail: Utf16)
    ensures DecodeMember(PrintField(f) + tail) == Some((RepairedField(f), tail))
  {
    var text := if f.value.None? then NULL else Print(f.value.value);
    assert PrintField(f) + tail == Print(f.name) + ([COLON] + (text + tail));
    DecodePrint(f.name, [COLON] + (text + tail));
    StructuralReads(COLON, text + tail);
    if f.value.None? {
      assert NULL <= text + tail && (text + tail)[4..] == tail;
    } else {
      assert (text + tail)[0] == QUOTE;
      DecodePrint(f.value.value, tail);
    }
  }

  lemma {:induction false} FieldsRead(fields: seq<Field>)
    requires fields != []
    ensures DecodeMembers(PrintFields(fields) + [CLOSE]) == Some((RepairedFields(fields), []))
  {
    if |fields| == 1 {
      LastFieldReads(fields[0]);
      assert fields == [fields[0]] && RepairedFields(fields) == [RepairedField(fields[0])];
    } else {
      FieldsStartQuoted(fields[1..]);
      FieldsRead(fields[1..]);
      NextFieldReads(fields[0], PrintFields(fields[1..]) + [CLOSE], RepairedFields(fields[1..]));
      PrintFieldsCons(fields);
    }
  }

  lemma PrintFieldsCons(fields: seq<Field>)
    requires |fields| > 1
    ensures PrintFields(fields) + [CLOSE] == PrintField(fields[0]) + ([COMMA] + (PrintFields(fields[1..]) + [CLOSE]))
    ensures RepairedFields(fields) == [RepairedField(fields[0])] + RepairedFields(fields[1..])
  {
    Regroup(PrintField(fields[0]), [COMMA], PrintFields(fields[1..]), [CLOSE]);
    RepairedCons(fields);
  }

  lemma Regroup(a: Utf16, b: Utf16, c: Utf16, d: Utf16)
    ensures a + b + c + d == a + (b + (c + d))
  {
  }

  lemma RepairedCons(fields: seq<Field>)
    requires fields != []
    ensures RepairedFields(fields) == [RepairedField(fields[0])] + RepairedFields(fields[1..])
  {
  }

  lemma FieldsStartQuoted(fields: seq<Field>)
    requires fields != []
    ensures PrintFields(fields) != [] && PrintFields(fields)[0] == QUOTE
  {
  }

  lemma LastFieldReads(f: Field)
    ensures DecodeMembers(PrintField(f) + [CLOSE]) == Some(([RepairedField(f)], []))
  {
    FieldReads(f, [CLOSE]);
    StructuralReads(CLOSE, []);
    assert [CLOSE] + [] == [CLOSE];
  }

  lemma NextFieldReads(f: Field, tail: Utf16, rest: seq<Field>)
    requires tail != [] && tail[0] == QUOTE && DecodeMembers(tail) == Some((rest, []))
    ensures DecodeMembers(PrintField(f) + ([COMMA] + tail)) == Some(([RepairedField(f)] + rest, []))
  {
    FieldReads(f, [COMMA] + tail);
    StructuralReads(COMMA, tail);
  }

  /** A printed object decodes to its members, in order, nulls as nulls. */
  lemma DecodePrintObject(fields: seq<Field>)
    ensures DecodeObject(PrintObject(fields)) == Some(RepairedFields(fields))
  {
    var tail := PrintFields(fields) + [CLOSE];
    assert PrintObject(fields) == [OPEN] + tail;
    if fields == [] {
      assert tail == [CLOSE] + [];
      StructuralReads(OPEN, tail);
      StructuralReads(CLOSE, []);
      assert RepairedFields(fields) == [];
    } else {
      FieldsStartQuoted(fields);
      StructuralReads(OPEN, tail);
      assert SkipBlank(tail) == tail;
      FieldsRead(fields);
    }
  }

  lemma {:induction false} FieldsSendable(fields: seq<Field>)
    ensures Sendable(PrintFields(fields))
  {
    if fields != [] {
      var f := fields[0];
      PrintSendable(f.name);
      SendableTogether(Print(f.name), [COLON]);
      if f.value.Some? {
        PrintSendable(f.value.value);
      }
      SendableTogether(Print(f.name) + [COLON], if f.value.None? then NULL else Print(f.value.value));
      if |fields| > 1 {
        FieldsSendable(fields[1..]);
        SendableTogether(PrintField(f), [COMMA]);
        SendableTogether(PrintField(f) + [COMMA], PrintFields(fields[1..]));
      }
    }
  }

  lemma {:induction false} ObjectSendable(fields: seq<Field>)
    ensures Sendable(PrintObject(fields))
  {
    FieldsSendable(fields);
    SendableTogether([OPEN], PrintFields(fields));
    SendableTogether([OPEN] + PrintFields(fields), [CLOSE]);
  }

  /** Every payload decodes to its eight members, nulls preserved, and is fit to be sent. */
  lemma PayloadRoundTrip(p: Webhook)
    ensures var json := PrintObject(Fields(p)); DecodeObject(json) == Some(Fields(RepairedWebhook(p))) && Sendable(json)
    ensures forall i, j :: 0 <= i < j < 8 ==> Fields(p)[i].name != Fields(p)[j].name
  {
    DecodePrintObject(Fields(p));
    RepairedMembers(p);
    NamesApart(p);
    ObjectSendable(Fields(p));
  }

  function RepairedOption(v: Option<Utf16>): Option<Utf16> {
    if v.None? then None else Some(Repaired(v.value))
  }

  function RepairedWebhook(p: Webhook): Webhook {
    Webhook(RepairedOption(p.eventId), Repaired(p.occurredAt), RepairedOption(p.realmName),
      RepairedOption(p.resourceType),
            RepairedOption(p.operationType), RepairedOption(p.groupKey), RepairedOption(p.userKey))
  }

  lemma AsciiStable(s: string)
    requires forall i :: 0 <= i < |s| ==> s[i] as int < 128
    ensures Repaired(Ascii(s)) == Ascii(s)
  {
  }

  lemma RepairedMembers(p: Webhook)
    ensures RepairedFields(Fields(p)) == Fields(RepairedWebhook(p))
  {
    AsciiStable(SPEC_VERSION);
    AsciiStable("specVersion");
    AsciiStable("eventId");
    AsciiStable("occurredAt");
    AsciiStable("realmName");
    AsciiStable("resourceType");
    AsciiStable("operationType");
    AsciiStable("groupKey");
    AsciiStable("userKey");
  }

  lemma NamesApart(p: Webhook)
    ensures forall i, j :: 0 <= i < j < 8 ==> Fields(p)[i].name != Fields(p)[j].name
  {
    var f := Fields(p);
    assert |f[0].name| == 11 && |f[1].name| == 7 && |f[2].name| == 10 && |f[3].name| == 9;
    assert |f[4].name| == 12 && |f[5].name| == 13 && |f[6].name| == 8 && |f[7].name| == 7;
    assert f[1].name[0] == 0x65 && f[7].name[0] == 0x75;
  }

  // ----- the printer as it runs -----

  class StringBuilder {
    var text: Utf16

    constructor ()
      ensures text == []
    {
      text := [];
    }

    method Append(s: Utf16)
      modifies this
      ensures text == old(text) + s
    {
      text := text + s;
    }
  }

  method AppendUnicodeEscape(json: StringBuilder, c: Unit)
    requires c < 0x20
    modifies json
    ensures json.text == old(json.text) + UnicodeEscape(c)
  {
    json.Append([BACKSLASH, 0x75]);
    var hexadecimal := ToHexString(c as int);
    EscapeReads(c);
    json.Append(Zeros(4 - |hexadecimal|));
    json.Append(hexadecimal);
  }

  method AppendCharacter(json: StringBuilder, value: Utf16, index: nat)
    requires index < |value| && ShortEscape(value[index]).None?
    modifies json
    ensures json.text == old(json.text) + Chunk(value[index..])
  {
    var c := value[index];
    if c < 0x20 {
      AppendUnicodeEscape(json, c);
      return;
    }
    if High(c) {
      if index + 1 < |value| && Low(value[index + 1]) {
        assert value[index..][..2] == [c] + [value[index + 1]];
        json.Append([c]);
        json.Append([value[index + 1]]);
      } else {
        json.Append(REPLACED);
      }
      return;
    }
    if Low(c) {
      json.Append(REPLACED);
      return;
    }
    json.Append([c]);
  }

  /** The character at an index; a pair is taken in one go and its low half skipped. */
  method AppendOne(json: StringBuilder, value: Utf16, index: nat) returns (next: nat)
    requires index < |value|
    modifies json
    ensures json.text == old(json.text) + Chunk(value[index..]) && next == index + Used(value[index..])
  {
    var c := value[index];
    if ShortEscape(c).Some? {
      json.Append([BACKSLASH, ShortEscape(c).value]);
    } else {
      AppendCharacter(json, value, index);
    }
    next := index;
    if High(c) && index + 1 < |value| && Low(value[index + 1]) {
      next := next + 1;
    }
    next := next + 1;
  }

  lemma BodyStep(value: Utf16, index: nat)
    requires index < |value|
    ensures index + Used(value[index..]) <= |value|
    ensures Body(value[index..]) == Chunk(value[index..]) + Body(value[index + Used(value[index..])..])
  {
  }

  lemma Glue(a: Utf16, b: Utf16, c: Utf16)
    ensures (a + b) + c == a + (b + c)
  {
  }

  method AppendString(json: StringBuilder, value: Utf16)
    modifies json
    ensures json.text == old(json.text) + Print(value)
  {
    json.Append([QUOTE]);
    ghost var start := json.text;
    var index := 0;
    assert value[0..] == value;
    while index < |value|
      invariant index <= |value|
      invariant json.text + Body(value[index..]) == start + Body(value)
      decreases |value| - index
    {
      BodyStep(value, index);
      Glue(json.text, Chunk(value[index..]), Body(value[index + Used(value[index..])..]));
      index := AppendOne(json, value, index);
    }
    assert value[index..] == [];
    Glue(json.text, [], []);
    json.Append([QUOTE]);
    Regroup(old(json.text), [QUOTE], Body(value), [QUOTE]);
    Glue([QUOTE], Body(value), [QUOTE]);
  }

  method AppendField(json: StringBuilder, name: Utf16, value: Option<Utf16>)
    modifies json
    ensures json.text == old(json.text) + PrintField(Field(name, value))
  {
    ghost var printed := if value.None? then NULL else Print(value.value);
    FieldInParts(json.text, Print(name), printed);
    AppendString(json, name);
    json.Append([COLON]);
    AppendValue(json, value);
  }

  method AppendValue(json: StringBuilder, value: Option<Utf16>)
    modifies json
    ensures json.text == old(json.text) + if value.None? then NULL else Print(value.value)
  {
    if value.None? {
      json.Append(NULL);
    } else {
      AppendString(json, value.value);
    }
  }

  lemma FieldInParts(text: Utf16, name: Utf16, value: Utf16)
    ensures ((text + name) + [COLON]) + value == text + (name + [COLON] + value)
  {
  }

  lemma {:induction false} PrintFieldsSnoc(done: seq<Field>, f: Field)
    requires done != []
    ensures PrintFields(done + [f]) == PrintFields(done) + [COMMA] + PrintField(f)
  {
    if |done| == 1 {
      assert (done + [f])[1..] == [f];
    } else {
      assert (done + [f])[1..] == done[1..] + [f];
      PrintFieldsSnoc(done[1..], f);
    }
  }

  lemma NextPrinted(f: seq<Field>, i: nat)
    requires 0 < i < |f|
    ensures [OPEN] + PrintFields(f[..i]) + [COMMA] + PrintField(f[i]) == [OPEN] + PrintFields(f[..i + 1])
  {
    var printed, last := PrintFields(f[..i]), PrintField(f[i]);
    assert f[..i + 1] == f[..i] + [f[i]];
    PrintFieldsSnoc(f[..i], f[i]);
    Regroup([OPEN], printed, [COMMA], last);
    Glue(printed, [COMMA], last);
  }

  /** A comma and the next member. */
  method AppendNext(json: StringBuilder, f: seq<Field>, i: nat)
    requires 0 < i < |f| && json.text == [OPEN] + PrintFields(f[..i])
    modifies json
    ensures json.text == [OPEN] + PrintFields(f[..i + 1])
  {
    NextPrinted(f, i);
    AppendCommaField(json, f[i].name, f[i].value);
    assert f[i] == Field(f[i].name, f[i].value);
  }

  method AppendCommaField(json: StringBuilder, name: Utf16, value: Option<Utf16>)
    modifies json
    ensures json.text == old(json.text) + [COMMA] + PrintField(Field(name, value))
  {
    json.Append([COMMA]);
    AppendField(json, name, value);
  }

  /** Eight members, one after the other. */
  method AppendMembers(json: StringBuilder, f: seq<Field>)
    requires |f| == 8 && json.text == [OPEN]
    modifies json
    ensures json.text == [OPEN] + PrintFields(f)
  {
    AppendField(json, f[0].name, f[0].value);
    assert f[..1] == [f[0]];
    AppendNext(json, f, 1);
    AppendNext(json, f, 2);
    AppendNext(json, f, 3);
    AppendNext(json, f, 4);
    AppendNext(json, f, 5);
    AppendNext(json, f, 6);
    AppendNext(json, f, 7);
    assert f[..8] == f;
  }

  method ToJson(p: Webhook) returns (text: Utf16)
    ensures text == PrintObject(Fields(p))
  {
    var json := new StringBuilder();
    json.Append([OPEN]);
    AppendMembers(json, Fields(p));
    json.Append([CLOSE]);
    text := json.text;
  }
}
