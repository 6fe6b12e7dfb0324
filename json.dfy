// JSON values as the proxy's JSON-RPC front ends see them after parsing, a
// reference serialisation (RFC 8259) to judge the replies they format by
// hand, and the JSON-RPC 2.0 envelope both front ends accept.

module Json {
  import opened Common

  const INT64_MIN: int := -0x8000_0000_0000_0000
  const INT64_MAX: int := 0x7fff_ffff_ffff_ffff
  const UINT64_MAX: int := 0xffff_ffff_ffff_ffff

  /** The integers the parser keeps as integers: `number_integer` for
    * negative values down to the int64 minimum, `number_unsigned` for the
    * others up to the uint64 maximum. */
  type JsonInt = i: int | -0x8000_0000_0000_0000 <= i <= 0xffff_ffff_ffff_ffff

  datatype Json =
    | JNull
    | JBool(b: bool)
    | JInteger(i: JsonInt)
    | JFloat(literal: string)
    | JString(s: string)
    | JArray(items: seq<Json>)
    | JObject(members: seq<Member>)

  datatype Member = Member(key: string, value: Json)

  // ---------------------------------------------------------------------------
  // Lookup

  /** The first member of `members` named `key`. */
  function FindIn(members: seq<Member>, key: string): (r: Option<Json>)
    ensures r.None? <==> forall i :: 0 <= i < |members| ==> members[i].key != key
    ensures r.Some? ==> exists i :: 0 <= i < |members| && members[i] == Member(key, r.value)
  {
    if members == [] then None
    else if members[0].key == key then Some(members[0].value)
    else
      var r := FindIn(members[1..], key);
      assert forall i :: 1 <= i < |members| ==> members[i] == members[1..][i - 1];
      r
  }

  /** `find(key)` on a parsed value: the member's value, or nothing when the
    * key is missing or the value is not an object at all. */
  function FindKey(j: Json, key: string): (r: Option<Json>)
    ensures !j.JObject? ==> r.None?
  {
    if j.JObject? then FindIn(j.members, key) else None
  }

  // ---------------------------------------------------------------------------
  // Serialisation

  /** An integer in decimal, with a minus sign when negative. */
  function IntText(i: int): (t: string)
    ensures |t| >= 1
    ensures i < 0 <==> t[0] == '-'
  {
    if i < 0 then "-" + Decimal(-i) else Decimal(i)
  }

  /** A string that needs no escaping inside JSON quotes. */
  predicate Plain(s: string)
  {
    forall i :: 0 <= i < |s| ==> s[i] != '"' && s[i] != '\\' && s[i] >= ' '
  }

  function HexDigit(d: nat): (c: char)
    requires d < 16
  {
    if d < 10 then DigitChar(d) else (d - 10 + 'a' as int) as char
  }

  /** The escape sequence for one character (section 7 of RFC 8259). */
  function EscapeChar(c: char): (t: string)
    ensures |t| >= 1
    ensures t == [c] <==> c != '"' && c != '\\' && c >= ' '
  {
    if c == '"' then "\\\""
    else if c == '\\' then "\\\\"
    else if c < ' ' then "\\u00" + [HexDigit(c as int / 16), HexDigit(c as int % 16)]
    else [c]
  }

  function Escape(s: string): (t: string)
    ensures |t| >= |s|
  {
    if s == [] then [] else EscapeChar(s[0]) + Escape(s[1..])
  }

  /** A string value as JSON text. */
  function Quote(s: string): string
  {
    "\"" + Escape(s) + "\""
  }

  /** A value as JSON text, members and items separated by commas and no
    * whitespace. */
  function Dump(j: Json): (t: string)
    ensures |t| >= 1
    decreases j, 1, 0
  {
    match j
    case JNull => "null"
    case JBool(b) => if b then "true" else "false"
    case JInteger(i) => IntText(i)
    case JFloat(literal) => if literal == [] then "0" else literal
    case JString(s) => Quote(s)
    case JArray(items) => "[" + DumpItems(j, 0) + "]"
    case JObject(members) => "{" + DumpMembers(j, 0) + "}"
  }

  function DumpItems(j: Json, from: nat): string
    requires j.JArray? && from <= |j.items|
    decreases j, 0, |j.items| - from
  {
    if from == |j.items| then ""
    else (if from == 0 then "" else ",") + Dump(j.items[from]) + DumpItems(j, from + 1)
  }

  function DumpMembers(j: Json, from: nat): string
    requires j.JObject? && from <= |j.members|
    decreases j, 0, |j.members| - from
  {
    if from == |j.members| then ""
    else (if from == 0 then "" else ",") + MemberText(j.members[from]) + DumpMembers(j, from + 1)
  }

  /** One member as `"key":value`. */
  function MemberText(m: Member): string
    decreases m, 2
  {
    Quote(m.key) + ":" + Dump(m.value)
  }

  // ---------------------------------------------------------------------------
  // JSON-RPC 2.0

  const JSONRPC_VERSION: string := "2.0"

  /** A request as both front ends read it (`name` is its `method`): `jsonrpc` must be the string
    * "2.0", `method` a string, and `params` and `id` present (of any
    * type). */
  datatype Envelope = Envelope(name: string, params: Json, id: Json)

  function ParseEnvelope(doc: Json): (r: Option<Envelope>)
  {
    match (FindKey(doc, "jsonrpc"), FindKey(doc, "method"), FindKey(doc, "params"), FindKey(doc, "id"))
    case (Some(JString(version)), Some(JString(name)), Some(params), Some(id)) =>
      if version == JSONRPC_VERSION then Some(Envelope(name, params, id)) else None
    case _ => None
  }

  /** The request a conforming client sends for `env`. */
  function RequestDoc(env: Envelope): Json
  {
    JObject([Member("jsonrpc", JString(JSONRPC_VERSION)), Member("method", JString(env.name)),
             Member("params", env.params), Member("id", env.id)])
  }

  /** How the parser stores an integer literal: as an integer within the
    * int64 and uint64 ranges, as a floating-point number beyond them. */
  function IntegerLiteral(i: int): (j: Json)
    ensures j.JInteger? <==> INT64_MIN <= i <= UINT64_MAX
    ensures j.JInteger? ==> j.i == i
    ensures !j.JInteger? ==> j.JFloat?
  {
    if INT64_MIN <= i <= UINT64_MAX then JInteger(i) else JFloat(IntText(i))
  }

  /** `get<int64_t>()` of a stored integer: an unsigned value above the int64
    * maximum wraps around to a negative one. */
  function AsInt64(i: JsonInt): (r: int)
    ensures INT64_MIN <= r <= INT64_MAX
    ensures (r - i) % 0x1_0000_0000_0000_0000 == 0
    ensures i <= INT64_MAX ==> r == i
  {
    if i <= INT64_MAX then i else i - 0x1_0000_0000_0000_0000
  }

  /** The `id` echoed with its own type and value: a string in quotes, an
    * integer bare, anything else not at all. */
  function TypedId(id: Json): (r: Option<string>)
    ensures r.Some? <==> id.JString? || id.JInteger?
  {
    match id
    case JString(s) => Some("\"" + s + "\"")
    case JInteger(i) => Some(IntText(i))
    case _ => None
  }

  /** The `id` as the proxy's JSON session echoes it: a string in quotes, an
    * integer read back as an int64, anything else not at all (and then no
    * reply is sent). Within the int64 range this is the id's own text. */
  function EchoedId(id: Json): (r: Option<string>)
    ensures r.Some? <==> id.JString? || id.JInteger?
    ensures id.JString? || (id.JInteger? && id.i <= INT64_MAX) ==> r == TypedId(id)
  {
    match id
    case JInteger(i) => Some(IntText(AsInt64(i)))
    case _ => TypedId(id)
  }

  /** `{"jsonrpc":"2.0","<kind>":"<message>","id":<id>}` */
  function ReplyText(kind: string, message: string, echoedId: string): string
  {
    "{\"jsonrpc\":\"" + JSONRPC_VERSION + "\",\"" + kind + "\":\"" + message + "\",\"id\":" + echoedId + "}"
  }

  // ---------------------------------------------------------------------------
  // Properties

  lemma {:induction false} EscapePlain(s: string)
    requires Plain(s)
    ensures Escape(s) == s
    decreases |s|
  {
    if s != [] {
      assert Plain(s[1..]) by {
        forall i | 0 <= i < |s[1..]| ensures s[1..][i] != '"' && s[1..][i] != '\\' && s[1..][i] >= ' ' {
          assert s[1..][i] == s[i + 1];
        }
      }
      EscapePlain(s[1..]);
      assert s == [s[0]] + s[1..];
    }
  }

  /** The member at index `i` is found when no earlier member has its key. */
  lemma {:induction false} FindAt(members: seq<Member>, i: nat)
    requires i < |members|
    requires forall j :: 0 <= j < i ==> members[j].key != members[i].key
    ensures FindIn(members, members[i].key) == Some(members[i].value)
    decreases i
  {
    if i > 0 {
      var tail := members[1..];
      assert tail[i - 1] == members[i];
      forall j | 0 <= j < i - 1
        ensures tail[j].key != tail[i - 1].key
      {
        assert tail[j] == members[j + 1];
      }
      FindAt(tail, i - 1);
    }
  }

  lemma IntTextInjective(a: int, b: int)
    requires IntText(a) == IntText(b)
    ensures a == b
  {
    if a < 0 {
      assert IntText(a)[1..] == Decimal(-a) && IntText(b)[1..] == Decimal(-b);
      DecimalInjective(-a, -b);
    } else {
      DecimalInjective(a, b);
    }
  }

  /** A conforming request is read back as the envelope it was made from. */
  lemma EnvelopeRoundTrip(env: Envelope)
    ensures ParseEnvelope(RequestDoc(env)) == Some(env)
  {
    RequestDocHead(env);
    RequestDocParams(env);
    RequestDocId(env);
  }

  /** The version and the method are the first two members of a request. */
  lemma RequestDocHead(env: Envelope)
    ensures FindKey(RequestDoc(env), "jsonrpc") == Some(JString(JSONRPC_VERSION))
    ensures FindKey(RequestDoc(env), "method") == Some(JString(env.name))
  {
    var ms := RequestDoc(env).members;
    FindAt(ms, 0);
    FindAt(ms, 1);
  }

  /** The params member follows them. */
  lemma RequestDocParams(env: Envelope)
    ensures FindKey(RequestDoc(env), "params") == Some(env.params)
  {
    FindAt(RequestDoc(env).members, 2);
  }

  /** The id member is the last of the four. */
  lemma RequestDocId(env: Envelope)
    ensures FindKey(RequestDoc(env), "id") == Some(env.id)
  {
    var ms := RequestDoc(env).members;
    assert ms[0].key != ms[3].key && ms[1].key != ms[3].key && ms[2].key != ms[3].key;
    FindAt(ms, 3);
  }

  /** A request is accepted only if it carries exactly the version "2.0". */
  lemma EnvelopeNeedsVersion(doc: Json)
    requires ParseEnvelope(doc).Some?
    ensures FindKey(doc, "jsonrpc") == Some(JString(JSONRPC_VERSION))
    ensures FindKey(doc, "method") == Some(JString(ParseEnvelope(doc).value.name))
    ensures FindKey(doc, "params") == Some(ParseEnvelope(doc).value.params)
    ensures FindKey(doc, "id") == Some(ParseEnvelope(doc).value.id)
  {
  }

  /** Typed ids keep their JSON type and value: for a string without
    * characters that need escaping, and for any integer, the echo is the
    * id's own JSON text. */
  lemma EchoIsJson(id: Json)
    requires id.JInteger? || (id.JString? && Plain(id.s))
    ensures TypedId(id) == Some(Dump(id))
  {
    if id.JString? {
      EscapePlain(id.s);
    }
  }

  /** Distinct ids are never echoed by the proxy as the same text, as long as
    * integer ids stay within the int64 range. */
  lemma EchoInjective(a: Json, b: Json)
    requires EchoedId(a).Some? && EchoedId(a) == EchoedId(b)
    requires a.JInteger? ==> a.i <= INT64_MAX
    requires b.JInteger? ==> b.i <= INT64_MAX
    ensures a == b
  {
    var t := EchoedId(a).value;
    if a.JString? && b.JString? {
      assert a.s == t[1..|t| - 1] == b.s;
    } else if a.JInteger? && b.JInteger? {
      IntTextInjective(a.i, b.i);
    }
  }

  /** Above the int64 range the proxy's echo wraps: an unsigned id is echoed
    * as the negative id 2^64 below it (the id 18446744073709551615 as -1),
    * so the reply no longer carries the id it answers. */
  lemma EchoWrapsUnsigned(i: JsonInt)
    requires i > INT64_MAX
    ensures EchoedId(JInteger(i)) == EchoedId(JInteger(i - 0x1_0000_0000_0000_0000))
    ensures EchoedId(JInteger(i)) != TypedId(JInteger(i))
  {
    if IntText(AsInt64(i)) == IntText(i) {
      IntTextInjective(AsInt64(i), i);
    }
  }

  /** An integer id beyond the uint64 and int64 ranges is parsed as a
    * floating-point number and is answered by no reply at all. */
  lemma HugeIdUnanswered(i: int)
    requires i < INT64_MIN || i > UINT64_MAX
    ensures EchoedId(IntegerLiteral(i)).None?
    ensures TypedId(IntegerLiteral(i)).None?
  {
  }

  lemma DumpOneMember(a: Member)
    ensures Dump(JObject([a])) == "{" + MemberText(a) + "}"
  {
    var j := JObject([a]);
    assert DumpMembers(j, 1) == "";
    assert DumpMembers(j, 0) == MemberText(a) + "";
  }

  lemma Regroup(x: string, y: string, z: string)
    ensures "{" + (x + ("," + y + ("," + z + ""))) + "}" == "{" + x + "," + y + "," + z + "}"
  {
  }

  lemma DumpThreeMembers(a: Member, b: Member, c: Member)
    ensures Dump(JObject([a, b, c])) == "{" + MemberText(a) + "," + MemberText(b) + "," + MemberText(c) + "}"
  {
    var j := JObject([a, b, c]);
    assert DumpMembers(j, 3) == "";
    assert DumpMembers(j, 2) == "," + MemberText(c) + "";
    assert DumpMembers(j, 1) == "," + MemberText(b) + DumpMembers(j, 2);
    assert DumpMembers(j, 0) == MemberText(a) + DumpMembers(j, 1);
    Regroup(MemberText(a), MemberText(b), MemberText(c));
  }

  /** Proof helper: the reply text regrouped as its three members. */
  lemma ReplyShape(kind: string, message: string, echoedId: string)
    ensures ReplyText(kind, message, echoedId) ==
      "{" + ("\"" + "jsonrpc" + "\":\"" + JSONRPC_VERSION + "\"") + "," + ("\"" + kind + "\":\"" + message + "\"") + "," + ("\"id\":" + echoedId) + "}"
  {
  }

  /** A reply echoing the typed id is the JSON text of the object
    * {"jsonrpc": "2.0", kind: message, "id": id} whenever the kind, the
    * message and a string id need no escaping; the proxy's own replies are
    * that text as long as an integer id is within the int64 range. */
  lemma ReplyIsJson(kind: string, message: string, id: Json)
    requires Plain(kind) && Plain(message) && (id.JInteger? || (id.JString? && Plain(id.s)))
    ensures ReplyText(kind, message, TypedId(id).value) ==
      Dump(JObject([Member("jsonrpc", JString(JSONRPC_VERSION)), Member(kind, JString(message)), Member("id", id)]))
    ensures id.JString? || id.i <= INT64_MAX ==>
      ReplyText(kind, message, EchoedId(id).value) ==
        Dump(JObject([Member("jsonrpc", JString(JSONRPC_VERSION)), Member(kind, JString(message)), Member("id", id)]))
  {
    EchoIsJson(id);
    var a, b, c := Member("jsonrpc", JString(JSONRPC_VERSION)), Member(kind, JString(message)), Member("id", id);
    VersionMember();
    PlainMember(kind, message);
    IdMember(id);
    DumpThreeMembers(a, b, c);
    ReplyShape(kind, message, TypedId(id).value);
  }

  lemma PlainMember(key: string, s: string)
    requires Plain(key) && Plain(s)
    ensures MemberText(Member(key, JString(s))) == "\"" + key + "\":\"" + s + "\""
  {
    EscapePlain(key);
    EscapePlain(s);
  }

  lemma VersionMember()
    ensures MemberText(Member("jsonrpc", JString(JSONRPC_VERSION))) == "\"" + "jsonrpc" + "\":\"" + JSONRPC_VERSION + "\""
  {
    PlainMember("jsonrpc", JSONRPC_VERSION);
  }

  lemma IdMember(id: Json)
    ensures MemberText(Member("id", id)) == "\"id\":" + Dump(id)
  {
    EscapePlain("id");
  }
}
