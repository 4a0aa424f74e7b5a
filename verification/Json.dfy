/** JSON values, the two notions of white space in play, and a parser given by its exact texts. */
module Json {

  import opened Basics

  datatype Json =
    | Null
    | Bool(b: bool)
    | Int(n: int)
    | Float(r: real)
    | Str(s: string)
    | Arr(items: seq<Json>)
    | Obj(fields: map<string, Json>)

  type Object = map<string, Json>

  function Get(o: Object, key: string): Json {
    GetOr(o, key, Null)
  }

  function GetOr(o: Object, key: string, default: Json): Json {
    if key in o then o[key] else default
  }

  predicate Truthy(j: Json) {
    match j
    case Null => false
    case Bool(b) => b
    case Int(n) => n != 0
    case Float(r) => r != 0.0
    case Str(s) => s != ""
    case Arr(items) => items != []
    case Obj(fields) => fields != map[]
  }

  /** `a or b`. */
  function Or(a: Json, b: Json): Json {
    if Truthy(a) then a else b
  }

  /** White space as `str.strip` and `str.isspace` see it. */
  predicate IsSpace(c: char) {
    || '\t' <= c <= '\r' || '\U{1c}' <= c <= ' ' || c == '\U{85}' || c == '\U{a0}' || c == '\U{1680}'
    || '\U{2000}' <= c <= '\U{200a}' || c == '\U{2028}' || c == '\U{2029}' || c == '\U{202f}' || c == '\U{205f}' || c == '\U{3000}'
  }

  /** White space as section 2 of RFC 8259 has it. */
  predicate IsJsonSpace(c: char) {
    c == ' ' || c == '\t' || c == '\n' || c == '\r'
  }

  predicate Blank(s: string) {
    forall c :: c in s ==> IsSpace(c)
  }

  function LStrip(s: string): string {
    if s != [] && IsSpace(s[0]) then LStrip(s[1..]) else s
  }

  function RStrip(s: string): string {
    if s != [] && IsSpace(s[|s| - 1]) then RStrip(s[..|s| - 1]) else s
  }

  function Strip(s: string): string {
    RStrip(LStrip(s))
  }

  function JsonLStrip(s: string): string {
    if s != [] && IsJsonSpace(s[0]) then JsonLStrip(s[1..]) else s
  }

  function JsonRStrip(s: string): string {
    if s != [] && IsJsonSpace(s[|s| - 1]) then JsonRStrip(s[..|s| - 1]) else s
  }

  /** `value` gives the meaning of a text without surrounding white space, if it is a JSON text. */
  type Parser = string -> Option<Json>

  /** A JSON text is a value between white space. */
  function Loads(value: Parser, s: string): Option<Json> {
    value(JsonRStrip(JsonLStrip(s)))
  }

  /** The text of an object runs from its brace to the matching brace, so no other text extends it. */
  ghost predicate Lawful(value: Parser) {
    && (forall u :: IsObject(value, u) ==> |u| >= 2 && u[0] == '{' && u[|u| - 1] == '}')
    && (forall u, v :: IsObject(value, u) && IsObject(value, v) && u <= v ==> u == v)
  }

  predicate IsObject(value: Parser, u: string) {
    value(u).Some? && value(u).value.Obj?
  }
}
