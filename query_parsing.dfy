/**
  What every query-clause parser shares: the tokens its loop reads from the
  XContent cursor, the typed getters on a scalar token, the lenient
  `ParseFieldMatcher`, and the shape of a clause body (the tokens up to the
  END_OBJECT that closes it).
*/
module QueryParsing {
  import opened Wrappers

  /** The content of an object or array that the parser hands over to an
      external decoder (a geo point, a nested query, inner hits). */
  type SubValue(==)

  /** What the tokenizer read for a number or an embedded object. */
  type Payload(==)

  /** A scalar token: VALUE_STRING, VALUE_NUMBER, VALUE_BOOLEAN,
      VALUE_EMBEDDED_OBJECT or VALUE_NULL. */
  datatype Scalar =
    | Str(text: string)
    | Num(number: Payload)
    | Bool(flag: bool)
    | Embedded(payload: Payload)
    | Null

  /** One token as the clause loop sees it. A START_OBJECT or START_ARRAY carries
      the sub-value that an external decoder consumes when the parser hands the
      cursor over; when the parser does not hand it over, the sub-value's own
      tokens follow in the stream. */
  datatype Token =
    | FieldName(name: string)
    | StartObject(obj: SubValue)
    | StartArray(arr: SubValue)
    | EndArray
    | EndObject
    | Value(scalar: Scalar)

  /** `Token.isValue()`: true for the scalar tokens except VALUE_NULL, so a
      null value takes none of a clause loop's value branches. */
  predicate IsValue(t: Token)
  {
    t.Value? && !t.scalar.Null?
  }

  /** The typed getters of the cursor on its current scalar token, for the cases
      whose answer the tokenizer decides (number formats, textual renderings of
      non-string tokens, the boolean reading of a non-boolean token). */
  datatype Accessors = Accessors(
    otherText: Scalar -> string,
    otherBoolean: Scalar -> bool,
    numberValue: Scalar -> real,
    floatValue: Scalar -> real,
    doubleValue: Scalar -> real)

  /** The query parse context as the clause parsers use it: its cursor's getters
      and its test for deprecated settings such as `_cache`. */
  datatype ParseContext = ParseContext(
    parser: Accessors,
    isDeprecatedSetting: string -> bool)

  /** `parser.text()`: a string token's own text, otherwise the tokenizer's rendering. */
  function Text(p: Accessors, v: Scalar): string
  {
    if v.Str? then v.text else p.otherText(v)
  }

  /** `parser.textOrNull()`: absent for a null token, otherwise `parser.text()`. */
  function TextOrNull(p: Accessors, v: Scalar): Option<string>
  {
    if v.Null? then None else Some(Text(p, v))
  }

  /** `parser.booleanValue()`: a boolean token's own flag, otherwise the tokenizer's reading. */
  function BooleanValue(p: Accessors, v: Scalar): bool
  {
    if v.Bool? then v.flag else p.otherBoolean(v)
  }

  /** A `ParseField`: its preferred name, its deprecated alternatives, and, when
      `withAllDeprecated` was applied, the name that replaces all of them. */
  datatype ParseField = ParseField(
    name: string,
    deprecatedNames: seq<string>,
    allReplacedWith: Option<string>)

  /** `parseFieldMatcher().match(name, field)` in lenient mode: the name is one of
      the field's listed spellings, deprecated or not (their camelCase forms,
      which `ParseField` also accepts, are not modelled). */
  predicate Match(name: string, field: ParseField)
  {
    name == field.name || name in field.deprecatedNames
  }

  /** `String.endsWith`. */
  predicate EndsWith(s: string, suffix: string)
  {
    |suffix| <= |s| && s[|s| - |suffix|..] == suffix
  }

  /** The name with a suffix it ends with removed (`substring(0, length - suffix.length())`). */
  function StripSuffix(s: string, suffix: string): (r: string)
    requires EndsWith(s, suffix)
    ensures r + suffix == s
  {
    s[..|s| - |suffix|]
  }

  /** The cursor stands just inside a clause body: the body is closed by an
      END_OBJECT, and it opens with a field name unless it is empty. */
  predicate Positioned(ts: seq<Token>)
  {
    |ts| > 0 && EndObject in ts && (ts[0].FieldName? || ts[0] == EndObject)
  }

  /** The tokens a clause body is made of: the tokens in front of the first
      END_OBJECT, where `nextToken()` ends the parser's loop. */
  function Body(ts: seq<Token>): (b: seq<Token>)
    requires Positioned(ts)
    ensures |b| < |ts| && b == ts[..|b|] && ts[|b|] == EndObject
    ensures EndObject !in b
    ensures b == [] || b[0].FieldName?
  {
    ts[..BodyEnd(ts)]
  }

  /** The position of the first END_OBJECT. */
  function BodyEnd(ts: seq<Token>): (n: nat)
    requires EndObject in ts
    ensures n < |ts| && ts[n] == EndObject
    ensures forall j :: 0 <= j < n ==> ts[j] != EndObject
  {
    if ts[0] == EndObject then 0 else 1 + BodyEnd(ts[1..])
  }

  /** The field a token at position `i` belongs to: the name carried by the last
      FIELD_NAME in front of it (the parser's `currentFieldName`). */
  function FieldBefore(ts: seq<Token>, i: nat): (r: Option<string>)
    requires i <= |ts|
    ensures i > 0 && ts[0].FieldName? ==> r.Some?
  {
    if i == 0 then None
    else if ts[i - 1].FieldName? then Some(ts[i - 1].name)
    else FieldBefore(ts, i - 1)
  }

  /** The field a token belongs to is decided by the tokens in front of it only. */
  lemma {:induction false} FieldBeforePrefix(ts: seq<Token>, k: nat, i: nat)
    requires i <= k <= |ts|
    ensures FieldBefore(ts[..k], i) == FieldBefore(ts, i)
  {
    if i > 0 {
      FieldBeforePrefix(ts, k, i - 1);
    }
  }

  /** The value the last token to write a slot wrote there, where `write` says
      what a token under a given field writes into that slot, if anything: the
      reference for "the last token wins". */
  function LastWrite<T>(ts: seq<Token>, write: (string, Token) -> Option<T>): Option<T>
  {
    if ts == [] then None
    else
      var n := |ts| - 1;
      var w := WriteAt(FieldBefore(ts, n), ts[n], write);
      if w.Some? then w else LastWrite(ts[..n], write)
  }

  /** What token `t` writes when read under the field `name` (nothing before
      the first field name). */
  function WriteAt<T>(name: Option<string>, t: Token, write: (string, Token) -> Option<T>): Option<T>
  {
    if name.Some? then write(name.value, t) else None
  }

  /** The value a slot holds after the writes `w`: the last write, or the
      value it started with when there was none. */
  function Override<T>(w: Option<T>, start: T): T
  {
    if w.Some? then w.value else start
  }

  /** The current field name once every FIELD_NAME `a` is spelled `b` instead. */
  function RespellName(name: Option<string>, a: string, b: string): Option<string>
  {
    if name == Some(a) then Some(b) else name
  }

  /** A FIELD_NAME `a` spelled `b` instead; any other token as it is. */
  function RespellToken(t: Token, a: string, b: string): Token
  {
    if t == FieldName(a) then FieldName(b) else t
  }

  /** The token stream with every FIELD_NAME `a` spelled `b` instead. */
  function Respell(ts: seq<Token>, a: string, b: string): (r: seq<Token>)
  {
    seq(|ts|, i requires 0 <= i < |ts| => RespellToken(ts[i], a, b))
  }

  /** Respelling a field name keeps the clause body where it was. */
  lemma RespellBody(ts: seq<Token>, a: string, b: string)
    requires Positioned(ts)
    ensures Positioned(Respell(ts, a, b))
    ensures Body(Respell(ts, a, b)) == Respell(Body(ts), a, b)
  {
    var r := Respell(ts, a, b);
    var n := |Body(ts)|;
    assert r[n] == EndObject;
    assert forall j :: 0 <= j < |r| ==> (r[j] == EndObject <==> ts[j] == EndObject);
    assert Positioned(r);
  }

  /** After a respelling, every token belongs to the respelled field name. */
  lemma {:induction false} FieldBeforeRespell(ts: seq<Token>, a: string, b: string, i: nat)
    requires i <= |ts|
    ensures FieldBefore(Respell(ts, a, b), i) == RespellName(FieldBefore(ts, i), a, b)
  {
    if i > 0 {
      FieldBeforeRespell(ts, a, b, i - 1);
    }
  }
}
