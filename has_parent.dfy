/**
  The `has_parent` query parser: one pass over the clause body that keeps the
  parent type, the inner query, the score flag, the inner hits, the query name
  and the boost, and stops with an error at the first field it does not know.
*/
module HasParentQueryParser {
  import opened Wrappers
  import opened QueryParsing

  const QUERY_FIELD := ParseField("query", ["filter"], None)
  const SCORE_FIELD := ParseField("score_type", ["score_mode"], Some("score"))
  const TYPE_FIELD := ParseField("parent_type", ["type"], None)

  /** `AbstractQueryBuilder.DEFAULT_BOOST`. */
  const DEFAULT_BOOST: real := 1.0

  /** A parsed inner query and the inner-hits options, both decoded externally. */
  type QueryBuilder(==)
  type QueryInnerHits(==)

  /** The external decoders the parser hands an object to:
      `parseContext.parseInnerQueryBuilder()` (which may return null) and
      `new QueryInnerHits(parser)`. */
  datatype Decoders = Decoders(
    parseInnerQueryBuilder: SubValue -> Option<QueryBuilder>,
    innerHits: SubValue -> QueryInnerHits)

  /** The error the parser throws. */
  datatype QueryParsingException = QueryParsingException(message: string)

  /** The text in front of the field name in the unsupported-field error. */
  const UNSUPPORTED_PREFIX := "[has_parent] query does not support ["

  /** The error for a field the clause does not support. */
  function Unsupported(name: string): (e: QueryParsingException)
    ensures |e.message| == |UNSUPPORTED_PREFIX| + |name| + 1
  {
    QueryParsingException(UNSUPPORTED_PREFIX + name + "]")
  }

  /** The field an unsupported-field error names: the text between the prefix
      and the closing bracket, if the message has that shape. */
  function ReportedField(e: QueryParsingException): Option<string>
  {
    var m := e.message;
    if |UNSUPPORTED_PREFIX| < |m| && m[..|UNSUPPORTED_PREFIX|] == UNSUPPORTED_PREFIX && m[|m| - 1] == ']'
    then Some(m[|UNSUPPORTED_PREFIX|..|m| - 1])
    else None
  }

  /** The error names the field exactly: the name can be read back from the
      message, so two different fields never give the same error. */
  lemma UnsupportedNamesField(name: string)
    ensures ReportedField(Unsupported(name)) == Some(name)
  {
    var m := Unsupported(name).message;
    assert m == UNSUPPORTED_PREFIX + name + "]";
    assert m[..|UNSUPPORTED_PREFIX|] == UNSUPPORTED_PREFIX;
    assert m[|UNSUPPORTED_PREFIX|..|m| - 1] == name;
  }

  /** The parser's locals. */
  datatype Accumulator = Accumulator(
    currentFieldName: Option<string>,
    boost: real,
    parentType: Option<string>,
    score: bool,
    queryName: Option<string>,
    innerHits: Option<QueryInnerHits>,
    iqb: Option<QueryBuilder>)

  /** The locals before the first token: no score, the default boost. */
  const INITIAL := Accumulator(None, DEFAULT_BOOST, None, false, None, None, None)

  /** The builder the parser returns. */
  datatype HasParentQueryBuilder = HasParentQueryBuilder(
    parentType: Option<string>,
    query: Option<QueryBuilder>,
    score: bool,
    innerHits: Option<QueryInnerHits>,
    queryName: Option<string>,
    boost: real)

  /** The branch an object takes: the tests run in this order. */
  datatype ObjectField = InnerQuery | InnerHitsObject | UnsupportedObject

  function ObjectFieldOf(name: string): ObjectField
  {
    if Match(name, QUERY_FIELD) then InnerQuery
    else if name == "inner_hits" then InnerHitsObject
    else UnsupportedObject
  }

  /** The branch a scalar takes: the tests run in this order. */
  datatype ValueField = ParentTypeValue | ScoreModeValue | ScoreValue | BoostValue | QueryNameValue | UnsupportedValue

  function ValueFieldOf(name: string): ValueField
  {
    if Match(name, TYPE_FIELD) then ParentTypeValue
    else if Match(name, SCORE_FIELD) then ScoreModeValue
    else if name == "score" then ScoreValue
    else if name == "boost" then BoostValue
    else if name == "_name" then QueryNameValue
    else UnsupportedValue
  }

  /** What an object under field `name` does to the locals. */
  function ObjectStep(d: Decoders, s: Accumulator, name: string, sub: SubValue): (r: Result<Accumulator, QueryParsingException>)
    ensures r.Success? ==> r.value.currentFieldName == s.currentFieldName
  {
    match ObjectFieldOf(name)
    case InnerQuery => Success(s.(iqb := d.parseInnerQueryBuilder(sub)))
    case InnerHitsObject => Success(s.(innerHits := Some(d.innerHits(sub))))
    case UnsupportedObject => Failure(Unsupported(name))
  }

  /** What a scalar under field `name` does to the locals; the legacy score
      mode only knows "score" and "none". */
  function ValueStep(p: Accessors, s: Accumulator, name: string, v: Scalar): (r: Result<Accumulator, QueryParsingException>)
    ensures r.Success? ==> r.value.currentFieldName == s.currentFieldName
  {
    match ValueFieldOf(name)
    case ParentTypeValue => Success(s.(parentType := Some(Text(p, v))))
    case ScoreModeValue =>
      var scoreTypeValue := Text(p, v);
      if scoreTypeValue == "score" then Success(s.(score := true))
      else if scoreTypeValue == "none" then Success(s.(score := false))
      else Success(s)
    case ScoreValue => Success(s.(score := BooleanValue(p, v)))
    case BoostValue => Success(s.(boost := p.floatValue(v)))
    case QueryNameValue => Success(s.(queryName := Some(Text(p, v))))
    case UnsupportedValue => Failure(Unsupported(name))
  }

  /** What one token of the body does to the locals. */
  function Step(ctx: ParseContext, d: Decoders, s: Accumulator, t: Token): (r: Result<Accumulator, QueryParsingException>)
    requires t != EndObject
    requires t.FieldName? || s.currentFieldName.Some?
    ensures r.Success? ==> r.value.currentFieldName == if t.FieldName? then Some(t.name) else s.currentFieldName
  {
    if t.FieldName? then Success(s.(currentFieldName := Some(t.name)))
    else if t.StartObject? then ObjectStep(d, s, s.currentFieldName.value, t.obj)
    else if IsValue(t) then ValueStep(ctx.parser, s, s.currentFieldName.value, t.scalar)
    else Success(s)
  }

  /** The locals after the loop has read the tokens `ts` of a body, or the
      error that stopped it. */
  function Run(ctx: ParseContext, d: Decoders, ts: seq<Token>): (r: Result<Accumulator, QueryParsingException>)
    requires EndObject !in ts
    requires ts == [] || ts[0].FieldName?
    ensures r.Success? ==> r.value.currentFieldName == FieldBefore(ts, |ts|)
    decreases |ts|
  {
    if ts == [] then Success(INITIAL)
    else
      var n := |ts| - 1;
      assert ts[..n] == [] || ts[..n][0].FieldName?;
      FieldBeforePrefix(ts, n, n);
      var prior := Run(ctx, d, ts[..n]);
      if prior.Failure? then prior else Step(ctx, d, prior.value, ts[n])
  }

  /** The builder made from the locals after the loop. */
  function Assemble(s: Accumulator): HasParentQueryBuilder
  {
    HasParentQueryBuilder(s.parentType, s.iqb, s.score, s.innerHits, s.queryName, s.boost)
  }

  /** The builder the parser returns for a clause body, or its error. */
  function Parse(ctx: ParseContext, d: Decoders, ts: seq<Token>): Result<HasParentQueryBuilder, QueryParsingException>
    requires Positioned(ts)
  {
    var r := Run(ctx, d, Body(ts));
    if r.Success? then Success(Assemble(r.value)) else Failure(r.error)
  }

  /** Once the loop has failed, no later token changes the outcome. */
  lemma {:induction false} FailureSticks(ctx: ParseContext, d: Decoders, ts: seq<Token>, k: nat)
    requires EndObject !in ts && (ts == [] || ts[0].FieldName?)
    requires k <= |ts|
    requires ts[..k] == [] || ts[..k][0].FieldName?
    requires Run(ctx, d, ts[..k]).Failure?
    ensures Run(ctx, d, ts) == Run(ctx, d, ts[..k])
    decreases |ts|
  {
    if k < |ts| {
      var n := |ts| - 1;
      assert ts[..n][..k] == ts[..k];
      assert ts[..n] == [] || ts[..n][0].FieldName?;
      FailureSticks(ctx, d, ts[..n], k);
    } else {
      assert ts[..k] == ts;
    }
  }

  /** `fromXContent`: reads tokens up to the END_OBJECT that closes the body,
      updating its locals, and throws at the first field it does not support.
      Returns the builder or the error, and the position where it stopped: the
      END_OBJECT, or the token that caused the error. */
  method FromXContent(ctx: ParseContext, d: Decoders, ts: seq<Token>)
    returns (result: Result<HasParentQueryBuilder, QueryParsingException>, end: nat)
    requires Positioned(ts)
    ensures result == Parse(ctx, d, ts)
    ensures end < |ts| && EndObject !in ts[..end]
    ensures result.Success? ==> ts[end] == EndObject
    ensures result.Failure? ==> (ts[end].StartObject? || ts[end].Value?) && FieldBefore(ts, end).Some?
    ensures result.Failure? ==> result.error == Unsupported(FieldBefore(ts, end).value)
  {
    var p := ctx.parser;
    var boost := DEFAULT_BOOST;
    var parentType: Option<string> := None;
    var score := false;
    var queryName: Option<string> := None;
    var innerHits: Option<QueryInnerHits> := None;
    var currentFieldName: Option<string> := None;
    var iqb: Option<QueryBuilder> := None;
    ghost var body := Body(ts);
    var i := 0;
    while ts[i] != EndObject
      invariant i <= |body|
      invariant Run(ctx, d, body[..i]) ==
                Success(Accumulator(currentFieldName, boost, parentType, score, queryName, innerHits, iqb))
      decreases |body| - i
    {
      ghost var before := Accumulator(currentFieldName, boost, parentType, score, queryName, innerHits, iqb);
      var token := ts[i];
      assert body[..i + 1][..i] == body[..i];
      assert Run(ctx, d, body[..i + 1]) == Step(ctx, d, before, token);
      if token.FieldName? {
        currentFieldName := Some(token.name);
      } else if token.StartObject? {
        var name := currentFieldName.value;
        if Match(name, QUERY_FIELD) {
          assert ObjectFieldOf(name) == InnerQuery;
          iqb := d.parseInnerQueryBuilder(token.obj);
        } else if name == "inner_hits" {
          assert ObjectFieldOf(name) == InnerHitsObject;
          innerHits := Some(d.innerHits(token.obj));
        } else {
          result, end := Failure(Unsupported(name)), i;
          StoppedAt(ctx, d, ts, i);
          return;
        }
      } else if IsValue(token) {
        var name := currentFieldName.value;
        var v := token.scalar;
        if Match(name, TYPE_FIELD) {
          assert ValueFieldOf(name) == ParentTypeValue;
          parentType := Some(Text(p, v));
        } else if Match(name, SCORE_FIELD) {
          assert ValueFieldOf(name) == ScoreModeValue;
          var scoreTypeValue := Text(p, v);
          if scoreTypeValue == "score" {
            score := true;
          } else if scoreTypeValue == "none" {
            score := false;
          }
        } else if name == "score" {
          assert ValueFieldOf(name) == ScoreValue;
          score := BooleanValue(p, v);
        } else if name == "boost" {
          assert ValueFieldOf(name) == BoostValue;
          boost := p.floatValue(v);
        } else if name == "_name" {
          assert ValueFieldOf(name) == QueryNameValue;
          queryName := Some(Text(p, v));
        } else {
          result, end := Failure(Unsupported(name)), i;
          StoppedAt(ctx, d, ts, i);
          return;
        }
      }
      i := i + 1;
    }
    assert body[..i] == body;
    end := i;
    result := Success(HasParentQueryBuilder(parentType, iqb, score, innerHits, queryName, boost));
  }

  /** When the token at `i` is the first to fail, the whole body fails with its
      error, and that token belongs to the field the error names. */
  lemma StoppedAt(ctx: ParseContext, d: Decoders, ts: seq<Token>, i: nat)
    requires Positioned(ts) && i < |Body(ts)|
    requires Run(ctx, d, Body(ts)[..i]).Success?
    requires Run(ctx, d, Body(ts)[..i + 1]).Failure?
    ensures Parse(ctx, d, ts) == Failure(Run(ctx, d, Body(ts)[..i + 1]).error)
    ensures EndObject !in ts[..i] && ts[i] != EndObject
    ensures FieldBefore(ts, i) == Run(ctx, d, Body(ts)[..i]).value.currentFieldName
  {
    var body := Body(ts);
    assert body[..i + 1] == [] || body[..i + 1][0].FieldName?;
    FailureSticks(ctx, d, body, i + 1);
    assert ts[..i] == body[..i];
    FieldBeforePrefix(body, i, i);
    FieldBeforePrefix(ts, |body|, i);
  }

  // ---------------------------------------------------------------------
  // One token at a time

  /** The spellings each object branch accepts. */
  lemma ObjectFieldTests(name: string)
    ensures ObjectFieldOf(name) == InnerQuery <==> name in ["query", "filter"]
    ensures ObjectFieldOf(name) == InnerHitsObject <==> name == "inner_hits"
    ensures ObjectFieldOf(name) == UnsupportedObject <==> name !in ["query", "filter", "inner_hits"]
  {
  }

  /** The spellings each scalar branch accepts; `score` is not a spelling of
      the legacy score mode but a field of its own. */
  lemma ValueFieldTests(name: string)
    ensures ValueFieldOf(name) == ParentTypeValue <==> name in ["parent_type", "type"]
    ensures ValueFieldOf(name) == ScoreModeValue <==> name in ["score_type", "score_mode"]
    ensures ValueFieldOf(name) == ScoreValue <==> name == "score"
    ensures ValueFieldOf(name) == BoostValue <==> name == "boost"
    ensures ValueFieldOf(name) == QueryNameValue <==> name == "_name"
    ensures ValueFieldOf(name) == UnsupportedValue <==>
              name !in ["parent_type", "type", "score_type", "score_mode", "score", "boost", "_name"]
  {
  }

  /** An object under `query`/`filter` becomes the inner query (null included),
      one under `inner_hits` the inner hits, and one under any other field is
      an error that names the field. */
  lemma ObjectToken(ctx: ParseContext, d: Decoders, s: Accumulator, sub: SubValue)
    requires s.currentFieldName.Some?
    ensures var name := s.currentFieldName.value;
            name in ["query", "filter"] ==> Step(ctx, d, s, StartObject(sub)) == Success(s.(iqb := d.parseInnerQueryBuilder(sub)))
    ensures var name := s.currentFieldName.value;
            name == "inner_hits" ==> Step(ctx, d, s, StartObject(sub)) == Success(s.(innerHits := Some(d.innerHits(sub))))
    ensures var name := s.currentFieldName.value;
            name !in ["query", "filter", "inner_hits"] ==> Step(ctx, d, s, StartObject(sub)) == Failure(Unsupported(name))
  {
    ObjectFieldTests(s.currentFieldName.value);
  }

  /** The legacy `score_type`/`score_mode` maps "score" to true and "none" to
      false; any other text leaves the score as it was and is no error. */
  lemma ScoreModeToken(ctx: ParseContext, d: Decoders, s: Accumulator, v: Scalar)
    requires s.currentFieldName.Some? && s.currentFieldName.value in ["score_type", "score_mode"]
    requires !v.Null?
    ensures Text(ctx.parser, v) == "score" ==> Step(ctx, d, s, Value(v)) == Success(s.(score := true))
    ensures Text(ctx.parser, v) == "none" ==> Step(ctx, d, s, Value(v)) == Success(s.(score := false))
    ensures Text(ctx.parser, v) !in ["score", "none"] ==> Step(ctx, d, s, Value(v)) == Success(s)
  {
    ValueFieldTests(s.currentFieldName.value);
  }

  /** `score` takes the token's boolean reading, `parent_type`/`type` its text,
      `boost` its float and `_name` its text. */
  lemma KnownValueToken(ctx: ParseContext, d: Decoders, s: Accumulator, v: Scalar)
    requires s.currentFieldName.Some? && !v.Null?
    ensures var name := s.currentFieldName.value;
            name == "score" ==> Step(ctx, d, s, Value(v)) == Success(s.(score := BooleanValue(ctx.parser, v)))
    ensures var name := s.currentFieldName.value;
            name in ["parent_type", "type"] ==> Step(ctx, d, s, Value(v)) == Success(s.(parentType := Some(Text(ctx.parser, v))))
    ensures var name := s.currentFieldName.value;
            name == "boost" ==> Step(ctx, d, s, Value(v)) == Success(s.(boost := ctx.parser.floatValue(v)))
    ensures var name := s.currentFieldName.value;
            name == "_name" ==> Step(ctx, d, s, Value(v)) == Success(s.(queryName := Some(Text(ctx.parser, v))))
  {
    ValueFieldTests(s.currentFieldName.value);
  }

  /** A scalar other than null under any other field is an error that names
      the field. */
  lemma UnknownValueToken(ctx: ParseContext, d: Decoders, s: Accumulator, v: Scalar)
    requires s.currentFieldName.Some? && !v.Null?
    requires s.currentFieldName.value !in ["parent_type", "type", "score_type", "score_mode", "score", "boost", "_name"]
    ensures Step(ctx, d, s, Value(v)) == Failure(Unsupported(s.currentFieldName.value))
  {
    ValueFieldTests(s.currentFieldName.value);
  }

  /** The start and end of an array change nothing (its elements are read as
      tokens of their own, under the array's field), and neither does a null
      value, which is not a value token and so reaches no branch: not even
      under an unsupported field is it an error. */
  lemma InertTokens(ctx: ParseContext, d: Decoders, s: Accumulator, t: Token)
    requires t.StartArray? || t == EndArray || t == Value(Null)
    requires s.currentFieldName.Some?
    ensures Step(ctx, d, s, t) == Success(s)
  {
  }

  /** An empty clause gives the defaults: no parent type, no inner query, no
      score, no inner hits, no name, the default boost. */
  lemma EmptyClause(ctx: ParseContext, d: Decoders)
    ensures Parse(ctx, d, [EndObject]) == Success(HasParentQueryBuilder(None, None, false, None, None, DEFAULT_BOOST))
  {
    assert Body([EndObject]) == [];
  }

  /** A body with a scalar other than null under an unsupported field fails,
      whatever comes after it (and the error may come from an earlier token). */
  lemma UnsupportedFieldFails(ctx: ParseContext, d: Decoders, ts: seq<Token>, i: nat)
    requires Positioned(ts) && i < |Body(ts)| && IsValue(Body(ts)[i])
    requires FieldBefore(ts, i).Some?
    requires FieldBefore(ts, i).value !in ["parent_type", "type", "score_type", "score_mode", "score", "boost", "_name"]
    ensures Parse(ctx, d, ts).Failure?
  {
    var body := Body(ts);
    assert body[..i] == [] || body[..i][0].FieldName?;
    assert body[..i + 1] == [] || body[..i + 1][0].FieldName?;
    if Run(ctx, d, body[..i]).Failure? {
      FailureSticks(ctx, d, body, i);
    } else {
      FieldBeforePrefix(body, i, i);
      FieldBeforePrefix(ts, |body|, i);
      assert body[..i + 1][..i] == body[..i];
      UnknownValueToken(ctx, d, Run(ctx, d, body[..i]).value, body[i].scalar);
      FailureSticks(ctx, d, body, i + 1);
    }
  }

  // ---------------------------------------------------------------------
  // The last token wins

  /** What a token under field `name` writes into each local, if anything. */
  function ParentTypeWrite(ctx: ParseContext, name: string, t: Token): Option<Option<string>>
  {
    if IsValue(t) && name in ["parent_type", "type"] then Some(Some(Text(ctx.parser, t.scalar))) else None
  }

  function QueryWrite(d: Decoders, name: string, t: Token): Option<Option<QueryBuilder>>
  {
    if t.StartObject? && name in ["query", "filter"] then Some(d.parseInnerQueryBuilder(t.obj)) else None
  }

  function InnerHitsWrite(d: Decoders, name: string, t: Token): Option<Option<QueryInnerHits>>
  {
    if t.StartObject? && name == "inner_hits" then Some(Some(d.innerHits(t.obj))) else None
  }

  function ScoreWrite(ctx: ParseContext, name: string, t: Token): Option<bool>
  {
    if !IsValue(t) then None
    else if name in ["score_type", "score_mode"] then
      if Text(ctx.parser, t.scalar) == "score" then Some(true)
      else if Text(ctx.parser, t.scalar) == "none" then Some(false)
      else None
    else if name == "score" then Some(BooleanValue(ctx.parser, t.scalar))
    else None
  }

  function BoostWrite(ctx: ParseContext, name: string, t: Token): Option<real>
  {
    if IsValue(t) && name == "boost" then Some(ctx.parser.floatValue(t.scalar)) else None
  }

  function QueryNameWrite(ctx: ParseContext, name: string, t: Token): Option<Option<string>>
  {
    if IsValue(t) && name == "_name" then Some(Some(Text(ctx.parser, t.scalar))) else None
  }

  function ParentTypeWriter(ctx: ParseContext): (string, Token) -> Option<Option<string>>
  {
    (name, t) => ParentTypeWrite(ctx, name, t)
  }

  function QueryWriter(d: Decoders): (string, Token) -> Option<Option<QueryBuilder>>
  {
    (name, t) => QueryWrite(d, name, t)
  }

  function InnerHitsWriter(d: Decoders): (string, Token) -> Option<Option<QueryInnerHits>>
  {
    (name, t) => InnerHitsWrite(d, name, t)
  }

  function ScoreWriter(ctx: ParseContext): (string, Token) -> Option<bool>
  {
    (name, t) => ScoreWrite(ctx, name, t)
  }

  function BoostWriter(ctx: ParseContext): (string, Token) -> Option<real>
  {
    (name, t) => BoostWrite(ctx, name, t)
  }

  function QueryNameWriter(ctx: ParseContext): (string, Token) -> Option<Option<string>>
  {
    (name, t) => QueryNameWrite(ctx, name, t)
  }

  /** A token that does not fail either writes a local or leaves it as it was. */
  lemma SlotsStep(ctx: ParseContext, d: Decoders, s: Accumulator, t: Token)
    requires t != EndObject && (t.FieldName? || s.currentFieldName.Some?)
    requires Step(ctx, d, s, t).Success?
    ensures Step(ctx, d, s, t).value.parentType ==
              Override(WriteAt(s.currentFieldName, t, ParentTypeWriter(ctx)), s.parentType)
    ensures Step(ctx, d, s, t).value.iqb == Override(WriteAt(s.currentFieldName, t, QueryWriter(d)), s.iqb)
    ensures Step(ctx, d, s, t).value.innerHits ==
              Override(WriteAt(s.currentFieldName, t, InnerHitsWriter(d)), s.innerHits)
    ensures Step(ctx, d, s, t).value.score == Override(WriteAt(s.currentFieldName, t, ScoreWriter(ctx)), s.score)
    ensures Step(ctx, d, s, t).value.boost == Override(WriteAt(s.currentFieldName, t, BoostWriter(ctx)), s.boost)
    ensures Step(ctx, d, s, t).value.queryName ==
              Override(WriteAt(s.currentFieldName, t, QueryNameWriter(ctx)), s.queryName)
  {
    if !t.FieldName? {
      ObjectFieldTests(s.currentFieldName.value);
      ValueFieldTests(s.currentFieldName.value);
    }
  }

  /** When the loop gets through the body, each local holds what the last
      token to write it wrote, or its starting value when no token did. */
  lemma {:induction false} SlotsAreLastWrites(ctx: ParseContext, d: Decoders, ts: seq<Token>)
    requires EndObject !in ts && (ts == [] || ts[0].FieldName?)
    requires Run(ctx, d, ts).Success?
    ensures Run(ctx, d, ts).value.parentType == Override(LastWrite(ts, ParentTypeWriter(ctx)), None)
    ensures Run(ctx, d, ts).value.iqb == Override(LastWrite(ts, QueryWriter(d)), None)
    ensures Run(ctx, d, ts).value.innerHits == Override(LastWrite(ts, InnerHitsWriter(d)), None)
    ensures Run(ctx, d, ts).value.score == Override(LastWrite(ts, ScoreWriter(ctx)), false)
    ensures Run(ctx, d, ts).value.boost == Override(LastWrite(ts, BoostWriter(ctx)), DEFAULT_BOOST)
    ensures Run(ctx, d, ts).value.queryName == Override(LastWrite(ts, QueryNameWriter(ctx)), None)
    decreases |ts|
  {
    if ts != [] {
      var n := |ts| - 1;
      assert ts[..n] == [] || ts[..n][0].FieldName?;
      SlotsAreLastWrites(ctx, d, ts[..n]);
      FieldBeforePrefix(ts, n, n);
      SlotsStep(ctx, d, Run(ctx, d, ts[..n]).value, ts[n]);
    }
  }

  /** A clause that parses carries the last parent type, inner query, inner
      hits, score, boost and query name written, or the defaults. */
  lemma BuilderTakesLastWrites(ctx: ParseContext, d: Decoders, ts: seq<Token>)
    requires Positioned(ts) && Parse(ctx, d, ts).Success?
    ensures Parse(ctx, d, ts).value.parentType == Override(LastWrite(Body(ts), ParentTypeWriter(ctx)), None)
    ensures Parse(ctx, d, ts).value.query == Override(LastWrite(Body(ts), QueryWriter(d)), None)
    ensures Parse(ctx, d, ts).value.innerHits == Override(LastWrite(Body(ts), InnerHitsWriter(d)), None)
    ensures Parse(ctx, d, ts).value.score == Override(LastWrite(Body(ts), ScoreWriter(ctx)), false)
    ensures Parse(ctx, d, ts).value.boost == Override(LastWrite(Body(ts), BoostWriter(ctx)), DEFAULT_BOOST)
    ensures Parse(ctx, d, ts).value.queryName == Override(LastWrite(Body(ts), QueryNameWriter(ctx)), None)
  {
    SlotsAreLastWrites(ctx, d, Body(ts));
  }

  // ---------------------------------------------------------------------
  // Deprecated spellings

  /** Two spellings that take the same branch for an object and for a scalar. */
  predicate SameOption(a: string, b: string)
  {
    ObjectFieldOf(a) == ObjectFieldOf(b) && ValueFieldOf(a) == ValueFieldOf(b)
  }

  /** `filter`/`query`, `type`/`parent_type` and `score_mode`/`score_type` are
      spellings of one option. */
  lemma DeprecatedSpellings()
    ensures SameOption("filter", "query") && SameOption("type", "parent_type")
    ensures SameOption("score_mode", "score_type")
  {
    ObjectFieldTests("filter");
    ObjectFieldTests("query");
    ObjectFieldTests("type");
    ObjectFieldTests("parent_type");
    ObjectFieldTests("score_mode");
    ObjectFieldTests("score_type");
    ValueFieldTests("filter");
    ValueFieldTests("query");
    ValueFieldTests("type");
    ValueFieldTests("parent_type");
    ValueFieldTests("score_mode");
    ValueFieldTests("score_type");
  }

  /** One token read under spelling `b` instead of `a` succeeds or fails alike
      and, when it succeeds, does the same to the locals. */
  lemma RespellStep(ctx: ParseContext, d: Decoders, s: Accumulator, t: Token, a: string, b: string)
    requires SameOption(a, b)
    requires t != EndObject && (t.FieldName? || s.currentFieldName.Some?)
    ensures var r := Step(ctx, d, s.(currentFieldName := RespellName(s.currentFieldName, a, b)), RespellToken(t, a, b));
            var q := Step(ctx, d, s, t);
            && (r.Success? <==> q.Success?)
            && (q.Success? ==> r.value == q.value.(currentFieldName := RespellName(q.value.currentFieldName, a, b)))
  {
  }

  /** Respelling a field name changes neither whether the loop gets through the
      body nor, when it does, anything but its current field name. */
  lemma {:induction false} RespellRun(ctx: ParseContext, d: Decoders, ts: seq<Token>, a: string, b: string)
    requires EndObject !in ts && (ts == [] || ts[0].FieldName?)
    requires SameOption(a, b)
    ensures EndObject !in Respell(ts, a, b)
    ensures Respell(ts, a, b) == [] || Respell(ts, a, b)[0].FieldName?
    ensures Run(ctx, d, Respell(ts, a, b)).Success? <==> Run(ctx, d, ts).Success?
    ensures Run(ctx, d, ts).Success? ==>
              Run(ctx, d, Respell(ts, a, b)).value ==
              Run(ctx, d, ts).value.(currentFieldName := RespellName(Run(ctx, d, ts).value.currentFieldName, a, b))
    decreases |ts|
  {
    var r := Respell(ts, a, b);
    assert forall j :: 0 <= j < |r| ==> (r[j] == EndObject <==> ts[j] == EndObject);
    if ts != [] {
      var n := |ts| - 1;
      assert ts[..n] == [] || ts[..n][0].FieldName?;
      assert Respell(ts[..n], a, b) == r[..n];
      RespellRun(ctx, d, ts[..n], a, b);
      FieldBeforePrefix(ts, n, n);
      assert r[..n] == [] || r[..n][0].FieldName?;
      var prior := Run(ctx, d, ts[..n]);
      if prior.Success? {
        RespellStep(ctx, d, prior.value, ts[n], a, b);
        assert Run(ctx, d, r) == Step(ctx, d, Run(ctx, d, r[..n]).value, r[n]);
        assert Run(ctx, d, ts) == Step(ctx, d, prior.value, ts[n]);
      } else {
        assert Run(ctx, d, r) == Run(ctx, d, r[..n]);
        assert Run(ctx, d, ts) == prior;
      }
    }
  }

  /** A clause written with one spelling of an option parses or fails like the
      clause written with the other, and parses to the same builder; only the
      field named in an error may differ. */
  lemma AliasesParseAlike(ctx: ParseContext, d: Decoders, ts: seq<Token>, a: string, b: string)
    requires Positioned(ts) && SameOption(a, b)
    ensures Positioned(Respell(ts, a, b))
    ensures Parse(ctx, d, Respell(ts, a, b)).Success? <==> Parse(ctx, d, ts).Success?
    ensures Parse(ctx, d, ts).Success? ==> Parse(ctx, d, Respell(ts, a, b)) == Parse(ctx, d, ts)
  {
    RespellBody(ts, a, b);
    RespellRun(ctx, d, Body(ts), a, b);
  }
}
