/**
  The `geo_distance_range` query parser: one pass over the clause body that
  overwrites fourteen optional slots, then a builder that receives the slots
  that were set.
*/
module GeoDistanceRangeQueryParser {
  import opened Wrappers
  import opened QueryParsing

  const FROM_FIELD := ParseField("from", [], None)
  const TO_FIELD := ParseField("to", [], None)
  const INCLUDE_LOWER_FIELD := ParseField("include_lower", [], None)
  const INCLUDE_UPPER_FIELD := ParseField("include_upper", [], None)
  const GT_FIELD := ParseField("gt", [], None)
  const GTE_FIELD := ParseField("gte", ["ge"], None)
  const LT_FIELD := ParseField("lt", [], None)
  const LTE_FIELD := ParseField("lte", ["le"], None)
  const UNIT_FIELD := ParseField("unit", [], None)
  const DISTANCE_TYPE_FIELD := ParseField("distance_type", [], None)
  const NAME_FIELD := ParseField("_name", [], None)
  const BOOST_FIELD := ParseField("boost", [], None)
  const OPTIMIZE_BBOX_FIELD := ParseField("optimize_bbox", [], None)
  const COERCE_FIELD := ParseField("coerce", ["normalize"], None)
  const IGNORE_MALFORMED_FIELD := ParseField("ignore_malformed", [], None)

  /** Every spelling of the ten range options. */
  const RANGE_NAMES: seq<string> := ["from", "to", "include_lower", "include_upper", "gt", "gte", "ge", "lt", "lte", "le",
                                     "unit", "distance_type"]

  /** Every spelling of the five settings. */
  const SETTING_NAMES: seq<string> := ["_name", "boost", "optimize_bbox", "coerce", "normalize", "ignore_malformed"]

  /** Every spelling of the fifteen options, deprecated ones included. */
  const KNOWN_NAMES: seq<string> := RANGE_NAMES + SETTING_NAMES

  /** The suffixes of the geo point field mapper's sub-fields. */
  const LAT_SUFFIX := ".lat"
  const LON_SUFFIX := ".lon"
  const GEOHASH_SUFFIX := ".geohash"

  /** A `DistanceUnit` and a `GeoDistance` (the distance formula), both decoded externally. */
  type DistanceUnit(==)
  type GeoDistance(==)

  /** A geo point; `new GeoPoint()` starts at (0, 0). */
  datatype GeoPoint = GeoPoint(lat: real, lon: real)

  const NEW_POINT := GeoPoint(0.0, 0.0)

  /** The external decoders the parser calls: `GeoUtils.parseGeoPoint` (which
      receives the point to update), `GeoPoint.resetFromString` ("lat,lon" or a
      geohash), `DistanceUnit.fromString` and `GeoDistance.fromString`. */
  datatype Decoders = Decoders(
    parseGeoPoint: (SubValue, GeoPoint) -> GeoPoint,
    resetFromString: string -> GeoPoint,
    distanceUnit: string -> DistanceUnit,
    geoDistance: string -> GeoDistance)

  /** A range bound as read: text (e.g. "2km", left to the unit parser) or a number. */
  datatype Bound = TextBound(text: string) | NumberBound(number: real)

  /** The parser's locals: the current field name and the fourteen optional slots. */
  datatype Accumulator = Accumulator(
    currentFieldName: Option<string>,
    boost: Option<real>,
    queryName: Option<string>,
    point: Option<GeoPoint>,
    geohash: Option<string>,
    fieldName: Option<string>,
    vFrom: Option<Bound>,
    vTo: Option<Bound>,
    includeLower: Option<bool>,
    includeUpper: Option<bool>,
    unit: Option<DistanceUnit>,
    geoDistance: Option<GeoDistance>,
    optimizeBbox: Option<string>,
    coerce: Option<bool>,
    ignoreMalformed: Option<bool>)

  const EMPTY := Accumulator(None, None, None, None, None, None, None, None, None, None, None, None, None, None, None)

  /** The builder the parser returns: the field name it is created with, and for
      each setter the argument it was called with, or None when the parser did
      not call it (the builder then keeps its own default). */
  datatype GeoDistanceRangeQueryBuilder = GeoDistanceRangeQueryBuilder(
    fieldName: Option<string>,
    boost: Option<real>,
    queryName: Option<string>,
    point: Option<GeoPoint>,
    geohash: Option<string>,
    from: Option<Bound>,
    to: Option<Bound>,
    includeUpper: Option<bool>,
    includeLower: Option<bool>,
    unit: Option<DistanceUnit>,
    geoDistance: Option<GeoDistance>,
    optimizeBbox: Option<string>,
    coerce: Option<bool>,
    ignoreMalformed: Option<bool>)

  /** The point that the in-place updates start from. */
  function PointOrNew(point: Option<GeoPoint>): GeoPoint
  {
    if point.Some? then point.value else NEW_POINT
  }

  /** A bound slot after a bound token: a null token leaves it (a case only the
      intended step below reaches), a string token stores its text, any other
      token stores its number. */
  function Coerce(p: Accessors, v: Scalar, prior: Option<Bound>): Option<Bound>
  {
    if v.Null? then prior
    else if v.Str? then Some(TextBound(Text(p, v)))
    else Some(NumberBound(p.numberValue(v)))
  }

  /** The branch a scalar field takes in the parser: the field tests run in this
      order and the first that holds wins; a name that passes none is read as a
      point string. */
  datatype ScalarField =
    | FromBound | ToBound | IncludeLowerFlag | IncludeUpperFlag
    | GtBound | GteBound | LtBound | LteBound | UnitOption | DistanceTypeOption
    | LatSuffix | LonSuffix | GeohashSuffix
    | QueryNameSetting | BoostSetting | OptimizeBboxSetting | CoerceSetting | IgnoreMalformedSetting
    | PointString

  /** The parser's field tests for a scalar, in its order: the range options,
      then the sub-field suffixes, then the settings. */
  function ScalarFieldOf(name: string): ScalarField
  {
    var range := RangeFieldOf(name);
    if range.Some? then range.value
    else
      var suffix := SuffixFieldOf(name);
      if suffix.Some? then suffix.value else SettingFieldOf(name)
  }

  /** The tests for the ten range options. */
  function RangeFieldOf(name: string): Option<ScalarField>
  {
    if Match(name, FROM_FIELD) then Some(FromBound)
    else if Match(name, TO_FIELD) then Some(ToBound)
    else if Match(name, INCLUDE_LOWER_FIELD) then Some(IncludeLowerFlag)
    else if Match(name, INCLUDE_UPPER_FIELD) then Some(IncludeUpperFlag)
    else if Match(name, GT_FIELD) then Some(GtBound)
    else if Match(name, GTE_FIELD) then Some(GteBound)
    else if Match(name, LT_FIELD) then Some(LtBound)
    else if Match(name, LTE_FIELD) then Some(LteBound)
    else if Match(name, UNIT_FIELD) then Some(UnitOption)
    else if Match(name, DISTANCE_TYPE_FIELD) then Some(DistanceTypeOption)
    else None
  }

  /** The tests for the geo point's sub-field suffixes. */
  function SuffixFieldOf(name: string): Option<ScalarField>
  {
    if EndsWith(name, LAT_SUFFIX) then Some(LatSuffix)
    else if EndsWith(name, LON_SUFFIX) then Some(LonSuffix)
    else if EndsWith(name, GEOHASH_SUFFIX) then Some(GeohashSuffix)
    else None
  }

  /** The tests for the five settings; a name that passes none is a point. */
  function SettingFieldOf(name: string): ScalarField
  {
    if Match(name, NAME_FIELD) then QueryNameSetting
    else if Match(name, BOOST_FIELD) then BoostSetting
    else if Match(name, OPTIMIZE_BBOX_FIELD) then OptimizeBboxSetting
    else if Match(name, COERCE_FIELD) then CoerceSetting
    else if Match(name, IGNORE_MALFORMED_FIELD) then IgnoreMalformedSetting
    else PointString
  }

  /** What a scalar token under field `name` does to the slots. */
  function ValueStep(p: Accessors, d: Decoders, s: Accumulator, name: string, v: Scalar): (r: Accumulator)
    ensures r.currentFieldName == s.currentFieldName
    ensures ScalarFieldOf(name) !in {FromBound, GtBound, GteBound} ==> r.vFrom == s.vFrom
    ensures ScalarFieldOf(name) !in {ToBound, LtBound, LteBound} ==> r.vTo == s.vTo
    ensures ScalarFieldOf(name) !in {IncludeLowerFlag, GtBound, GteBound} ==> r.includeLower == s.includeLower
    ensures ScalarFieldOf(name) !in {IncludeUpperFlag, LtBound, LteBound} ==> r.includeUpper == s.includeUpper
    ensures ScalarFieldOf(name) !in {LatSuffix, LonSuffix, GeohashSuffix, PointString} ==> r.fieldName == s.fieldName
  {
    match ScalarFieldOf(name)
    case FromBound => s.(vFrom := Coerce(p, v, s.vFrom))
    case ToBound => s.(vTo := Coerce(p, v, s.vTo))
    case IncludeLowerFlag => s.(includeLower := Some(BooleanValue(p, v)))
    case IncludeUpperFlag => s.(includeUpper := Some(BooleanValue(p, v)))
    case GtBound => s.(vFrom := Coerce(p, v, s.vFrom), includeLower := Some(false))
    case GteBound => s.(vFrom := Coerce(p, v, s.vFrom), includeLower := Some(true))
    case LtBound => s.(vTo := Coerce(p, v, s.vTo), includeUpper := Some(false))
    case LteBound => s.(vTo := Coerce(p, v, s.vTo), includeUpper := Some(true))
    case UnitOption => s.(unit := Some(d.distanceUnit(Text(p, v))))
    case DistanceTypeOption => s.(geoDistance := Some(d.geoDistance(Text(p, v))))
    case LatSuffix =>
      s.(point := Some(PointOrNew(s.point).(lat := p.doubleValue(v))),
         fieldName := Some(StripSuffix(name, LAT_SUFFIX)))
    case LonSuffix =>
      s.(point := Some(PointOrNew(s.point).(lon := p.doubleValue(v))),
         fieldName := Some(StripSuffix(name, LON_SUFFIX)))
    case GeohashSuffix =>
      s.(geohash := Some(Text(p, v)), fieldName := Some(StripSuffix(name, GEOHASH_SUFFIX)))
    case QueryNameSetting => s.(queryName := Some(Text(p, v)))
    case BoostSetting => s.(boost := Some(p.floatValue(v)))
    case OptimizeBboxSetting => s.(optimizeBbox := TextOrNull(p, v))
    case CoerceSetting => s.(coerce := Some(BooleanValue(p, v)))
    case IgnoreMalformedSetting => s.(ignoreMalformed := Some(BooleanValue(p, v)))
    case PointString => s.(point := Some(d.resetFromString(Text(p, v))), fieldName := Some(name))
  }

  /** What one token of the body does to the locals. */
  function Step(ctx: ParseContext, d: Decoders, s: Accumulator, t: Token): (r: Accumulator)
    requires t != EndObject
    requires t.FieldName? || s.currentFieldName.Some?
    ensures r.currentFieldName == if t.FieldName? then Some(t.name) else s.currentFieldName
  {
    if t.FieldName? then s.(currentFieldName := Some(t.name))
    else
      var name := s.currentFieldName.value;
      if ctx.isDeprecatedSetting(name) then s
      else if t.StartArray? then
        s.(point := Some(d.parseGeoPoint(t.arr, PointOrNew(s.point))), fieldName := Some(name))
      else if t.StartObject? then
        s.(fieldName := Some(name), point := Some(d.parseGeoPoint(t.obj, PointOrNew(s.point))))
      else if IsValue(t) then ValueStep(ctx.parser, d, s, name, t.scalar)
      else s
  }

  /** The locals after the loop has read the tokens `ts` of a body; the current
      field name is the one the last FIELD_NAME carried. */
  function Run(ctx: ParseContext, d: Decoders, ts: seq<Token>): (s: Accumulator)
    requires EndObject !in ts
    requires ts == [] || ts[0].FieldName?
    ensures s.currentFieldName == FieldBefore(ts, |ts|)
    decreases |ts|
  {
    if ts == [] then EMPTY
    else
      var n := |ts| - 1;
      assert ts[..n] == [] || ts[..n][0].FieldName?;
      FieldBeforePrefix(ts, n, n);
      Step(ctx, d, Run(ctx, d, ts[..n]), ts[n])
  }

  /** The builder made from the locals after the loop: created with the field
      name, then given each slot that was set, the point as its two coordinates. */
  function Assemble(s: Accumulator): GeoDistanceRangeQueryBuilder
  {
    GeoDistanceRangeQueryBuilder(
      s.fieldName, s.boost, s.queryName,
      if s.point.Some? then Some(GeoPoint(s.point.value.lat, s.point.value.lon)) else None,
      s.geohash, s.vFrom, s.vTo, s.includeUpper, s.includeLower, s.unit, s.geoDistance,
      s.optimizeBbox, s.coerce, s.ignoreMalformed)
  }

  /** The builder the parser returns for a clause body. */
  function Parse(ctx: ParseContext, d: Decoders, ts: seq<Token>): GeoDistanceRangeQueryBuilder
    requires Positioned(ts)
  {
    Assemble(Run(ctx, d, Body(ts)))
  }

  /** `fromXContent`: reads tokens up to the END_OBJECT that closes the body,
      updating its locals, then creates the builder and applies the slots that
      were set. Returns the builder and the position of that END_OBJECT. */
  method FromXContent(ctx: ParseContext, d: Decoders, ts: seq<Token>)
    returns (queryBuilder: GeoDistanceRangeQueryBuilder, end: nat)
    requires Positioned(ts)
    ensures end < |ts| && ts[end] == EndObject && EndObject !in ts[..end]
    ensures queryBuilder == Parse(ctx, d, ts)
  {
    var p := ctx.parser;
    var boost: Option<real> := None;
    var queryName: Option<string> := None;
    var currentFieldName: Option<string> := None;
    var point: Option<GeoPoint> := None;
    var geohash: Option<string> := None;
    var fieldName: Option<string> := None;
    var vFrom: Option<Bound> := None;
    var vTo: Option<Bound> := None;
    var includeLower: Option<bool> := None;
    var includeUpper: Option<bool> := None;
    var unit: Option<DistanceUnit> := None;
    var geoDistance: Option<GeoDistance> := None;
    var optimizeBbox: Option<string> := None;
    var coerce: Option<bool> := None;
    var ignoreMalformed: Option<bool> := None;
    ghost var body := Body(ts);
    var i := 0;
    while ts[i] != EndObject
      invariant i <= |body|
      invariant Accumulator(currentFieldName, boost, queryName, point, geohash, fieldName, vFrom, vTo,
                            includeLower, includeUpper, unit, geoDistance, optimizeBbox, coerce,
                            ignoreMalformed) == Run(ctx, d, body[..i])
      decreases |body| - i
    {
      ghost var before := Accumulator(currentFieldName, boost, queryName, point, geohash, fieldName, vFrom, vTo,
                                      includeLower, includeUpper, unit, geoDistance, optimizeBbox, coerce,
                                      ignoreMalformed);
      var token := ts[i];
      assert body[..i + 1][..i] == body[..i];
      assert Run(ctx, d, body[..i + 1]) == Step(ctx, d, before, token);
      if token.FieldName? {
        currentFieldName := Some(token.name);
      } else if ctx.isDeprecatedSetting(currentFieldName.value) {
        // skip
      } else if token.StartArray? {
        point := Some(d.parseGeoPoint(token.arr, PointOrNew(point)));
        fieldName := currentFieldName;
      } else if token.StartObject? {
        fieldName := currentFieldName;
        point := Some(d.parseGeoPoint(token.obj, PointOrNew(point)));
      } else if IsValue(token) {
        var name := currentFieldName.value;
        var v := token.scalar;
        match ScalarFieldOf(name) {
          case FromBound =>
            if v.Null? {
            } else if v.Str? {
              vFrom := Some(TextBound(Text(p, v)));
            } else {
              vFrom := Some(NumberBound(p.numberValue(v)));
            }
          case ToBound =>
            if v.Null? {
            } else if v.Str? {
              vTo := Some(TextBound(Text(p, v)));
            } else {
              vTo := Some(NumberBound(p.numberValue(v)));
            }
          case IncludeLowerFlag =>
            includeLower := Some(BooleanValue(p, v));
          case IncludeUpperFlag =>
            includeUpper := Some(BooleanValue(p, v));
          case GtBound =>
            if v.Null? {
            } else if v.Str? {
              vFrom := Some(TextBound(Text(p, v)));
            } else {
              vFrom := Some(NumberBound(p.numberValue(v)));
            }
            includeLower := Some(false);
          case GteBound =>
            if v.Null? {
            } else if v.Str? {
              vFrom := Some(TextBound(Text(p, v)));
            } else {
              vFrom := Some(NumberBound(p.numberValue(v)));
            }
            includeLower := Some(true);
          case LtBound =>
            if v.Null? {
            } else if v.Str? {
              vTo := Some(TextBound(Text(p, v)));
            } else {
              vTo := Some(NumberBound(p.numberValue(v)));
            }
            includeUpper := Some(false);
          case LteBound =>
            if v.Null? {
            } else if v.Str? {
              vTo := Some(TextBound(Text(p, v)));
            } else {
              vTo := Some(NumberBound(p.numberValue(v)));
            }
            includeUpper := Some(true);
          case UnitOption =>
            unit := Some(d.distanceUnit(Text(p, v)));
          case DistanceTypeOption =>
            geoDistance := Some(d.geoDistance(Text(p, v)));
          case LatSuffix =>
            point := Some(PointOrNew(point).(lat := p.doubleValue(v)));
            fieldName := Some(name[..|name| - |LAT_SUFFIX|]);
          case LonSuffix =>
            point := Some(PointOrNew(point).(lon := p.doubleValue(v)));
            fieldName := Some(name[..|name| - |LON_SUFFIX|]);
          case GeohashSuffix =>
            geohash := Some(Text(p, v));
            fieldName := Some(name[..|name| - |GEOHASH_SUFFIX|]);
          case QueryNameSetting =>
            queryName := Some(Text(p, v));
          case BoostSetting =>
            boost := Some(p.floatValue(v));
          case OptimizeBboxSetting =>
            optimizeBbox := TextOrNull(p, v);
          case CoerceSetting =>
            coerce := Some(BooleanValue(p, v));
          case IgnoreMalformedSetting =>
            ignoreMalformed := Some(BooleanValue(p, v));
          case PointString =>
            point := Some(d.resetFromString(Text(p, v)));
            fieldName := currentFieldName;
        }
      }
      i := i + 1;
    }
    assert body[..i] == body;
    end := i;

    queryBuilder := GeoDistanceRangeQueryBuilder(
      fieldName, boost, queryName,
      if point.Some? then Some(GeoPoint(point.value.lat, point.value.lon)) else None,
      geohash, vFrom, vTo, includeUpper, includeLower, unit, geoDistance,
      optimizeBbox, coerce, ignoreMalformed);
  }

  // ---------------------------------------------------------------------
  // One token at a time

  /** Every sub-field suffix starts with a dot, so a name without one has no suffix. */
  lemma SuffixNeedsDot(name: string)
    ensures EndsWith(name, LAT_SUFFIX) ==> '.' in name
    ensures EndsWith(name, LON_SUFFIX) ==> '.' in name
    ensures EndsWith(name, GEOHASH_SUFFIX) ==> '.' in name
  {
    if EndsWith(name, LAT_SUFFIX) {
      assert name[|name| - 4] == name[|name| - 4..][0];
    }
    if EndsWith(name, LON_SUFFIX) {
      assert name[|name| - 4] == name[|name| - 4..][0];
    }
    if EndsWith(name, GEOHASH_SUFFIX) {
      assert name[|name| - 8] == name[|name| - 8..][0];
    }
  }

  /** Only the range tests classify a name as a range option. */
  lemma RangeKindsFromRangeTests(name: string)
    ensures ScalarFieldOf(name) in {FromBound, ToBound, IncludeLowerFlag, IncludeUpperFlag, GtBound, GteBound,
                                    LtBound, LteBound, UnitOption, DistanceTypeOption} ==>
              RangeFieldOf(name) == Some(ScalarFieldOf(name))
  {
  }

  /** The spellings of the range options, in the order the parser tries them:
      a name reaches a range branch exactly when it is one of that option's
      spellings. */
  lemma RangeFieldTests(name: string)
    ensures ScalarFieldOf(name) == FromBound <==> name == "from"
    ensures ScalarFieldOf(name) == ToBound <==> name == "to"
    ensures ScalarFieldOf(name) == IncludeLowerFlag <==> name == "include_lower"
    ensures ScalarFieldOf(name) == IncludeUpperFlag <==> name == "include_upper"
    ensures ScalarFieldOf(name) == GtBound <==> name == "gt"
    ensures ScalarFieldOf(name) == GteBound <==> name in ["gte", "ge"]
    ensures ScalarFieldOf(name) == LtBound <==> name == "lt"
    ensures ScalarFieldOf(name) == LteBound <==> name in ["lte", "le"]
    ensures ScalarFieldOf(name) == UnitOption <==> name == "unit"
    ensures ScalarFieldOf(name) == DistanceTypeOption <==> name == "distance_type"
  {
    RangeKindsFromRangeTests(name);
  }

  /** The spellings of the five settings reach their branches: no range option
      and no sub-field suffix comes first. */
  lemma SettingFieldTests(name: string)
    ensures name == "_name" ==> ScalarFieldOf(name) == QueryNameSetting
    ensures name == "boost" ==> ScalarFieldOf(name) == BoostSetting
    ensures name == "optimize_bbox" ==> ScalarFieldOf(name) == OptimizeBboxSetting
    ensures name in ["coerce", "normalize"] ==> ScalarFieldOf(name) == CoerceSetting
    ensures name == "ignore_malformed" ==> ScalarFieldOf(name) == IgnoreMalformedSetting
  {
    if name in SETTING_NAMES {
      NotRangeField(name);
      NoSuffixField(name);
    }
  }

  lemma NotRangeField(name: string)
    requires name in SETTING_NAMES
    ensures RangeFieldOf(name).None?
    ensures '.' !in name
  {
    if RangeFieldOf(name).Some? {
      RangeSpellings(name);
    }
  }

  lemma NoSuffixField(name: string)
    requires '.' !in name
    ensures SuffixFieldOf(name).None?
  {
    SuffixNeedsDot(name);
  }

  /** A name that is no option's spelling and has no sub-field suffix is read as a point. */
  lemma OtherNamesArePoints(name: string)
    requires name !in KNOWN_NAMES
    requires !EndsWith(name, LAT_SUFFIX) && !EndsWith(name, LON_SUFFIX) && !EndsWith(name, GEOHASH_SUFFIX)
    ensures ScalarFieldOf(name) == PointString
  {
  }

  /** A sub-field suffix is tried after the range options (no range option
      has one) and before the settings, lat first, then lon, then geohash. */
  lemma SuffixFieldTests(name: string)
    ensures ScalarFieldOf(name) == LatSuffix <==> EndsWith(name, LAT_SUFFIX)
    ensures ScalarFieldOf(name) == LonSuffix <==> EndsWith(name, LON_SUFFIX) && !EndsWith(name, LAT_SUFFIX)
    ensures ScalarFieldOf(name) == GeohashSuffix <==>
              EndsWith(name, GEOHASH_SUFFIX) && !EndsWith(name, LAT_SUFFIX) && !EndsWith(name, LON_SUFFIX)
  {
    SuffixNeedsDot(name);
    if '.' in name {
      DottedNotRange(name);
    } else {
      assert SuffixFieldOf(name).None?;
    }
  }

  /** No range option is spelled with a dot. */
  lemma DottedNotRange(name: string)
    requires '.' in name
    ensures RangeFieldOf(name).None?
  {
    if RangeFieldOf(name).Some? {
      RangeSpellings(name);
      UndottedRangeSpellings(name);
    }
  }

  lemma RangeSpellings(name: string)
    requires RangeFieldOf(name).Some?
    ensures name in RANGE_NAMES
  {
  }

  lemma UndottedRangeSpellings(name: string)
    requires name in RANGE_NAMES
    ensures '.' !in name
  {
  }


  /** The branch a scalar token under the current field name takes. */
  function CurrentField(s: Accumulator): ScalarField
    requires s.currentFieldName.Some?
  {
    ScalarFieldOf(s.currentFieldName.value)
  }

  /** The current field name is set and is not a deprecated setting. */
  predicate Live(ctx: ParseContext, s: Accumulator)
  {
    s.currentFieldName.Some? && !ctx.isDeprecatedSetting(s.currentFieldName.value)
  }

  /** A value under `from`, `gt` or `gte`/`ge`: a string stores its text and
      any other scalar its number; `gt` and `gte` fix the inclusivity; nothing
      else changes. A null token is not a value and changes nothing at all. */
  lemma LowerBoundToken(ctx: ParseContext, d: Decoders, s: Accumulator, v: Scalar)
    requires Live(ctx, s) && CurrentField(s) in {FromBound, GtBound, GteBound}
    ensures v.Null? ==> Step(ctx, d, s, Value(v)) == s
    ensures v.Str? ==> Step(ctx, d, s, Value(v)).vFrom == Some(TextBound(v.text))
    ensures !v.Null? && !v.Str? ==> Step(ctx, d, s, Value(v)).vFrom == Some(NumberBound(ctx.parser.numberValue(v)))
    ensures !v.Null? ==>
              Step(ctx, d, s, Value(v)).includeLower ==
                (if CurrentField(s) == GtBound then Some(false)
                 else if CurrentField(s) == GteBound then Some(true)
                 else s.includeLower)
    ensures Step(ctx, d, s, Value(v)).(vFrom := s.vFrom, includeLower := s.includeLower) == s
  {
  }

  /** A value under `to`, `lt` or `lte`/`le`: the upper bound read like the
      lower one, and `lt` and `lte` fix the upper inclusivity. */
  lemma UpperBoundToken(ctx: ParseContext, d: Decoders, s: Accumulator, v: Scalar)
    requires Live(ctx, s) && CurrentField(s) in {ToBound, LtBound, LteBound}
    ensures v.Null? ==> Step(ctx, d, s, Value(v)) == s
    ensures v.Str? ==> Step(ctx, d, s, Value(v)).vTo == Some(TextBound(v.text))
    ensures !v.Null? && !v.Str? ==> Step(ctx, d, s, Value(v)).vTo == Some(NumberBound(ctx.parser.numberValue(v)))
    ensures !v.Null? ==>
              Step(ctx, d, s, Value(v)).includeUpper ==
                (if CurrentField(s) == LtBound then Some(false)
                 else if CurrentField(s) == LteBound then Some(true)
                 else s.includeUpper)
    ensures Step(ctx, d, s, Value(v)).(vTo := s.vTo, includeUpper := s.includeUpper) == s
  {
  }

  /** `include_lower` and `include_upper` store the token's boolean reading. */
  lemma InclusivityToken(ctx: ParseContext, d: Decoders, s: Accumulator, v: Scalar)
    requires Live(ctx, s) && !v.Null? && CurrentField(s) in {IncludeLowerFlag, IncludeUpperFlag}
    ensures CurrentField(s) == IncludeLowerFlag ==>
              Step(ctx, d, s, Value(v)) == s.(includeLower := Some(BooleanValue(ctx.parser, v)))
    ensures CurrentField(s) == IncludeUpperFlag ==>
              Step(ctx, d, s, Value(v)) == s.(includeUpper := Some(BooleanValue(ctx.parser, v)))
  {
  }

  /** `unit` and `distance_type` hand the token's text to their external
      decoders and store the result; nothing else changes. */
  lemma DistanceOptionToken(ctx: ParseContext, d: Decoders, s: Accumulator, v: Scalar)
    requires Live(ctx, s) && !v.Null? && CurrentField(s) in {UnitOption, DistanceTypeOption}
    ensures CurrentField(s) == UnitOption ==>
              Step(ctx, d, s, Value(v)) == s.(unit := Some(d.distanceUnit(Text(ctx.parser, v))))
    ensures CurrentField(s) == DistanceTypeOption ==>
              Step(ctx, d, s, Value(v)) == s.(geoDistance := Some(d.geoDistance(Text(ctx.parser, v))))
  {
  }

  /** A value under `<field>.lat` resets only the latitude of the point (a new
      point at the origin when there is none yet), keeping an earlier longitude
      whatever field it came with, and makes `<field>` the field name. */
  lemma LatToken(ctx: ParseContext, d: Decoders, s: Accumulator, v: Scalar)
    requires Live(ctx, s) && !v.Null? && EndsWith(s.currentFieldName.value, LAT_SUFFIX)
    ensures Step(ctx, d, s, Value(v)).point == Some(GeoPoint(ctx.parser.doubleValue(v), PointOrNew(s.point).lon))
    ensures Step(ctx, d, s, Value(v)).fieldName.Some?
    ensures Step(ctx, d, s, Value(v)).fieldName.value + LAT_SUFFIX == s.currentFieldName.value
    ensures Step(ctx, d, s, Value(v)).(point := s.point, fieldName := s.fieldName) == s
  {
    SuffixFieldTests(s.currentFieldName.value);
  }

  /** A value under `<field>.lon` resets only the longitude, keeping an earlier
      latitude, and makes `<field>` the field name. */
  lemma LonToken(ctx: ParseContext, d: Decoders, s: Accumulator, v: Scalar)
    requires Live(ctx, s) && !v.Null? && EndsWith(s.currentFieldName.value, LON_SUFFIX)
    ensures Step(ctx, d, s, Value(v)).point == Some(GeoPoint(PointOrNew(s.point).lat, ctx.parser.doubleValue(v)))
    ensures Step(ctx, d, s, Value(v)).fieldName.Some?
    ensures Step(ctx, d, s, Value(v)).fieldName.value + LON_SUFFIX == s.currentFieldName.value
    ensures Step(ctx, d, s, Value(v)).(point := s.point, fieldName := s.fieldName) == s
  {
    SuffixFieldTests(s.currentFieldName.value);
    SuffixesExclusive(s.currentFieldName.value);
  }

  /** A value under `<field>.geohash` goes to the geohash, not to the point,
      and makes `<field>` the field name. */
  lemma GeohashToken(ctx: ParseContext, d: Decoders, s: Accumulator, v: Scalar)
    requires Live(ctx, s) && !v.Null? && EndsWith(s.currentFieldName.value, GEOHASH_SUFFIX)
    ensures Step(ctx, d, s, Value(v)).geohash == Some(Text(ctx.parser, v))
    ensures Step(ctx, d, s, Value(v)).fieldName.Some?
    ensures Step(ctx, d, s, Value(v)).fieldName.value + GEOHASH_SUFFIX == s.currentFieldName.value
    ensures Step(ctx, d, s, Value(v)).(geohash := s.geohash, fieldName := s.fieldName) == s
  {
    SuffixFieldTests(s.currentFieldName.value);
    SuffixesExclusive(s.currentFieldName.value);
  }

  /** The three suffixes end in different characters, so a name has at most one. */
  lemma SuffixesExclusive(name: string)
    ensures !(EndsWith(name, LAT_SUFFIX) && EndsWith(name, LON_SUFFIX))
    ensures !(EndsWith(name, LAT_SUFFIX) && EndsWith(name, GEOHASH_SUFFIX))
    ensures !(EndsWith(name, LON_SUFFIX) && EndsWith(name, GEOHASH_SUFFIX))
  {
    if |name| > 0 {
      var last := name[|name| - 1];
      if EndsWith(name, LAT_SUFFIX) {
        assert last == name[|name| - 4..][3] == 't';
      }
      if EndsWith(name, LON_SUFFIX) {
        assert last == name[|name| - 4..][3] == 'n';
      }
      if EndsWith(name, GEOHASH_SUFFIX) {
        assert last == name[|name| - 8..][7] == 'h';
      }
    }
  }

  /** `_name`, `boost`, `optimize_bbox`, `coerce`/`normalize` and
      `ignore_malformed` each write their own slot and nothing else. */
  lemma SettingToken(ctx: ParseContext, d: Decoders, s: Accumulator, v: Scalar)
    requires Live(ctx, s) && !v.Null?
    requires CurrentField(s) in {QueryNameSetting, BoostSetting, OptimizeBboxSetting, CoerceSetting, IgnoreMalformedSetting}
    ensures CurrentField(s) == QueryNameSetting ==> Step(ctx, d, s, Value(v)) == s.(queryName := Some(Text(ctx.parser, v)))
    ensures CurrentField(s) == BoostSetting ==> Step(ctx, d, s, Value(v)) == s.(boost := Some(ctx.parser.floatValue(v)))
    ensures CurrentField(s) == OptimizeBboxSetting ==>
              Step(ctx, d, s, Value(v)) == s.(optimizeBbox := Some(Text(ctx.parser, v)))
    ensures CurrentField(s) == CoerceSetting ==> Step(ctx, d, s, Value(v)) == s.(coerce := Some(BooleanValue(ctx.parser, v)))
    ensures CurrentField(s) == IgnoreMalformedSetting ==>
              Step(ctx, d, s, Value(v)) == s.(ignoreMalformed := Some(BooleanValue(ctx.parser, v)))
  {
  }

  /** A scalar under any other field is never an error: its text is decoded as
      a whole new point ("lat,lon" or a geohash), replacing any earlier one,
      and the field becomes the field name. */
  lemma PointStringToken(ctx: ParseContext, d: Decoders, s: Accumulator, v: Scalar)
    requires Live(ctx, s) && !v.Null? && CurrentField(s) == PointString
    ensures Step(ctx, d, s, Value(v)) ==
              s.(point := Some(d.resetFromString(Text(ctx.parser, v))), fieldName := s.currentFieldName)
  {
  }

  /** An array or object is handed to the geo point decoder together with the
      point so far (a new one when there is none), and its field becomes the
      field name. */
  lemma StructuredToken(ctx: ParseContext, d: Decoders, s: Accumulator, t: Token)
    requires Live(ctx, s) && (t.StartArray? || t.StartObject?)
    ensures Step(ctx, d, s, t).point ==
              Some(d.parseGeoPoint(if t.StartArray? then t.arr else t.obj, PointOrNew(s.point)))
    ensures Step(ctx, d, s, t).fieldName == s.currentFieldName
    ensures Step(ctx, d, s, t).(point := s.point, fieldName := s.fieldName) == s
  {
  }

  /** Under a deprecated setting every token but a field name is skipped; an
      END_ARRAY and a null value (which is not a value) are skipped under any
      field. */
  lemma SkippedToken(ctx: ParseContext, d: Decoders, s: Accumulator, t: Token)
    requires s.currentFieldName.Some? && t != EndObject && !t.FieldName?
    requires ctx.isDeprecatedSetting(s.currentFieldName.value) || t == EndArray || t == Value(Null)
    ensures Step(ctx, d, s, t) == s
  {
  }

  // ---------------------------------------------------------------------
  // A null bound

  /** The step that the VALUE_NULL tests of the six bound branches intend: a
      null value under a live bound field reaches its branch, which keeps the
      bound and still sets the inclusivity; every other token steps as the
      parser does. */
  function IntendedStep(ctx: ParseContext, d: Decoders, s: Accumulator, t: Token): Accumulator
    requires t != EndObject
    requires t.FieldName? || s.currentFieldName.Some?
  {
    if t == Value(Null) && Live(ctx, s) && CurrentField(s) in {FromBound, ToBound, GtBound, GteBound, LtBound, LteBound}
    then ValueStep(ctx.parser, d, s, s.currentFieldName.value, Null)
    else Step(ctx, d, s, t)
  }

  /** In the intended step a null bound is an open bound: neither bound slot
      changes, `gt`/`gte` and `lt`/`lte` still fix their inclusivity, and
      `from`/`to` change nothing. */
  lemma IntendedNullBound(ctx: ParseContext, d: Decoders, s: Accumulator)
    requires Live(ctx, s) && CurrentField(s) in {FromBound, ToBound, GtBound, GteBound, LtBound, LteBound}
    ensures IntendedStep(ctx, d, s, Value(Null)).(includeLower := s.includeLower, includeUpper := s.includeUpper) == s
    ensures CurrentField(s) in {FromBound, ToBound} ==> IntendedStep(ctx, d, s, Value(Null)) == s
    ensures CurrentField(s) == GtBound ==> IntendedStep(ctx, d, s, Value(Null)).includeLower == Some(false)
    ensures CurrentField(s) == GteBound ==> IntendedStep(ctx, d, s, Value(Null)).includeLower == Some(true)
    ensures CurrentField(s) == LtBound ==> IntendedStep(ctx, d, s, Value(Null)).includeUpper == Some(false)
    ensures CurrentField(s) == LteBound ==> IntendedStep(ctx, d, s, Value(Null)).includeUpper == Some(true)
  {
  }

  /** As written, `{"gt": null}` sets no inclusivity, because a null is not a
      value token; the intended step makes the lower bound exclusive. */
  lemma NullShorthandLost(ctx: ParseContext, d: Decoders)
    requires !ctx.isDeprecatedSetting("gt")
    ensures Parse(ctx, d, [FieldName("gt"), Value(Null), EndObject]).includeLower == None
    ensures IntendedStep(ctx, d, EMPTY.(currentFieldName := Some("gt")), Value(Null)).includeLower == Some(false)
  {
    var ts := [FieldName("gt"), Value(Null), EndObject];
    var body := ts[..2];
    assert Body(ts) == body;
    assert body[..1] == [FieldName("gt")] && body[..1][..0] == [] && body[..2] == body;
    var s1 := EMPTY.(currentFieldName := Some("gt"));
    assert Run(ctx, d, body[..1]) == s1;
    SkippedToken(ctx, d, s1, Value(Null));
    assert Run(ctx, d, body) == s1;
    RangeFieldTests("gt");
  }

  // ---------------------------------------------------------------------
  // The last token wins

  /** The two ends of the range. */
  datatype Side = Lower | Upper

  /** The bound slot of one end. */
  function BoundSlot(s: Accumulator, side: Side): Option<Bound>
  {
    if side == Lower then s.vFrom else s.vTo
  }

  /** The inclusivity slot of one end. */
  function InclusivitySlot(s: Accumulator, side: Side): Option<bool>
  {
    if side == Lower then s.includeLower else s.includeUpper
  }

  /** What a token under field `name` writes into the bound of one end: a
      scalar other than null under that end's options, as text if it is a
      string and as a number otherwise. */
  function BoundWrite(ctx: ParseContext, side: Side, name: string, t: Token): Option<Bound>
  {
    var fields := if side == Lower then {FromBound, GtBound, GteBound} else {ToBound, LtBound, LteBound};
    if IsValue(t) && !ctx.isDeprecatedSetting(name) && ScalarFieldOf(name) in fields then
      Some(if t.scalar.Str? then TextBound(t.scalar.text) else NumberBound(ctx.parser.numberValue(t.scalar)))
    else None
  }

  /** What a token under field `name` writes into the inclusivity of one end:
      the boolean of `include_lower`/`include_upper`, false for `gt`/`lt` and
      true for `gte`/`lte`, whatever scalar other than null follows them. */
  function InclusivityWrite(ctx: ParseContext, side: Side, name: string, t: Token): Option<bool>
  {
    if !IsValue(t) || ctx.isDeprecatedSetting(name) then None
    else
      var f := ScalarFieldOf(name);
      if f == (if side == Lower then IncludeLowerFlag else IncludeUpperFlag) then Some(BooleanValue(ctx.parser, t.scalar))
      else if f == (if side == Lower then GtBound else LtBound) then Some(false)
      else if f == (if side == Lower then GteBound else LteBound) then Some(true)
      else None
  }

  /** What a token under field `name` writes into the field name: the name of
      an array, an object or a point string, or the name without its suffix
      for a sub-field (a null value writes nothing). */
  function FieldNameWrite(ctx: ParseContext, name: string, t: Token): Option<string>
  {
    if ctx.isDeprecatedSetting(name) then None
    else if t.StartArray? || t.StartObject? then Some(name)
    else if !IsValue(t) then None
    else if EndsWith(name, LAT_SUFFIX) then Some(StripSuffix(name, LAT_SUFFIX))
    else if EndsWith(name, LON_SUFFIX) then Some(StripSuffix(name, LON_SUFFIX))
    else if EndsWith(name, GEOHASH_SUFFIX) then Some(StripSuffix(name, GEOHASH_SUFFIX))
    else if ScalarFieldOf(name) == PointString then Some(name)
    else None
  }

  function BoundWriter(ctx: ParseContext, side: Side): (string, Token) -> Option<Bound>
  {
    (name, t) => BoundWrite(ctx, side, name, t)
  }

  function InclusivityWriter(ctx: ParseContext, side: Side): (string, Token) -> Option<bool>
  {
    (name, t) => InclusivityWrite(ctx, side, name, t)
  }

  function FieldNameWriter(ctx: ParseContext): (string, Token) -> Option<string>
  {
    (name, t) => FieldNameWrite(ctx, name, t)
  }

  /** One token either writes the slot or leaves it. */
  lemma BoundStep(ctx: ParseContext, d: Decoders, s: Accumulator, t: Token, side: Side)
    requires t != EndObject && (t.FieldName? || s.currentFieldName.Some?)
    ensures BoundSlot(Step(ctx, d, s, t), side) ==
              if s.currentFieldName.Some? && BoundWrite(ctx, side, s.currentFieldName.value, t).Some?
              then BoundWrite(ctx, side, s.currentFieldName.value, t)
              else BoundSlot(s, side)
  {
  }

  lemma InclusivityStep(ctx: ParseContext, d: Decoders, s: Accumulator, t: Token, side: Side)
    requires t != EndObject && (t.FieldName? || s.currentFieldName.Some?)
    ensures InclusivitySlot(Step(ctx, d, s, t), side) ==
              if s.currentFieldName.Some? && InclusivityWrite(ctx, side, s.currentFieldName.value, t).Some?
              then InclusivityWrite(ctx, side, s.currentFieldName.value, t)
              else InclusivitySlot(s, side)
  {
  }

  lemma FieldNameStep(ctx: ParseContext, d: Decoders, s: Accumulator, t: Token)
    requires t != EndObject && (t.FieldName? || s.currentFieldName.Some?)
    ensures Step(ctx, d, s, t).fieldName ==
              if s.currentFieldName.Some? && FieldNameWrite(ctx, s.currentFieldName.value, t).Some?
              then FieldNameWrite(ctx, s.currentFieldName.value, t)
              else s.fieldName
  {
    if s.currentFieldName.Some? && IsValue(t) && !ctx.isDeprecatedSetting(s.currentFieldName.value) {
      var name := s.currentFieldName.value;
      SuffixFieldTests(name);
      SuffixesExclusive(name);
      var r := Step(ctx, d, s, t);
      assert r == ValueStep(ctx.parser, d, s, name, t.scalar);
      if EndsWith(name, LAT_SUFFIX) {
        assert ScalarFieldOf(name) == LatSuffix;
      } else if EndsWith(name, LON_SUFFIX) {
        assert ScalarFieldOf(name) == LonSuffix;
      } else if EndsWith(name, GEOHASH_SUFFIX) {
        assert ScalarFieldOf(name) == GeohashSuffix;
      }
    }
  }

  /** After the loop, each bound holds what the last token to write it wrote,
      or nothing when no token did. */
  lemma {:induction false} BoundIsLastWrite(ctx: ParseContext, d: Decoders, ts: seq<Token>, side: Side)
    requires EndObject !in ts && (ts == [] || ts[0].FieldName?)
    ensures BoundSlot(Run(ctx, d, ts), side) == LastWrite(ts, BoundWriter(ctx, side))
    decreases |ts|
  {
    if ts != [] {
      var n := |ts| - 1;
      assert ts[..n] == [] || ts[..n][0].FieldName?;
      BoundIsLastWrite(ctx, d, ts[..n], side);
      FieldBeforePrefix(ts, n, n);
      BoundStep(ctx, d, Run(ctx, d, ts[..n]), ts[n], side);
    }
  }

  /** After the loop, each inclusivity holds the last write: a later
      `include_lower` overrides an earlier `gt`, and a later `gte` overrides an
      earlier `include_lower`. */
  lemma {:induction false} InclusivityIsLastWrite(ctx: ParseContext, d: Decoders, ts: seq<Token>, side: Side)
    requires EndObject !in ts && (ts == [] || ts[0].FieldName?)
    ensures InclusivitySlot(Run(ctx, d, ts), side) == LastWrite(ts, InclusivityWriter(ctx, side))
    decreases |ts|
  {
    if ts != [] {
      var n := |ts| - 1;
      assert ts[..n] == [] || ts[..n][0].FieldName?;
      InclusivityIsLastWrite(ctx, d, ts[..n], side);
      FieldBeforePrefix(ts, n, n);
      InclusivityStep(ctx, d, Run(ctx, d, ts[..n]), ts[n], side);
    }
  }

  /** After the loop, the field name is the one the last array, object, point
      string or sub-field value came with. */
  lemma {:induction false} FieldNameIsLastWrite(ctx: ParseContext, d: Decoders, ts: seq<Token>)
    requires EndObject !in ts && (ts == [] || ts[0].FieldName?)
    ensures Run(ctx, d, ts).fieldName == LastWrite(ts, FieldNameWriter(ctx))
    decreases |ts|
  {
    if ts != [] {
      var n := |ts| - 1;
      assert ts[..n] == [] || ts[..n][0].FieldName?;
      FieldNameIsLastWrite(ctx, d, ts[..n]);
      FieldBeforePrefix(ts, n, n);
      FieldNameStep(ctx, d, Run(ctx, d, ts[..n]), ts[n]);
    }
  }

  /** The builder is created with the last field name written and receives the
      last bound and inclusivity written at each end; a slot no token wrote is
      not passed on. */
  lemma BuilderTakesLastWrites(ctx: ParseContext, d: Decoders, ts: seq<Token>)
    requires Positioned(ts)
    ensures Parse(ctx, d, ts).fieldName == LastWrite(Body(ts), FieldNameWriter(ctx))
    ensures Parse(ctx, d, ts).from == LastWrite(Body(ts), BoundWriter(ctx, Lower))
    ensures Parse(ctx, d, ts).to == LastWrite(Body(ts), BoundWriter(ctx, Upper))
    ensures Parse(ctx, d, ts).includeLower == LastWrite(Body(ts), InclusivityWriter(ctx, Lower))
    ensures Parse(ctx, d, ts).includeUpper == LastWrite(Body(ts), InclusivityWriter(ctx, Upper))
  {
    var body := Body(ts);
    FieldNameIsLastWrite(ctx, d, body);
    BoundIsLastWrite(ctx, d, body, Lower);
    BoundIsLastWrite(ctx, d, body, Upper);
    InclusivityIsLastWrite(ctx, d, body, Lower);
    InclusivityIsLastWrite(ctx, d, body, Upper);
  }

  // ---------------------------------------------------------------------
  // Deprecated spellings

  /** Two spellings of one option: they take the same branch, that branch does
      not keep the spelling itself (as a sub-field or a point string would),
      and the context treats both alike as deprecated settings. */
  predicate SameOption(ctx: ParseContext, a: string, b: string)
  {
    ScalarFieldOf(a) == ScalarFieldOf(b)
    && ScalarFieldOf(a) !in {LatSuffix, LonSuffix, GeohashSuffix, PointString}
    && ctx.isDeprecatedSetting(a) == ctx.isDeprecatedSetting(b)
  }

  /** No array or object is read under field `a` (it would make `a` the field name). */
  predicate NoStructuredUnder(ts: seq<Token>, a: string)
  {
    forall i :: 0 <= i < |ts| && (ts[i].StartArray? || ts[i].StartObject?) ==> FieldBefore(ts, i) != Some(a)
  }

  /** `ge`/`gte`, `le`/`lte` and `normalize`/`coerce` are spellings of one
      option whenever the context treats them alike. */
  lemma DeprecatedSpellings(ctx: ParseContext)
    requires ctx.isDeprecatedSetting("ge") == ctx.isDeprecatedSetting("gte")
    requires ctx.isDeprecatedSetting("le") == ctx.isDeprecatedSetting("lte")
    requires ctx.isDeprecatedSetting("normalize") == ctx.isDeprecatedSetting("coerce")
    ensures SameOption(ctx, "ge", "gte") && SameOption(ctx, "le", "lte") && SameOption(ctx, "normalize", "coerce")
  {
    RangeFieldTests("ge");
    RangeFieldTests("gte");
    RangeFieldTests("le");
    RangeFieldTests("lte");
    SettingFieldTests("normalize");
    SettingFieldTests("coerce");
  }

  /** One token read under spelling `b` instead of `a` does the same to the slots. */
  lemma RespellStep(ctx: ParseContext, d: Decoders, s: Accumulator, t: Token, a: string, b: string)
    requires SameOption(ctx, a, b)
    requires t != EndObject && (t.FieldName? || s.currentFieldName.Some?)
    requires (t.StartArray? || t.StartObject?) ==> s.currentFieldName != Some(a)
    ensures Step(ctx, d, s.(currentFieldName := RespellName(s.currentFieldName, a, b)), RespellToken(t, a, b))
         == Step(ctx, d, s, t).(currentFieldName := RespellName(Step(ctx, d, s, t).currentFieldName, a, b))
  {
  }

  /** Respelling a field name changes only the current field name of the loop. */
  lemma {:induction false} RespellRun(ctx: ParseContext, d: Decoders, ts: seq<Token>, a: string, b: string)
    requires EndObject !in ts && (ts == [] || ts[0].FieldName?)
    requires SameOption(ctx, a, b) && NoStructuredUnder(ts, a)
    ensures EndObject !in Respell(ts, a, b)
    ensures Respell(ts, a, b) == [] || Respell(ts, a, b)[0].FieldName?
    ensures Run(ctx, d, Respell(ts, a, b)) ==
              Run(ctx, d, ts).(currentFieldName := RespellName(Run(ctx, d, ts).currentFieldName, a, b))
    decreases |ts|
  {
    var r := Respell(ts, a, b);
    assert forall j :: 0 <= j < |r| ==> (r[j] == EndObject <==> ts[j] == EndObject);
    if ts != [] {
      var n := |ts| - 1;
      assert ts[..n] == [] || ts[..n][0].FieldName?;
      assert Respell(ts[..n], a, b) == r[..n];
      forall i | 0 <= i < n && (ts[i].StartArray? || ts[i].StartObject?)
        ensures FieldBefore(ts[..n], i) != Some(a)
      {
        FieldBeforePrefix(ts, n, i);
      }
      RespellRun(ctx, d, ts[..n], a, b);
      FieldBeforePrefix(ts, n, n);
      RespellStep(ctx, d, Run(ctx, d, ts[..n]), ts[n], a, b);
    }
  }

  /** A clause written with one spelling of an option parses to the same
      builder as the clause written with the other. */
  lemma AliasesParseAlike(ctx: ParseContext, d: Decoders, ts: seq<Token>, a: string, b: string)
    requires Positioned(ts) && SameOption(ctx, a, b) && NoStructuredUnder(Body(ts), a)
    ensures Positioned(Respell(ts, a, b))
    ensures Parse(ctx, d, Respell(ts, a, b)) == Parse(ctx, d, ts)
  {
    RespellBody(ts, a, b);
    RespellRun(ctx, d, Body(ts), a, b);
  }

  // ---------------------------------------------------------------------
  // Whole clauses

  /** An empty clause sets nothing: the builder gets no field name and keeps
      all its defaults. */
  lemma EmptyClause(ctx: ParseContext, d: Decoders)
    ensures Parse(ctx, d, [EndObject]) ==
              GeoDistanceRangeQueryBuilder(None, None, None, None, None, None, None, None, None, None, None, None, None, None)
  {
    assert Body([EndObject]) == [];
  }

  /** The sub-fields of two different fields update one point: `a.lon` then
      `b.lat` gives the point (b's latitude, a's longitude) under field `b`. */
  lemma SubFieldsShareOnePoint(ctx: ParseContext, d: Decoders, x: Scalar, y: Scalar)
    requires !ctx.isDeprecatedSetting("a.lon") && !ctx.isDeprecatedSetting("b.lat")
    requires !x.Null? && !y.Null?
    ensures var ts := [FieldName("a.lon"), Value(x), FieldName("b.lat"), Value(y), EndObject];
            && Parse(ctx, d, ts).point == Some(GeoPoint(ctx.parser.doubleValue(y), ctx.parser.doubleValue(x)))
            && Parse(ctx, d, ts).fieldName == Some("b")
  {
    var ts := [FieldName("a.lon"), Value(x), FieldName("b.lat"), Value(y), EndObject];
    var body := ts[..4];
    assert Body(ts) == body;
    assert body[..1] == [FieldName("a.lon")] && body[..2][..1] == body[..1];
    assert body[..3][..2] == body[..2] && body[..4][..3] == body[..3] && body[..4] == body;
    assert body[..1][..0] == [];
    assert Run(ctx, d, body[..1]) == EMPTY.(currentFieldName := Some("a.lon"));
    var s2 := Run(ctx, d, body[..2]);
    assert s2 == Step(ctx, d, EMPTY.(currentFieldName := Some("a.lon")), Value(x));
    assert EndsWith("a.lon", LON_SUFFIX);
    LonToken(ctx, d, EMPTY.(currentFieldName := Some("a.lon")), x);
    var s3 := s2.(currentFieldName := Some("b.lat"));
    assert Run(ctx, d, body[..3]) == s3;
    assert EndsWith("b.lat", LAT_SUFFIX);
    LatToken(ctx, d, s3, y);
    SuffixFieldTests("b.lat");
    assert StripSuffix("b.lat", LAT_SUFFIX) == "b";
  }
}
