# Query clause parsers: `geo_distance_range` and `has_parent`

This project models two query-clause parsers of the search engine's query DSL.
Each has a `fromXContent` that reads the tokens of one clause body, from the
FIELD_NAME after the opening `{` up to the END_OBJECT that closes it. Each field
token overwrites a local slot. When the loop ends, the parser builds a query
builder from the slots.

- `geo_distance_range` has fourteen optional slots: the two bounds, their
  inclusivity flags, unit, distance type, the point, geohash, field name and
  settings. It never rejects a field name. A scalar under a name that no option
  claims is read as a point string for a field of that name.
- `has_parent` keeps the parent type, the inner query, the score flag, inner
  hits, query name and boost. It throws a `QueryParsingException` at the first
  object or scalar under a field it does not support. An array under such a
  field is not itself an error: its elements are read as tokens of their own,
  so an empty array is accepted and its first object or scalar element throws.

In both parsers a VALUE_NULL token is not a value (`Token.isValue()` is false
for it), so it reaches none of the branches and changes nothing, under any
field. The geo parser's explicit null tests inside its bound branches are
therefore never reached; "## Findings" records this.

Files:

- `wrappers.dfy` (`Wrappers`): `Option` and `Result`.
- `query_parsing.dfy` (`QueryParsing`): what both parsers share.
  - The token stream, with scalar tokens and sub-values handed to external decoders.
  - The cursor's typed getters (`text()`, `textOrNull()`, `booleanValue()`).
  - Lenient `ParseField` matching.
  - The body of a clause, up to the first END_OBJECT, and the field each token belongs to.
  - `LastWrite`, a reference definition of "the last token to write a slot wins".
  - `Respell`, the token stream with one field name spelled another way.
- `geo_distance_range.dfy` (`GeoDistanceRangeQueryParser`) and `has_parent.dfy`
  (`HasParentQueryParser`). Each parser is modelled twice:
  - as a specification: `Step` for one token, `Run` as a left fold over the body, and `Parse`, which builds the builder;
  - as the imperative `FromXContent`, whose loop keeps the same locals as the Java method.

  The loop invariant ties the locals after `i` tokens to `Run` of the first `i` tokens of the body.
  The lemmas then prove the parser's promises about `Step`, `Run` and `Parse`:
  - what each kind of token does;
  - the order of the field tests;
  - that the last write wins for every slot;
  - that deprecated spellings parse like the preferred ones;
  - errors and defaults.

External code is passed in as records of functions:
- `Accessors`: the cursor getters, whose results depend on the tokenizer;
- `ParseContext`: the getters plus `isDeprecatedSetting`;
- the parsers' `Decoders`:
  - `GeoUtils.parseGeoPoint`, `GeoPoint.resetFromString`, `DistanceUnit.fromString`, `GeoDistance.fromString`;
  - `parseInnerQueryBuilder`, `new QueryInnerHits(parser)`.

The parser keeps a single `GeoPoint`, created on first use at (0, 0):
- only `.lat` and `.lon` keep the other coordinate: each changes one coordinate, even when the base field name changes (`SubFieldsShareOnePoint`);
- a point string replaces the whole point with what `GeoPoint.resetFromString` makes of the text (GeoDistanceRangeQueryParser.java:196);
- an array or object is handed to `GeoUtils.parseGeoPoint` together with the existing point, and the point becomes what that decoder returns.

## Model

| member | source | states |
|---|---|---|
| QueryParsing.StripSuffix | core/src/main/java/org/elasticsearch/index/query/GeoDistanceRangeQueryParser.java:172 | the stripped name followed by the suffix gives back the field name |
| QueryParsing.Body | core/src/main/java/org/elasticsearch/index/query/GeoDistanceRangeQueryParser.java:94 | the loop reads the tokens in front of the first END_OBJECT: a prefix with no END_OBJECT, followed by one, and opening with a field name unless empty |
| QueryParsing.BodyEnd | core/src/main/java/org/elasticsearch/index/query/HasParentQueryParser.java:54 | the loop stops at the first END_OBJECT |
| QueryParsing.FieldBefore | core/src/main/java/org/elasticsearch/index/query/GeoDistanceRangeQueryParser.java:95-96 | once a body has opened with a field name, every later token has a current field name |
| QueryParsing.FieldBeforePrefix | core/src/main/java/org/elasticsearch/index/query/GeoDistanceRangeQueryParser.java:95-96 | the current field name depends only on the tokens already read |
| QueryParsing.RespellBody | core/src/main/java/org/elasticsearch/index/query/GeoDistanceRangeQueryParser.java:94 | spelling a field name differently keeps the clause body where it was |
| QueryParsing.FieldBeforeRespell | core/src/main/java/org/elasticsearch/index/query/GeoDistanceRangeQueryParser.java:95-96 | after a respelling, each token's current field name is the respelled one |
| GeoDistanceRangeQueryParser.ValueStep | core/src/main/java/org/elasticsearch/index/query/GeoDistanceRangeQueryParser.java:112-198 | a scalar changes a bound, an inclusivity flag or the field name only when its field's branch writes that slot; the current field name never changes |
| GeoDistanceRangeQueryParser.Step | core/src/main/java/org/elasticsearch/index/query/GeoDistanceRangeQueryParser.java:95-112 | a FIELD_NAME becomes the current field name; no other token changes it |
| GeoDistanceRangeQueryParser.Run | core/src/main/java/org/elasticsearch/index/query/GeoDistanceRangeQueryParser.java:94-200 | after the loop, the current field name is the one carried by the last FIELD_NAME read |
| GeoDistanceRangeQueryParser.FromXContent | core/src/main/java/org/elasticsearch/index/query/GeoDistanceRangeQueryParser.java:74-256 | the loop stops at the first END_OBJECT, and the builder equals `Parse`, the builder made from the fold of `Step` over the body |
| GeoDistanceRangeQueryParser.SuffixNeedsDot | core/src/main/java/org/elasticsearch/index/query/GeoDistanceRangeQueryParser.java:167-181 | a name with a `.lat`, `.lon` or `.geohash` suffix contains a dot |
| GeoDistanceRangeQueryParser.RangeFieldTests | core/src/main/java/org/elasticsearch/index/query/GeoDistanceRangeQueryParser.java:113-166 | a name reaches a range option's branch exactly when it is one of that option's spellings (`ge` and `le` included) |
| GeoDistanceRangeQueryParser.SettingFieldTests | core/src/main/java/org/elasticsearch/index/query/GeoDistanceRangeQueryParser.java:182-191 | `_name`, `boost`, `optimize_bbox`, `coerce`/`normalize` and `ignore_malformed` reach their setting branches |
| GeoDistanceRangeQueryParser.OtherNamesArePoints | core/src/main/java/org/elasticsearch/index/query/GeoDistanceRangeQueryParser.java:192-198 | a name that spells no option and has no sub-field suffix takes the point-string branch rather than an error |
| GeoDistanceRangeQueryParser.SuffixFieldTests | core/src/main/java/org/elasticsearch/index/query/GeoDistanceRangeQueryParser.java:167-181 | the `.lat` branch is taken exactly when the name ends in `.lat`; `.lon` exactly when it ends in `.lon` and not `.lat`; `.geohash` exactly when it ends in `.geohash` and in neither other suffix |
| GeoDistanceRangeQueryParser.DottedNotRange | core/src/main/java/org/elasticsearch/index/query/GeoDistanceRangeQueryParser.java:43-52 | no range option is spelled with a dot |
| GeoDistanceRangeQueryParser.LowerBoundToken | core/src/main/java/org/elasticsearch/index/query/GeoDistanceRangeQueryParser.java:113-146 | under `from`, `gt` or `gte`/`ge`: a string stores its text, other non-null scalars their number; `gt` sets `includeLower` to false and `gte` to true; nothing else changes; a null token changes nothing at all |
| GeoDistanceRangeQueryParser.UpperBoundToken | core/src/main/java/org/elasticsearch/index/query/GeoDistanceRangeQueryParser.java:147-162 | the same for `to`, `lt` and `lte`/`le` with the upper bound and `includeUpper` (the `to` branch is at lines 120-126) |
| GeoDistanceRangeQueryParser.InclusivityToken | core/src/main/java/org/elasticsearch/index/query/GeoDistanceRangeQueryParser.java:127-130 | `include_lower`/`include_upper` store the token's boolean and change nothing else |
| GeoDistanceRangeQueryParser.DistanceOptionToken | core/src/main/java/org/elasticsearch/index/query/GeoDistanceRangeQueryParser.java:163-166 | `unit` and `distance_type` store what their decoders make of the token's text and change nothing else |
| GeoDistanceRangeQueryParser.LatToken | core/src/main/java/org/elasticsearch/index/query/GeoDistanceRangeQueryParser.java:167-172 | a `.lat` field sets the point's latitude and keeps its earlier longitude (0 for a new point); the field name becomes the name without the suffix; nothing else changes |
| GeoDistanceRangeQueryParser.LonToken | core/src/main/java/org/elasticsearch/index/query/GeoDistanceRangeQueryParser.java:173-178 | a `.lon` field sets the longitude and keeps the latitude; the field name loses the suffix; nothing else changes |
| GeoDistanceRangeQueryParser.GeohashToken | core/src/main/java/org/elasticsearch/index/query/GeoDistanceRangeQueryParser.java:179-181 | a `.geohash` field stores the text as the geohash, not in the point; the field name loses the suffix; nothing else changes |
| GeoDistanceRangeQueryParser.SuffixesExclusive | core/src/main/java/org/elasticsearch/index/query/GeoDistanceRangeQueryParser.java:167-181 | no name ends in two of the three suffixes |
| GeoDistanceRangeQueryParser.SettingToken | core/src/main/java/org/elasticsearch/index/query/GeoDistanceRangeQueryParser.java:182-191 | each setting stores its own reading of a non-null token (text, float, text, boolean) and changes nothing else |
| GeoDistanceRangeQueryParser.PointStringToken | core/src/main/java/org/elasticsearch/index/query/GeoDistanceRangeQueryParser.java:192-198 | an unclaimed scalar field resets the point from the token's text and becomes the field name |
| GeoDistanceRangeQueryParser.StructuredToken | core/src/main/java/org/elasticsearch/index/query/GeoDistanceRangeQueryParser.java:99-111 | an array or object is decoded into the existing point, or a new one, and the current field name becomes the field name; nothing else changes |
| GeoDistanceRangeQueryParser.SkippedToken | core/src/main/java/org/elasticsearch/index/query/GeoDistanceRangeQueryParser.java:97-98 | under a deprecated setting, and for an END_ARRAY or a null value under any field, a token changes nothing |
| GeoDistanceRangeQueryParser.BoundStep | core/src/main/java/org/elasticsearch/index/query/GeoDistanceRangeQueryParser.java:113-162 | one token changes a bound exactly when it writes it, and then to what it writes |
| GeoDistanceRangeQueryParser.InclusivityStep | core/src/main/java/org/elasticsearch/index/query/GeoDistanceRangeQueryParser.java:127-162 | one token changes an inclusivity flag exactly when it writes it (explicitly or through `gt`/`gte`/`lt`/`lte`) |
| GeoDistanceRangeQueryParser.FieldNameStep | core/src/main/java/org/elasticsearch/index/query/GeoDistanceRangeQueryParser.java:99-198 | one token changes the field name exactly when it writes it: arrays, objects, suffixed sub-fields and point strings |
| GeoDistanceRangeQueryParser.BoundIsLastWrite | core/src/main/java/org/elasticsearch/index/query/GeoDistanceRangeQueryParser.java:94-200 | after any body, each bound holds what the last token to write it wrote |
| GeoDistanceRangeQueryParser.InclusivityIsLastWrite | core/src/main/java/org/elasticsearch/index/query/GeoDistanceRangeQueryParser.java:94-200 | after any body, each inclusivity flag holds the last write: a later `gt` overrides an earlier `include_lower` and vice versa |
| GeoDistanceRangeQueryParser.FieldNameIsLastWrite | core/src/main/java/org/elasticsearch/index/query/GeoDistanceRangeQueryParser.java:94-200 | after any body, the field name is the last one written |
| GeoDistanceRangeQueryParser.BuilderTakesLastWrites | core/src/main/java/org/elasticsearch/index/query/GeoDistanceRangeQueryParser.java:202-234 | the builder is created with the last field name written and receives the last bounds and inclusivity flags written, or none |
| GeoDistanceRangeQueryParser.DeprecatedSpellings | core/src/main/java/org/elasticsearch/index/query/GeoDistanceRangeQueryParser.java:48-56 | `ge`/`gte`, `le`/`lte` and `normalize`/`coerce` are spellings of one option, when the context treats both spellings alike |
| GeoDistanceRangeQueryParser.RespellStep | core/src/main/java/org/elasticsearch/index/query/GeoDistanceRangeQueryParser.java:113-191 | one token read under the other spelling updates the slots identically |
| GeoDistanceRangeQueryParser.RespellRun | core/src/main/java/org/elasticsearch/index/query/GeoDistanceRangeQueryParser.java:94-200 | a body written with the other spelling ends the loop with the same slots |
| GeoDistanceRangeQueryParser.AliasesParseAlike | core/src/main/java/org/elasticsearch/index/query/GeoDistanceRangeQueryParser.java:48-56 | a clause written with one spelling parses to the same builder as with the other |
| GeoDistanceRangeQueryParser.EmptyClause | core/src/main/java/org/elasticsearch/index/query/GeoDistanceRangeQueryParser.java:202-255 | an empty body gives a builder with no field name and no setter applied |
| GeoDistanceRangeQueryParser.SubFieldsShareOnePoint | core/src/main/java/org/elasticsearch/index/query/GeoDistanceRangeQueryParser.java:167-178 | `a.lon` then `b.lat` give one point with both coordinates, under field `b` |
| GeoDistanceRangeQueryParser.IntendedNullBound | core/src/main/java/org/elasticsearch/index/query/GeoDistanceRangeQueryParser.java:113-162 | in the intended step, a null under a bound field keeps both bounds, `gt`/`gte`/`lt`/`lte` still fix their inclusivity, and `from`/`to` change nothing |
| GeoDistanceRangeQueryParser.NullShorthandLost | core/src/main/java/org/elasticsearch/index/query/GeoDistanceRangeQueryParser.java:112-136 | as written, `{"gt": null}` sets no `includeLower`; the intended step sets it to false |
| HasParentQueryParser.UnsupportedNamesField | core/src/main/java/org/elasticsearch/index/query/HasParentQueryParser.java:86-87 | the unsupported-field error names the field exactly: the name can be read back from the message, so different fields give different errors |
| HasParentQueryParser.ObjectStep | core/src/main/java/org/elasticsearch/index/query/HasParentQueryParser.java:57-68 | an object that is accepted keeps the current field name |
| HasParentQueryParser.ValueStep | core/src/main/java/org/elasticsearch/index/query/HasParentQueryParser.java:69-88 | a scalar that is accepted keeps the current field name |
| HasParentQueryParser.Step | core/src/main/java/org/elasticsearch/index/query/HasParentQueryParser.java:55-69 | a FIELD_NAME becomes the current field name; no other accepted token changes it |
| HasParentQueryParser.Run | core/src/main/java/org/elasticsearch/index/query/HasParentQueryParser.java:54-90 | when the loop gets through, the current field name is the one carried by the last FIELD_NAME |
| HasParentQueryParser.FailureSticks | core/src/main/java/org/elasticsearch/index/query/HasParentQueryParser.java:86-87 | once a token has thrown, no later token changes the outcome |
| HasParentQueryParser.FromXContent | core/src/main/java/org/elasticsearch/index/query/HasParentQueryParser.java:42-92 | the result equals `Parse`; on success the loop stopped at the first END_OBJECT; on failure it stopped before that, at an object or scalar, with the error naming that token's field |
| HasParentQueryParser.StoppedAt | core/src/main/java/org/elasticsearch/index/query/HasParentQueryParser.java:66-67 | the first token to fail decides the whole clause's error, and it belongs to the current field name |
| HasParentQueryParser.ObjectFieldTests | core/src/main/java/org/elasticsearch/index/query/HasParentQueryParser.java:62-66 | an object goes to the inner query exactly under `query`/`filter`, to inner hits exactly under `inner_hits`, and to the error under every other name |
| HasParentQueryParser.ValueFieldTests | core/src/main/java/org/elasticsearch/index/query/HasParentQueryParser.java:70-86 | a scalar goes to the parent type exactly under `parent_type`/`type`, to the score mode under `score_type`/`score_mode`, to its own branch under `score`, `boost`, `_name`, and to the error under every other name |
| HasParentQueryParser.ObjectToken | core/src/main/java/org/elasticsearch/index/query/HasParentQueryParser.java:57-68 | an object under `query`/`filter` becomes the inner query (null included), one under `inner_hits` the inner hits, any other is the unsupported-field error |
| HasParentQueryParser.ScoreModeToken | core/src/main/java/org/elasticsearch/index/query/HasParentQueryParser.java:72-79 | legacy `score_type`/`score_mode`: "score" sets score true, "none" false, any other text leaves it and is no error |
| HasParentQueryParser.KnownValueToken | core/src/main/java/org/elasticsearch/index/query/HasParentQueryParser.java:70-85 | `parent_type`/`type` store the text, `score` the boolean, `boost` the float and `_name` the text, each changing only its own local |
| HasParentQueryParser.UnknownValueToken | core/src/main/java/org/elasticsearch/index/query/HasParentQueryParser.java:86-87 | a non-null scalar under any other name is the unsupported-field error naming that field |
| HasParentQueryParser.InertTokens | core/src/main/java/org/elasticsearch/index/query/HasParentQueryParser.java:54-69 | START_ARRAY, END_ARRAY and a null value change nothing, under any field, so a null is never an error |
| HasParentQueryParser.EmptyClause | core/src/main/java/org/elasticsearch/index/query/HasParentQueryParser.java:45-53 | an empty body gives no parent type, no inner query, score false, no inner hits, no name, boost `DEFAULT_BOOST` |
| HasParentQueryParser.UnsupportedFieldFails | core/src/main/java/org/elasticsearch/index/query/HasParentQueryParser.java:86-87 | a body with a non-null scalar under an unsupported field never yields a builder |
| HasParentQueryParser.SlotsStep | core/src/main/java/org/elasticsearch/index/query/HasParentQueryParser.java:55-88 | a token that does not throw changes each local exactly when it writes it |
| HasParentQueryParser.SlotsAreLastWrites | core/src/main/java/org/elasticsearch/index/query/HasParentQueryParser.java:54-90 | when the loop gets through, each local holds the last write, or its starting value when nothing wrote it |
| HasParentQueryParser.BuilderTakesLastWrites | core/src/main/java/org/elasticsearch/index/query/HasParentQueryParser.java:91 | the builder carries the last parent type, inner query, score, inner hits, query name and boost written, or the defaults |
| HasParentQueryParser.DeprecatedSpellings | core/src/main/java/org/elasticsearch/index/query/HasParentQueryParser.java:32-34 | `filter`/`query`, `type`/`parent_type` and `score_mode`/`score_type` take the same branch for objects and for scalars |
| HasParentQueryParser.RespellStep | core/src/main/java/org/elasticsearch/index/query/HasParentQueryParser.java:57-88 | a token read under the other spelling succeeds exactly when it does under the first and then updates the locals identically |
| HasParentQueryParser.RespellRun | core/src/main/java/org/elasticsearch/index/query/HasParentQueryParser.java:54-90 | a body written with the other spelling gets through exactly when the original does, with the same locals |
| HasParentQueryParser.AliasesParseAlike | core/src/main/java/org/elasticsearch/index/query/HasParentQueryParser.java:32-34 | a clause written with one spelling parses exactly when the other does, to the same builder |

## Left out

- The tokenizer (`XContentParser`) is not modelled. A clause body is given as its token sequence.
  - The cursor getters' results for non-string and non-boolean tokens are parameters: the textual rendering, boolean reading, number, float and double.
  - `IOException` is not modelled.
- Exceptions raised by external code are not modelled. These include strict-mode `ParseFieldMatcher` deprecation errors, malformed numbers and booleans, and errors inside nested decoders. `ParseField` matching is modelled in lenient mode, where a deprecated spelling matches like the preferred one; `isDeprecatedSetting` is a parameter.
- External decoders are opaque functions: `GeoUtils.parseGeoPoint`, `GeoPoint.resetFromString`, `DistanceUnit.fromString`, `GeoDistance.fromString`, `parseInnerQueryBuilder` and `QueryInnerHits`. When the parser hands a START_OBJECT or a geo START_ARRAY to one of them, that decoder consumes the sub-value, which the model carries as a `SubValue`. An array under `has_parent` is not handed over, so its elements follow as tokens of their own.
- Floats, doubles and `Number` are modelled as `real` and are only stored, never computed with.
- `GeoPoint` is a value. The in-place updates of the one mutable point become a new value built from the old one, so aliasing of the point with the builder is not modelled.
- The suffixes `.lat`, `.lon` and `.geohash` are taken as the values of `GeoPointFieldMapper.Names`. `GeoPointFieldMapper` is not part of this model.
- Only the builders' argument values are modelled: what the constructor and each setter receive. Their internals and validation (a null field name, a missing parent type, a half-set point) are not. The order of the setter calls is not modelled either.
- `names()`, `getBuilderPrototype()` and the camel-case alias (`Strings.toCamelCase`) are not modelled, nor is injection.
- `QueryParsing.Positioned` requires the body to open with a FIELD_NAME or to be empty (an END_OBJECT first), and to contain an END_OBJECT. Any other first token is excluded. The tokenizer never produces such a body for a well-formed object. On one, the geo parser dereferences the null field name at once (`isDeprecatedSetting`, GeoDistanceRangeQueryParser.java:97), whatever the token; `has_parent` does so only in its object and non-null scalar branches, and a first array or null reaches nothing that dereferences it.
- `QueryParsing.Match` accepts only the spellings listed in each `ParseField`. `ParseField` itself, which is not part of this model, also accepts the camelCase form of each spelling (`includeLower`, `includeUpper`, `distanceType`, `optimizeBbox`, `ignoreMalformed`, `parentType`, `scoreType`, `scoreMode`). So the lemmas about "every other name" hold only for names outside both forms. `GeoDistanceRangeQueryParser.OtherNamesArePoints` reads `includeLower` as a point string, and `HasParentQueryParser.UnknownValueToken`, `ValueFieldTests` and `UnsupportedFieldFails` reject `parentType`; the source accepts both as the option.
- Under a deprecated setting such as `_cache`, the geo parser hands no START_OBJECT or START_ARRAY to a decoder. The sub-value's own tokens then follow in the stream, as for a `has_parent` array, and an END_OBJECT inside that sub-value ends the clause body early, as it does in the source.
- GeoDistanceRangeQueryParser.AliasesParseAlike: requires that no array or object appears under the deprecated spelling. Such a value sets the field name to the spelling used, so the builders then differ in their field name.
- GeoDistanceRangeQueryParser.BuilderTakesLastWrites: states the last-write rule for the field name, bounds and inclusivity flags only. For the other slots, only single-token lemmas are proved, not a whole-body last-write lemma:
  - the point is written by five branches: arrays and objects (`StructuredToken`), `.lat` (`LatToken`), `.lon` (`LonToken`) and point strings (`PointStringToken`);
  - `geohash` by `GeohashToken`;
  - `unit` and `geoDistance` by `DistanceOptionToken`;
  - the five settings by `SettingToken`.
- HasParentQueryParser.AliasesParseAlike: on failure, the error names the spelling used, so only success and the builder are equal.

## Findings

| source | as written | input that shows it | evidently intended | confidence | as-written member | corrected member |
|---|---|---|---|---|---|---|
| core/src/main/java/org/elasticsearch/index/query/GeoDistanceRangeQueryParser.java:112-162 | the six bound branches test for VALUE_NULL, but they sit inside `token.isValue()`, which is false for VALUE_NULL, so a null never reaches them and is skipped | `{"gt": null}` (and any null under `from`, `to`, `gte`, `lt`, `lte`): `includeLower` is never set | a null bound reaches its branch: the bound stays open and `gt`/`gte`/`lt`/`lte` still set their inclusivity | low, not executed (`XContentParser.Token` is not part of this model) | GeoDistanceRangeQueryParser.NullShorthandLost | GeoDistanceRangeQueryParser.IntendedStep |

`IntendedStep` routes a null under a live bound field to its branch and is
otherwise `Step`; `IntendedNullBound` proves the intended behaviour about it.
Whether the null tests are dead code or a missed case cannot be settled from
the parser alone, so `Step`, `Run`, `Parse` and `FromXContent` keep the
behaviour as written.
