# OpenSearch SQL core pieces, modelled in Dafny

This project models five self-contained parts of the OpenSearch SQL/PPL plugin and proves properties about them.

- **Async-query service** (`async_query_executor.dfy`, module `AsyncQueryExecutor`). It creates a query, fetches its results and cancels it.
  - The job-metadata store is a map field of a class.
  - The Spark dispatcher's answers are oracles, passed to each call.
  - A ghost history log of dispatcher and store calls records the order of effects, and their absence.
- **HAVING script serialiser** (`having.dfy`, module `Having`). It turns a legacy `Where`/`Condition` tree into the Painless script of a bucket selector. It also builds the buckets-path context from the aggregation fields of SELECT and HAVING.
- **Function-name and argument translation** (`builtin_function_utils.dfy`, module `BuiltinFunctionUtils`).
  - A case-insensitive lookup from PPL function names to Calcite operator kinds.
  - The rewriting of argument lists for TRIM, STRCMP, ATAN, LOG and TYPEOF.
- **Type mappings** (`type_factory.dfy`, module `OpenSearchTypeFactory`). These convert between OpenSearch expression types and Calcite SQL type names, give the legacy type names, and convert a table schema.
- **Nested-field scope** (`scope.dfy`, module `NestedFieldScope`). A mutable record holds:
  - an alias-to-path map;
  - a condition-to-tag map keyed by object identity;
  - the parent alias;
  - the join type.

Two support modules:
- `wrappers.dfy` holds `Option` and `Result`. The exceptions the model keeps become `Failure` values; the ones it drops are listed under "## Left out".
- `text.dfy` models Java's `toUpperCase(Locale.ROOT)` and `equalsIgnoreCase`. The latter compares character pairs by their upper cases and, failing that, by the lower cases of those.

`CreateAsyncQuery`, `GetAsyncQueryResults` and `CancelQuery` take the dispatcher's answer as an oracle parameter. Clocks, I/O and the network stay outside the model.

## Model

| member | source | states |
|---|---|---|
| Text.Upper | core/src/main/java/org/opensearch/sql/calcite/utils/BuiltinFunctionUtils.java:41 | root-locale upper-casing keeps the length, maps a–z to A–Z (and dotless i / long s to I / S) and leaves every other character alone |
| Text.UpperIdempotent | core/src/main/java/org/opensearch/sql/calcite/utils/BuiltinFunctionUtils.java:41 | upper-casing twice is upper-casing once |
| Text.EqualsIgnoreCaseFold | core/src/main/java/org/opensearch/sql/calcite/utils/OpenSearchTypeFactory.java:173-186 | two strings are equal ignoring case exactly when their case-folded forms are equal |
| Text.EqualsIgnoreCaseEquivalence | core/src/main/java/org/opensearch/sql/calcite/utils/OpenSearchTypeFactory.java:173-186 | ignoring case is reflexive, symmetric and transitive |
| Text.EqualsIgnoreCaseUpper | core/src/main/java/org/opensearch/sql/calcite/utils/OpenSearchTypeFactory.java:173-186 | ignoring case cannot tell a string from its upper case |
| OpenSearchTypeFactory.DottedCapitalIMatches | core/src/main/java/org/opensearch/sql/calcite/utils/OpenSearchTypeFactory.java:173-174 | "b\u0130nary" (capital I with dot above) equals "binary" ignoring case, so it converts to BINARY |
| OpenSearchTypeFactory.ConvertExprTypeToRelDataType | core/src/main/java/org/opensearch/sql/calcite/utils/OpenSearchTypeFactory.java:130-194 | a core type converts iff it has a case (UNKNOWN, INTERVAL and the others raise the unsupported-type error); a recognised legacy name always converts; an unrecognised legacy name without an original type raises; the requested nullability is kept, except by an array type, which is not nullable and passes it to its component (the per-type results are `CoreScalarTypes` and `CoreStructuredTypes`) |
| OpenSearchTypeFactory.CoreScalarTypes | core/src/main/java/org/opensearch/sql/calcite/utils/OpenSearchTypeFactory.java:133-151 | UNDEFINED gives NULL, BYTE TINYINT, SHORT SMALLINT, INTEGER INTEGER, LONG BIGINT, FLOAT REAL, DOUBLE DOUBLE, IP and STRING both VARCHAR, BOOLEAN BOOLEAN, each with the requested nullability |
| OpenSearchTypeFactory.CoreStructuredTypes | core/src/main/java/org/opensearch/sql/calcite/utils/OpenSearchTypeFactory.java:152-166 | DATE, TIME and TIMESTAMP give the matching date/time UDTs with the requested nullability; ARRAY gives a non-nullable array of ANY carrying the nullability; STRUCT gives a map from non-nullable VARCHAR to non-nullable BINARY with the requested nullability |
| OpenSearchTypeFactory.LegacyRelType | core/src/main/java/org/opensearch/sql/calcite/utils/OpenSearchTypeFactory.java:173-186 | exactly the seven case-folded legacy names binary, timestamp, date, time, geo_point, text and ip have a relational type; it is never an array and keeps the requested nullability |
| OpenSearchTypeFactory.LegacyNameTypes | core/src/main/java/org/opensearch/sql/calcite/utils/OpenSearchTypeFactory.java:173-186 | binary gives BINARY, timestamp, date and time the matching date/time UDTs, geo_point GEOMETRY, and text and ip VARCHAR, each with the requested nullability |
| OpenSearchTypeFactory.LegacyNamesComeBack | core/src/main/java/org/opensearch/sql/calcite/utils/OpenSearchTypeFactory.java:173-186 | converted back, timestamp, date and time return as TIMESTAMP, DATE and TIME, text and ip as STRING, while binary and geo_point fail with the relational-type error |
| OpenSearchTypeFactory.LegacyBinaryTest | core/src/main/java/org/opensearch/sql/calcite/utils/OpenSearchTypeFactory.java:173 | `equalsIgnoreCase("binary")` holds exactly when the name case-folds (each character to the lower case of its upper case) to "binary" |
| OpenSearchTypeFactory.LegacyTimestampTest | core/src/main/java/org/opensearch/sql/calcite/utils/OpenSearchTypeFactory.java:175 | `equalsIgnoreCase("timestamp")` holds exactly when the name case-folds (each character to the lower case of its upper case) to "timestamp" |
| OpenSearchTypeFactory.LegacyDateTest | core/src/main/java/org/opensearch/sql/calcite/utils/OpenSearchTypeFactory.java:177 | `equalsIgnoreCase("date")` holds exactly when the name case-folds (each character to the lower case of its upper case) to "date" |
| OpenSearchTypeFactory.LegacyTimeTest | core/src/main/java/org/opensearch/sql/calcite/utils/OpenSearchTypeFactory.java:179 | `equalsIgnoreCase("time")` holds exactly when the name case-folds (each character to the lower case of its upper case) to "time" |
| OpenSearchTypeFactory.LegacyGeoPointTest | core/src/main/java/org/opensearch/sql/calcite/utils/OpenSearchTypeFactory.java:181 | `equalsIgnoreCase("geo_point")` holds exactly when the name case-folds (each character to the lower case of its upper case) to "geo_point" |
| OpenSearchTypeFactory.LegacyTextTest | core/src/main/java/org/opensearch/sql/calcite/utils/OpenSearchTypeFactory.java:183 | `equalsIgnoreCase("text")` holds exactly when the name case-folds (each character to the lower case of its upper case) to "text" |
| OpenSearchTypeFactory.LegacyIpTest | core/src/main/java/org/opensearch/sql/calcite/utils/OpenSearchTypeFactory.java:185 | `equalsIgnoreCase("ip")` holds exactly when the name case-folds (each character to the lower case of its upper case) to "ip" |
| OpenSearchTypeFactory.ConvertSqlTypeNameToExprType | core/src/main/java/org/opensearch/sql/calcite/utils/OpenSearchTypeFactory.java:201-232 | total; the result is UNKNOWN exactly for the SQL type names without a case, and never IP |
| OpenSearchTypeFactory.GetLegacyTypeName | core/src/main/java/org/opensearch/sql/calcite/utils/OpenSearchTypeFactory.java:235-250 | a UDT gives its expression type's legacy name; BINARY/VARBINARY give "BINARY", GEOMETRY gives "GEO_POINT"; every other SQL type name gives the upper-cased PPL name (for a PPL query) or legacy name (otherwise) of its converted expression type, so the result is always upper case |
| OpenSearchTypeFactory.ConvertRelDataTypeToExprType | core/src/main/java/org/opensearch/sql/calcite/utils/OpenSearchTypeFactory.java:253-263 | never returns UNKNOWN: it fails, with the relational-type error, exactly when the SQL type name is unmapped; a UDT gives its core type |
| OpenSearchTypeFactory.RoundTrip | core/src/main/java/org/opensearch/sql/calcite/utils/OpenSearchTypeFactory.java:133-166 | UNDEFINED, BYTE, SHORT, INTEGER, LONG, FLOAT, DOUBLE, STRING, BOOLEAN, DATE, TIME, TIMESTAMP, ARRAY and STRUCT convert to Calcite and back to themselves |
| OpenSearchTypeFactory.IpComesBackAsString | core/src/main/java/org/opensearch/sql/calcite/utils/OpenSearchTypeFactory.java:147-149 | IP converts exactly like STRING, so it comes back as STRING |
| OpenSearchTypeFactory.ExtendedNameIgnoresCase | core/src/main/java/org/opensearch/sql/calcite/utils/OpenSearchTypeFactory.java:173-186 | the legacy-name tests ignore case: two names equal under `equalsIgnoreCase` convert alike, and so do a name and its upper-cased form |
| OpenSearchTypeFactory.AliasConvertsAsOriginal | core/src/main/java/org/opensearch/sql/calcite/utils/OpenSearchTypeFactory.java:187-188 | a type whose legacy name matches none of the seven tests converts as its original type |
| OpenSearchTypeFactory.ConvertSchema | core/src/main/java/org/opensearch/sql/calcite/utils/OpenSearchTypeFactory.java:301-309 | succeeds iff every field converts (with nullability true); then a nullable record with the field names in entry order and one converted type per field; otherwise the error of the first field that fails |
| BuiltinFunctionUtils.Translate | core/src/main/java/org/opensearch/sql/calcite/utils/BuiltinFunctionUtils.java:40-210 | a failed lookup is always the unsupported-operator error for the name given |
| BuiltinFunctionUtils.TranslateRejectsUnlisted | core/src/main/java/org/opensearch/sql/calcite/utils/BuiltinFunctionUtils.java:207-208 | a name whose upper-cased form is not in the table raises the unsupported-operator error |
| BuiltinFunctionUtils.TranslateIgnoresCase | core/src/main/java/org/opensearch/sql/calcite/utils/BuiltinFunctionUtils.java:41 | a name and its upper-cased form translate alike |
| BuiltinFunctionUtils.TrimAliases | core/src/main/java/org/opensearch/sql/calcite/utils/BuiltinFunctionUtils.java:81-82 | LTRIM, RTRIM and TRIM, in any case spelling, all give TRIM |
| BuiltinFunctionUtils.SubstringAliases | core/src/main/java/org/opensearch/sql/calcite/utils/BuiltinFunctionUtils.java:95-96 | SUBSTRING and SUBSTR, in any case spelling, both give SUBSTRING |
| BuiltinFunctionUtils.AtanAliases | core/src/main/java/org/opensearch/sql/calcite/utils/BuiltinFunctionUtils.java:115-116 | ATAN and ATAN2, in any case spelling, both give ATAN2 |
| BuiltinFunctionUtils.PowerAliases | core/src/main/java/org/opensearch/sql/calcite/utils/BuiltinFunctionUtils.java:155-156 | POW and POWER, in any case spelling, both give POWER |
| BuiltinFunctionUtils.ModAliases | core/src/main/java/org/opensearch/sql/calcite/utils/BuiltinFunctionUtils.java:145-152 | MOD and %, in any case spelling, both give the MOD user-defined function |
| BuiltinFunctionUtils.TranslateComparisonQuirks | core/src/main/java/org/opensearch/sql/calcite/utils/BuiltinFunctionUtils.java:48-55 | as written, XOR (in any case spelling) gives NOT_EQUALS like `!=`, and `<>` gives GREATER_THAN like `>` |
| BuiltinFunctionUtils.TranslateArgument | core/src/main/java/org/opensearch/sql/calcite/utils/BuiltinFunctionUtils.java:225-284 | TRIM/LTRIM/RTRIM prepend their flag and " " (length + 2, the arguments as suffix); STRCMP swaps its two arguments or fails on index 1; ATAN appends 1 to a single argument; LOG gives (a, E) or (b, a) and rejects other arities; TYPEOF gives one literal naming the first argument's legacy type, or fails on no argument; every other name keeps the list |
| BuiltinFunctionUtils.TranslateArgumentIgnoresCase | core/src/main/java/org/opensearch/sql/calcite/utils/BuiltinFunctionUtils.java:227 | the function name is matched case-insensitively |
| BuiltinFunctionUtils.RewrittenNamesTranslate | core/src/main/java/org/opensearch/sql/calcite/utils/BuiltinFunctionUtils.java:225-284 | every name whose arguments are rewritten (TRIM, LTRIM, RTRIM, STRCMP, ATAN, LOG, TYPEOF, in any case spelling) is one `translate` accepts; the trim names give TRIM, LOG gives LOG and ATAN gives ATAN2 |
| BuiltinFunctionUtils.LogIsBinary | core/src/main/java/org/opensearch/sql/calcite/utils/BuiltinFunctionUtils.java:262-276 | LOG succeeds iff it has one or two arguments; then exactly two arguments reach Calcite and none of the inputs is lost |
| Having.CreateScript | legacy/src/main/java/org/opensearch/sql/legacy/domain/Having.java:175-211 | EQ/GT/LT/GTE/LTE/IS/ISN print `params.name symbol value` with the condition's own symbol, N prints `!=`; BETWEEN is `>= v0` and `<= v1` joined by the AND separator, NBETWEEN `< v0` and `> v1` joined by the OR separator; IN joins one `==` clause per value with the OR separator, NIN one `!=` clause per value with the AND separator; a scalar value where an array is needed is a cast error, a short array an index error at the first missing index; any other operator is unsupported |
| Having.JoinSplit | legacy/src/main/java/org/opensearch/sql/legacy/domain/Having.java:199-206 | joining two non-empty runs of clauses puts exactly one separator between them |
| Having.ClausesInOrder | legacy/src/main/java/org/opensearch/sql/legacy/domain/Having.java:199-206 | IN/NIN keep value order: the last value's clause comes last, after one separator |
| Having.DoExplain | legacy/src/main/java/org/opensearch/sql/legacy/domain/Having.java:155-173 | the loop with its recursion computes the recursive printer `ExplainAll` |
| Having.ExplainLayout | legacy/src/main/java/org/opensearch/sql/legacy/domain/Having.java:161-171 | when the first item prints as something, the script is that item followed, for each later item, by the separator of its own connector (the AND or the OR separator) and the item |
| Having.EmptyFirstItemVanishes | legacy/src/main/java/org/opensearch/sql/legacy/domain/Having.java:161-171 | as written, a first item that prints as nothing, such as IN over no values, leaves the script as if it were absent: the next item gets no separator |
| Having.FirstConnIgnored | legacy/src/main/java/org/opensearch/sql/legacy/domain/Having.java:161-164 | the first node's connector never affects the script |
| Having.ExplainFromFailure | legacy/src/main/java/org/opensearch/sql/legacy/domain/Having.java:166-171 | explaining fails exactly when some node fails, with the error of the first failing node |
| Having.ExplainBalanced | legacy/src/main/java/org/opensearch/sql/legacy/domain/Having.java:166-170 | when no name, symbol or value contains a parenthesis, every parenthesis in the script is closed and none is closed before it is opened |
| Having.BucketsPath | legacy/src/main/java/org/opensearch/sql/legacy/domain/Having.java:221-229 | the nested bucket path exactly when the parameters are one `nested` key with a nested-type value, the alias otherwise |
| Having.ContextForFieldsInSelect | legacy/src/main/java/org/opensearch/sql/legacy/domain/Having.java:113-124 | the loop computes the map `Context` of one entry per method field, in field order |
| Having.ContextKeys | legacy/src/main/java/org/opensearch/sql/legacy/domain/Having.java:113-124 | the context's keys are exactly the aliases of the method fields |
| Having.ContextValues | legacy/src/main/java/org/opensearch/sql/legacy/domain/Having.java:113-124 | each alias is bound to the bucket path of the last method field with that alias |
| Having.ParseHavingExprToConditions | legacy/src/main/java/org/opensearch/sql/legacy/domain/Having.java:102-111 | no HAVING expression gives no conditions; otherwise the parser's conditions |
| Having.NewHaving | legacy/src/main/java/org/opensearch/sql/legacy/domain/Having.java:60-63 | the conditions and the HAVING fields are those the parser collected; with no HAVING expression there are neither |
| Having.NewHavingFromGroupBy | legacy/src/main/java/org/opensearch/sql/legacy/domain/Having.java:76-78 | a missing GROUP BY behaves as a missing HAVING expression |
| Having.Explain | legacy/src/main/java/org/opensearch/sql/legacy/domain/Having.java:89-100 | a no-op without a GROUP BY aggregation or without conditions; otherwise exactly one bucket selector named `bucket_filter` is added, with the context of the SELECT fields followed by the HAVING fields and the explained script; a script error adds nothing |
| NestedFieldScope.Scope.AddAliasFullPath | legacy/src/main/java/org/opensearch/sql/legacy/rewriter/nestedfield/Scope.java:45-51 | an empty alias maps the path to itself, any other alias maps to the path, overwriting; nothing else changes |
| NestedFieldScope.Scope.GetFullPath | legacy/src/main/java/org/opensearch/sql/legacy/rewriter/nestedfield/Scope.java:53-55 | "" for an alias never added; otherwise the path of the last call that wrote that key |
| NestedFieldScope.Scope.IsAnyNestedField | legacy/src/main/java/org/opensearch/sql/legacy/rewriter/nestedfield/Scope.java:57-59 | holds iff at least one alias/path pair was added |
| NestedFieldScope.Scope.GetAliases | legacy/src/main/java/org/opensearch/sql/legacy/rewriter/nestedfield/Scope.java:61-63 | the key set of the alias map, which is exactly the set of keys some call wrote |
| NestedFieldScope.PathsOfKeys | legacy/src/main/java/org/opensearch/sql/legacy/rewriter/nestedfield/Scope.java:45-51 | after any sequence of additions, the map's keys are exactly the keys written |
| NestedFieldScope.PathsOfLastWins | legacy/src/main/java/org/opensearch/sql/legacy/rewriter/nestedfield/Scope.java:45-55 | after any sequence of additions, each key maps to the path of the last addition that wrote it |
| NestedFieldScope.Scope.GetConditionTag | legacy/src/main/java/org/opensearch/sql/legacy/rewriter/nestedfield/Scope.java:65-67 | "" for an untagged condition object, its tag otherwise |
| NestedFieldScope.Scope.AddConditionTag | legacy/src/main/java/org/opensearch/sql/legacy/rewriter/nestedfield/Scope.java:69-71 | tags that object only: every other object, even one with equal contents, keeps its tag |
| NestedFieldScope.Scope.SetParentAlias | legacy/src/main/java/org/opensearch/sql/legacy/rewriter/nestedfield/Scope.java:37-43 | the getter then returns the value set; no other field changes |
| NestedFieldScope.Scope.SetActualJoinType | legacy/src/main/java/org/opensearch/sql/legacy/rewriter/nestedfield/Scope.java:73-79 | the getter then returns the value set; no other field changes |
| AsyncQueryExecutor.BuildDispatchRequest | async-query-core/src/main/java/org/opensearch/sql/spark/asyncquery/AsyncQueryExecutorServiceImpl.java:46-58 | account, application, role, cluster and submit-parameter modifier come from the config; query, datasource, language and session id come from the caller |
| AsyncQueryExecutor.BuildJobMetadata | async-query-core/src/main/java/org/opensearch/sql/spark/asyncquery/AsyncQueryExecutorServiceImpl.java:60-76 | query id, job id, result index, session id, datasource, job type, index name, state and error come from the dispatch response; query and language from the caller; account and application from the config |
| AsyncQueryExecutor.AsyncQueryExecutorService.CreateAsyncQuery | async-query-core/src/main/java/org/opensearch/sql/spark/asyncquery/AsyncQueryExecutorServiceImpl.java:40-79 | dispatches first; only after the dispatcher answers, stores exactly one record keyed by its query id, and returns that query id and session id unchanged; a dispatch failure stores nothing |
| AsyncQueryExecutor.TranslatePollResponse | async-query-core/src/main/java/org/opensearch/sql/spark/asyncquery/AsyncQueryExecutorServiceImpl.java:90-110 | on "SUCCESS": status SUCCESS, no error, the schema and every decoded row in order; otherwise no schema and no rows, the reported status or FAILED, and the reported error or "" (never null); the session id is the stored one |
| AsyncQueryExecutor.AsyncQueryExecutorService.GetAsyncQueryResults | async-query-core/src/main/java/org/opensearch/sql/spark/asyncquery/AsyncQueryExecutorServiceImpl.java:81-113 | the store never changes; an unknown id is NotFound and the dispatcher is not called; otherwise one poll, and the rows drained from the response handle give the translated response |
| AsyncQueryExecutor.CancelledStore | async-query-core/src/main/java/org/opensearch/sql/spark/asyncquery/AsyncQueryExecutorServiceImpl.java:122-123 | same keys; that record's state becomes CANCELLED; every other record is unchanged |
| AsyncQueryExecutor.CancelIdempotent | async-query-core/src/main/java/org/opensearch/sql/spark/asyncquery/AsyncQueryExecutorServiceImpl.java:122-123 | cancelling a record twice leaves the store as cancelling it once |
| AsyncQueryExecutor.CancelIgnoresPriorState | async-query-core/src/main/java/org/opensearch/sql/spark/asyncquery/AsyncQueryExecutorServiceImpl.java:122-123 | the update does not depend on the record's prior state |
| AsyncQueryExecutor.AsyncQueryExecutorService.CancelQuery | async-query-core/src/main/java/org/opensearch/sql/spark/asyncquery/AsyncQueryExecutorServiceImpl.java:115-127 | an unknown id is NotFound, and the dispatcher and store are not touched; otherwise it cancels through the dispatcher, then marks the record CANCELLED and returns the dispatcher's result |
| AsyncQueryExecutor.GetResultsAsWritten | async-query-core/src/main/java/org/opensearch/sql/spark/asyncquery/AsyncQueryExecutorServiceImpl.java:90-110 | as written: no status is a JSON exception; "SUCCESS" gives the schema and rows with no error; any other status gives that status, no schema or rows, and the reported error or "" |
| AsyncQueryExecutor.IsSuccessAsWritten | async-query-core/src/main/java/org/opensearch/sql/spark/asyncquery/AsyncQueryExecutorServiceImpl.java:90 | the SUCCESS test as written throws a JSON exception when the answer has no status |
| AsyncQueryExecutor.FailedDefaultUnreachableAsWritten | async-query-core/src/main/java/org/opensearch/sql/spark/asyncquery/AsyncQueryExecutorServiceImpl.java:90-105 | as written, an answer without a status throws, and a response says FAILED only when the engine said so |
| AsyncQueryExecutor.AsWrittenAgreesWithStatus | async-query-core/src/main/java/org/opensearch/sql/spark/asyncquery/AsyncQueryExecutorServiceImpl.java:90-110 | whenever the engine reports a status, the code as written and the corrected translation agree |

## Left out

- Text.EqualsIgnoreCase: only the case mappings of `UpperChar` and `LowerChar` are modelled; `LowerChar` covers A–Z, U+0130 and U+212A. Pairs of other letters that Java matches ignoring case, such as é and É, do not match here. Against the ASCII names the source compares with, these are the characters that decide the test. Surrogate pairs are not modelled.
- Text.Upper: only the root-locale mappings that keep a string's length are modelled: a–z, U+0131 and U+017F. Java also upper-cases other letters and expands some characters (ß becomes SS, ligatures split). Function and type names are ASCII in practice.
- Calcite type construction is not modelled. This covers `canonize`, charsets and collations, the internals of `createUDT` and the overrides of `createTypeWithNullability`. A relational type is its SQL type name, its nullability and its components.
- `getJavaClass` (reflection) and `getExprValueByExprType` (unchecked casts and floating-point values) are not modelled.
- OpenSearchTypeFactory.GetLegacyTypeName: the PPL type-name table and the expression types' legacy names are oracles, `TypeNaming`, so the names themselves are not modelled. Their upper-casing is modelled.
- BuiltinFunctionUtils.Translate: the Calcite operators and user-defined functions are enum tags. Their semantics and object identity are not modelled. The Some-to-listed direction is proved (`LookupWithinNames`), not the converse.
- BuiltinFunctionUtils.TranslateArgument: `rexBuilder` literal construction is not modelled. The literals are tags, and E is an opaque tag, not a floating-point number.
- Having: the HAVING and WHERE parsers are oracles, `HavingParser`. `AggregationBuilder`, `bucketSelector` and `Script` are reduced to appending a record.
- Having: `value.toString()` is a given string. The `getOpertatorSymbol` table of `Condition` is not part of this model; each condition carries its own symbol.
- NestedFieldScope.Scope.GetAliases: returns a snapshot of the keys. `aliasFullPaths.keySet()` is a live view that later `addAliasFullPath` calls change; the model does not capture that aliasing.
- Having: null values and null array elements are not modelled. They would raise a NullPointerException.
- Having.NewHaving: the `SqlParseException` the WHERE parser may throw is not modelled; `HavingParser` is a total oracle.
- Having.DoExplain: as written, the separator rule is "the script so far is non-empty", not "this is not the first item". So an item that prints as nothing, such as IN over an empty array, drops the next item's separator (`EmptyFirstItemVanishes`). The model keeps this behaviour.
- Reconstructed enums are not part of this model's sources, because their definitions are not shown: `QueryState`, `JobType`, Druid's `JoinType`, the operator list of `Condition` and Calcite's `SqlTypeName`. The constructors are taken from the names the code uses; `SqlTypeName` also lists the other members of Calcite's enum, and that list decides `UnmappedSqlTypeNames`.
- AsyncQueryExecutor: JSON handling is not modelled. An engine answer is its optional status and error and the rows and schema the response handle decodes. `DefaultSparkSqlFunctionResponseHandle` is a cursor over those rows. A decode failure inside the handle is not modelled.
- AsyncQueryExecutor: config resolution is an oracle, `configSupplier`. The dispatcher's dispatch, poll and cancel are oracles passed to each call. The storage service is a map updated in place.
- AsyncQueryExecutor: a failure of the storage service is not modelled. This includes the window where a job was dispatched but its record was never stored.
- AsyncQueryExecutor: session reuse, timeouts and concurrency between cancel and get are not modelled; the code here has none of them.
- AsyncQueryExecutor: uniqueness of the query id is the dispatcher's business. A repeated id overwrites the stored record, as a map put does.
- AsyncQueryExecutor.CancelQuery: `cancelQuery` overwrites a terminal state too (`CancelIgnoresPriorState`), because AsyncQueryExecutorServiceImpl.java:122-123 updates the state unconditionally; the model follows the code.
- AsyncQueryExecutor.AsyncQueryExecutorService.GetAsyncQueryResults: it uses the corrected status test of the finding below, not the `getString` call as written.

## Findings

| source | as written | input that shows it | evidently intended | confidence | as-written member | corrected member |
|---|---|---|---|---|---|---|
| async-query-core/src/main/java/org/opensearch/sql/spark/asyncquery/AsyncQueryExecutorServiceImpl.java:90-105 | the SUCCESS test reads the status with `getString`, which throws a JSONException when the key is absent, so the `optString(STATUS_FIELD, FAILED)` default on the other branch can never apply | an engine answer with neither `status` nor `error` (`MissingStatusExample`) | an answer without a status is reported as FAILED with error "" | high, not executed | AsyncQueryExecutor.GetResultsAsWritten | AsyncQueryExecutor.TranslatePollResponse |
