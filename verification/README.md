# Hyperswitch analytics and test tooling: a verified model

Four parts of hyperswitch, modelled in Dafny and proved against independent definitions of what they are for.

**Analytics SQL** (`crates/analytics/src/query.rs`, `clickhouse.rs`, `sqlx.rs`). A query builder collects columns,
filters, groupings and conditions and prints one text for either ClickHouse or Postgres; the two are expected to
agree, and a mismatch is logged as an error. The model has the builder (a class that changes its fields call by
call), readers that an engine could use on the text, and an evaluator of the query that was read. The results
go from characters to answers: a literal reads back, a filter tree means its condition on every row, a whole query
reads back clause by clause, and the answer of the ClickHouse text over a log of signed rows is the answer of the
Postgres text over the live rows, column by column, for every history of the table and every state of its background
merges. Where the code does not keep such a promise (a time range that cuts a second in two, backslashes in Postgres,
empty IN lists, minimum and maximum before a merge, the end of a time bucket, a top-n clause without columns or given
twice), the exact condition is stated and an input shows it.

The time range is printed as Unix seconds for ClickHouse and as a date and time for Postgres. The events that feed
ClickHouse carry `created_at` in whole seconds (`crates/router/src/services/kafka/payment_attempt.rs:42-43`) and its
tables store it so (`crates/analytics/docs/clickhouse/scripts/payment_attempts.sql:87`), while Postgres keeps the
fraction. A bound on seconds and a bound on instants agree on every row exactly when the start is a whole second and the
end the last instant of one, or the range holds no second at all: with an end on a whole second, a row created later
within that second is admitted by ClickHouse only. `MetricsAgreeExact` takes this condition through to the answers.

**Search** (`crates/analytics/src/opensearch.rs`). Free text, filters, ranges and scopes become a bool query.
`SearchMeans` states what a request finds without naming a query or a key, on the fields documents are written with;
free-text amounts, the active-attempt filter and the agreement of a scope in SQL and in search are proved beside it.

**Record and replay** (`cypress-tests/mitm-proxy`). A capturing proxy claims a slot per request and writes cassettes
from many threads; a replaying proxy serves them in order. Capture is a state machine over its locked steps, so runs
include every interleaving. `LoadsInRequestOrderExact` says exactly when what was recorded loads in request order, and
`ReplayRefinesCapture` takes that through to the k-th replayed request.

**Attribute evaluation** (`crates/smithy-generator/build.rs`). `#[cfg(..)]` attributes are evaluated with regular
expressions; the model compares that with Rust's meaning on every expression.

The modules build on each other as follows.

- `Text`, `Decimal`, `Extremes`: strings, decimal numbers, least and greatest values.
- `SqlLiteral`, `Filters`, `Aggregates`, `TableNames`, `QueryBuilding`, `BuilderRuns`, `QueryReading`, `HavingRuns`,
  `WrapperReading`, `RunTexts`: the SQL text and the runs of calls that build it.
- `TimeBuckets`, `GroupExpressions`: time buckets and the texts that group by them.
- `Calendar`, `TimeTexts`, `TimeRanges`: dates, timestamps as literals, and the time range of a request.
- `Collapsing`, `Queries`, `UnsignedAggregates`, `ResultAgreement`, `LiveAnswers`: what a query computes over signed and
  live rows.
- `Metrics`, `EngineAgreement`, `TopRows`, `TopNRuns`: from builder calls through text to answers.
- `Amounts`, `OpenSearch`, `SearchMeaning`, `SearchRequests`, `ActiveAttempt`, `Scopes`: search, and scopes in both
  engines.
- `Globs`, `Capture`, `Replay`, `RecordReplay`, `Redirects`: file patterns and the proxies.
- `CfgEvaluator`: the attribute evaluator.

Four places where the code and its comments or names differ, and the model follows the code: `clip_to_end` yields the
start of the bucket's last unit rather than its end (`ClipToEndExact`), search tags are listed as case-sensitive under
another key than the one their filter is stored with (`TagsMatchInAnyCase`), a capture start that is meant to begin
clean does not when a response of the previous run is still in flight (`LateWrite`), and it removes more than its own
test's cassettes when its hash is a pattern (`MatchingStart`).

## Model

| member | source | states |
|---|---|---|
| SqlLiteral.LiteralRoundTrip | crates/analytics/src/query.rs:557-562 | For any value, both engines find the end of its quoted literal at the same place; with backslash escapes they read the value, otherwise the value with its backslashes doubled |
| SqlLiteral.PlainReadingExact | crates/analytics/src/query.rs:557-562 | Without backslash escapes a value survives quoting if and only if it has no backslash |
| Text.NoSpacesOfSum | crates/analytics/src/query.rs:557-562 | Removing spaces goes part by part: together with its value on one character this determines it |
| SqlLiteral.InListRoundTrip | crates/analytics/src/query.rs:711-727 | An IN list reads back as the same number of values in the same order, each with its spaces left out and every other character kept |
| Filters.ReadPlainSql | crates/analytics/src/query.rs:565-579 | Each of the ten operators prints text that reads back as its condition, leaving what follows; only an IN without values does not read |
| Filters.ReadFilterSql | crates/analytics/src/query.rs:382-401 | A whole filter tree reads back as its own condition, for any nesting and any text behind it |
| Filters.IncompleteDoesNotRead | crates/analytics/src/query.rs:382-401 | A tree with an empty node or an empty IN anywhere prints text no reading accepts |
| Filters.PrintedFilterMeansFilter | crates/analytics/src/query.rs:382-401 | The text is readable if and only if the tree is complete, and then it is true on a row exactly when the tree is, for every row and every order of values |
| Filters.EnginesReadAlikeExact | crates/analytics/src/query.rs:565-579 | Both dialects read a filter's text as the same condition if and only if no quoted value in it has a backslash |
| Filters.LikeIsContains | crates/analytics/src/query.rs:575-576 | A LIKE whose operand has no wildcard is true exactly when the column contains the operand |
| Aggregates.AggregateReads | crates/analytics/src/clickhouse.rs:506-585 | An aggregate's text reads as the sign-weighted form on a collapsing ClickHouse table and as the plain form everywhere else, alias included |
| Aggregates.AggregateIsColumn | crates/analytics/src/sqlx.rs:1500-1564 | An aggregate expression can stand as the column of a condition: its spaces are all inside its parentheses |
| Aggregates.SharedTablesCollapse | crates/analytics/src/clickhouse.rs:134-165 | Every table that Postgres has is a collapsing one on ClickHouse |
| TableNames.NamesTable | crates/analytics/src/clickhouse.rs:472-504 | Every name a client has for a table stands for that table and no other, by a reader of its own from names to tables |
| QueryBuilding.QueryBuilder.constructor | crates/analytics/src/query.rs:586-601 | A new builder is empty, with a conjunction as its filter root and the engine and name its client has for the table |
| QueryBuilding.QueryBuilder.AddSelectColumn | crates/analytics/src/query.rs:603-611 | Appends the column and changes nothing else |
| QueryBuilding.QueryBuilder.AddTopNClause | crates/analytics/src/query.rs:624-654 | Adds the row-number column to the outer select and records the bound with the same partition, column and direction |
| QueryBuilding.QueryBuilder.MarkDistinct | crates/analytics/src/query.rs:656-658 | Sets the flag, which every later text of the run shows, and nothing else |
| QueryBuilding.QueryBuilder.AddCustomFilterClause | crates/analytics/src/query.rs:684-701 | Adds the condition under the root |
| QueryBuilding.QueryBuilder.AddNestedFilterClause | crates/analytics/src/query.rs:702-709 | Adds the tree under the root, which becomes a conjunction if it was a plain condition |
| QueryBuilding.QueryBuilder.AddFilterInRangeClause | crates/analytics/src/query.rs:711-727 | Adds an IN over the sanitised values, joined by a loop |
| QueryBuilding.QueryBuilder.AddGroupByClause | crates/analytics/src/query.rs:729-737 | Appends the grouping column |
| QueryBuilding.QueryBuilder.AddOrderByClause | crates/analytics/src/query.rs:739-756 | Appends the column with its direction |
| QueryBuilding.QueryBuilder.AddLimitBy | crates/analytics/src/query.rs:758-768 | Replaces the limit |
| QueryBuilding.QueryBuilder.AddHavingClause | crates/analytics/src/query.rs:802-826 | Appends the condition on the aggregate as printed for the builder's engine |
| QueryBuilding.QueryBuilder.AddOuterSelectColumn | crates/analytics/src/query.rs:828-836 | Appends the outer column |
| QueryBuilding.QueryBuilder.BuildQuery | crates/analytics/src/query.rs:847-928 | The pushed text is that of the specification, which the readers below take apart; both failures; a grouped build on a collapsing table also pushes the sign condition onto the builder |
| BuilderRuns.RootCollects | crates/analytics/src/query.rs:684-709 | After any calls the root is a conjunction of exactly the added filters in order |
| BuilderRuns.WhereMeansConjunction | crates/analytics/src/query.rs:684-709 | For every run that adds a filter, the WHERE text reads and means that all added filters hold |
| BuilderRuns.WithoutFiltersWhereIsUnreadable | crates/analytics/src/query.rs:875-879 | A run that adds no filter still prints a WHERE, with text no engine reads |
| BuilderRuns.HavingMeansConjunction | crates/analytics/src/query.rs:881-901 | In every run, with however many builds, the builder holds exactly the HAVING entries asked for plus the sign entry once a grouped build on a collapsing table has happened |
| BuilderRuns.TopNColumnIsSelected | crates/analytics/src/query.rs:624-654 | In every run, a top-n bound comes with its row-number column in a non-empty outer select |
| RunTexts.RunHoldsCalls | crates/analytics/src/query.rs:603-836 | After every run of a new builder, columns, groupings, order items and outer columns are those of their calls in call order, the limit is that of the last call that sets one, and the flag is set if and only if some call sets it |
| RunTexts.RunBaseReads | crates/analytics/src/query.rs:847-910 | The text of every readable run gives back the flag, the columns, the table, the conjunction of the added filters, the groupings, the order items in call order and the last limit |
| RunTexts.RunTextReads | crates/analytics/src/query.rs:912-923 | Around that text stand exactly the outer columns of the run in call order, if any, and the bound of its last top-n call, if any |
| QueryReading.BaseSqlReads | crates/analytics/src/query.rs:847-910 | The text of a query reads back as its flag, columns, table, condition, groupings, HAVING conditions and tail: nothing in a value or a column is taken for another clause |
| QueryReading.BuildAgainReadsAlike | crates/analytics/src/query.rs:881-901 | The text of a second build reads as the same query: every clause is the same and HAVING asks for the same set of conditions |
| HavingRuns.HavingTextMeansConjunction | crates/analytics/src/query.rs:881-901 | In every run, an engine reads from the HAVING text exactly the conditions asked for plus, once a grouped build on a collapsing table has happened, the sign condition, and then the tail untouched |
| WrapperReading.TailReads | crates/analytics/src/query.rs:902-910 | The tail reads back as the order items and the limit |
| WrapperReading.WrappedReads | crates/analytics/src/query.rs:912-923 | A top-n query reads, from the outside in, as its bound, its outer columns and the base query untouched |
| Collapsing.HistoryTotal | crates/analytics/src/clickhouse.rs:512-541 | Conservation: after every history of inserts, updates and deletes, any weighted total over the signed rows is that over the live rows |
| Collapsing.MergeTotal | crates/analytics/src/clickhouse.rs:512-541 | No sequence of background merges changes a signed total |
| UnsignedAggregates.LiveIsStored | crates/analytics/src/clickhouse.rs:542-582 | Every live row is still stored, however the rows were merged |
| UnsignedAggregates.FullyMergedIsLive | crates/analytics/src/clickhouse.rs:542-582 | Whatever the merge order, a table with nothing left to merge holds the live rows and only those |
| UnsignedAggregates.StoredExactly | crates/analytics/src/clickhouse.rs:542-582 | A table holds, as a multiset, the live rows and every cancelled row not yet merged away twice |
| UnsignedAggregates.CancelledIsOverwritten | crates/analytics/src/clickhouse.rs:542-582 | Before any merge the cancelled rows are exactly the versions the history replaced or deleted |
| UnsignedAggregates.UnsignedBounds | crates/analytics/src/clickhouse.rs:542-582 | Minimum, maximum and distinct count ignore the sign: each errs in one direction only, and is right if and only if no cancelled row of the group that is still stored beats the live ones; with nothing left to merge there is none |
| UnsignedAggregates.UnmergedBounds | crates/analytics/src/clickhouse.rs:542-582 | On an unmerged table each is right if and only if no version the history overwrote in the group beats the live rows |
| UnsignedAggregates.UnsignedIsOffBeforeMerge | crates/analytics/src/clickhouse.rs:542-582 | One update before a merge makes the minimum too low and the distinct count too large |
| Calendar.DateOf | crates/analytics/src/sqlx.rs:1440-1443 | Every day has a date of the Gregorian calendar, and its day number is that day again |
| Calendar.DayNumberIsCivilDay | crates/analytics/src/sqlx.rs:1440-1443 | Counting days by years and months agrees with the closed formula that the reader of timestamps uses |
| TimeTexts.TimeTextReads | crates/analytics/src/clickhouse.rs:466-469 | For every time, ClickHouse reads its literal as the start of the second and Postgres reads its own as the exact instant, in any year and with any fraction |
| TimeRanges.RangeMeans | crates/analytics/src/query.rs:78-84 | On a row as its event carries it, the ClickHouse conditions are bounds on the second it was created in; the Postgres conditions are bounds on the instant |
| TimeRanges.AlikeAtExact | crates/analytics/src/query.rs:78-84 | ClickHouse admits every creation time that Postgres admits; they differ exactly in the first second before the start and in the last second after the end |
| TimeRanges.AlikeExact | crates/analytics/src/query.rs:78-84 | The two admit the same creation times if and only if the start is a whole second and the end, if any, the last instant of one, or the range holds no second |
| TimeRanges.HalfSecondSplits | crates/analytics/src/query.rs:78-84 | A range from half past a second, and a row of that second that only ClickHouse admits |
| TimeRanges.WholeEndSplits | crates/analytics/src/query.rs:78-84 | A range up to a whole second, and a row of that second that only ClickHouse admits |
| Queries.AdmitAlikeExact | crates/analytics/src/query.rs:78-84 | The WHERE clauses of the two clients admit the same rows if and only if the range cuts no second in two, or no row meets the other conditions |
| GroupExpressions.TextsGroupAlike | crates/analytics/src/query.rs:87-134 | The GROUP BY texts of a granularity, read as time functions, put the same pairs of times into one group on both clients |
| Queries.ClientsGroupAlike | crates/analytics/src/query.rs:87-134 | Two rows share a group on one client exactly when they share one on the other, for any dimensions and granularity |
| ResultAgreement.SignedAggregate | crates/analytics/src/clickhouse.rs:512-541 | In every group, the signed count or sum over the merged rows is the plain one over the live rows |
| LiveAnswers.SignedResultIsLive | crates/analytics/src/clickhouse.rs:134-165 | For every history and merge state, the signed query over the stored rows returns exactly the groups that the plain query returns over the live rows, with the same counts and sums |
| ResultAgreement.SameGroups | crates/analytics/src/query.rs:881-894 | With the sign condition ClickHouse keeps exactly the groups that Postgres keeps: those with a live row that pass the conditions asked for |
| ResultAgreement.EnginesAgree | crates/analytics/src/lib.rs:175-181 | For every history, merge state, pair of WHERE clauses that admit the same rows, grouping, granularity and list of aggregates, the group of a record is in both results or in neither; counts and sums are equal, minimum, maximum and distinct count err one way |
| ResultAgreement.RowsEqualExact | crates/analytics/src/lib.rs:175-181 | The two rows of a group, as loaded, are equal if and only if no cancelled row of the group that is still stored beats the live ones in a minimum, a maximum or a distinct count |
| ResultAgreement.SplitRowSplitsGroups | crates/analytics/src/query.rs:78-84 | After one insert of a row that only ClickHouse admits, its group is in the ClickHouse result only |
| ResultAgreement.SplitRowSplitsCounts | crates/analytics/src/query.rs:78-84 | Without grouping, the count is then one on ClickHouse and none on Postgres |
| ResultAgreement.EveryGroupIsMatched | crates/analytics/src/lib.rs:175-181 | Every group of either result is the group of a record that the other result has too |
| ResultAgreement.SameKeys | crates/analytics/src/lib.rs:175-181 | Without a granularity the two result tables have the same keys |
| ResultAgreement.ReportedRangesAgree | crates/analytics/src/payments/metrics/payment_count.rs:115-124 | Although minimum and maximum of the creation time may differ, the time range a group is reported under is the same from both clients |
| Metrics.SetGroupByClause | crates/analytics/src/query.rs:87-134 | Each client adds its own time expressions for a granularity, and nothing else changes |
| Metrics.SetRangeClause | crates/analytics/src/query.rs:78-84 | Adds the lower bound and, if there is one, the upper bound, each as the client prints it |
| Metrics.MetricQuery | crates/analytics/src/payments/metrics/payment_count.rs:40-89 | The calls a metric makes, in their order and with its time range as the client prints it, build the text of the metric's state for either client, or fail where the client lacks the table |
| EngineAgreement.MetricTextMeans | crates/analytics/src/query.rs:847-910 | An engine understands a metric's text as the query the request compiles to on it |
| EngineAgreement.RecordTablesAnswerLive | crates/analytics/src/clickhouse.rs:134-147 | For each of the ten tables of records: the metric's ClickHouse text, put to the rows signed by sign_flag, is answered with exactly the groups that have a live row and pass the conditions, and with the live counts and sums |
| EngineAgreement.EventTablesAnswerAll | crates/analytics/src/clickhouse.rs:148-162 | For every other table the text is answered with the plain query over all its rows |
| EngineAgreement.MetricTextShape | crates/analytics/src/payments/metrics/payment_count.rs:40-89 | The text names the table, selects the dimensions and then the aggregates, and groups by the dimensions and then the granularity |
| EngineAgreement.MetricsAgree | crates/analytics/src/lib.rs:175-181 | End to end, for every table both clients have and every range that cuts no second in two: the ClickHouse text over the signed rows and the Postgres text over the live rows agree on the group of every record, on its counts and sums and on its reported time range, and its other aggregates err one way |
| EngineAgreement.CutSecondSplitsAnswers | crates/analytics/src/lib.rs:175-181 | For every range that cuts a second in two and every metric whose filters some row meets, one insert makes the answers to the two texts differ |
| EngineAgreement.MetricsAgreeExact | crates/analytics/src/lib.rs:175-181 | Such a metric is answered alike after every history and in every merge state if and only if its range cuts no second in two |
| EngineAgreement.MetricRowsEqualExact | crates/analytics/src/lib.rs:175-181 | The rows the two texts are answered with for a group are equal if and only if no cancelled row of the group that is still stored beats the live ones |
| EngineAgreement.PaymentCountAgrees | crates/analytics/src/payments/metrics/payment_count.rs:40-125 | The payment count metric, with its minimum and maximum of the creation time, reports the same count and time range from both, for every range that cuts no second in two |
| TimeBuckets.ClipToStart | crates/analytics/src/query.rs:170-194 | Never fails on a valid time and yields a valid one |
| TimeBuckets.ClipToEnd | crates/analytics/src/query.rs:196-221 | Never fails on a valid time, its 8-bit sum included, and yields a valid one |
| TimeBuckets.IntervalIsClickhouse | crates/analytics/src/query.rs:770-783 | Flooring whole minutes to the interval gives the ClickHouse bucket |
| TimeBuckets.PostgresIsClickhouse | crates/analytics/src/query.rs:87-134 | Two times share the truncated time and minute part of Postgres exactly when they share the ClickHouse bucket |
| TimeBuckets.BucketsCoincide | crates/analytics/src/query.rs:87-134 | Postgres' key, ClickHouse's bucket, the minute interval and both clippings tell the same pairs of times apart |
| TimeBuckets.ClippedSeconds | crates/analytics/src/query.rs:149-194 | The clipped start is the ClickHouse bucket, the clipped end one unit before the next bucket |
| TimeBuckets.ClipToStartLaws | crates/analytics/src/query.rs:170-194 | Clipping to the start is idempotent, monotone and never later than its input |
| TimeBuckets.ClipToEndExact | crates/analytics/src/query.rs:196-221 | The clipped end lies in its bucket, and is before its input if and only if the input's offset in the bucket is past the start of the last unit |
| TimeBuckets.ClipToEndCanBeEarlier | crates/analytics/src/query.rs:200-215 | A time half a minute into the last minute of an hour is after the end computed for it |
| TopRows.WindowReads | crates/analytics/src/clickhouse.rs:619-640 | The row-number column reads as exactly the partition, column and direction asked for, and does not read if and only if there is no partition column |
| TopRows.TopNKeepsTheFirst | crates/analytics/src/query.rs:912-923 | For every possible numbering, the bound keeps min(n, size) rows of each partition, and no dropped row is ordered before a kept one |
| TopRows.RowNumbersIsNumbering | crates/analytics/src/clickhouse.rs:619-640 | A numbering exists for every table |
| TopNRuns.NamedCount | crates/analytics/src/query.rs:624-654 | A run leaves as many outer columns called top_n as it has calls that add one |
| TopNRuns.TopNRunExact | crates/analytics/src/query.rs:912-923 | For every run that asks for the top rows, the text says which rows if and only if exactly one call adds a column called top_n and it names a partition; then it says the partition, order and bound last asked for, around the base query |
| TopNRuns.TopNRunKeepsTheFirst | crates/analytics/src/query.rs:912-923 | End to end: the window and bound read from the text of such a run keep min(n, size) rows of every partition, none of them behind a dropped one, for every numbering |
| Amounts.ParseSearchAmounts | crates/analytics/src/opensearch.rs:616-675 | The parser returns an amount if and only if the trimmed text has no zero in front and means it, and none twice |
| Amounts.SearchAmountsExact | crates/analytics/src/opensearch.rs:616-675 | Whatever blanks are around a text, an amount is found if and only if the text between them means it as an integer or as a decimal in minor units within 64 bits, and has no zero in front; none is found twice |
| Text.TrimLeaves | crates/analytics/src/opensearch.rs:617 | Trimming removes the blanks on both sides of a text and nothing else |
| Amounts.BlankFindsNothing | crates/analytics/src/opensearch.rs:618-622 | Blanks alone mean no amount |
| Amounts.ZeroInFrontFindsNothing | crates/analytics/src/opensearch.rs:618-622 | A number typed with a zero in front finds nothing |
| Amounts.MinorAmountRoundTrip | crates/analytics/src/opensearch.rs:616-675 | Every 64-bit minor amount written with two decimals is found again, and nothing else is, whatever blanks are around it |
| Amounts.AmountBetweenBlanks | crates/analytics/src/opensearch.rs:617 | Tabs, line ends and spaces are such blanks |
| Amounts.WholeAmount | crates/analytics/src/opensearch.rs:616-675 | A whole number between any blanks is searched as itself and as its hundredfold, up to 64 bits |
| OpenSearch.RunScript | crates/analytics/src/opensearch.rs:517-545 | The scan with early exits accepts exactly when the first attempt with the active id has a wanted field |
| OpenSearch.QueryBuilder.constructor | crates/analytics/src/opensearch.rs:548-577 | A new builder has the text and scopes and nothing else |
| OpenSearch.QueryBuilder.SetTimeRange | crates/analytics/src/opensearch.rs:585-588 | Replaces the time range only |
| OpenSearch.QueryBuilder.SetAmountRange | crates/analytics/src/opensearch.rs:590-593 | Replaces the amount range only |
| OpenSearch.QueryBuilder.AddFilterClause | crates/analytics/src/opensearch.rs:595-598 | Appends the filter only |
| OpenSearch.QueryBuilder.BuildFilterArray | crates/analytics/src/opensearch.rs:797-872 | The pushed clauses are the specified filter array |
| OpenSearch.QueryBuilder.BuildCaseInsensitiveFilters | crates/analytics/src/opensearch.rs:874-958 | Sets the must array and leaves the rest of the payload |
| OpenSearch.QueryBuilder.ConstructPayload | crates/analytics/src/opensearch.rs:1068-1135 | One payload per index, in order |
| SearchMeaning.TextMeans | crates/analytics/src/opensearch.rs:677-708 | The free-text clause accepts a document that matches the phrase or holds an amount the text means |
| SearchMeaning.MultiFieldMeans | crates/analytics/src/opensearch.rs:777-795 | A multi-field filter accepts exactly when one of the fields has one of the values up to case |
| SearchMeaning.FirstAttemptMeans | crates/analytics/src/opensearch.rs:810-839 | The first-attempt filter asks for one attempt, for more, for either, or for nothing |
| SearchMeaning.ActiveAttemptMeans | crates/analytics/src/opensearch.rs:710-775 | The card-discovery query is the disjunction of its three cases stated on the document |
| SearchMeaning.FilterMeans | crates/analytics/src/opensearch.rs:881-936 | Each stored filter's query accepts exactly the documents the filter describes, said with the documents' own field names; a filter without alternatives accepts all |
| SearchMeaning.FoldingExact | crates/analytics/src/opensearch.rs:914-930 | A case-insensitive term identifies exactly the texts that differ in the case of letters only |
| SearchMeaning.ScopeMeans | crates/analytics/src/opensearch.rs:960-1059 | A scope's query accepts exactly the documents of that organisation, merchant or profile |
| SearchMeaning.PartitionIsExact | crates/analytics/src/opensearch.rs:1072-1075 | Splitting the filters by case sensitivity loses and repeats none |
| SearchMeaning.PayloadMeans | crates/analytics/src/opensearch.rs:1068-1135 | For every request, index and document, the payload accepts exactly when text, every filter with alternatives, both ranges and one of the scopes hold |
| SearchMeaning.EmptyListsAdmitEverything | crates/analytics/src/opensearch.rs:881-936 | A status filter without values and a request without scopes accept a document that has neither |
| SearchRequests.AppendFilters | crates/analytics/src/search.rs:65-179 | Stores exactly the filters that are given and not empty, in order, each under its key |
| SearchRequests.FieldMeans | crates/analytics/src/search.rs:65-179 | Each of the 24 filters of a request, as stored, asks for exactly the documents it should, said with the documents' own field names |
| SearchRequests.SearchMeans | crates/analytics/src/search.rs:40-184 | For every request, index and document: what is found is what the text, each given filter, both ranges and one of the scopes ask for |
| SearchRequests.ByAmountRange | crates/analytics/src/opensearch.rs:860-869 | In each index an amount range finds exactly the refunds, disputes or payments it holds with an amount in the range |
| SearchRequests.ByAmount | crates/analytics/src/opensearch.rs:841-846 | In each index an amount filter finds exactly the records of its kind with one of the amounts |
| SearchRequests.ByStatus | crates/analytics/src/opensearch.rs:909-913 | In each index a status filter finds exactly the records of its kind with one of the statuses in any case |
| SearchRequests.ByText | crates/analytics/src/opensearch.rs:677-708 | In each index a text finds what matches it and exactly the records of its kind with an amount it means |
| SearchRequests.CaseExact | crates/analytics/src/opensearch.rs:563-574 | For every text filter: a document is found in any case, except by identifiers, addresses, last digits and card discovery, which must be the same |
| SearchRequests.TagsMatchInAnyCase | crates/analytics/src/search.rs:89-103 | Search tags are matched in any case, although listed as case-sensitive |
| ActiveAttempt.FilterAsksAboutActiveAttempt | crates/analytics/src/opensearch.rs:710-775 | With a current top-level field the three cases together ask exactly whether the active attempt's field is wanted |
| ActiveAttempt.FilterAsksAboutActiveAttemptExact | crates/analytics/src/opensearch.rs:710-775 | On every payment document the filter asks about the active attempt, whatever is wanted, if and only if the top-level field is absent or the active attempt's |
| ActiveAttempt.StaleTopLevelFieldWins | crates/analytics/src/opensearch.rs:710-775 | A payment document whose stale top-level field is accepted although the active attempt holds another value |
| Scopes.SetFilterClause | crates/analytics/src/query.rs:953-1000 | The builder ends with exactly the scope's conditions, in order |
| Scopes.SqlScopeMeans | crates/analytics/src/query.rs:953-1000 | The conditions admit exactly the rows of the scope, id lists read without their spaces |
| Scopes.ScopeTextMeans | crates/analytics/src/query.rs:953-1000 | The scope's WHERE text reads if and only if its id lists are not empty, and then means the scope on every row |
| Scopes.ScopesAgree | crates/analytics/src/opensearch.rs:960-1059 | For ids without spaces SQL and search admit the same records |
| Scopes.ScopesAgreeExact | crates/analytics/src/opensearch.rs:960-1059 | A scope with non-empty lists selects the same records in both if and only if no listed id has a space |
| Scopes.SpaceBreaksAgreement | crates/analytics/src/query.rs:711-727 | For every scope that lists an id with a space there is a record that search admits and SQL refuses |
| Scopes.ScopesNest | crates/analytics/src/opensearch.rs:960-1059 | In search, profile scopes lie inside their merchant's and merchant scopes inside their organisation's |
| Scopes.SqlScopesNestExact | crates/analytics/src/query.rs:953-1000 | In SQL a profile scope lies inside a merchant scope if and only if it admits nothing or its merchant id is among the listed ids once their spaces are removed |
| Capture.FileNameInjective | cypress-tests/mitm-proxy/mitm_capture.py:293 | Different rids or slots never share a file name, slots of any width included |
| Capture.HashOfRid | cypress-tests/mitm-proxy/mitm_capture.py:92-93 | The hash of an accepted rid is its first eight characters |
| Capture.RidExact | cypress-tests/mitm-proxy/mitm_capture.py:37 | Of all texts with one dash, exactly those with eight hexadecimal characters before and three digits behind it are accepted |
| Capture.FileNameIs | cypress-tests/mitm-proxy/mitm_capture.py:293 | The slot is printed with at least two digits |
| Capture.SlotsInRequestOrder | cypress-tests/mitm-proxy/mitm_capture.py:221-234 | Under every interleaving, the slots claimed for a rid since its test's last start are 0, 1, 2, .. in request order |
| Capture.LookupsNeverFail | cypress-tests/mitm-proxy/mitm_capture.py:237-246 | In every run, the unguarded lookup of a flow's test finds it |
| Capture.CaptureAddon.constructor | cypress-tests/mitm-proxy/mitm_capture.py:53-56 | Nothing is registered and the files on disk are as they were |
| Capture.CaptureAddon.WipeTestCassettes | cypress-tests/mitm-proxy/mitm_capture.py:120-131 | The loop removes exactly the files the pattern of folder and hash matches, wildcards in either included, and counts them |
| Capture.CaptureAddon.RegisterTest | cypress-tests/mitm-proxy/mitm_capture.py:171-188 | Registers the test and drops exactly its counters |
| Capture.CaptureAddon.OnRequest | cypress-tests/mitm-proxy/mitm_capture.py:221-234 | Claims the next slot for a known test's rid and otherwise changes nothing |
| Capture.CaptureAddon.OnResponse | cypress-tests/mitm-proxy/mitm_capture.py:237-246 | Takes the folder registered at that moment for a flow with a slot |
| Capture.CaptureAddon.WriteCassette | cypress-tests/mitm-proxy/mitm_capture.py:293-295 | Writes the flow's cassette under its rid and slot |
| Replay.SortSorts | cypress-tests/mitm-proxy/mitm_replay.py:74-76 | The loaded entries are sorted by sequence and are a permutation of the files' |
| Replay.SortIsStable | cypress-tests/mitm-proxy/mitm_replay.py:74-76 | Files of one sequence keep their listing order |
| Replay.CassetteStore.constructor | cypress-tests/mitm-proxy/mitm_replay.py:47-51 | A new store is empty |
| Replay.CassetteStore.Load | cypress-tests/mitm-proxy/mitm_replay.py:53-76 | Every rid gets its files' responses sorted by sequence, other files skipped |
| Replay.CassetteStore.ServeNext | cypress-tests/mitm-proxy/mitm_replay.py:84-94 | Serves the cassette at the rid's cursor and moves only that cursor, only on a hit |
| Replay.CassetteStore.ResetForHash | cypress-tests/mitm-proxy/mitm_replay.py:96-103 | Drops exactly the cursors of the test and counts them |
| Replay.CassetteStore.HandleRequest | cypress-tests/mitm-proxy/mitm_replay.py:192-225 | Decides hit, block or live; in strict mode no connector call goes live |
| Replay.CursorCounts | cypress-tests/mitm-proxy/mitm_replay.py:84-94 | In every run, a cursor is the smaller of the requests since its rewind and its cassettes |
| Replay.KthRequestGetsKthCassette | cypress-tests/mitm-proxy/mitm_replay.py:84-94 | In every run the k-th request of a rid since its rewind gets its k-th cassette, later ones a miss |
| Replay.KthOutcome | cypress-tests/mitm-proxy/mitm_replay.py:192-225 | The same for the whole decision on any call: not handled, hit, blocked when strict, live otherwise |
| Replay.NoCassetteTwice | cypress-tests/mitm-proxy/mitm_replay.py:84-94 | Two hits of a rid with no rewind of its test in between are served from different positions, the later one further on; distinct cassettes give distinct answers |
| Replay.RewindIsFreshForItsTestOnly | cypress-tests/mitm-proxy/mitm_replay.py:96-103 | After a rewind its test's rids are served as from a fresh load, all others as if there had been none |
| Replay.SameTests | cypress-tests/mitm-proxy/mitm_replay.py:96-103 | Replay's prefix test and capture's hash pick out the same rids |
| RecordReplay.WipeIsPerTest | cypress-tests/mitm-proxy/mitm_capture.py:120-131 | A wipe whose hash and folder hold no wildcard removes from that folder the cassettes of the test with that hash, or of the rid given as a hash, and no others |
| RecordReplay.InvHolds | cypress-tests/mitm-proxy/mitm_capture.py:171-295 | In every run, starts in changing folders and with any hash included, each slot's file where its test records is that of the flow that claimed it, or one from before the last start, or absent: not written yet or removed by another test's start |
| RecordReplay.LoadsInRequestOrderExact | cypress-tests/mitm-proxy/mitm_capture.py:171-295 | A settled rid loads as its responses in request order if and only if none of its files is left from before the last start, none was removed by the start of another test, whatever its hash, and none of its cassettes lies in another folder |
| RecordReplay.ReplayRefinesCapture | cypress-tests/mitm-proxy/mitm_replay.py:53-94 | End to end, for a settled rid that meets that condition: the k-th replayed request gets the response recorded for the k-th captured one, however responses, listings, rewinds and other rids interleave |
| RecordReplay.LateWrite | cypress-tests/mitm-proxy/mitm_capture.py:186-188 | From every state, a response looked up before its test is started again and written after leaves a stale file |
| RecordReplay.InFlightAcrossStart | cypress-tests/mitm-proxy/mitm_capture.py:186-188 | Such a run exists from an empty start |
| RecordReplay.MovedTest | cypress-tests/mitm-proxy/mitm_capture.py:171-184 | From every state, starting a test again in another folder whose pattern does not match leaves its old cassettes where replay still reads them |
| RecordReplay.RecordedInAnotherFolder | cypress-tests/mitm-proxy/mitm_capture.py:171-184 | The collision the proxy warns about, as a run from an empty start |
| RecordReplay.MatchingStart | cypress-tests/mitm-proxy/mitm_capture.py:120-131 | From every settled state, any start of another test whose pattern matches a file of the rid loses it |
| RecordReplay.MatchingHashes | cypress-tests/mitm-proxy/mitm_capture.py:125 | The rid itself, a star and eight question marks are such hashes, in any folder without wildcards and for every slot |
| RecordReplay.StartedByPattern | cypress-tests/mitm-proxy/mitm_capture.py:120-131 | From every settled state, a start with one of those hashes loses what the rid has recorded in that folder |
| RecordReplay.PatternFolder | cypress-tests/mitm-proxy/mitm_capture.py:125 | In a folder named as a pattern a test's own start leaves its files and removes those of another folder |
| Redirects.RedirectProxy.constructor | cypress-tests/mitm-proxy/redirect_proxy.py:31-33 | Nothing is reserved and no redirect counted |
| Redirects.RedirectProxy.HandleReserve | cypress-tests/mitm-proxy/redirect_proxy.py:245-255 | Accepts exactly reservations with all three parts; a later one for the same payment replaces the earlier, a refused one changes nothing |
| Redirects.RedirectProxy.InjectRid | cypress-tests/mitm-proxy/redirect_proxy.py:160-163 | Returns and removes the payment's reservation |
| Redirects.RedirectProxy.SaveRedirect | cypress-tests/mitm-proxy/redirect_proxy.py:128-146 | Numbers the body with the test's next count, and only when there is one |
| Redirects.RedirectProxy.HandleTestStart | cypress-tests/mitm-proxy/redirect_proxy.py:238-243 | Drops the test's count only |
| Redirects.ReservedIsOutstanding | cypress-tests/mitm-proxy/redirect_proxy.py:160-163 | In every run, what is reserved is the last accepted reservation not yet injected |
| Redirects.InjectionIsLatest | cypress-tests/mitm-proxy/redirect_proxy.py:160-163 | Every injection gets the latest outstanding reservation of its payment, or nothing if there is none |
| Redirects.InjectedOnce | cypress-tests/mitm-proxy/redirect_proxy.py:160-163 | What a later redirect call of a payment receives was reserved after the earlier one |
| Redirects.NumbersWithoutGaps | cypress-tests/mitm-proxy/redirect_proxy.py:128-146 | The bodies saved since a test's start are numbered 1, 2, 3, .. |
| Redirects.BodyNameIs | cypress-tests/mitm-proxy/redirect_proxy.py:144 | The name is the hash, the number with at least three digits, and the ending |
| Redirects.BodyNamesDiffer | cypress-tests/mitm-proxy/redirect_proxy.py:128-146 | A file name tells its test and its number, for any hashes and beyond three digits too |
| Redirects.SharedNameExact | cypress-tests/mitm-proxy/redirect_proxy.py:128-146 | In every run two saved bodies go to one file if and only if they are of one test and as many bodies of it were saved before each since its last start; then the test was started between them |
| CfgEvaluator.EvaluateAny | crates/smithy-generator/build.rs:452-462 | True exactly when some part holds |
| CfgEvaluator.EvaluateAll | crates/smithy-generator/build.rs:465-480 | True exactly when every part holds, negated parts included |
| CfgEvaluator.EvaluateCfgCondition | crates/smithy-generator/build.rs:405-449 | The four patterns in turn; a line none matches counts as available |
| CfgEvaluator.IsItemAvailable | crates/smithy-generator/build.rs:370-402 | Available exactly when every attribute line holds |
| CfgEvaluator.MatchCallExact | crates/smithy-generator/build.rs:418-445 | A call pattern matches exactly a non-empty argument text without closing parentheses |
| CfgEvaluator.SimpleFeature | crates/smithy-generator/build.rs:483-496 | A feature's text holds exactly when the feature is on |
| CfgEvaluator.SpacedFeature | crates/smithy-generator/build.rs:483-496 | The feature pattern matches with any blanks around the equals sign and takes what is between the quotes |
| CfgEvaluator.NegatedPart | crates/smithy-generator/build.rs:465-480 | Inside all, a negated feature holds exactly when the feature is off |
| CfgEvaluator.LineCounts | crates/smithy-generator/build.rs:383-389 | Indented attribute lines count, other lines do not |
| CfgEvaluator.BlankLineCounts | crates/smithy-generator/build.rs:383-389 | Blank lines do not count |
| CfgEvaluator.CfgEvaluationExact | crates/smithy-generator/build.rs:405-496 | For every cfg expression the evaluator computes Rust's meaning on the covered forms and says available on all others, so it never misses an available item |
| CfgEvaluator.AttributesAreConjoined | crates/smithy-generator/build.rs:383-401 | With several attributes an item is available exactly when every covered one is enabled |

## Left out

- Percentile aggregates, sums over windows, row loaders, and the ClickHouse, Postgres and OpenSearch clients with their errors and retries.
- The per-client texts of enums; they enter as strings.
- TimeTexts.TimeTextReads: Postgres keeps microseconds, and the ClickHouse column begins in 1970 and ends in 2106; the model has nanoseconds and every year.
- Calendar.DateOf: years have no bound, where the `time` crate has one.
- ResultAgreement.RowsEqualExact: is about rows without a sum or distinct count of the creation time and without the sign column; minimum and maximum of the creation time are the columns the loader truncates.
- Null results: the sum of a group without non-null values is 0 in the model, and the minimum of no rows is null, where ClickHouse gives a default.
- EngineAgreement.MetricsAgree: HAVING conditions are on counts and sums without an alias; a condition on a minimum or maximum depends on merging as `UnsignedBounds` says. Filters are those both dialects read alike (`EnginesReadAlikeExact`), on columns other than the creation time, which also is no dimension.
- EngineAgreement.MetricsAgreeExact: is about metrics that group or count and have no condition on groups, which could hide the difference.
- The time-bucket column selected by `add_granularity_in_mins` is compared as a bucket in `TimeBuckets.IntervalIsClickhouse` only; it is used on tables Postgres does not have.
- Metrics.MetricQuery: takes the filters as a list, where the source's filter and scope clauses add them one after another; a condition that a metric adds behind the time range stands before it.
- SqlLiteral.LiteralRoundTrip: the reader rejects escapes other than a doubled backslash and an escaped quote, which the printer never emits.
- Filters.PrintedFilterMeansFilter: the order of values is a parameter, so collation and numeric comparison are not fixed; a hand-written IN operand is covered only when it is a list of quoted literals.
- RunTexts.RunBaseReads: is about calls whose arguments print readably; a run without a column or a filter is covered by `BuildQuery` and `WithoutFiltersWhereIsUnreadable`.
- EngineAgreement.RecordTablesAnswerLive: conditions on groups are on counts and sums without an alias; minimum, maximum and distinct count are compared in `UnsignedBounds`.
- Scopes.ScopesAgreeExact: with an empty id list the SQL text does not read (`ScopeTextMeans`), so the two are compared for non-empty lists.
- TimeBuckets.BucketsCoincide: time zones; all times are UTC.
- The check that a search request is not empty, and OpenSearch sorting, offsets, counts and responses, text analysis (whether a phrase matches is a property of the document) and case folding beyond ASCII.
- ActiveAttempt.FilterAsksAboutActiveAttemptExact: is about documents whose list and source agree on the attempts.
- RecordReplay.LoadsInRequestOrderExact: a response is identified by its flow, so cassettes found on disk at the start carry flows of earlier runs.
- Capture.HashOfRid: the digits of a rid are ASCII, where the source's pattern admits other decimal digits.
- Capture.CaptureAddon.WipeTestCassettes: names that begin with a dot, a hash that begins with a slash or holds a part `.` or `..`, and failed deletions.
- Body encoding, headers and timing in cassettes; URL matching; how folder names are made.
- The redirect proxy's parsing of paths and bodies, its forwarding, and its check that a file stays in its directory.
- CfgEvaluator.CfgEvaluationExact: feature names are those Cargo allows, printed with one attribute per line and the usual spacing.
- The generator's feature tables, discovery of models and registry text: tables and formatting, which would only add easy members.
