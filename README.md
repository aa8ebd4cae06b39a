# Apache NiFi, selected components, modelled in Dafny

Four pieces of Apache NiFi, modelled and proved:

- **Oracle 12 database adapter** (`oracle12_database_adapter.dfy`, module `Oracle12`).
  It covers the SQL text of `getSelectStatement`, in its six- and seven-argument forms, with paging as `OFFSET … ROWS FETCH NEXT … ROWS ONLY` or as a range on a partitioning column.
  It also covers `getUpsertStatement` (a `MERGE … USING (SELECT ? … FROM DUAL)`) together with its argument checks, and `supportsUpsert`.
- **DataDog reporting task** (`datadog_reporting_task.dfy`, module `DataDog`).
  This is a class with the reporting task's fields: the metrics prefix, environment, status id, default tags, the metric value map and the gauge registry.
  It models `updateMetrics`, where a gauge is registered once and its value is overwritten on every update; the four `populate*Statuses` pre-order collections; `buildMetricName`; `MetricGauge.getTags`; `updateDataDogTransport`; `updateAllMetricGroups`; and `onTrigger` with its default and processor tags.
- **Kinesis record processor** (`kinesis_record_processor.dfy`, module `Kinesis`).
  This is a class holding the shard id, the processing-records flag, the next checkpoint time and a log.
  `initialize` schedules the first checkpoint one interval from now. `shutdown` waits on TERMINATE for records being processed, then runs a checkpoint loop bounded by `numRetries`. That loop retries only while the checkpoint is throttled.
- **Beats encoder** (`beats_encoder.dfy`, module `Beats`).
  A frame is encoded as its version byte, its frame-type byte and then its payload. The payload `ByteBuffer.putInt` writes is four big-endian bytes.

Supporting modules:

- `Wrappers`: `Option` and `Result`.
- `JavaLong`: Java `long`, with wrap-around addition and `Long.toString` plus its inverse.
- `Text`: `String.join`, `trim`, `equalsIgnoreCase`.

Every stateful operation is a method proved against a specification function. The properties the source promises are proved as lemmas about those functions.

Three implementation classes are not part of this model: `Oracle12DatabaseAdapter`, `AbstractKinesisRecordProcessor` and `BeatsEncoder`. Their behaviour here is the one their tests fix, completed with the upstream NiFi logic for the cases the tests leave open. The cases completed from the upstream logic are:

- a column list that trims to `*` selects `*`;
- the partition range is written only after a WHERE clause;
- with a null offset, the partition range starts at `>= 0`;
- with a null limit, the partition range has no `<` bound;
- an offset of zero or below writes no `OFFSET … ROWS`;
- the upper bound `offset + limit` is a wrapping long addition;
- when every column is a key column, `UPDATE SET ` is followed by nothing;
- `initialize` logs a warning for a pending checkpoint, otherwise a debug line;
- `shutdown` logs a debug line first, and one per TERMINATE wait;
- the info and error messages of the retry loop.

## Model

| member | source | states |
|---|---|---|
| Oracle12.SelectList | nifi-nar-bundles/nifi-standard-bundle/nifi-standard-processors/src/test/java/org/apache/nifi/processors/standard/db/impl/TestOracle12DatabaseAdapter.java:50-52 | an empty column list (or one that trims to `*`) selects `*`; any other list is written as given |
| Oracle12.GetSelectStatement | nifi-nar-bundles/nifi-standard-bundle/nifi-standard-processors/src/test/java/org/apache/nifi/processors/standard/db/impl/TestOracle12DatabaseAdapter.java:55-58 | the six-argument form fails with IllegalArgument exactly when the table name is empty |
| Oracle12.GetSelectStatementPartitioned | nifi-nar-bundles/nifi-standard-bundle/nifi-standard-processors/src/test/java/org/apache/nifi/processors/standard/db/impl/TestOracle12DatabaseAdapter.java:79-97 | the seven-argument form fails with IllegalArgument exactly when the table name is empty |
| Oracle12.SelectWithoutPaging | nifi-nar-bundles/nifi-standard-bundle/nifi-standard-processors/src/test/java/org/apache/nifi/processors/standard/db/impl/TestOracle12DatabaseAdapter.java:36-53 | without limit or offset the query is `SELECT list FROM table`, then ` WHERE w` if given, then ` ORDER BY o` if given |
| Oracle12.SelectPaging | nifi-nar-bundles/nifi-standard-bundle/nifi-standard-processors/src/test/java/org/apache/nifi/processors/standard/db/impl/TestOracle12DatabaseAdapter.java:60-77 | with a limit and no partitioning column: head, WHERE, ORDER BY, ` OFFSET o ROWS` only for a positive offset, then ` FETCH NEXT n ROWS ONLY` |
| Oracle12.SelectPartitioned | nifi-nar-bundles/nifi-standard-bundle/nifi-standard-processors/src/test/java/org/apache/nifi/processors/standard/db/impl/TestOracle12DatabaseAdapter.java:79-91 | with a partitioning column and a WHERE clause: ` WHERE w AND c >= offset AND c < offset+limit` (long addition), no ORDER BY, no OFFSET/FETCH |
| Oracle12.SelectPartitionedWithoutWhere | nifi-nar-bundles/nifi-standard-bundle/nifi-standard-processors/src/test/java/org/apache/nifi/processors/standard/db/impl/TestOracle12DatabaseAdapter.java:93-96 | with a partitioning column and no WHERE clause, paging is dropped and the plain head is returned |
| Oracle12.NotStarWithTwoVisible | nifi-nar-bundles/nifi-standard-bundle/nifi-standard-processors/src/test/java/org/apache/nifi/processors/standard/db/impl/TestOracle12DatabaseAdapter.java:38-40 | a column list with two visible characters is never mistaken for `*` |
| Oracle12.TestColumnsAreNotStar | nifi-nar-bundles/nifi-standard-bundle/nifi-standard-processors/src/test/java/org/apache/nifi/processors/standard/db/impl/TestOracle12DatabaseAdapter.java:38 | the test column list is written as given |
| Oracle12.GenerationExamples | nifi-nar-bundles/nifi-standard-bundle/nifi-standard-processors/src/test/java/org/apache/nifi/processors/standard/db/impl/TestOracle12DatabaseAdapter.java:36-58 | the exact strings of the four generation cases, and the failure for an empty table |
| Oracle12.TestHead | nifi-nar-bundles/nifi-standard-bundle/nifi-standard-processors/src/test/java/org/apache/nifi/processors/standard/db/impl/TestOracle12DatabaseAdapter.java:38-39 | the head of every test query is `SELECT <test columns> FROM database.tablename` |
| Oracle12.PagingZeroOffsetExample | nifi-nar-bundles/nifi-standard-bundle/nifi-standard-processors/src/test/java/org/apache/nifi/processors/standard/db/impl/TestOracle12DatabaseAdapter.java:62-64 | offset 0 writes only `FETCH NEXT 100 ROWS ONLY` after ORDER BY |
| Oracle12.PagingOffsetExamples | nifi-nar-bundles/nifi-standard-bundle/nifi-standard-processors/src/test/java/org/apache/nifi/processors/standard/db/impl/TestOracle12DatabaseAdapter.java:66-72 | offset 123456 writes `OFFSET 123456 ROWS FETCH NEXT 10000 ROWS ONLY`, with and without WHERE |
| Oracle12.PagingLimitOnlyExample | nifi-nar-bundles/nifi-standard-bundle/nifi-standard-processors/src/test/java/org/apache/nifi/processors/standard/db/impl/TestOracle12DatabaseAdapter.java:74-76 | a null offset and empty ORDER BY write only `FETCH NEXT 100 ROWS ONLY` |
| Oracle12.PartitioningExamples | nifi-nar-bundles/nifi-standard-bundle/nifi-standard-processors/src/test/java/org/apache/nifi/processors/standard/db/impl/TestOracle12DatabaseAdapter.java:79-97 | the exact strings of the four partitioning cases, including the upper bound 133456 = 123456 + 10000 |
| Oracle12.SupportsUpsert | nifi-nar-bundles/nifi-standard-bundle/nifi-standard-processors/src/test/java/org/apache/nifi/processors/standard/db/impl/TestOracle12DatabaseAdapter.java:99-102 | the adapter supports upserts |
| Oracle12.GetUpsertStatement | nifi-nar-bundles/nifi-standard-bundle/nifi-standard-processors/src/test/java/org/apache/nifi/processors/standard/db/impl/TestOracle12DatabaseAdapter.java:104-132 | table, then columns, then keys are checked in that order, each with its own message; success exactly when all three are present |
| Oracle12.Assignments | nifi-nar-bundles/nifi-standard-bundle/nifi-standard-processors/src/test/java/org/apache/nifi/processors/standard/db/impl/TestOracle12DatabaseAdapter.java:142-144 | one `table.c = n.c` per column, in order |
| Oracle12.NonKeyColumns | nifi-nar-bundles/nifi-standard-bundle/nifi-standard-processors/src/test/java/org/apache/nifi/processors/standard/db/impl/TestOracle12DatabaseAdapter.java:144 | never longer than the column list |
| Oracle12.NonKeyColumnsMembers | nifi-nar-bundles/nifi-standard-bundle/nifi-standard-processors/src/test/java/org/apache/nifi/processors/standard/db/impl/TestOracle12DatabaseAdapter.java:144 | a column is updated exactly when it is a column and not a key column |
| Oracle12.NonKeyColumnsAppend | nifi-nar-bundles/nifi-standard-bundle/nifi-standard-processors/src/test/java/org/apache/nifi/processors/standard/db/impl/TestOracle12DatabaseAdapter.java:144 | the non-key columns keep their original order: filtering distributes over concatenation |
| Oracle12.UpsertLayout | nifi-nar-bundles/nifi-standard-bundle/nifi-standard-processors/src/test/java/org/apache/nifi/processors/standard/db/impl/TestOracle12DatabaseAdapter.java:141-144 | the MERGE text: one `? c` per column in USING, key equalities joined by ` AND ` in ON, all columns in INSERT, `n.c` values, non-key assignments in UPDATE SET |
| Oracle12.UpsertExample | nifi-nar-bundles/nifi-standard-bundle/nifi-standard-processors/src/test/java/org/apache/nifi/processors/standard/db/impl/TestOracle12DatabaseAdapter.java:134-149 | the exact MERGE statement for table `table`, four columns and keys column2, column4 |
| Oracle12.UpsertErrorExamples | nifi-nar-bundles/nifi-standard-bundle/nifi-standard-processors/src/test/java/org/apache/nifi/processors/standard/db/impl/TestOracle12DatabaseAdapter.java:104-132 | the three exact error messages of the null/empty argument tests |
| Text.Join | nifi-nar-bundles/nifi-standard-bundle/nifi-standard-processors/src/test/java/org/apache/nifi/processors/standard/db/impl/TestOracle12DatabaseAdapter.java:141-144 | `String.join` / `Collectors.joining`: no elements give the empty string, one element gives itself; the layout of longer joins is stated by `Text.JoinWithPrefix` and `Text.JoinAppend` |
| Text.JoinAppend | nifi-nar-bundles/nifi-standard-bundle/nifi-standard-processors/src/test/java/org/apache/nifi/processors/standard/db/impl/TestOracle12DatabaseAdapter.java:142 | joining two non-empty lists is joining each with the separator between, with the separator between the two joins |
| Text.Trim | nifi-nar-bundles/nifi-standard-bundle/nifi-standard-processors/src/test/java/org/apache/nifi/processors/standard/db/impl/TestOracle12DatabaseAdapter.java:38-52 | `trim`: the result is a slice of the input with only characters at or below U+0020 cut from both ends, and neither end of a non-empty result is such a character |
| Text.EqualsIgnoreCase | nifi-nar-bundles/nifi-datadog-bundle/nifi-datadog-reporting-task/src/main/java/org/apache/nifi/reporting/datadog/DataDogReportingTask.java:218-221 | equal names match; names of different lengths never match (ASCII case folding) |
| JavaLong.LongToString | nifi-nar-bundles/nifi-standard-bundle/nifi-standard-processors/src/test/java/org/apache/nifi/processors/standard/db/impl/TestOracle12DatabaseAdapter.java:62-76 | `Long.toString`: at least one character, starting with `-` exactly for a negative value; digits and no leading zero are stated on `NatToString` |
| Text.JoinWithPrefix | nifi-nar-bundles/nifi-standard-bundle/nifi-standard-processors/src/test/java/org/apache/nifi/processors/standard/db/impl/TestOracle12DatabaseAdapter.java:141 | `p + join(sep + p)` is the join of the prefixed elements, as the USING and VALUES lists are written |
| JavaLong.LongToStringRoundTrip | nifi-nar-bundles/nifi-standard-bundle/nifi-standard-processors/src/test/java/org/apache/nifi/processors/standard/db/impl/TestOracle12DatabaseAdapter.java:62-76 | the decimal text of every long reads back, through `ParseLong` (the inverse written for this statement), as that long, so the numbers written into paging clauses are exact |
| JavaLong.LongToStringInjective | nifi-nar-bundles/nifi-standard-bundle/nifi-standard-processors/src/test/java/org/apache/nifi/processors/standard/db/impl/TestOracle12DatabaseAdapter.java:62-76 | distinct longs are written differently |
| JavaLong.Add | nifi-nar-bundles/nifi-standard-bundle/nifi-standard-processors/src/test/java/org/apache/nifi/processors/standard/db/impl/TestOracle12DatabaseAdapter.java:85-91 | Java long addition: exact in range, otherwise wrapped by 2^64 |
| DataDog.MetricName | nifi-nar-bundles/nifi-datadog-bundle/nifi-datadog-reporting-task/src/main/java/org/apache/nifi/reporting/datadog/DataDogReportingTask.java:254-256 | the name is the prefix, a dot, then the metric name |
| DataDog.MetricNameInjective | nifi-nar-bundles/nifi-datadog-bundle/nifi-datadog-reporting-task/src/main/java/org/apache/nifi/reporting/datadog/DataDogReportingTask.java:254-256 | distinct metric keys give distinct names under one prefix |
| DataDog.DataDogReportingTask.UpdateMetrics | nifi-nar-bundles/nifi-datadog-bundle/nifi-datadog-reporting-task/src/main/java/org/apache/nifi/reporting/datadog/DataDogReportingTask.java:147-159 | the new value map is the old one overwritten by the prefixed metrics, and the new registry is `RegisterNew` of the old one; pointwise: every key k gets `metricsMap[prefix.k] == v`, other entries are unchanged, a gauge is registered with the given tags only for a name seen for the first time, registered gauges are never replaced; registered names stay the keys of metricsMap |
| DataDog.DataDogReportingTask.PutMetric | nifi-nar-bundles/nifi-datadog-bundle/nifi-datadog-reporting-task/src/main/java/org/apache/nifi/reporting/datadog/DataDogReportingTask.java:151-157 | one entry: the value is overwritten, and a gauge is registered only if the name is new |
| DataDog.RegisterNew | nifi-nar-bundles/nifi-datadog-bundle/nifi-datadog-reporting-task/src/main/java/org/apache/nifi/reporting/datadog/DataDogReportingTask.java:151-155 | registration adds exactly the names not registered before and keeps existing gauges |
| DataDog.RegistrationIsOnce | nifi-nar-bundles/nifi-datadog-bundle/nifi-datadog-reporting-task/src/main/java/org/apache/nifi/reporting/datadog/DataDogReportingTask.java:151-155 | registering the same metrics again changes nothing |
| DataDog.UpdatedValue | nifi-nar-bundles/nifi-datadog-bundle/nifi-datadog-reporting-task/src/main/java/org/apache/nifi/reporting/datadog/DataDogReportingTask.java:157 | after the update the name of each reported key maps to its reported value |
| DataDog.UpdateKeepsOthers | nifi-nar-bundles/nifi-datadog-bundle/nifi-datadog-reporting-task/src/main/java/org/apache/nifi/reporting/datadog/DataDogReportingTask.java:147-159 | names not reported keep their value |
| DataDog.PopulateStatuses | nifi-nar-bundles/nifi-datadog-bundle/nifi-datadog-reporting-task/src/main/java/org/apache/nifi/reporting/datadog/DataDogReportingTask.java:226-252 | the accumulator ends as its old content followed by the statuses of the whole tree in pre-order |
| DataDog.FlattenIsPreOrder | nifi-nar-bundles/nifi-datadog-bundle/nifi-datadog-reporting-task/src/main/java/org/apache/nifi/reporting/datadog/DataDogReportingTask.java:226-252 | `Flatten`, what the `populate*Statuses` methods collect, is the concatenation of each group's own statuses, the groups in pre-order |
| DataDog.FlattenLength | nifi-nar-bundles/nifi-datadog-bundle/nifi-datadog-reporting-task/src/main/java/org/apache/nifi/reporting/datadog/DataDogReportingTask.java:226-252 | the number of statuses collected is the sum over all groups of the tree |
| DataDog.FlattenMembers | nifi-nar-bundles/nifi-datadog-bundle/nifi-datadog-reporting-task/src/main/java/org/apache/nifi/reporting/datadog/DataDogReportingTask.java:226-252 | a status is collected exactly when some group of the tree owns it |
| DataDog.ConcatOwnLength | nifi-nar-bundles/nifi-datadog-bundle/nifi-datadog-reporting-task/src/main/java/org/apache/nifi/reporting/datadog/DataDogReportingTask.java:227 | the length of a concatenation is the sum of the parts |
| DataDog.ConcatOwnMembers | nifi-nar-bundles/nifi-datadog-bundle/nifi-datadog-reporting-task/src/main/java/org/apache/nifi/reporting/datadog/DataDogReportingTask.java:227 | an element of the concatenation belongs to one of the groups |
| DataDog.ConcatOwnAppend | nifi-nar-bundles/nifi-datadog-bundle/nifi-datadog-reporting-task/src/main/java/org/apache/nifi/reporting/datadog/DataDogReportingTask.java:228-230 | concatenating the statuses of two runs of groups is concatenating each |
| DataDog.DataDogReportingTask.UpdateStatusMetrics | nifi-nar-bundles/nifi-datadog-bundle/nifi-datadog-reporting-task/src/main/java/org/apache/nifi/reporting/datadog/DataDogReportingTask.java:162-186 | one status kind: the new value map and registry are `Store` and `Register` of the old ones over one update per status of the tree, in pre-order, each with that status's metrics and tags |
| DataDog.DataDogReportingTask.UpdateComponentMetrics | nifi-nar-bundles/nifi-datadog-bundle/nifi-datadog-reporting-task/src/main/java/org/apache/nifi/reporting/datadog/DataDogReportingTask.java:162-186 | the new value map and registry are `Store` and `Register` over `ComponentUpdates`: processors with `ProcessorTags` of the default and their own tags, then connections, input ports and output ports with the default tags |
| DataDog.DataDogReportingTask.UpdateAllMetricGroups | nifi-nar-bundles/nifi-datadog-bundle/nifi-datadog-reporting-task/src/main/java/org/apache/nifi/reporting/datadog/DataDogReportingTask.java:161-190 | the new value map and registry are `Store` and `Register` over `AllUpdates`: the component updates, then the JVM metrics and the flow metrics with the default tags |
| DataDog.DefaultTags | nifi-nar-bundles/nifi-datadog-bundle/nifi-datadog-reporting-task/src/main/java/org/apache/nifi/reporting/datadog/DataDogReportingTask.java:134-137 | exactly two tags: `env` is the environment and `dataflow_id` the status id |
| DataDog.ProcessorTags | nifi-nar-bundles/nifi-datadog-bundle/nifi-datadog-reporting-task/src/main/java/org/apache/nifi/reporting/datadog/DataDogReportingTask.java:165-166 | processor tags are the default tags overridden entry by entry by the processor's own |
| DataDog.MetricGauge.GetTags | nifi-nar-bundles/nifi-datadog-bundle/nifi-datadog-reporting-task/src/main/java/org/apache/nifi/reporting/datadog/DataDogReportingTask.java:207-213 | one `key:value` string per tag entry: the list is as long as the map, holds every entry's string and nothing else |
| DataDog.TagTextInjective | nifi-nar-bundles/nifi-datadog-bundle/nifi-datadog-reporting-task/src/main/java/org/apache/nifi/reporting/datadog/DataDogReportingTask.java:210 | for keys without a colon, `key:value` determines key and value |
| DataDog.TagText | nifi-nar-bundles/nifi-datadog-bundle/nifi-datadog-reporting-task/src/main/java/org/apache/nifi/reporting/datadog/DataDogReportingTask.java:210 | a tag is its key, a colon, then its value |
| DataDog.DataDogReportingTask.GetValue | nifi-nar-bundles/nifi-datadog-bundle/nifi-datadog-reporting-task/src/main/java/org/apache/nifi/reporting/datadog/DataDogReportingTask.java:202-204 | a gauge reads the current value stored under its name, if any |
| DataDog.ChooseTransport | nifi-nar-bundles/nifi-datadog-bundle/nifi-datadog-reporting-task/src/main/java/org/apache/nifi/reporting/datadog/DataDogReportingTask.java:216-224 | agent transport (ignoring case) builds with `agent`; HTTP with an API key builds with the key; otherwise nothing is built |
| DataDog.TransportNamesExclusive | nifi-nar-bundles/nifi-datadog-bundle/nifi-datadog-reporting-task/src/main/java/org/apache/nifi/reporting/datadog/DataDogReportingTask.java:218-221 | no transport name matches both choices |
| DataDog.HttpTransportUsesApiKey | nifi-nar-bundles/nifi-datadog-bundle/nifi-datadog-reporting-task/src/main/java/org/apache/nifi/reporting/datadog/DataDogReportingTask.java:218-222 | case-insensitive matching on concrete names, and no build for HTTP without a key |
| DataDog.DataDogReportingTask.UpdateDataDogTransport | nifi-nar-bundles/nifi-datadog-bundle/nifi-datadog-reporting-task/src/main/java/org/apache/nifi/reporting/datadog/DataDogReportingTask.java:216-224 | the built transport changes only when a choice is made; nothing else changes |
| DataDog.DataDogReportingTask.Setup | nifi-nar-bundles/nifi-datadog-bundle/nifi-datadog-reporting-task/src/main/java/org/apache/nifi/reporting/datadog/DataDogReportingTask.java:105-115 | empty maps, the default prefix and environment |
| DataDog.DataDogReportingTask.OnTrigger | nifi-nar-bundles/nifi-datadog-bundle/nifi-datadog-reporting-task/src/main/java/org/apache/nifi/reporting/datadog/DataDogReportingTask.java:127-145 | prefix, environment and status id are taken from the context; the default tags are built from them; the transport is updated; the new value map and registry are `Store` and `Register` over `AllUpdates` with those tags |
| DataDog.StatusUpdates | nifi-nar-bundles/nifi-datadog-bundle/nifi-datadog-reporting-task/src/main/java/org/apache/nifi/reporting/datadog/DataDogReportingTask.java:162-186 | one update per status, in the order of the statuses, each with that status's metrics and tags |
| DataDog.StoreAppend | nifi-nar-bundles/nifi-datadog-bundle/nifi-datadog-reporting-task/src/main/java/org/apache/nifi/reporting/datadog/DataDogReportingTask.java:161-190 | running the updates `a + b` leaves the values that running `a` and then `b` leaves |
| DataDog.RegisterAppend | nifi-nar-bundles/nifi-datadog-bundle/nifi-datadog-reporting-task/src/main/java/org/apache/nifi/reporting/datadog/DataDogReportingTask.java:161-190 | registering for `a + b` is registering for `a` and then for `b` |
| DataDog.StoreKeys | nifi-nar-bundles/nifi-datadog-bundle/nifi-datadog-reporting-task/src/main/java/org/apache/nifi/reporting/datadog/DataDogReportingTask.java:147-159 | after a run of updates the names with a value are the old ones plus the prefixed names of every metric mentioned |
| DataDog.StoreLatest | nifi-nar-bundles/nifi-datadog-bundle/nifi-datadog-reporting-task/src/main/java/org/apache/nifi/reporting/datadog/DataDogReportingTask.java:157 | a reported metric holds the value of the last update that mentions it |
| DataDog.StoreKeepsOthers | nifi-nar-bundles/nifi-datadog-bundle/nifi-datadog-reporting-task/src/main/java/org/apache/nifi/reporting/datadog/DataDogReportingTask.java:147-159 | a name no update mentions keeps its value |
| DataDog.RegisterKeys | nifi-nar-bundles/nifi-datadog-bundle/nifi-datadog-reporting-task/src/main/java/org/apache/nifi/reporting/datadog/DataDogReportingTask.java:151-155 | after a run of updates the registered names are the old ones plus the prefixed names of every metric mentioned |
| DataDog.RegisterKeeps | nifi-nar-bundles/nifi-datadog-bundle/nifi-datadog-reporting-task/src/main/java/org/apache/nifi/reporting/datadog/DataDogReportingTask.java:151-155 | a gauge registered before a run is still registered, unchanged, after it |
| DataDog.RegisterFirst | nifi-nar-bundles/nifi-datadog-bundle/nifi-datadog-reporting-task/src/main/java/org/apache/nifi/reporting/datadog/DataDogReportingTask.java:151-155 | a newly registered gauge carries the tags of the first update that mentions its metric |
| DataDog.ProcessorGaugeTags | nifi-nar-bundles/nifi-datadog-bundle/nifi-datadog-reporting-task/src/main/java/org/apache/nifi/reporting/datadog/DataDogReportingTask.java:163-167 | the gauge registered for a new processor metric has the tags of the first processor reporting it: the default tags overridden by that processor's own |
| DataDog.DataFlowValues | nifi-nar-bundles/nifi-datadog-bundle/nifi-datadog-reporting-task/src/main/java/org/apache/nifi/reporting/datadog/DataDogReportingTask.java:189 | after a run every flow metric holds the value the run reported for it, since the flow metrics come last |
| DataDog.RunValues | nifi-nar-bundles/nifi-datadog-bundle/nifi-datadog-reporting-task/src/main/java/org/apache/nifi/reporting/datadog/DataDogReportingTask.java:161-190 | after a run the names with a value are the old ones plus those of every metric reported, and the flow metrics hold their reported values |
| Kinesis.RecordProcessor.Initialize | nifi-nar-bundles/nifi-aws-bundle/nifi-aws-processors/src/test/java/org/apache/nifi/processors/aws/kinesis/stream/record/TestAbstractKinesisRecordProcessor.java:100-126 | the shard id is recorded; the next checkpoint is now + interval (long addition), later than now when that does not overflow; a pending checkpoint is logged as a warning |
| Kinesis.RecordProcessor.SetKinesisShardId | nifi-nar-bundles/nifi-aws-bundle/nifi-aws-processors/src/test/java/org/apache/nifi/processors/aws/kinesis/stream/record/TestAbstractKinesisRecordProcessor.java:134 | sets the shard id and nothing else |
| Kinesis.RecordProcessor.SetProcessingRecords | nifi-nar-bundles/nifi-aws-bundle/nifi-aws-processors/src/test/java/org/apache/nifi/processors/aws/kinesis/stream/record/TestAbstractKinesisRecordProcessor.java:188 | sets the processing flag and nothing else |
| Kinesis.RecordProcessor.Shutdown | nifi-nar-bundles/nifi-aws-bundle/nifi-aws-processors/src/test/java/org/apache/nifi/processors/aws/kinesis/stream/record/TestAbstractKinesisRecordProcessor.java:128-209 | the checkpoint calls made are those of the retry loop; the log is a debug line, the TERMINATE wait, then the loop's log; the state is unchanged |
| Kinesis.RecordProcessor.CheckpointWithRetries | nifi-nar-bundles/nifi-aws-bundle/nifi-aws-processors/src/test/java/org/apache/nifi/processors/aws/kinesis/stream/record/TestAbstractKinesisRecordProcessor.java:140-179 | the loop against its specification: calls made and messages logged |
| Kinesis.RecordProcessor.constructor | nifi-nar-bundles/nifi-aws-bundle/nifi-aws-processors/src/test/java/org/apache/nifi/processors/aws/kinesis/stream/record/TestAbstractKinesisRecordProcessor.java:84-86 | the configured interval, wait and retry count; no shard, not processing, empty log |
| Kinesis.TerminateWaitLog | nifi-nar-bundles/nifi-aws-bundle/nifi-aws-processors/src/test/java/org/apache/nifi/processors/aws/kinesis/stream/record/TestAbstractKinesisRecordProcessor.java:181-209 | a TERMINATE warns exactly when records are still being processed |
| Kinesis.CheckpointFrom | nifi-nar-bundles/nifi-aws-bundle/nifi-aws-processors/src/test/java/org/apache/nifi/processors/aws/kinesis/stream/record/TestAbstractKinesisRecordProcessor.java:140-179 | the retry loop from one call on: at most one message per call, and every message but the last is the info message of a throttled retry |
| Kinesis.Checkpoint | nifi-nar-bundles/nifi-aws-bundle/nifi-aws-processors/src/test/java/org/apache/nifi/processors/aws/kinesis/stream/record/TestAbstractKinesisRecordProcessor.java:140-179 | the whole retry loop: between one and numRetries calls when any retry is allowed, and none, with nothing logged, otherwise |
| Kinesis.ShutdownLog | nifi-nar-bundles/nifi-aws-bundle/nifi-aws-processors/src/test/java/org/apache/nifi/processors/aws/kinesis/stream/record/TestAbstractKinesisRecordProcessor.java:128-209 | everything a shutdown logs, in order: a debug line first, then the TERMINATE wait and the retry loop's messages |
| Kinesis.ShutdownWarnings | nifi-nar-bundles/nifi-aws-bundle/nifi-aws-processors/src/test/java/org/apache/nifi/processors/aws/kinesis/stream/record/TestAbstractKinesisRecordProcessor.java:128-209 | a shutdown logs a warning exactly when it is a TERMINATE that finds records still being processed; a REQUESTED or ZOMBIE shutdown never warns |
| Kinesis.CheckpointAttemptsBound | nifi-nar-bundles/nifi-aws-bundle/nifi-aws-processors/src/test/java/org/apache/nifi/processors/aws/kinesis/stream/record/TestAbstractKinesisRecordProcessor.java:85-86 | between one and numRetries checkpoint calls |
| Kinesis.CheckpointStopsAtFirstUnthrottled | nifi-nar-bundles/nifi-aws-bundle/nifi-aws-processors/src/test/java/org/apache/nifi/processors/aws/kinesis/stream/record/TestAbstractKinesisRecordProcessor.java:140-164 | every call but the last was throttled; the last was not, or used up the retries |
| Kinesis.CheckpointErrorLogged | nifi-nar-bundles/nifi-aws-bundle/nifi-aws-processors/src/test/java/org/apache/nifi/processors/aws/kinesis/stream/record/TestAbstractKinesisRecordProcessor.java:166-179 | an error is logged exactly when the last call hit an invalid state or was throttled out of retries |
| Kinesis.CheckpointUsesOnlyItsCalls | nifi-nar-bundles/nifi-aws-bundle/nifi-aws-processors/src/test/java/org/apache/nifi/processors/aws/kinesis/stream/record/TestAbstractKinesisRecordProcessor.java:94-98 | the loop depends on no checkpoint outcome beyond the calls it makes |
| Kinesis.AlwaysThrottled | nifi-nar-bundles/nifi-aws-bundle/nifi-aws-processors/src/test/java/org/apache/nifi/processors/aws/kinesis/stream/record/TestAbstractKinesisRecordProcessor.java:140-151 | a checkpointer that always throttles gets every allowed call, and one error ends the loop |
| Kinesis.ThrottledStep | nifi-nar-bundles/nifi-aws-bundle/nifi-aws-processors/src/test/java/org/apache/nifi/processors/aws/kinesis/stream/record/TestAbstractKinesisRecordProcessor.java:140-151 | a throttled call that is not the last allowed moves on to the next call |
| Kinesis.NoWarningInCheckpoint | nifi-nar-bundles/nifi-aws-bundle/nifi-aws-processors/src/test/java/org/apache/nifi/processors/aws/kinesis/stream/record/TestAbstractKinesisRecordProcessor.java:128-179 | the retry loop never logs a warning |
| Kinesis.ShutdownAttemptExamples | nifi-nar-bundles/nifi-aws-bundle/nifi-aws-processors/src/test/java/org/apache/nifi/processors/aws/kinesis/stream/record/TestAbstractKinesisRecordProcessor.java:128-179 | with 2 retries: success 1 call; throttled 2 calls ending in an error; shutdown failure 1 call; invalid state 1 call and an error |
| Kinesis.TerminateExamples | nifi-nar-bundles/nifi-aws-bundle/nifi-aws-processors/src/test/java/org/apache/nifi/processors/aws/kinesis/stream/record/TestAbstractKinesisRecordProcessor.java:181-209 | TERMINATE with a successful checkpoint: 1 call, and a warning exactly when processing |
| Kinesis.NewTestProcessor | nifi-nar-bundles/nifi-aws-bundle/nifi-aws-processors/src/test/java/org/apache/nifi/processors/aws/kinesis/stream/record/TestAbstractKinesisRecordProcessor.java:84-86 | the fixture: 10 s interval, 2 retries, no shard |
| Kinesis.Initialisation | nifi-nar-bundles/nifi-aws-bundle/nifi-aws-processors/src/test/java/org/apache/nifi/processors/aws/kinesis/stream/record/TestAbstractKinesisRecordProcessor.java:100-126 | with or without a pending checkpoint: shard id `shard-id`, next checkpoint later than now |
| Kinesis.ShutdownRun | nifi-nar-bundles/nifi-aws-bundle/nifi-aws-processors/src/test/java/org/apache/nifi/processors/aws/kinesis/stream/record/TestAbstractKinesisRecordProcessor.java:128-179 | REQUESTED/ZOMBIE shutdown of the test processor: the calls made (2 when throttled, else 1), and an error in the log exactly for throttled and invalid state |
| Kinesis.ShutdownWith | nifi-nar-bundles/nifi-aws-bundle/nifi-aws-processors/src/test/java/org/apache/nifi/processors/aws/kinesis/stream/record/TestAbstractKinesisRecordProcessor.java:128-179 | REQUESTED/ZOMBIE shutdowns: 2 calls when throttled, otherwise 1; an error logged exactly for throttled and invalid state |
| Kinesis.ShutdownTerminate | nifi-nar-bundles/nifi-aws-bundle/nifi-aws-processors/src/test/java/org/apache/nifi/processors/aws/kinesis/stream/record/TestAbstractKinesisRecordProcessor.java:181-209 | TERMINATE: 1 call, warned exactly when processing records |
| Beats.Encode | nifi-nar-bundles/nifi-beats-bundle/nifi-beats-processors/src/test/java/org/apache/nifi/processors/beats/frame/TestBeatsEncoder.java:39-47 | the encoding is 2 + payload bytes long: version, frame type, then the payload unchanged |
| Beats.DecodeEncode | nifi-nar-bundles/nifi-beats-bundle/nifi-beats-processors/src/test/java/org/apache/nifi/processors/beats/frame/TestBeatsEncoder.java:45-47 | the encoding can be read back: `Decode` (version, type, rest; nothing for fewer than two bytes), the inverse used to state the round trips, undoes `Encode` |
| Beats.EncodeDecode | nifi-nar-bundles/nifi-beats-bundle/nifi-beats-processors/src/test/java/org/apache/nifi/processors/beats/frame/TestBeatsEncoder.java:45-47 | decoding gives a frame exactly when encoding that frame gives the bytes |
| Beats.EncodeInjective | nifi-nar-bundles/nifi-beats-bundle/nifi-beats-processors/src/test/java/org/apache/nifi/processors/beats/frame/TestBeatsEncoder.java:45-47 | distinct frames encode differently |
| Beats.IntBytes | nifi-nar-bundles/nifi-beats-bundle/nifi-beats-processors/src/test/java/org/apache/nifi/processors/beats/frame/TestBeatsEncoder.java:42 | four bytes |
| Beats.BytesInt | nifi-nar-bundles/nifi-beats-bundle/nifi-beats-processors/src/test/java/org/apache/nifi/processors/beats/frame/TestBeatsEncoder.java:42 | reads four bytes as the signed int congruent to their unsigned value |
| Beats.UnsignedIntBytes | nifi-nar-bundles/nifi-beats-bundle/nifi-beats-processors/src/test/java/org/apache/nifi/processors/beats/frame/TestBeatsEncoder.java:42 | the four bytes written are the big-endian digits of the value modulo 2^32 |
| Beats.BytesIntIntBytes | nifi-nar-bundles/nifi-beats-bundle/nifi-beats-processors/src/test/java/org/apache/nifi/processors/beats/frame/TestBeatsEncoder.java:42 | reading back what `putInt` wrote gives the int |
| Beats.IntBytesBytesInt | nifi-nar-bundles/nifi-beats-bundle/nifi-beats-processors/src/test/java/org/apache/nifi/processors/beats/frame/TestBeatsEncoder.java:42 | writing what was read gives the bytes |
| Beats.AllocatePutInt | nifi-nar-bundles/nifi-beats-bundle/nifi-beats-processors/src/test/java/org/apache/nifi/processors/beats/frame/TestBeatsEncoder.java:42 | a new four-byte array holding the big-endian value |
| Beats.EncodeExample | nifi-nar-bundles/nifi-beats-bundle/nifi-beats-processors/src/test/java/org/apache/nifi/processors/beats/frame/TestBeatsEncoder.java:39-47 | int 123 is `00 00 00 7B`; version 0x31, type 0x41 with that payload encode to `31 41 00 00 00 7B` |
| Beats.EncodeTestFrame | nifi-nar-bundles/nifi-beats-bundle/nifi-beats-processors/src/test/java/org/apache/nifi/processors/beats/frame/TestBeatsEncoder.java:37-48 | the test's frame, payload built by `putInt(123)`, encodes to `31 41 00 00 00 7B` |

## Left out

- Java `null` arguments are modelled as empty strings and lists. The adapter checks each with a null-or-empty test, so the two behave alike.
- Oracle12.GetUpsertStatement: a table name made only of blanks is treated like any other non-empty name. The adapter checks for an empty name, although its message says "blank".
- `equalsIgnoreCase` folds ASCII letters only; transport names are ASCII.
- `trim` is modelled on code points at or below U+0020, as Java defines it.
- DataDog: these are not part of this model:
  - `report()` and the Datadog reporter;
  - `DDMetricRegistryBuilder.build`, whose call is recorded as the chosen key;
  - the JMX JVM metrics, which are a parameter map;
  - the internals of `MetricsService`, which are its outputs as parameter functions.
- DataDog: metric values are an opaque type parameter, as the reporting task stores them and never computes with them.
- DataDog: the `ConcurrentHashMap` is a plain map, and concurrency is not modelled.
- DataDog.PopulateStatuses: a single generic method stands for the four `populate*Statuses` methods. Which statuses it collects is chosen by a selector.
- DataDog.PopulateStatuses: the accumulator list is passed in and returned as a value instead of being mutated in place.
- DataDog.DataDogReportingTask.OnTrigger: the `IOException` of `updateDataDogTransport`, which is only logged, is not modelled.
- DataDog: debug and warning log lines are not modelled.
- Kinesis: the sleeps between waits and retries are left out, and so is their interruption.
- Kinesis: the wall clock is the parameter `now`.
- Kinesis: the log keeps levels only, not message text.
- Kinesis: KCL types are reduced to a shutdown reason and a checkpoint outcome per call.
- Kinesis: `processRecords` and the periodic checkpoint it drives are not part of this model.
- Kinesis.RecordProcessor.Shutdown: the processing flag cannot change during the TERMINATE wait, because another thread clearing it is not modelled. The wait therefore runs either zero or `numRetries` times.
- Beats: Java's signed `byte` is held as its unsigned bit pattern.
- Beats: a `null` payload is written as no bytes, which is the same as an empty payload.
