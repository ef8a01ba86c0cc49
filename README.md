# CPQ toolset comparison core, modelled in Dafny

This project models the logic behind the CPQ toolset's multi-org data comparison and its permissions analyser. Each module below is one source file. Each module states the source's behaviour as functions and methods, and proves its properties as lemmas.

**Data comparison**
- `OptimizedComparison`: the set-based all-vs-all engine. It has the default-plus-caller field exclusions, discovery of orgs and common objects, and the blacklist filter. Each record gets a composite key, and `ref - comp` over those keys is taken for every ordered org pair. The result is `RECORD_MISSING` and `VALUE_DIFFERENCE` rows.
- `DetailedComparison`: the detailed comparator. It compares unordered org pairs and builds a cross-org value table with `NULL` and `MISSING` markers. Each differing cell gets a classification, and each object gets a summary with a consistency score.
- `DuplicateDetector`: the JSONL duplicate foreign-key detector and its report.
- `DuplicateResolution`: the resolver. It applies `org:object:key` resolutions, either as blacklist entries or by a keep-one line filter, with backup and restore.
- `DuplicateStrategy`: the worker's duplicate strategy. It covers grouping by key across orgs, the severity ratio, the threshold strategies, best-org selection and the resolution summary.
- `FileEngine`: the file-based engine. It covers active conditions, the foreign-key index, missing records, and majority/minority field diffing.

**Validators and query builders**
- `ConfigValidation`: the browser-side `ConfigValidator` and `MockValidator`.
- `SaveValidations`: the save-time validation handler.
- `SharedValidations`: the shared `ValidationResult` and `Validator`.
- `RouteHelpers`: two helpers of the comparison routes.
- `ConfigGenerator`: the config generator's per-object field and key state.
- `SoqlBuilder`: the SOQL builder and its configuration checks.
- `GraphqlCursor`: the GraphQL runner's command-line escaping, cursor injection and pagination loop.

**Permissions analyser**
- `MetadataExtractor`: reads profiles, permission sets, permission set groups and muting permission sets out of their metadata XML. It builds on `XmlScan`, `XmlDoc`, `XmlRead`, `XmlRecord` and `XmlSections`, which state what the extractor's regular-expression scans read from well-formed metadata text.
- `PackageXml`: the retrieve manifest.
- `NonCommonMetadata`: the non-common metadata report.
- `MetadataDefinitions`: the permission-type definitions.
- `PermissionsComparison`: the comparison of profiles, permission sets and permission set groups across orgs.

**Shared**
- `Common`: the shared values, string utilities and sorting.

Where the source changes state step by step, the model is imperative. Classes with fields stand for the comparator, the detector, the resolver, the validation result and the config generator. Their loops are methods with invariants, proved against specification functions. Pure rules are functions with lemmas.

## Model

| member | source | states |
|---|---|---|
| OptimizedComparison.Exclusions | cpq-toolset/runtime/apps/data-comparison/python/multi_org_comparison_optimized.py:39-49 | the exclusion set contains the ten default system fields, and a field is excluded exactly when it is a default or one of the caller's names |
| OptimizedComparison.SetComparator.constructor | cpq-toolset/runtime/apps/data-comparison/python/multi_org_comparison_optimized.py:28-49 | a new comparator excludes exactly Exclusions(extra) and starts with no blacklist, no key mappings, no orgs, no common objects and no difference rows |
| OptimizedComparison.OrgFolders | cpq-toolset/runtime/apps/data-comparison/python/multi_org_comparison_optimized.py:77-81 | an entry is an org folder exactly when it is a directory, its name does not start with a dot and is not one of the six denylisted names |
| OptimizedComparison.ObjectNames | cpq-toolset/runtime/apps/data-comparison/python/multi_org_comparison_optimized.py:91-102 | a name is an object of the folder exactly when some file of it is that name followed by .parquet, .csv or .jsonl |
| OptimizedComparison.CommonObjectsOf | cpq-toolset/runtime/apps/data-comparison/python/multi_org_comparison_optimized.py:104-107 | the common objects are sorted, have no repeats, and are exactly the names held by every org folder |
| OptimizedComparison.SetComparator.Discover | cpq-toolset/runtime/apps/data-comparison/python/multi_org_comparison_optimized.py:66-116 | discovery merges the config's key mappings, replaces the blacklist only when a blacklist was read, and, when some org folder exists, sets the sorted org names and the common objects; the returned totals are their lengths |
| OptimizedComparison.DataColumns | cpq-toolset/runtime/apps/data-comparison/python/multi_org_comparison_optimized.py:285-287 | a column is a data column exactly when it is a column of the file, is not excluded and is not one of the four metadata columns |
| OptimizedComparison.CompositeKeyOf | cpq-toolset/runtime/apps/data-comparison/python/multi_org_comparison_optimized.py:318-327 | the composite key is the object name, the primary key, then the record's value in each data column, in column order |
| OptimizedComparison.Restrict | cpq-toolset/runtime/apps/data-comparison/python/multi_org_comparison_optimized.py:285-287 | a record after exclusion holds exactly its fields that are kept columns |
| OptimizedComparison.TagRows | cpq-toolset/runtime/apps/data-comparison/python/multi_org_comparison_optimized.py:282-303 | filtering never adds records; every kept record is tagged with its object and org, holds only data columns and is not blacklisted |
| OptimizedComparison.TagRowsKeeps | cpq-toolset/runtime/apps/data-comparison/python/multi_org_comparison_optimized.py:182-196 | a record whose object:key is not blacklisted (in particular every record with a null key) is kept, restricted to the data columns and keyed |
| OptimizedComparison.BatchesForObject | cpq-toolset/runtime/apps/data-comparison/python/multi_org_comparison_optimized.py:280-284 | at most one batch per org, each clean (no excluded or metadata column, no blacklisted record) and holding only records of that object |
| OptimizedComparison.BatchesForObjectEmpty | cpq-toolset/runtime/apps/data-comparison/python/multi_org_comparison_optimized.py:280-284 | an object contributes no batch exactly when no org has a loaded, non-empty file for it |
| OptimizedComparison.ObjectsWithKeys | cpq-toolset/runtime/apps/data-comparison/python/multi_org_comparison_optimized.py:269-270 | the objects processed are exactly the common objects that have a key mapping |
| OptimizedComparison.AllColumns | cpq-toolset/runtime/apps/data-comparison/python/multi_org_comparison_optimized.py:311 | the combined frame's columns are exactly the columns of some batch |
| OptimizedComparison.AllRows | cpq-toolset/runtime/apps/data-comparison/python/multi_org_comparison_optimized.py:311 | the combined frame's records are exactly the records of some batch |
| OptimizedComparison.MegaFrameClean | cpq-toolset/runtime/apps/data-comparison/python/multi_org_comparison_optimized.py:260-316 | a combined frame has no excluded or metadata column and no blacklisted record, and every record belongs to a common object with a key mapping |
| OptimizedComparison.MegaFrameErrors | cpq-toolset/runtime/apps/data-comparison/python/multi_org_comparison_optimized.py:272-273 | building the frame fails exactly when no common object has a key mapping, or no org has a loaded non-empty file for any of them |
| OptimizedComparison.BatchesEmpty | cpq-toolset/runtime/apps/data-comparison/python/multi_org_comparison_optimized.py:309-310 | no batch is built exactly when no org has a loaded non-empty file for any processed object |
| OptimizedComparison.DiffRowFor | cpq-toolset/runtime/apps/data-comparison/python/multi_org_comparison_optimized.py:481-501 | a difference row names object.field and carries the two orgs with their values (the row type, DiffRow.Kind, is RECORD_MISSING exactly when one value is the MISSING marker) |
| OptimizedComparison.MissingRowsAt | cpq-toolset/runtime/apps/data-comparison/python/multi_org_comparison_optimized.py:466-479 | a record absent from the compared org yields exactly one row per column, in column order, holding the reference value and the MISSING marker |
| OptimizedComparison.FieldRowsSpec | cpq-toolset/runtime/apps/data-comparison/python/multi_org_comparison_optimized.py:445-464 | field rows are at most one per column, and each is for a column where the two values differ and are not both null |
| OptimizedComparison.FieldRowsEmptyIffIdentical | cpq-toolset/runtime/apps/data-comparison/python/multi_org_comparison_optimized.py:433-464 | two records yield no field rows exactly when they are identical, two nulls counting as equal |
| OptimizedComparison.SetComparator.IsIdentical | cpq-toolset/runtime/apps/data-comparison/python/multi_org_comparison_optimized.py:433-443 | the identity check holds exactly when every non-metadata column agrees, two nulls counting as equal |
| OptimizedComparison.RowsOfOrgMembers | cpq-toolset/runtime/apps/data-comparison/python/multi_org_comparison_optimized.py:338-341 | an org's dataset holds exactly the combined frame's records of that org |
| OptimizedComparison.KeysOf | cpq-toolset/runtime/apps/data-comparison/python/multi_org_comparison_optimized.py:352-353 | the key set of an org is the composite key of each of its records, in order |
| OptimizedComparison.DifferenceKeysSpec | cpq-toolset/runtime/apps/data-comparison/python/multi_org_comparison_optimized.py:356 | the difference keys have no repeats and are exactly the reference keys absent from the compared org |
| OptimizedComparison.CommonKeysSpec | cpq-toolset/runtime/apps/data-comparison/python/multi_org_comparison_optimized.py:367-368 | the common keys have no repeats and are exactly the keys present in both orgs |
| OptimizedComparison.FirstWithKeySpec | cpq-toolset/runtime/apps/data-comparison/python/multi_org_comparison_optimized.py:385-389 | the lookup by composite key finds a record with that key, and finds none exactly when no record has it |
| OptimizedComparison.FirstWithPrimaryKeySpec | cpq-toolset/runtime/apps/data-comparison/python/multi_org_comparison_optimized.py:394-397 | a counterpart is found exactly when some record of the compared org has the same object and the same non-null primary key |
| OptimizedComparison.PairsFromMembers | cpq-toolset/runtime/apps/data-comparison/python/multi_org_comparison_optimized.py:348-349 | the inner loop visits exactly the pairs of the reference org with each different org of the list |
| OptimizedComparison.OrderedPairsMembers | cpq-toolset/runtime/apps/data-comparison/python/multi_org_comparison_optimized.py:347-349 | the comparison visits exactly the ordered pairs of distinct orgs |
| OptimizedComparison.OrderedPairsCount | cpq-toolset/runtime/apps/data-comparison/python/multi_org_comparison_optimized.py:344-349 | over n distinct orgs the comparison visits n·(n−1) ordered pairs |
| OptimizedComparison.OuterRowsShape | cpq-toolset/runtime/apps/data-comparison/python/multi_org_comparison_optimized.py:345-374 | every row of the whole comparison belongs to an ordered pair of distinct orgs and names object.field for a processed object and a frame column |
| OptimizedComparison.NoRowNamesExcludedField | cpq-toolset/runtime/apps/data-comparison/python/multi_org_comparison_optimized.py:285-306 | no difference row names an excluded field or a metadata column |
| OptimizedComparison.SetComparator.RecordFieldDifference | cpq-toolset/runtime/apps/data-comparison/python/multi_org_comparison_optimized.py:481-501 | appends exactly one row, built by DiffRowFor, to the differences |
| OptimizedComparison.SetComparator.RecordMissingDifference | cpq-toolset/runtime/apps/data-comparison/python/multi_org_comparison_optimized.py:466-479 | appends exactly the MISSING rows of the record |
| OptimizedComparison.SetComparator.FindAndRecordFieldDifferences | cpq-toolset/runtime/apps/data-comparison/python/multi_org_comparison_optimized.py:445-464 | appends exactly the field rows of the two records |
| OptimizedComparison.SetComparator.ProcessDifferenceKey | cpq-toolset/runtime/apps/data-comparison/python/multi_org_comparison_optimized.py:382-409 | for one difference key: nothing when no reference record has it, the MISSING rows when no counterpart exists, else the field rows |
| OptimizedComparison.SetComparator.ProcessDifferences | cpq-toolset/runtime/apps/data-comparison/python/multi_org_comparison_optimized.py:376-409 | appends the rows of each difference key in turn |
| OptimizedComparison.SetComparator.CheckValueKey | cpq-toolset/runtime/apps/data-comparison/python/multi_org_comparison_optimized.py:417-431 | for one common key: the field rows when both records are found and are not identical, else nothing |
| OptimizedComparison.SetComparator.CheckValueDifferences | cpq-toolset/runtime/apps/data-comparison/python/multi_org_comparison_optimized.py:411-431 | appends the rows of each common key in turn |
| OptimizedComparison.SetComparator.ComparePair | cpq-toolset/runtime/apps/data-comparison/python/multi_org_comparison_optimized.py:351-372 | one ordered pair appends the rows for ref − comp, then those for the common keys |
| OptimizedComparison.SetComparator.CompareWithOthers | cpq-toolset/runtime/apps/data-comparison/python/multi_org_comparison_optimized.py:348-372 | the inner loop appends the rows of the reference org against every other org, and counts the pairs it visits |
| OptimizedComparison.SetComparator.RunSetComparisons | cpq-toolset/runtime/apps/data-comparison/python/multi_org_comparison_optimized.py:329-374 | phase 2 appends the rows of every ordered pair of distinct orgs in list order and returns the number of pairs visited |
| DetailedComparison.PairsBelowMembers | cpq-toolset/apps/data-comparison/python/multi_org_comparison.py:262-263 | the pairs compared are exactly (orgs[i], orgs[j]) with i < j |
| DetailedComparison.UnorderedPairsCount | cpq-toolset/apps/data-comparison/python/multi_org_comparison.py:259 | n orgs give n·(n−1)/2 pairs |
| DetailedComparison.PairsWithSpec | cpq-toolset/apps/data-comparison/python/multi_org_comparison.py:263 | the inner loop pairs the current org with each later org, in order |
| DetailedComparison.SampleSpec | cpq-toolset/apps/data-comparison/python/multi_org_comparison.py:309-310 | a sample holds at most ten keys, without repeats, all from its set, and all of them when there are at most ten |
| DetailedComparison.SplitKeysPartition | cpq-toolset/apps/data-comparison/python/multi_org_comparison.py:292-295 | common = ref ∩ comp, ref-only = ref − comp, comp-only = comp − ref, and the counts add up to each side's key count |
| DetailedComparison.SplitKeysSamples | cpq-toolset/apps/data-comparison/python/multi_org_comparison.py:305-311 | the two samples are capped at ten, have no repeats and are drawn from the one-sided key sets |
| DetailedComparison.DifferingKeysSpec | cpq-toolset/apps/data-comparison/python/multi_org_comparison.py:336-342 | the differing keys of a column are exactly the common keys on which the two values differ under the comparison predicate |
| DetailedComparison.FieldDiffMapSpec | cpq-toolset/apps/data-comparison/python/multi_org_comparison.py:323-357 | a column is reported exactly when it is one of the compared columns and some common key differs on it, and its entry is then the count, percentage and samples of those keys |
| DetailedComparison.CompareCommonRecords | cpq-toolset/apps/data-comparison/python/multi_org_comparison.py:323-357 | the loop over common columns builds exactly the field-difference map |
| DetailedComparison.CompareTwoInstances | cpq-toolset/apps/data-comparison/python/multi_org_comparison.py:283-321 | the pair result is the key split plus, when common keys exist, the field-difference map |
| DetailedComparison.FieldDifferencesKeys | cpq-toolset/apps/data-comparison/python/multi_org_comparison.py:296-357 | a field is in a pair's differences exactly when both tables have it and some shared key differs on it |
| DetailedComparison.FieldDifferencesValues | cpq-toolset/apps/data-comparison/python/multi_org_comparison.py:340-345 | a reported field differs on at least one and at most all common keys, its percentage lies in (0, 100] and it carries at most ten samples |
| DetailedComparison.SamplesLength | cpq-toolset/apps/data-comparison/python/multi_org_comparison.py:359-371 | one sample per differing key passed in |
| DetailedComparison.ResultsForAt | cpq-toolset/apps/data-comparison/python/multi_org_comparison.py:262-270 | the k-th result is the comparison of the k-th pair, keyed org1_vs_org2 |
| DetailedComparison.CompareWithLater | cpq-toolset/apps/data-comparison/python/multi_org_comparison.py:263-270 | the inner loop yields the results for the current org against each later org |
| DetailedComparison.PerformAllVsAll | cpq-toolset/apps/data-comparison/python/multi_org_comparison.py:254-281 | the results are those of every unordered pair in list order, and the count is n·(n−1)/2 |
| DetailedComparison.ValuesAtSpec | cpq-toolset/apps/data-comparison/python/multi_org_comparison.py:403-413 | the value map has one entry per org: the cell text, MISSING without record or column, NULL for a missing value |
| DetailedComparison.DistinctValues | cpq-toolset/apps/data-comparison/python/multi_org_comparison.py:416-417 | more than one distinct value exactly when two orgs hold different texts |
| DetailedComparison.HasDifferenceMeaning | cpq-toolset/apps/data-comparison/python/multi_org_comparison.py:416-417 | a key and field yield a row exactly when two orgs hold different texts for it |
| DetailedComparison.KeysFieldsOverSpec | cpq-toolset/apps/data-comparison/python/multi_org_comparison.py:384-389 | the keys and fields gathered are exactly those of some org's table |
| DetailedComparison.GatherKeysAndFields | cpq-toolset/apps/data-comparison/python/multi_org_comparison.py:384-389 | the gathering loop collects exactly the union of keys and of fields |
| DetailedComparison.CollectValues | cpq-toolset/apps/data-comparison/python/multi_org_comparison.py:402-413 | the per-org loop builds exactly the value map of the key and field |
| DetailedComparison.FieldRowsLength | cpq-toolset/apps/data-comparison/python/multi_org_comparison.py:400-430 | at most one row per key for a field |
| DetailedComparison.FieldRowsMembers | cpq-toolset/apps/data-comparison/python/multi_org_comparison.py:400-430 | a field's rows are exactly the rows of the keys on which the orgs disagree |
| DetailedComparison.FieldPass | cpq-toolset/apps/data-comparison/python/multi_org_comparison.py:399-430 | the key loop builds exactly the field's rows and counts them |
| DetailedComparison.DetailedRowsMembers | cpq-toolset/apps/data-comparison/python/multi_org_comparison.py:399-430 | the detailed rows are exactly one per field and key on which the orgs disagree |
| DetailedComparison.FieldsPass | cpq-toolset/apps/data-comparison/python/multi_org_comparison.py:399-438 | the field loop builds exactly the rows and the field summary |
| DetailedComparison.SummaryOfSpec | cpq-toolset/apps/data-comparison/python/multi_org_comparison.py:433-438 | a field is summarised exactly when it has rows, with that count, the total key count and the percentage |
| DetailedComparison.CreateDetailedComparison | cpq-toolset/apps/data-comparison/python/multi_org_comparison.py:373-454 | the detailed comparison is the one defined over the sorted keys, fields and orgs |
| DetailedComparison.DetailedRowsDiffer | cpq-toolset/apps/data-comparison/python/multi_org_comparison.py:416-430 | every detailed row holds a value for each org, at least two distinct values, and each value is that org's cell text for the row's key and field |
| DetailedComparison.RecordMissingMeaning | cpq-toolset/apps/data-comparison/python/multi_org_comparison.py:456-463 | among differing values, RECORD_MISSING exactly when some org is MISSING and all other orgs agree |
| DetailedComparison.NullDifferenceMeaning | cpq-toolset/apps/data-comparison/python/multi_org_comparison.py:456-468 | NULL_VALUE_DIFFERENCE exactly when no org is MISSING and some org is NULL |
| DetailedComparison.WithDifferencesBounds | cpq-toolset/apps/data-comparison/python/multi_org_comparison.py:475-479 | the pairs with differences number at most all pairs and at most the total field differences; none or all exactly when no or every pair has a field difference |
| DetailedComparison.ConsistencyScoreBounds | cpq-toolset/apps/data-comparison/python/multi_org_comparison.py:470-495 | empty results give the error; otherwise the score lies in [0, 100], is 100 exactly when no pair differs and 0 exactly when every pair differs |
| DetailedComparison.OrgsWithDataSpec | cpq-toolset/apps/data-comparison/python/multi_org_comparison.py:213-222 | the orgs kept are exactly the listed orgs with a loaded, non-empty table |
| DetailedComparison.SingleObjectOutcome | cpq-toolset/apps/data-comparison/python/multi_org_comparison.py:200-231 | an object is skipped exactly when it has no key field or fewer than two orgs have data; a completed object has at least two orgs, n·(n−1)/2 comparisons and a summary |
| DetailedComparison.CompareSingleObject | cpq-toolset/apps/data-comparison/python/multi_org_comparison.py:191-252 | the object's outcome, with the comparisons, detailed comparison and summary computed exactly when it completes |
| DetailedComparison.ByMappingSplit | cpq-toolset/apps/data-comparison/python/multi_org_comparison.py:516-519 | the requested objects split into those with and those without a key mapping |
| DetailedComparison.HasPairDifferencesMeaning | cpq-toolset/apps/data-comparison/python/multi_org_comparison.py:559-560 | an object counts as differing exactly when it completed and some pair had field differences |
| DetailedComparison.ResultsMapSpec | cpq-toolset/apps/data-comparison/python/multi_org_comparison.py:553-555 | the result map has one outcome per object with a key mapping |
| DetailedComparison.DifferingAmongCompleted | cpq-toolset/apps/data-comparison/python/multi_org_comparison.py:557-560 | differing objects are among the completed ones |
| DetailedComparison.ProcessObject | cpq-toolset/apps/data-comparison/python/multi_org_comparison.py:549-563 | one object adds its outcome and bumps the completed and differing counters as its outcome says |
| DetailedComparison.CompareEach | cpq-toolset/apps/data-comparison/python/multi_org_comparison.py:549-575 | the object loop builds the result map and counts the completed and differing objects |
| DetailedComparison.CompareAllObjects | cpq-toolset/apps/data-comparison/python/multi_org_comparison.py:497-583 | the run fails exactly when no requested object has a key mapping; otherwise it reports the requested, mapped and unmapped counts, the skipped list and the completed and differing counts |
| DuplicateDetector.ScanProgress | apps/data-comparison/python/duplicate_fk_detector_jsonl.py:64-93 | the scan of a file aborts exactly when some line parses to a non-object; otherwise the line counter ends at one plus the number of non-blank lines (blank lines do not advance it, parse errors and null keys do) |
| DuplicateDetector.ScanCounts | apps/data-comparison/python/duplicate_fk_detector_jsonl.py:75-88 | a key has a group exactly when some parsed record holds it as a non-null, non-empty value, and the group has one entry per such record |
| DuplicateDetector.ScanGroupOrder | apps/data-comparison/python/duplicate_fk_detector_jsonl.py:83-86 | within a group the line numbers increase strictly |
| DuplicateDetector.ScanOccurrences | apps/data-comparison/python/duplicate_fk_detector_jsonl.py:64-93 | a group holds exactly the records of the file with that key, each with the number of its line |
| DuplicateDetector.DuplicateKeys | apps/data-comparison/python/duplicate_fk_detector_jsonl.py:96-103 | a key is reported exactly when it occurs more than once in the file |
| DuplicateDetector.ScanLines | apps/data-comparison/python/duplicate_fk_detector_jsonl.py:63-93 | the line loop computes exactly the scan: the abort flag and the groups by key |
| DuplicateDetector.FindDuplicates | apps/data-comparison/python/duplicate_fk_detector_jsonl.py:96-103 | keeps exactly the groups with more than one record |
| DuplicateDetector.ChangedFieldsSpec | apps/data-comparison/python/duplicate_fk_detector_jsonl.py:222-232 | a field is reported exactly when the two records' values differ (an absent field counting as None), with both values |
| DuplicateDetector.ChangedOverAll | apps/data-comparison/python/duplicate_fk_detector_jsonl.py:222-232 | walking the union of the two records' fields finds exactly the changed fields |
| DuplicateDetector.CompareRecordFields | apps/data-comparison/python/duplicate_fk_detector_jsonl.py:222-232 | the field loop builds exactly the changed-field map |
| DuplicateDetector.RecordDifferencesSpec | apps/data-comparison/python/duplicate_fk_detector_jsonl.py:209-241 | fewer than two records give no differences; otherwise each difference compares a later record with the first, has a non-empty field map and carries both line numbers, and every later record that differs gives one |
| DuplicateDetector.CalculateRecordDifferences | apps/data-comparison/python/duplicate_fk_detector_jsonl.py:209-241 | the record loop builds exactly those differences, in order |
| DuplicateDetector.OrgDuplicatesMembers | apps/data-comparison/python/duplicate_fk_detector_jsonl.py:48-115 | an object is reported for an org exactly when it has a key mapping, its file exists and scans without abort and some key occurs twice; its entries are exactly those keys |
| DuplicateDetector.DetectInObject | apps/data-comparison/python/duplicate_fk_detector_jsonl.py:53-113 | one object's result is its duplicate groups, or nothing when the file is missing, aborts or has no duplicate |
| DuplicateDetector.Detector.constructor | apps/data-comparison/python/duplicate_fk_detector_jsonl.py:19-46 | the detector starts with the key mappings of the configured objects that name a foreign key, and no duplicates |
| DuplicateDetector.Detector.DetectDuplicatesInOrg | apps/data-comparison/python/duplicate_fk_detector_jsonl.py:48-115 | the object loop builds exactly the org's duplicates |
| DuplicateDetector.Detector.DetectAllDuplicates | apps/data-comparison/python/duplicate_fk_detector_jsonl.py:117-135 | records each org directory with duplicates, keeping the mappings and the well-formedness of the duplicates |
| DuplicateDetector.DetectedOverWellFormed | apps/data-comparison/python/duplicate_fk_detector_jsonl.py:117-135 | every recorded org has a non-empty object map and every object a non-empty group map |
| DuplicateDetector.RecordsOfSpec | apps/data-comparison/python/duplicate_fk_detector_jsonl.py:179-186 | one listed record per occurrence, with its line number, its Id (or "Unknown") and its data |
| DuplicateDetector.ReportSummaryBounds | apps/data-comparison/python/duplicate_fk_detector_jsonl.py:137-207 | the report counts the orgs with duplicates; orgs ≤ objects ≤ keys; resolution is required exactly when some key is duplicated, exactly when some org has duplicates |
| DuplicateDetector.ReportEntries | apps/data-comparison/python/duplicate_fk_detector_jsonl.py:150-198 | the report has an entry per org with duplicates, per object and per duplicated key, with the object's key field and the counts |
| DuplicateDetector.Detector.GenerateDuplicateReport | apps/data-comparison/python/duplicate_fk_detector_jsonl.py:137-207 | the report loops compute exactly the defined report |
| DuplicateDetector.OrgsPass | apps/data-comparison/python/duplicate_fk_detector_jsonl.py:156-198 | the org loop builds the detailed report and the object and key totals |
| DuplicateResolution.ForeignKeyValueSpec | runtime/apps/data-comparison/python/duplicate_resolver.py:226-257 | the configured key field is read when the record has it; otherwise the first present fallback field (object-specific name, `<object>_Foreign_Key__c`, `Foreign_Key__c`, `Id`) is read, and None when none is present |
| DuplicateResolution.FallbackFields | runtime/apps/data-comparison/python/duplicate_resolver.py:235-250 | the fallback list has at least the three generic names and ends with `Id` |
| DuplicateResolution.FirstMatchSpec | runtime/apps/data-comparison/python/duplicate_resolver.py:178-183 | the first-occurrence choice is a matching line with no matching line before it, and nothing when no line matches |
| DuplicateResolution.ChosenSpec | runtime/apps/data-comparison/python/duplicate_resolver.py:167-191 | the kept matching line is the first match when no valid line number was given, else the line whose number equals the requested one; nothing is kept when no matching line qualifies |
| DuplicateResolution.ChosenTarget | runtime/apps/data-comparison/python/duplicate_resolver.py:173-177 | with a valid requested line, a matching line is kept exactly when its number is the requested one |
| DuplicateResolution.UnknownNamesNoLine | runtime/apps/data-comparison/python/duplicate_resolver.py:168-178 | the requested line "Unknown" is not a line number, so the first occurrence is kept |
| DuplicateResolution.FilterUpToSpec | runtime/apps/data-comparison/python/duplicate_resolver.py:156-200 | the filter fails exactly when some line parses to a non-object; otherwise after n lines it has kept the non-matching and invalid lines and at most the chosen matching line |
| DuplicateResolution.KeepFilterSpec | runtime/apps/data-comparison/python/duplicate_resolver.py:156-200 | the filter keeps exactly the non-matching and invalid lines plus the chosen match, lists the line numbers of all matches, and deletes all the other matches |
| DuplicateResolution.KeepFilterKeepsOne | runtime/apps/data-comparison/python/duplicate_resolver.py:160-200 | after filtering, the non-matching lines are exactly those of the file, and the matching lines are only the chosen one (or none) |
| DuplicateResolution.FilterLine | runtime/apps/data-comparison/python/duplicate_resolver.py:157-198 | one loop step computes the filter step for the line |
| DuplicateResolution.FilterLines | runtime/apps/data-comparison/python/duplicate_resolver.py:156-198 | the line loop computes the filter, with or without the log previews |
| DuplicateResolution.RemoveDuplicatesSpec | runtime/apps/data-comparison/python/duplicate_resolver.py:136-224 | only the targeted file changes and its old content is backed up; a missing file changes nothing; the filter's success decides the outcome, a failure restores the file and a success writes the kept lines |
| DuplicateResolution.ApplyOneSpec | runtime/apps/data-comparison/python/duplicate_resolver.py:95-131 | a key without exactly three parts is ignored; a skip adds object:key to the blacklist and counts it; nothing else blacklists; a failure changes no file and no tally; resolved counts exactly the successful choices |
| DuplicateResolution.ApplyAllBlacklist | runtime/apps/data-comparison/python/duplicate_resolver.py:71-121 | after all resolutions the blacklist is the old one plus the object:key of every well-formed skip, and the skip count grows by their number |
| DuplicateResolution.SkipKeysBound | runtime/apps/data-comparison/python/duplicate_resolver.py:114-121 | repeated skips deduplicate: the blacklisted entries number at most the skips |
| DuplicateResolution.BlacklistBound | runtime/apps/data-comparison/python/duplicate_resolver.py:114-121 | the blacklist grows by at most the skip count |
| DuplicateResolution.Resolver.constructor | runtime/apps/data-comparison/python/duplicate_resolver.py:20-27 | a resolver starts with no blacklist, no backups and zero counts |
| DuplicateResolution.Resolver.RemoveDuplicateRecords | runtime/apps/data-comparison/python/duplicate_resolver.py:136-224 | the file and backup update is exactly RemoveDuplicates, and the blacklist and counters are unchanged |
| DuplicateResolution.Resolver.ApplySingleResolution | runtime/apps/data-comparison/python/duplicate_resolver.py:95-131 | the new state and the outcome are exactly ApplyOne's |
| DuplicateResolution.Resolver.ApplyResolutions | runtime/apps/data-comparison/python/duplicate_resolver.py:71-93 | every resolution is applied in order, a failed one not stopping the rest, and the run reports success |
| DuplicateResolution.PreviewCrash | runtime/apps/data-comparison/python/duplicate_resolver.py:177-191 | as written, a matching record whose advanced condition is null makes the preview slice fail and the filter report an error, where the corrected filter keeps the chosen line |
| DuplicateResolution.AsWrittenAgrees | runtime/apps/data-comparison/python/duplicate_resolver.py:156-200 | whenever the as-written filter succeeds it gives the same result as the corrected one |
| DuplicateStrategy.GroupsOfSpec | apps/data-comparison/worker/duplicateResolver.js:80-112 | grouping by a tag lists each tag once in first-seen order, and each group holds exactly the occurrences with that tag, in order |
| DuplicateStrategy.GroupsOfOrdered | apps/data-comparison/worker/duplicateResolver.js:80-90 | the group order has no repeats and lists exactly the grouped tags |
| DuplicateStrategy.SanitizeOrgNameSpec | apps/data-comparison/worker/duplicateResolver.js:404-406 | sanitising keeps the length, replaces every `@` and `.` by `_` and nothing else, leaves neither character, and is idempotent |
| DuplicateStrategy.FkTaggedSpec | apps/data-comparison/worker/duplicateResolver.js:77-94 | an org's indexed occurrences are exactly its records with a truthy key value, each with its index and tagged by that value |
| DuplicateStrategy.IndexOrg | apps/data-comparison/worker/duplicateResolver.js:77-94 | one org's record loop adds its truthy-key occurrences to the index, in order |
| DuplicateStrategy.IndexForeignKeys | apps/data-comparison/worker/duplicateResolver.js:70-100 | the org loop builds exactly the index of all orgs' truthy-key occurrences |
| DuplicateStrategy.DiffersSpec | apps/data-comparison/worker/duplicateResolver.js:318-323 | a field differs exactly when two of the records hold different non-null values for it |
| DuplicateStrategy.CountDifferingExtremes | apps/data-comparison/worker/duplicateResolver.js:315-325 | no field counts as differing exactly when none differs, and all count exactly when all differ |
| DuplicateStrategy.SeverityBounds | apps/data-comparison/worker/duplicateResolver.js:301-327 | severity lies in [0, 1]; fewer than two orgs give 0; it is 0 exactly when no non-`_` field of the first record differs, and 1 exactly when there is such a field and every one differs |
| DuplicateStrategy.CalculateDuplicateSeverity | apps/data-comparison/worker/duplicateResolver.js:301-327 | the severity loop computes the severity of the first record of each org |
| DuplicateStrategy.BreakdownSpec | apps/data-comparison/worker/duplicateResolver.js:106-112 | the org breakdown lists each org once in first-seen order, each with its occurrences in order |
| DuplicateStrategy.FirstRecordsAgree | apps/data-comparison/worker/duplicateResolver.js:310 | the first record per org read from the breakdown is the org's first occurrence |
| DuplicateStrategy.GroupByOrg | apps/data-comparison/worker/duplicateResolver.js:106-112 | the grouping loop builds exactly the org breakdown |
| DuplicateStrategy.DuplicateForIff | apps/data-comparison/worker/duplicateResolver.js:103-115 | a key is reported exactly when its occurrences span at least two orgs |
| DuplicateStrategy.DuplicateForInfo | apps/data-comparison/worker/duplicateResolver.js:116-121 | a report counts all occurrences of the key, lists each affected org once, and carries their breakdown and severity |
| DuplicateStrategy.ReportedIff | apps/data-comparison/worker/duplicateResolver.js:103-124 | a key appears among the duplicates exactly when it occurs in at least two distinct orgs |
| DuplicateStrategy.FindDuplicatesSpec | apps/data-comparison/worker/duplicateResolver.js:66-127 | for an object, a key is reported exactly when its truthy occurrences across the orgs span at least two orgs |
| DuplicateStrategy.FindDuplicatesDistinct | apps/data-comparison/worker/duplicateResolver.js:103-124 | no key is reported twice |
| DuplicateStrategy.ReportKey | apps/data-comparison/worker/duplicateResolver.js:104-123 | one key's check computes exactly its duplicate entry or nothing |
| DuplicateStrategy.FindDuplicatesForObject | apps/data-comparison/worker/duplicateResolver.js:66-127 | the whole scan computes exactly the object's duplicate entries |
| DuplicateStrategy.ProductionOrgsMembers | apps/data-comparison/worker/duplicateResolver.js:285-289 | the production orgs are exactly those whose name contains none of scratch, test, dev |
| DuplicateStrategy.SelectBestOrgSpec | apps/data-comparison/worker/duplicateResolver.js:280-296 | an org is chosen exactly when some org is listed; it is listed; with a production org present it is the least production org, else the least org |
| DuplicateStrategy.StrategyThresholds | apps/data-comparison/worker/duplicateResolver.js:230-262 | blacklist_all always blacklists; conservative blacklists exactly at severity ≥ 0.8, aggressive exactly at ≥ 0.95, so aggressive blacklisting implies conservative; keep_first and unknown strategies keep |
| DuplicateStrategy.ThresholdsInCounts | apps/data-comparison/worker/duplicateResolver.js:230-326 | the thresholds read as counts: conservative blacklists exactly when 5·differing ≥ 4·fields, aggressive when 20·differing ≥ 19·fields |
| DuplicateStrategy.ResolveAction | apps/data-comparison/worker/duplicateResolver.js:218-275 | a resolution carries its object and key and the strategy's action |
| DuplicateStrategy.ResolveSingleDuplicateSpec | apps/data-comparison/worker/duplicateResolver.js:218-275 | a blacklist selects no org; a keep under conservative or aggressive selects the best org; keep_first selects the least affected org and sorts the affected list in place |
| DuplicateStrategy.ResolutionsOfFields | apps/data-comparison/worker/duplicateResolver.js:199-203 | one resolution per duplicate, in order, each with its object, key and the strategy's action |
| DuplicateStrategy.NamesPartition | apps/data-comparison/worker/duplicateResolver.js:205-209 | every resolution lands in exactly one of the blacklisted and kept lists |
| DuplicateStrategy.BlacklistedSpec | apps/data-comparison/worker/duplicateResolver.js:205-209 | the blacklisted list holds exactly object:key for the duplicates whose action is blacklist, and the kept list those whose action is keep |
| DuplicateStrategy.ResolveObjectDuplicates | apps/data-comparison/worker/duplicateResolver.js:190-213 | the loop builds exactly the resolutions and the blacklisted and kept name lists |
| DuplicateStrategy.TallySpec | apps/data-comparison/worker/duplicateResolver.js:363-383 | counting each resolution under its action gives the number of blacklists and of keeps, and nothing under other |
| DuplicateStrategy.TallyActions | apps/data-comparison/worker/duplicateResolver.js:372-383 | the summary loop, with the counter check corrected, computes exactly that count |
| DuplicateStrategy.TallyAsWrittenAllOther | apps/data-comparison/worker/duplicateResolver.js:373-379 | as written, every resolution is counted as other, since the action counters start at zero and are bumped only when already non-zero |
| DuplicateStrategy.TallyAsWrittenLosesActions | apps/data-comparison/worker/duplicateResolver.js:373-379 | as written, a single blacklist resolution is tallied as no blacklist, no keep and one other |
| DuplicateStrategy.CalculateSummaryStats | apps/data-comparison/worker/duplicateResolver.js:332-345 | the summary counts one duplicate per entry of every object and reports the number of distinct orgs some entry lists as affected |
| DuplicateStrategy.AffectedOrgsMembers | apps/data-comparison/worker/duplicateResolver.js:334-340 | an org is counted as affected exactly when some duplicate entry of some object lists it |
| DuplicateStrategy.TotalDuplicatesZero | apps/data-comparison/worker/duplicateResolver.js:333-338 | the duplicate total is zero exactly when no object has a duplicate entry |
| DuplicateStrategy.ReportedEntriesQualify | apps/data-comparison/worker/duplicateResolver.js:111-125 | every entry the object scan reports lists at least two affected orgs, each once |
| DuplicateStrategy.SummaryCountsAgree | apps/data-comparison/worker/duplicateResolver.js:332-345 | for entries that each list two or more distinct orgs, as the object scan reports them, no org is counted exactly when no duplicate is, and at least two orgs are counted once one duplicate is |
| FileEngine.CheckActiveConditions | cpq-toolset/apps/data-comparison/comparison/file-engine.js:67-80 | with no ActiveCondition, or an empty one, every record is active |
| FileEngine.IsTrueFlagSpec | cpq-toolset/apps/data-comparison/comparison/file-engine.js:73-76 | a flag reads as true exactly for the boolean true or a string spelling "true" in any letter case |
| FileEngine.InactiveSpec | cpq-toolset/apps/data-comparison/comparison/file-engine.js:67-80 | a record is inactive only under a condition mentioning `Active__c = true`, and then only when the flag the first matching clause names (IsActive__c before Active__c) is not true |
| FileEngine.StoreOrgData | cpq-toolset/apps/data-comparison/comparison/file-engine.js:39-65 | storing keeps every org, in order, with the same number of records |
| FileEngine.StoreRecordSpec | cpq-toolset/apps/data-comparison/comparison/file-engine.js:47-52 | a stored record is indexed exactly when it is active and its foreign-key value is truthy; its key is the foreign-key value as text and every other field is unchanged |
| FileEngine.AddRecordSpec | cpq-toolset/apps/data-comparison/comparison/file-engine.js:97-101 | one index step adds the record's key if it qualifies and sets that org's entry to the record, leaving other keys and orgs alone |
| FileEngine.IndexSpec | cpq-toolset/apps/data-comparison/comparison/file-engine.js:93-104 | the index holds exactly the keys of active records with a truthy key, a key lists exactly the orgs holding such a record, and the entry is the last such record of that org |
| FileEngine.IndexOrg | cpq-toolset/apps/data-comparison/comparison/file-engine.js:96-103 | the inner loop adds one org's records in order |
| FileEngine.BuildForeignKeyIndex | cpq-toolset/apps/data-comparison/comparison/file-engine.js:93-104 | the nested loops build the index the specification defines over all orgs' records |
| FileEngine.MissingOrgsSpec | cpq-toolset/apps/data-comparison/comparison/file-engine.js:121-122 | the missing orgs are exactly the configured orgs absent from the key's entry, without repeats when the configured orgs are distinct |
| FileEngine.MissingEntry | cpq-toolset/apps/data-comparison/comparison/file-engine.js:124-140 | every reported missing entry names an indexed key, carries that key's records, and lists the configured orgs lacking it, at least one |
| FileEngine.MissingSpec | cpq-toolset/apps/data-comparison/comparison/file-engine.js:120-141 | a key is reported missing exactly when it is indexed and some configured org lacks it |
| FileEngine.MissingRecordsSpec | cpq-toolset/apps/data-comparison/comparison/file-engine.js:93-141 | in terms of the loaded records: org o is listed as missing key k exactly when o is configured, some org has an active record with key k and o has none |
| FileEngine.GroupsSpec | cpq-toolset/apps/data-comparison/comparison/file-engine.js:182-186 | the value groups list each value once in first-seen order; a group holds exactly the orgs with that value and its size is the value's count |
| FileEngine.LargestSpec | cpq-toolset/apps/data-comparison/comparison/file-engine.js:189 | the largest group size bounds every group and is reached by one of them |
| FileEngine.MinorityMembers | cpq-toolset/apps/data-comparison/comparison/file-engine.js:190-196 | an org is collected exactly when it belongs to a group smaller than the largest |
| FileEngine.GroupsCounted | cpq-toolset/apps/data-comparison/comparison/file-engine.js:178-186 | over a field's values the groups list exactly those values, each as large as its count |
| FileEngine.LargestIsMaxCount | cpq-toolset/apps/data-comparison/comparison/file-engine.js:189 | the largest group is as large as the most frequent value's count |
| FileEngine.FlaggedIff | cpq-toolset/apps/data-comparison/comparison/file-engine.js:182-196 | for any grouping with the facts the grouping loop establishes, an org is flagged exactly when another value is held by more orgs than its own |
| FileEngine.MinoritySpec | cpq-toolset/apps/data-comparison/comparison/file-engine.js:182-196 | an org is reported as different exactly when some value is held by more orgs than the org's own value |
| FileEngine.MinorityNotEveryone | cpq-toolset/apps/data-comparison/comparison/file-engine.js:189-196 | with distinct orgs and at least one value, some org (one holding a most common value) is never reported as different |
| FileEngine.DistinctValuesFlagNobody | cpq-toolset/apps/data-comparison/comparison/file-engine.js:189-196 | when every org holds a different value nobody is reported as different, although the field difference is still recorded |
| FileEngine.CollectFieldValues | cpq-toolset/apps/data-comparison/comparison/file-engine.js:172-175 | the loop collects each present org's value as text, as the specification function does |
| FileEngine.GroupByValue | cpq-toolset/apps/data-comparison/comparison/file-engine.js:182-186 | the grouping loop computes the value groups the specification defines |
| FileEngine.MinorityOrgs | cpq-toolset/apps/data-comparison/comparison/file-engine.js:190-196 | the collecting loop gathers the members of every group smaller than the given size, in group order |
| FileEngine.FieldValues | cpq-toolset/apps/data-comparison/comparison/file-engine.js:172-175 | there is one value per present org |
| FileEngine.DiffEntry | cpq-toolset/apps/data-comparison/comparison/file-engine.js:143-216 | every reported field difference names a key held by at least two orgs and a configured, non-system field on which the orgs' values differ |
| FileEngine.FieldDifferencesSpec | cpq-toolset/apps/data-comparison/comparison/file-engine.js:143-216 | a (key, field) pair is reported exactly when at least two orgs hold the key, the field is configured and not a system field, and the orgs' values of it differ |
| FileEngine.ComparisonResults.constructor | cpq-toolset/apps/data-comparison/comparison/file-engine.js:106-115 | new results are empty, name the object and carry the total count, with the summary counters matching the lists |
| FileEngine.CompareField | cpq-toolset/apps/data-comparison/comparison/file-engine.js:168-214 | one field yields exactly the difference the specification defines, listing the minority orgs |
| FileEngine.CompareFieldsForRecord | cpq-toolset/apps/data-comparison/comparison/file-engine.js:165-216 | appends exactly the key's field differences, keeps the missing list and the counters consistent |
| FileEngine.ProcessKey | cpq-toolset/apps/data-comparison/comparison/file-engine.js:120-151 | one key appends its missing entry, if any, and its field differences when two or more orgs hold it |
| FileEngine.CompareIndexed | cpq-toolset/apps/data-comparison/comparison/file-engine.js:106-151 | over a built index the results are exactly the missing entries and field differences of all keys, with the total equal to the number of keys |
| FileEngine.CompareObjectRecords | cpq-toolset/apps/data-comparison/comparison/file-engine.js:82-163 | on the stored records the results are the missing entries and field differences of the index the records define, and the summary counts match |
| ConfigValidation.DateFilterSpec | cpq-toolset/apps/data-comparison/js/validation.js:127-163 | a date filter passes exactly when it is an array of two entries, each truthy entry parses as a date, and a start after the end is refused |
| ConfigValidation.ValidateDateFilter | cpq-toolset/apps/data-comparison/js/validation.js:127-163 | the checks produce exactly the filter's errors, and the filter is valid exactly when there are none |
| ConfigValidation.ObjectOutcomeSpec | cpq-toolset/apps/data-comparison/js/validation.js:64-119 | an object has no error exactly when it is structurally valid and its date filters pass; as written it is valid whenever it is structurally valid, corrected exactly when it has no error |
| ConfigValidation.ValidateObject | cpq-toolset/apps/data-comparison/js/validation.js:64-119 | the checks of one object give the corrected outcome: every error, the date errors included, clears validity |
| ConfigValidation.CheckKeyAndLists | cpq-toolset/apps/data-comparison/js/validation.js:77-95 | the key, field-list and active-list checks give their errors, the empty-field warning, and validity exactly when none failed |
| ConfigValidation.AddDateErrors | cpq-toolset/apps/data-comparison/js/validation.js:97-110 | both date filters' errors are appended, and any of them makes the object invalid |
| ConfigValidation.AddDateFilterErrors | cpq-toolset/apps/data-comparison/js/validation.js:98-103 | a given filter that fails appends its errors and makes the object invalid; nothing else changes |
| ConfigValidation.Prefixed | cpq-toolset/apps/data-comparison/js/validation.js:47-49 | each message is prefixed with the object name, one for one |
| ConfigValidation.Outcomes | cpq-toolset/apps/data-comparison/js/validation.js:43-50 | one outcome per object entry, in entry order |
| ConfigValidation.AggregateSnoc | cpq-toolset/apps/data-comparison/js/validation.js:43-50 | one more entry keeps validity only when it is valid, adds its prefixed errors only when it is invalid, and always adds its prefixed warnings |
| ConfigValidation.AggregateValid | cpq-toolset/apps/data-comparison/js/validation.js:43-50 | the aggregate is valid exactly when every entry's outcome is valid |
| ConfigValidation.AggregateReports | cpq-toolset/apps/data-comparison/js/validation.js:43-50 | every error of an invalid entry is reported under its name |
| ConfigValidation.AggregateErrorsFrom | cpq-toolset/apps/data-comparison/js/validation.js:43-50 | every reported error is an invalid entry's own error, under its name |
| ConfigValidation.KeysOf | cpq-toolset/apps/data-comparison/js/validation.js:174-176 | one object-and-key pair per entry that has a key, in entry order |
| ConfigValidation.ConfigValid | cpq-toolset/apps/data-comparison/js/validation.js:29-56 | the configuration is valid exactly when it is an object, every entry is valid and no object-and-key pair repeats; a valid configuration reports no error; a run that throws on a null entry is one whose configuration is invalid, so the run returns a valid outcome under the same condition |
| ConfigValidation.CorrectedReportsEveryError | cpq-toolset/apps/data-comparison/js/validation.js:43-50 | with date errors counted, every error of every entry is reported under the entry's name |
| ConfigValidation.DateErrorsDropped | cpq-toolset/apps/data-comparison/js/validation.js:97-110 | as written, an object whose only problem is a one-date LastModifiedBetween leaves the configuration valid with no error; corrected, it is invalid |
| ConfigValidation.NoDuplicatesWithoutDots | cpq-toolset/apps/data-comparison/js/validation.js:170-184 | with distinct object names free of dots no duplicate key is reported |
| ConfigValidation.DottedNamesClash | cpq-toolset/apps/data-comparison/js/validation.js:174-179 | two different objects can still clash when a name or key holds a dot, since the pair is joined with a dot |
| ConfigValidation.RepeatedKey | cpq-toolset/apps/data-comparison/js/validation.js:176-179 | a pair seen twice is reported once, at its second occurrence |
| ConfigValidation.ValidateConfig | cpq-toolset/apps/data-comparison/js/validation.js:29-56 | the whole pass throws when an entry is null, and otherwise computes the configuration outcome: the entries' outcomes, then the duplicate-key errors and the cross-object warning |
| ConfigValidation.ValidateObjects | cpq-toolset/apps/data-comparison/js/validation.js:43-50 | the loop over entries computes the aggregate of their outcomes |
| ConfigValidation.AddObjectOutcome | cpq-toolset/apps/data-comparison/js/validation.js:44-49 | one entry's outcome is folded in: validity and prefixed errors when invalid, prefixed warnings always |
| ConfigValidation.ValidateCrossObject | cpq-toolset/apps/data-comparison/js/validation.js:170-194 | a null entry throws; otherwise the duplicate-pair errors are added, validity is kept only without them, and the warning is added when no object selects fields |
| ConfigValidation.CheckDuplicateKeys | cpq-toolset/apps/data-comparison/js/validation.js:171-184 | the duplicate pass throws on a null entry; otherwise it adds exactly the duplicate-pair errors and clears validity when there is one |
| ConfigValidation.FindDuplicates | cpq-toolset/apps/data-comparison/js/validation.js:171-184 | the loop stops, throwing, exactly when some entry is null; otherwise, with its list of seen pairs, it reports exactly the pairs an earlier entry already contributed |
| ConfigValidation.CountSelecting | cpq-toolset/apps/data-comparison/js/validation.js:187-191 | the count is zero exactly when no object selects fields |
| ConfigValidation.MockValidateConfig | cpq-toolset/apps/data-comparison/js/validation.js:288-301 | the mock throws exactly when the real checks throw, on a null entry; otherwise it reports valid with no errors, keeping the real warnings |
| ConfigValidation.NullEntryThrows | cpq-toolset/apps/data-comparison/js/validation.js:174-175 | a configuration with a null entry throws, wherever the entry stands |
| ConfigValidation.AddKey | cpq-toolset/apps/data-comparison/js/validation.js:175-183 | one entry's key is reported when its pair was already seen and remembered otherwise |
| SaveValidations.JoinTexts | dist/runtime/apps/data-comparison/components/modules/validationHandler/saveValidations.js:223 | joining writes each entry as its text and a null entry as the empty string |
| SaveValidations.MinFields | dist/runtime/apps/data-comparison/components/modules/validationHandler/saveValidations.js:196 | the minimum field count is the option when it is given and non-zero, otherwise 1 |
| SaveValidations.Results | dist/runtime/apps/data-comparison/components/modules/validationHandler/saveValidations.js:64-93 | one stored result per check, under the check's function name, in the order the checks run |
| SaveValidations.ValidateObjectConfiguration | dist/runtime/apps/data-comparison/components/modules/validationHandler/saveValidations.js:47-119 | the run stores every check's result, copies the errors and warnings of the failed ones, and is valid when every check passed and no error was copied; the object-name check uses the intended pattern |
| SaveValidations.Record | dist/runtime/apps/data-comparison/components/modules/validationHandler/saveValidations.js:79-84 | storing one result appends it and copies its errors and warnings only when it failed |
| SaveValidations.ResultsStep | dist/runtime/apps/data-comparison/components/modules/validationHandler/saveValidations.js:73-93 | one more result adds its errors and warnings exactly when it failed |
| SaveValidations.ErrorsOfMembers | dist/runtime/apps/data-comparison/components/modules/validationHandler/saveValidations.js:81-82 | an error of the run is an error of a failed check, and every error of a failed check is reported |
| SaveValidations.ErrorsOfEmpty | dist/runtime/apps/data-comparison/components/modules/validationHandler/saveValidations.js:96-99 | when every failing check reports an error, the run copies no error exactly when every check passed |
| SaveValidations.FailureHasErrors | dist/runtime/apps/data-comparison/components/modules/validationHandler/saveValidations.js:124-455 | each of the six checks fails only with at least one error |
| SaveValidations.OutcomeSpec | dist/runtime/apps/data-comparison/components/modules/validationHandler/saveValidations.js:47-119 | the run is valid exactly when every check passed, and exactly when it reports no error; its errors are exactly those of the failed checks |
| SaveValidations.TypesNeverFail | dist/runtime/apps/data-comparison/components/modules/validationHandler/saveValidations.js:295-345 | the field-type check always passes with no error, so its warnings never reach the run |
| SaveValidations.BasicSpec | dist/runtime/apps/data-comparison/components/modules/validationHandler/saveValidations.js:124-179 | the basic check passes exactly when the configuration, a non-empty object name, a non-empty field list, a non-empty string key and at least one org are all present |
| SaveValidations.SelectionSpec | dist/runtime/apps/data-comparison/components/modules/validationHandler/saveValidations.js:184-239 | the too-few and duplicate errors appear exactly when their conditions hold, the check passes exactly when there are enough distinct identifier fields, and every bad field is listed |
| SaveValidations.KeyCheckSpec | dist/runtime/apps/data-comparison/components/modules/validationHandler/saveValidations.js:244-290 | the key check fails when the key is missing or not among the fields, and passes for an identifier among them |
| SaveValidations.FieldsSpec | dist/runtime/apps/data-comparison/components/modules/validationHandler/saveValidations.js:417-430 | the field-access check reports exactly the fields whose text is not an identifier |
| SaveValidations.StandardObjectsRejectedAsWritten | dist/runtime/apps/data-comparison/components/modules/validationHandler/saveValidations.js:365-368 | as written, a name without an underscore never matches the object pattern, so every standard object fails the run |
| SaveValidations.NoUnderscoreRejected | dist/runtime/apps/data-comparison/components/modules/validationHandler/saveValidations.js:365 | the pattern as written needs an underscore after the first letter run |
| SaveValidations.AccountRejectedAsWritten | dist/runtime/apps/data-comparison/components/modules/validationHandler/saveValidations.js:365-368 | as written, `Account` fails the object-name check with the naming-convention error |
| SaveValidations.ObjectPatternSpec | dist/runtime/apps/data-comparison/components/modules/validationHandler/saveValidations.js:365-377 | the intended pattern accepts exactly the identifiers, including `Account` and `SBQQ__Quote__c`, and everything the written one accepts |
| SaveValidations.WellFormedPasses | dist/runtime/apps/data-comparison/components/modules/validationHandler/saveValidations.js:47-455 | with the intended pattern, a configuration of identifier object, distinct identifier fields, an identifier key among them and at least one org passes the whole run |
| SaveValidations.ExternalIdRejectedAsWritten | dist/runtime/apps/data-comparison/components/modules/validationHandler/saveValidations.js:319-322 | as written, a key of type `externalId` is never accepted, since its lower-cased type is compared with `externalId` |
| SaveValidations.KeyTypeSuitableSpec | dist/runtime/apps/data-comparison/components/modules/validationHandler/saveValidations.js:319-326 | the intended list accepts id, string, reference and externalId in any letter case, and everything the written one accepts |
| SaveValidations.Basic | dist/runtime/apps/data-comparison/components/modules/validationHandler/saveValidations.js:124-179 | the basic check passes exactly when it reports no error, and never warns |
| SaveValidations.Selection | dist/runtime/apps/data-comparison/components/modules/validationHandler/saveValidations.js:184-239 | the selection check passes exactly when it reports no error, reports the thrown error exactly when the configuration or its field list is missing, and warns at most once |
| SaveValidations.KeyCheck | dist/runtime/apps/data-comparison/components/modules/validationHandler/saveValidations.js:244-290 | the key check passes exactly when it reports no error, reports the thrown error exactly when the configuration, its field list or a string key is missing, and warns at most once |
| SaveValidations.Types | dist/runtime/apps/data-comparison/components/modules/validationHandler/saveValidations.js:295-345 | the type check never fails and never reports an error; it warns about missing metadata exactly when none was given |
| SaveValidations.Access | dist/runtime/apps/data-comparison/components/modules/validationHandler/saveValidations.js:350-401 | the object-name check passes exactly when it reports no error, and warns exactly for a `__` name without the `__c` suffix |
| SaveValidations.Fields | dist/runtime/apps/data-comparison/components/modules/validationHandler/saveValidations.js:406-455 | the field-access check passes exactly when it reports no error, reports the thrown error exactly when the configuration or its field list is missing, and warns at most once |
| SaveValidations.ExternalIdKeyWarned | dist/runtime/apps/data-comparison/components/modules/validationHandler/saveValidations.js:319-326 | a key declared as `externalId` draws the unsuitable-type warning in the stored type-check result as written, and not once corrected |
| SharedValidations.ValidationResult.constructor | cpq-toolset/shared/validations/index.js:13-17 | a new result is valid and holds no errors and no warnings |
| SharedValidations.ValidationResult.AddError | cpq-toolset/shared/validations/index.js:19-27 | adding an error appends it, with type error, and marks the result invalid; warnings are kept |
| SharedValidations.ValidationResult.AddWarning | cpq-toolset/shared/validations/index.js:29-36 | adding a warning appends it, with type warning, and leaves validity and errors as they were |
| SharedValidations.ValidationResult.HasErrors | cpq-toolset/shared/validations/index.js:38-40 | a result kept through its own methods has errors exactly when it is invalid |
| SharedValidations.ValidationResult.HasWarnings | cpq-toolset/shared/validations/index.js:42-44 | true exactly when some warning was recorded |
| SharedValidations.ValidationResult.AllIssues | cpq-toolset/shared/validations/index.js:46-48 | all issues are the errors followed by the warnings |
| SharedValidations.OrgErrorsSpec | cpq-toolset/shared/validations/index.js:57-95 | an org passes exactly when it is present, has a username, an org id of 15 to 18 letters and digits, and an instance URL that parses; every issue is an error |
| SharedValidations.ValidateOrg | cpq-toolset/shared/validations/index.js:57-95 | a fresh result holding exactly the org's errors and no warnings |
| SharedValidations.ValidateObjectField | cpq-toolset/shared/validations/index.js:98-119 | a fresh result holding exactly the object field's errors and no warnings |
| SharedValidations.SplitCount | cpq-toolset/shared/validations/index.js:113 | a string splits into one more piece than it holds dots |
| SharedValidations.ObjectFieldSpec | cpq-toolset/shared/validations/index.js:106-116 | the depth error is reported exactly for a path with more than two dots, and a path passes exactly when it is dotted identifiers with at most two dots |
| SharedValidations.InOrgIssues | cpq-toolset/shared/validations/index.js:139-145 | each copied org error keeps its code, is prefixed with the org's number and names the field inside that org's entry |
| SharedValidations.OrgErrorLists | cpq-toolset/shared/validations/index.js:136-137 | one error list per org, each that org's errors |
| SharedValidations.DateEntriesErrorsSpec | cpq-toolset/shared/validations/index.js:172-176 | a date-format error names a key exactly when that entry's value is truthy and not a date |
| SharedValidations.DateErrorFrom | cpq-toolset/shared/validations/index.js:172-176 | each date error is the error of an entry with a truthy value that is not a date |
| SharedValidations.DateErrorFor | cpq-toolset/shared/validations/index.js:172-176 | every entry with a truthy value that is not a date gets its date error |
| SharedValidations.NumberedMembers | cpq-toolset/shared/validations/index.js:136-147 | an org-numbered message belongs to the org with that number and is one of its own messages |
| SharedValidations.NumberedEmpty | cpq-toolset/shared/validations/index.js:136-147 | the copied org errors are empty exactly when every org passes |
| SharedValidations.OrgListErrorsSpec | cpq-toolset/shared/validations/index.js:136-147 | a message appears under org number i exactly when org i reports it |
| SharedValidations.ConfigErrorsSpec | cpq-toolset/shared/validations/index.js:122-163 | a config without errors has at least two orgs, each passing, and at least one object; fewer than two orgs is always reported (the converse direction, that every org, object and date error is reported, is SharedValidations.ValidateConfig's ensures with the per-part lemmas) |
| SharedValidations.ValidateConfig | cpq-toolset/shared/validations/index.js:122-163 | a fresh result holding exactly the configuration's errors, orgs first, then objects, then dates, and no warnings |
| SharedValidations.AddOrgErrors | cpq-toolset/shared/validations/index.js:136-147 | appends exactly the numbered errors of every org, in order |
| SharedValidations.AddOneOrg | cpq-toolset/shared/validations/index.js:137-146 | appends exactly one org's numbered errors |
| SharedValidations.CopyOrgErrors | cpq-toolset/shared/validations/index.js:139-145 | appends the given errors, each numbered for the org |
| SharedValidations.AddDateErrors | cpq-toolset/shared/validations/index.js:165-177 | appends exactly the date errors of the entries, in entry order |
| RouteHelpers.FindCommonObjects | cpq-toolset/apps/data-comparison/routes/index.js:762-788 | the loop of intersections yields exactly the first org's objects whose name every org lists |
| RouteHelpers.CommonNamesSpec | cpq-toolset/apps/data-comparison/routes/index.js:773-782 | after intersecting with the first n orgs, a name survives exactly when each of them lists it |
| RouteHelpers.WithNamesSpec | cpq-toolset/apps/data-comparison/routes/index.js:785 | the final filter keeps exactly the first org's objects with a surviving name |
| RouteHelpers.WithNamesOrdered | cpq-toolset/apps/data-comparison/routes/index.js:785 | the filter never adds objects and keeps the whole list when every name survives |
| RouteHelpers.CommonObjectsSpec | cpq-toolset/apps/data-comparison/routes/index.js:762-788 | no orgs give no objects; otherwise an object is common exactly when the first org has it and every org lists its name; a single org keeps all its objects |
| RouteHelpers.ValidateConfig | cpq-toolset/apps/data-comparison/routes/index.js:790-804 | a config is valid exactly when present with at least two orgs and one object, and each failure reports its own error in that order |
| ConfigGenerator.IndexOf | cpq-toolset/apps/data-comparison/components/configGenerator/index.js:1415 | the position found is the first one holding the field, and none is found exactly when the field is absent |
| ConfigGenerator.FindField | cpq-toolset/apps/data-comparison/components/configGenerator/index.js:2425 | a field found is a described field of that name, and none is found only when no described field has it |
| ConfigGenerator.FieldNames | cpq-toolset/apps/data-comparison/components/configGenerator/index.js:1490 | the names of the described fields, one per field and in order |
| ConfigGenerator.ConfigGenerator.constructor | cpq-toolset/apps/data-comparison/components/configGenerator/index.js:6-45 | a new generator has no selected object, no described fields, no browsed reference and no stored configs |
| ConfigGenerator.ConfigGenerator.ToggleFieldSelection | cpq-toolset/apps/data-comparison/components/configGenerator/index.js:1408-1440 | without a selected object nothing changes; otherwise the selected object's config becomes the toggled one and nothing else changes |
| ConfigGenerator.ConfigGenerator.ToggleForeignKey | cpq-toolset/apps/data-comparison/components/configGenerator/index.js:1442-1479 | while a reference is browsed, the lookup is added to the parent object's config; otherwise the key is toggled on the selected object's config |
| ConfigGenerator.ConfigGenerator.SelectReferenceField | cpq-toolset/apps/data-comparison/components/configGenerator/index.js:2058-2091 | without a browsed reference nothing changes; otherwise the parent object's config gains the lookup field once |
| ConfigGenerator.ConfigGenerator.SelectAllFields | cpq-toolset/apps/data-comparison/components/configGenerator/index.js:1481-1494 | with a selected object and described fields, its config lists every described field in order and keeps its key; otherwise nothing changes |
| ConfigGenerator.ConfigGenerator.ClearAllFields | cpq-toolset/apps/data-comparison/components/configGenerator/index.js:1496-1508 | the selected object's config is reset to no fields and no key |
| ConfigGenerator.ConfigGenerator.ConfirmReferenceFieldSelection | cpq-toolset/apps/data-comparison/components/configGenerator/index.js:2390-2416 | the selected object's config drops every field under the reference and gains the chosen lookup last |
| ConfigGenerator.ConfigGenerator.RemoveLookupField | cpq-toolset/apps/data-comparison/components/configGenerator/index.js:2439-2459 | the selected object's config loses every occurrence of the field, and the key when it was that field |
| ConfigGenerator.ConfigGenerator.GetLookupFields | cpq-toolset/apps/data-comparison/components/configGenerator/index.js:2418-2437 | the lookups describe exactly the selected object's fields containing a dot, in order |
| ConfigGenerator.ConfigGenerator.IsConfigurationValid | cpq-toolset/apps/data-comparison/components/configGenerator/index.js:2628-2654 | valid exactly when an object is selected, its config is stored, it has a field and a non-empty key, and the key is one of its fields |
| ConfigGenerator.KeepUnprefixed | cpq-toolset/apps/data-comparison/components/configGenerator/index.js:2399-2401 | the loop keeps exactly the fields not under the reference, in order |
| ConfigGenerator.KeepOthers | cpq-toolset/apps/data-comparison/components/configGenerator/index.js:2445 | the loop keeps exactly the fields other than the removed one, in order |
| ConfigGenerator.NoDupSnoc | cpq-toolset/apps/data-comparison/components/configGenerator/index.js:1416-1417 | adding an absent field keeps the list free of repeats |
| ConfigGenerator.WithoutSpec | cpq-toolset/apps/data-comparison/components/configGenerator/index.js:2445 | a field survives removal exactly when it is listed and is not the removed one; no repeats are introduced |
| ConfigGenerator.DropPrefixedSpec | cpq-toolset/apps/data-comparison/components/configGenerator/index.js:2399-2401 | a field survives exactly when it is listed and not under the reference; no repeats are introduced |
| ConfigGenerator.RemoveAtSpec | cpq-toolset/apps/data-comparison/components/configGenerator/index.js:1418-1419 | removing the one occurrence of a field from a list without repeats removes exactly that field |
| ConfigGenerator.ToggledSpec | cpq-toolset/apps/data-comparison/components/configGenerator/index.js:1414-1425 | selecting adds the field only when absent; deselecting removes it, keeps every other field, and clears it as key; consistency is kept |
| ConfigGenerator.KeyToggledSpec | cpq-toolset/apps/data-comparison/components/configGenerator/index.js:1455-1464 | choosing a key selects it and makes a config with a non-empty key complete; choosing the key again clears it; consistency is kept |
| ConfigGenerator.ClearedSpec | cpq-toolset/apps/data-comparison/components/configGenerator/index.js:1501-1504 | a cleared config is consistent and never passes the configuration check |
| ConfigGenerator.ConfirmedSpec | cpq-toolset/apps/data-comparison/components/configGenerator/index.js:2390-2404 | after confirming, exactly one field is under the reference, it is the chosen lookup and comes last, and every other field is kept |
| ConfigGenerator.ConfirmedConsistent | cpq-toolset/apps/data-comparison/components/configGenerator/index.js:2398-2404 | confirming keeps a consistent config consistent when its key is not one of the replaced lookups |
| ConfigGenerator.ConfirmedCanOrphanKey | cpq-toolset/apps/data-comparison/components/configGenerator/index.js:2398-2404 | confirming a reference whose replaced lookup is the key leaves the key outside the fields |
| ConfigGenerator.RemovedSpec | cpq-toolset/apps/data-comparison/components/configGenerator/index.js:2439-2450 | removing a lookup drops it everywhere, keeps every other field and keeps the config consistent |
| ConfigGenerator.LookupsSound | cpq-toolset/apps/data-comparison/components/configGenerator/index.js:2421-2436 | every lookup describes a selected field containing a dot, and there are no more lookups than fields |
| ConfigGenerator.LookupsComplete | cpq-toolset/apps/data-comparison/components/configGenerator/index.js:2421-2436 | every selected field containing a dot has its lookup |
| ConfigGenerator.SplitAfter | cpq-toolset/apps/data-comparison/components/configGenerator/index.js:2424 | splitting at the first dot gives the part before it, then the split of the rest |
| ConfigGenerator.SplitNone | cpq-toolset/apps/data-comparison/components/configGenerator/index.js:2424 | a name without a dot splits into itself |
| ConfigGenerator.LookupOfConfirmed | cpq-toolset/apps/data-comparison/components/configGenerator/index.js:2391-2434 | a confirmed lookup is described with its own parent and selected field and the type Lookup |
| ConfigGenerator.LookupUnknownTarget | cpq-toolset/apps/data-comparison/components/configGenerator/index.js:2425-2426 | a lookup whose parent field is not described or references nothing references Unknown |
| SoqlBuilder.RelationshipField | cpq-toolset/shared/utils/graphqlRunner.js:21-27 | a field without `__c.`, or one already using `__r.`, is selected as it is |
| SoqlBuilder.SelectFields | cpq-toolset/shared/utils/graphqlRunner.js:21-27 | the rewritten field list has one entry per field, each the field's relationship rewrite, in order |
| SoqlBuilder.SelectItems | cpq-toolset/shared/utils/graphqlRunner.js:21-32 | the selected columns are the foreign key first when the caller did not select it, then each field rewritten, in order; a key that needs no rewrite is always selected |
| SoqlBuilder.DateClauses | cpq-toolset/shared/utils/graphqlRunner.js:46-53 | a date type with a start gives the two range conditions, the end defaulting to today; otherwise no condition |
| SoqlBuilder.WhereClausesSpec | cpq-toolset/shared/utils/graphqlRunner.js:38-68 | the WHERE conditions are the parenthesised active condition first, then the date range, then the custom clauses, and nothing else |
| SoqlBuilder.CustomClausesSpec | cpq-toolset/shared/utils/graphqlRunner.js:55-68 | every non-blank custom filter gives a parenthesised clause, and every custom clause comes from one |
| SoqlBuilder.BlankFiltersIgnored | cpq-toolset/shared/utils/graphqlRunner.js:61-65 | a filter list whose entries are all blank adds no condition |
| SoqlBuilder.Limit | cpq-toolset/shared/utils/graphqlRunner.js:81 | an absent or zero limit becomes 50000, any other limit is kept |
| SoqlBuilder.Query | cpq-toolset/shared/utils/graphqlRunner.js:13-86 | building fails exactly when the field list is missing, not an array, or empty |
| SoqlBuilder.QueryTextShape | cpq-toolset/shared/utils/graphqlRunner.js:35-82 | the query text starts with SELECT and ends with its LIMIT clause, preceded by ORDER BY the key when there is one |
| SoqlBuilder.LimitReadsBack | cpq-toolset/shared/utils/graphqlRunner.js:81-82 | the digits of the LIMIT clause read back as the limit when it is not negative |
| SoqlBuilder.BuildQuery | cpq-toolset/shared/utils/graphqlRunner.js:13-86 | the step-by-step building computes the query the specification function defines, including the error for no fields |
| SoqlBuilder.CollectWhereClauses | cpq-toolset/shared/utils/graphqlRunner.js:38-68 | the pushes build exactly the WHERE condition list |
| SoqlBuilder.PushCustomClauses | cpq-toolset/shared/utils/graphqlRunner.js:55-68 | the custom-filter part appends exactly the custom clauses, for an array and for a bare string |
| SoqlBuilder.CustomOfFilters | cpq-toolset/shared/utils/graphqlRunner.js:56-68 | the singular filter wins over the plural list; an array gives a clause per non-blank entry and a bare string one clause unless blank |
| SoqlBuilder.AddCustomClauses | cpq-toolset/shared/utils/graphqlRunner.js:61-65 | the `forEach` appends each non-blank filter in parentheses, in order |
| SoqlBuilder.OrgFilterErrorsHas | cpq-toolset/shared/utils/graphqlRunner.js:270-280 | every error an org entry produces is reported for the object |
| SoqlBuilder.OrgFilterErrorsFrom | cpq-toolset/shared/utils/graphqlRunner.js:270-280 | every org-filter error reported for the object comes from one org entry |
| SoqlBuilder.FilterErrorsSpec | cpq-toolset/shared/utils/graphqlRunner.js:272-278 | an org entry is flagged for a date type without a start and for custom filters that are not an array, and for nothing else |
| SoqlBuilder.ObjectErrorsSpec | cpq-toolset/shared/utils/graphqlRunner.js:257-267 | an object is flagged for a missing or non-array field list, for an empty one and for a missing foreign key, each exactly when it holds |
| SoqlBuilder.ObjectPasses | cpq-toolset/shared/utils/graphqlRunner.js:254-283 | an object passes exactly when its field list is a non-empty array, it has a key, and no org's filters are flagged |
| SoqlBuilder.OrgFilterErrorsKinds | cpq-toolset/shared/utils/graphqlRunner.js:270-280 | the org pass produces only the two org-level errors |
| SoqlBuilder.OrgFilterErrorsEmpty | cpq-toolset/shared/utils/graphqlRunner.js:270-280 | the org pass reports nothing exactly when no org entry is flagged |
| SoqlBuilder.CheckOrgFilters | cpq-toolset/shared/utils/graphqlRunner.js:272-278 | the two org checks append exactly that org's errors |
| SoqlBuilder.ValidateObjectConfig | cpq-toolset/shared/utils/graphqlRunner.js:254-283 | the pushes produce exactly the object's error list |
| SoqlBuilder.CheckAllOrgFilters | cpq-toolset/shared/utils/graphqlRunner.js:270-280 | the loop over org entries appends exactly their errors, in order |
| SoqlBuilder.ObjectsErrorsEmpty | cpq-toolset/shared/utils/graphqlRunner.js:300-305 | the object pass reports nothing exactly when no object is flagged |
| SoqlBuilder.ConfigErrorsSpec | cpq-toolset/shared/utils/graphqlRunner.js:288-308 | a configuration passes exactly when it names an org, has an object, and every object passes |
| SoqlBuilder.ValidateConfiguration | cpq-toolset/shared/utils/graphqlRunner.js:288-308 | the pushes produce exactly the configuration's error list |
| SoqlBuilder.CollectObjectErrors | cpq-toolset/shared/utils/graphqlRunner.js:300-305 | the loop over objects appends each object's errors, in order |
| SoqlBuilder.FiltersFor | cpq-toolset/shared/utils/graphqlRunner.js:93 | an org's filters are its entry in `orgFilters`, or no filters |
| SoqlBuilder.ValidatedObjectBuilds | cpq-toolset/shared/utils/graphqlRunner.js:93-100 | for an object that passes validation the query for every org builds, orders by the key, and filters on dates exactly when the org names a date field |
| GraphqlCursor.UnescapeEscape | shared/utils/graphqlRunner.js:15-18 | escaping every quote loses nothing: dropping the escape before each quote gives back the original text |
| GraphqlCursor.EscapedQuotesGuarded | shared/utils/graphqlRunner.js:15-18 | no quote of the escaped text is bare: each follows the escape character |
| GraphqlCursor.EscapeForCliAsWrittenSpec | shared/utils/graphqlRunner.js:11-20 | the as-written escaping reads back under the simple reading that only drops an escape before a quote, with the backtick on win32 and the backslash elsewhere |
| GraphqlCursor.ShellReadsAsWrittenWrongly | shared/utils/graphqlRunner.js:18 | a POSIX shell does not read back the as-written escaping of a backslash followed by a quote, which is what the cursor injection writes for a cursor holding a quote |
| GraphqlCursor.ShellReadsEscape | shared/utils/graphqlRunner.js:11-20 | escaping backslash, quote, dollar and backquote makes the shell read back the original text, whatever it holds |
| GraphqlCursor.EscapeForCliSpec | shared/utils/graphqlRunner.js:11-20 | the command body reads back as the query: through the shell off Windows, through the backtick escapes on win32 |
| GraphqlCursor.Skip | shared/utils/graphqlRunner.js:32 | a class run: every character up to the result is in the class and the one at the result is not |
| GraphqlCursor.ClauseTail | shared/utils/graphqlRunner.js:32 | a matched clause tail ends at a closing parenthesis inside the query |
| GraphqlCursor.FirstMatch | shared/utils/graphqlRunner.js:32 | the search returns the leftmost position where the `Name(first: N)` pattern matches, or none when it matches nowhere |
| GraphqlCursor.CapturedName | shared/utils/graphqlRunner.js:32-35 | the captured object name is a non-empty run of word characters and the name-specific pattern matches where it was captured |
| GraphqlCursor.NamedFindsFirst | shared/utils/graphqlRunner.js:38-41 | the search for the captured name stops at the clause the first search matched, since no earlier position matches even the general pattern |
| GraphqlCursor.SecondSearch | shared/utils/graphqlRunner.js:32-41 | the second search, for the captured name, finds the leftmost clause again with the same extent |
| GraphqlCursor.InjectUnchanged | shared/utils/graphqlRunner.js:26-33 | with no cursor, an empty cursor, or no `Name(first: N)` clause, the query is returned unchanged |
| GraphqlCursor.InjectAt | shared/utils/graphqlRunner.js:29-41 | otherwise the `after:` argument is inserted just before the closing parenthesis of the leftmost clause and the rest of the query is kept |
| GraphqlCursor.InjectedCursorReadsBack | shared/utils/graphqlRunner.js:29-40 | the cursor text inside the injected argument is the cursor with its quotes escaped, and reads back as the cursor |
| GraphqlCursor.LastPage | shared/utils/graphqlRunner.js:114-141 | the last page is the first response that does not ask for another |
| GraphqlCursor.Paginate | shared/utils/graphqlRunner.js:109-149 | one request per response up to the last page, the first without a cursor and each later one with the previous end cursor; the total is the number of edges of the pages read |
| GraphqlCursor.MissingCursorRestarts | shared/utils/graphqlRunner.js:130-131 | a page that claims a next page without an end cursor makes the next request identical to the first |
| GraphqlCursor.Command | shared/utils/graphqlRunner.js:86-89 | the command line is the fixed head, then the `--body` argument in quotes, which reads back as the query with the cursor injected: through the shell off Windows, through the backtick escapes on win32 |
| XmlScan.IndexFrom | cpq-toolset/apps/permissions-analyser/worker/extractor.js:757-762 | a found position is an occurrence of the pattern inside the text, at or after the start |
| XmlScan.IndexFromSpec | cpq-toolset/apps/permissions-analyser/worker/extractor.js:757-762 | the search finds the first occurrence, and finds none only when there is none |
| XmlScan.IndexFromIs | cpq-toolset/apps/permissions-analyser/worker/extractor.js:757-762 | an occurrence with none before it is the one the search finds |
| XmlScan.UniqueAt | cpq-toolset/apps/permissions-analyser/worker/extractor.js:754-756 | a tag between text that cannot hold it occurs at exactly one position |
| XmlScan.SafeNone | cpq-toolset/apps/permissions-analyser/worker/extractor.js:754-756 | no occurrence of a tag starts inside text that cannot hold it |
| XmlRecord.Element | cpq-toolset/apps/permissions-analyser/worker/extractor.js:754-810 | a written record has three pieces of frame and four per field |
| XmlRecord.RecordIsElement | cpq-toolset/apps/permissions-analyser/worker/extractor.js:754 | a written record is an element opening and closing with its tag, with no closing tag inside |
| XmlRecord.FieldRead | cpq-toolset/apps/permissions-analyser/worker/extractor.js:756-806 | the lazy capture of a field's tag returns the value of the first field with that name |
| XmlRecord.FieldAbsent | cpq-toolset/apps/permissions-analyser/worker/extractor.js:756 | without a field of that name the capture finds nothing |
| XmlRecord.FlagPresent | cpq-toolset/apps/permissions-analyser/worker/extractor.js:757-762 | for a field named once, the `<name>true</name>` text is present exactly when its value is "true" |
| XmlRecord.FlagAbsent | cpq-toolset/apps/permissions-analyser/worker/extractor.js:757-762 | without a field of that name the flag text is absent |
| XmlRecord.FlagOf | cpq-toolset/apps/permissions-analyser/worker/extractor.js:757-762 | in a record with distinct field names, the flag test on a field's name tells whether its value is "true" |
| XmlRecord.CaptureOf | cpq-toolset/apps/permissions-analyser/worker/extractor.js:756 | in a record with distinct field names, the capture for a field's name is its one-line value |
| XmlRead.BlocksOf | cpq-toolset/apps/permissions-analyser/worker/extractor.js:754 | the global lazy scan from one opening tag to the next closing tag returns the text of each element of a group, in order |
| XmlRead.TextRunsOf | cpq-toolset/apps/permissions-analyser/worker/extractor.js:830-834 | the global scan for `<o>text</o>` runs returns each run's text, in order |
| XmlRead.FirstRunOf | cpq-toolset/apps/permissions-analyser/worker/extractor.js:846-849 | the first `<o>text</o>` run found is the one written first |
| XmlSections.Bodies | cpq-toolset/apps/permissions-analyser/worker/extractor.js:754-810 | one element per record of a section |
| XmlSections.ReadSection | cpq-toolset/apps/permissions-analyser/worker/extractor.js:754-804 | scanning a written document for a section's tag returns the text of each record of that section, in order, when no other section or field uses the tag |
| XmlSections.ReadableOf | cpq-toolset/apps/permissions-analyser/worker/extractor.js:754-810 | a section can be read on its own when every other section and every field is named otherwise |
| MetadataExtractor.ObjectFlagAt | cpq-toolset/apps/permissions-analyser/worker/extractor.js:757-762 | each flag of an object permission reads back as written |
| MetadataExtractor.ObjectNameRead | cpq-toolset/apps/permissions-analyser/worker/extractor.js:756 | the object's name reads back as written, and as missing when it is not written |
| MetadataExtractor.ObjectAccessRead | cpq-toolset/apps/permissions-analyser/worker/extractor.js:757-760 | the create, delete, edit and read flags of an object permission read back as written |
| MetadataExtractor.ObjectRead | cpq-toolset/apps/permissions-analyser/worker/extractor.js:755-773 | parsing the element of an object permission gives back that permission |
| MetadataExtractor.PairRead | cpq-toolset/apps/permissions-analyser/worker/extractor.js:777-810 | the name and the flag of a two-field record read back as written, whichever field comes first |
| MetadataExtractor.UserRead | cpq-toolset/apps/permissions-analyser/worker/extractor.js:787-792 | parsing the element of a user permission gives back that permission |
| MetadataExtractor.ClassRead | cpq-toolset/apps/permissions-analyser/worker/extractor.js:796-801 | parsing the element of an Apex class access gives back that access |
| MetadataExtractor.PageRead | cpq-toolset/apps/permissions-analyser/worker/extractor.js:805-810 | parsing the element of a page access gives back that access |
| MetadataExtractor.FieldPermissionRead | cpq-toolset/apps/permissions-analyser/worker/extractor.js:777-783 | parsing the element of a field permission gives back that permission |
| MetadataExtractor.ProfileReadable | cpq-toolset/apps/permissions-analyser/worker/extractor.js:744-813 | each of the five sections of a written profile can be read on its own |
| MetadataExtractor.ProfileScan | cpq-toolset/apps/permissions-analyser/worker/extractor.js:754-810 | scanning a written profile for a section's tag returns that section's records |
| MetadataExtractor.ProfileRoundTrip | cpq-toolset/apps/permissions-analyser/worker/extractor.js:744-813 | parsing the XML of a profile gives back every record of every section, in order |
| MetadataExtractor.ParseMuting | cpq-toolset/apps/permissions-analyser/worker/extractor.js:854-860 | a muting permission set parses as a profile does, with the muting flag set |
| MetadataExtractor.PermissionSetRoundTrip | cpq-toolset/apps/permissions-analyser/worker/extractor.js:816-819 | a permission set reads back as written |
| MetadataExtractor.MutingRoundTrip | cpq-toolset/apps/permissions-analyser/worker/extractor.js:854-860 | a muting permission set reads back as written, marked as muting |
| MetadataExtractor.DescriptionAbsent | cpq-toolset/apps/permissions-analyser/worker/extractor.js:846-849 | with no description written, the description stays empty |
| MetadataExtractor.DescriptionPresent | cpq-toolset/apps/permissions-analyser/worker/extractor.js:846-849 | a written description is the one found |
| MetadataExtractor.GroupRoundTrip | cpq-toolset/apps/permissions-analyser/worker/extractor.js:821-852 | a permission set group reads back as written: its permission sets and muting permission sets in order, and its description |
| PackageXml.PutItems | cpq-toolset/apps/permissions-analyser/worker/extractor.js:458-459 | adding items creates the type if it is missing and adds each item to its set once |
| PackageXml.PutEach | cpq-toolset/apps/permissions-analyser/worker/extractor.js:456-568 | the contributions are applied in turn |
| PackageXml.AddPermissionItems | cpq-toolset/apps/permissions-analyser/worker/extractor.js:455-461 | each permission entry with items adds them under its own type, entry by entry |
| PackageXml.AddOptionItems | cpq-toolset/apps/permissions-analyser/worker/extractor.js:470-569 | the dependent types of every option entry are added, entry by entry |
| PackageXml.CollectTypes | cpq-toolset/apps/permissions-analyser/worker/extractor.js:453-569 | the type sets after the permission entries and then the option entries |
| PackageXml.AppendBlock | cpq-toolset/apps/permissions-analyser/worker/extractor.js:574-582 | one type's block, its members then its name, is appended |
| PackageXml.AppendBlocks | cpq-toolset/apps/permissions-analyser/worker/extractor.js:572-584 | the blocks of the types, in creation order, are appended, skipping empty sets |
| PackageXml.GeneratePackageXml | cpq-toolset/apps/permissions-analyser/worker/extractor.js:446-591 | the manifest built for the selections is the one the specification function defines |
| PackageXml.PutValid | cpq-toolset/apps/permissions-analyser/worker/extractor.js:458-459 | each step keeps every type created once and no set listing a member twice |
| PackageXml.PutAllMembers | cpq-toolset/apps/permissions-analyser/worker/extractor.js:456-568 | after some steps a type's members are what it held plus the items every step brought to that type |
| PackageXml.PutAllTypes | cpq-toolset/apps/permissions-analyser/worker/extractor.js:456-568 | a type exists after some steps exactly when it existed or some step names it |
| PackageXml.CollectedValid | cpq-toolset/apps/permissions-analyser/worker/extractor.js:453-569 | in the collected sets every type is created once and no set lists a member twice |
| PackageXml.CollectedMembers | cpq-toolset/apps/permissions-analyser/worker/extractor.js:453-569 | a member is listed under a type exactly when some selection contributed it to that type |
| PackageXml.CollectedTypes | cpq-toolset/apps/permissions-analyser/worker/extractor.js:453-569 | a type is created exactly when some selection names it |
| PackageXml.SelectedItemsListed | cpq-toolset/apps/permissions-analyser/worker/extractor.js:456-461 | every item of a selected permission entry is listed under that entry's type |
| PackageXml.ObjectsForAll | cpq-toolset/apps/permissions-analyser/worker/extractor.js:472-485 | with object or field permissions selected and the ALL selection, the objects are the discovered common objects, or the wildcard when none were discovered |
| PackageXml.ContributionCollected | cpq-toolset/apps/permissions-analyser/worker/extractor.js:470-568 | every item a contribution brings is a member of its type in the collected sets |
| PackageXml.TypeBlocksEmitted | cpq-toolset/apps/permissions-analyser/worker/extractor.js:572-584 | the manifest's blocks are exactly one block for each type with a non-empty set, in order |
| PackageXml.EmittedSpec | cpq-toolset/apps/permissions-analyser/worker/extractor.js:573 | a type is emitted exactly when it is listed and its set is non-empty, and none is emitted twice |
| PackageXml.PackageXmlShape | cpq-toolset/apps/permissions-analyser/worker/extractor.js:446-591 | the manifest is the header, then exactly one block per type with a non-empty set, each type once, then the version and the footer |
| NonCommonMetadata.Summarize | cpq-toolset/apps/permissions-analyser/worker/extractor.js:237-265 | the summary of one kind lists every item some read org holds, in first-seen order, with the orgs holding it |
| NonCommonMetadata.AddOrg | cpq-toolset/apps/permissions-analyser/worker/extractor.js:254-261 | pushing one org's items keeps the summary equal to the holders over the orgs read so far |
| NonCommonMetadata.HoldersUnseen | cpq-toolset/apps/permissions-analyser/worker/extractor.js:256-258 | an item no org has listed yet has no holders yet |
| NonCommonMetadata.SummaryOf | cpq-toolset/apps/permissions-analyser/worker/extractor.js:237-265 | a summary built item by item is the summary the specification defines |
| NonCommonMetadata.MissingFrom | cpq-toolset/apps/permissions-analyser/worker/extractor.js:282 | the missing orgs are computed element by element as the filter does |
| NonCommonMetadata.Entries | cpq-toolset/apps/permissions-analyser/worker/extractor.js:277-285 | the entries are those of the items held by fewer orgs than were requested |
| NonCommonMetadata.NonCommonItems | cpq-toolset/apps/permissions-analyser/worker/extractor.js:276-286 | the non-common list of one kind is the one the specification defines |
| NonCommonMetadata.FindNonCommon | cpq-toolset/apps/permissions-analyser/worker/extractor.js:226-286 | the report holds the non-common list of each of the four kinds |
| NonCommonMetadata.SeenSpec | cpq-toolset/apps/permissions-analyser/worker/extractor.js:254-261 | an item is in the summary exactly when some read org lists it |
| NonCommonMetadata.HoldersSpec | cpq-toolset/apps/permissions-analyser/worker/extractor.js:259 | an org is a holder exactly when it is the name of some org listing the item |
| NonCommonMetadata.HoldersCount | cpq-toolset/apps/permissions-analyser/worker/extractor.js:259-278 | there are at most as many holders as orgs read, and exactly as many when every org lists the item |
| NonCommonMetadata.MissingSpec | cpq-toolset/apps/permissions-analyser/worker/extractor.js:282 | the missing orgs are exactly the requested orgs that are not holders |
| NonCommonMetadata.EntriesSpec | cpq-toolset/apps/permissions-analyser/worker/extractor.js:277-285 | an entry is reported exactly for a summarized item with fewer holders than orgs, with its holders and missing orgs |
| NonCommonMetadata.NonCommonSpec | cpq-toolset/apps/permissions-analyser/worker/extractor.js:237-286 | an item of a kind is reported exactly when some org lists it and it is held by fewer orgs than were requested, with its holders and the orgs missing it |
| NonCommonMetadata.ReportedOrgs | cpq-toolset/apps/permissions-analyser/worker/extractor.js:279-283 | a reported entry lists as holders exactly the orgs listing it and as missing the rest of the requested orgs |
| NonCommonMetadata.NonCommonIffSomeOrgLacks | cpq-toolset/apps/permissions-analyser/worker/extractor.js:241-278 | an item listed somewhere is non-common exactly when some org does not list it, an unreadable org counting as lacking it |
| NonCommonMetadata.ReportedIsMissingSomewhere | cpq-toolset/apps/permissions-analyser/worker/extractor.js:278-282 | with distinct org names, a reported item is missing from at least one org |
| MetadataDefinitions.FindDefinition | apps/permissions-analyser/utils/metadataDefinitions_enhanced.js:605-639 | a found definition is in the table under the requested type; none is found only when no definition has that type |
| MetadataDefinitions.FindOption | apps/permissions-analyser/utils/metadataDefinitions_enhanced.js:612-640 | a found option is among the definition's options under the requested name; none is found only when no option has that name |
| MetadataDefinitions.OptionAvailableIff | apps/permissions-analyser/utils/metadataDefinitions_enhanced.js:638-641 | an option is available for a type exactly when the definition of that type lists an option of that name |
| MetadataDefinitions.TableKeyed | apps/permissions-analyser/utils/metadataDefinitions_enhanced.js:5-582 | the table lists each permission type once and each of its options once |
| MetadataDefinitions.GetAllPermissionOptions | apps/permissions-analyser/utils/metadataDefinitions_enhanced.js:585-595 | the loop over definitions and options computes the sorted set of every option name |
| MetadataDefinitions.AddAllIsDedup | apps/permissions-analyser/utils/metadataDefinitions_enhanced.js:586-592 | adding names one by one to an empty set keeps each once, in first-added order |
| MetadataDefinitions.AllNamesSpec | apps/permissions-analyser/utils/metadataDefinitions_enhanced.js:588-592 | a name is collected exactly when some definition lists an option of that name |
| MetadataDefinitions.AllPermissionOptionsSpec | apps/permissions-analyser/utils/metadataDefinitions_enhanced.js:585-595 | the option list is sorted, has no repeats, and holds exactly the option names of every definition |
| MetadataDefinitions.AddFlagTypes | apps/permissions-analyser/utils/metadataDefinitions_enhanced.js:616-630 | each requirement flag an option sets adds its metadata type, in the order of the checks |
| MetadataDefinitions.AddEntryTypes | apps/permissions-analyser/utils/metadataDefinitions_enhanced.js:609-631 | the enabled, known options of one permission type add the types their flags require |
| MetadataDefinitions.GetRequiredMetadataTypes | apps/permissions-analyser/utils/metadataDefinitions_enhanced.js:598-635 | the loop computes, without repeats and in first-added order, the selected types and the types their enabled options require |
| MetadataDefinitions.TypeForInjective | apps/permissions-analyser/utils/metadataDefinitions_enhanced.js:616-630 | different requirement flags add different metadata types |
| MetadataDefinitions.FlagTypesSpec | apps/permissions-analyser/utils/metadataDefinitions_enhanced.js:616-630 | a type is added for an option exactly when one of its set flags maps to it |
| MetadataDefinitions.OptionTypes | apps/permissions-analyser/utils/metadataDefinitions_enhanced.js:616-630 | every requirement flag is checked, so a type is added exactly when some set flag maps to it |
| MetadataDefinitions.EntryTypesSpec | apps/permissions-analyser/utils/metadataDefinitions_enhanced.js:609-631 | a type comes from a permission type's options exactly when an enabled entry names a supported option one of whose flags maps to it |
| MetadataDefinitions.SelectedTypesRequired | apps/permissions-analyser/utils/metadataDefinitions_enhanced.js:601-603 | every selected permission type is itself required, known or not |
| MetadataDefinitions.RequiredTypesSpec | apps/permissions-analyser/utils/metadataDefinitions_enhanced.js:598-635 | a type is required exactly when it is selected, or an enabled supported option of a selected known type sets a flag that maps to it |
| PermissionsComparison.AllFalse | runtime/apps/permissions-analyser/python/permissions_comparison_enhanced.py:526-530 | the default tuple of a dict-valued kind has one entry per flag, every one False |
| PermissionsComparison.FlagsOf | runtime/apps/permissions-analyser/python/permissions_comparison_enhanced.py:517-525 | the setting read from an entry has one value per flag, each the entry's own value or False when the entry lacks it |
| PermissionsComparison.DifferenceChecks | runtime/apps/permissions-analyser/python/permissions_comparison_enhanced.py:878-896 | both difference checks hold exactly when the values are not all equal, and the simple one exactly when there is more than one distinct value |
| PermissionsComparison.EntryNamesSpec | runtime/apps/permissions-analyser/python/permissions_comparison_enhanced.py:504-507 | a name is collected exactly when some entry of the list carries it |
| PermissionsComparison.HolderNamesSpec | runtime/apps/permissions-analyser/python/permissions_comparison_enhanced.py:504-507 | a name is collected exactly when some org holding the item lists it |
| PermissionsComparison.FirstNamedSpec | runtime/apps/permissions-analyser/python/permissions_comparison_enhanced.py:513-516 | the entry found is the earliest one with the name, and nothing is found exactly when no entry carries it |
| PermissionsComparison.PerOrg | runtime/apps/permissions-analyser/python/permissions_comparison_enhanced.py:512-530 | one setting per org holding the item |
| PermissionsComparison.PerOrgAt | runtime/apps/permissions-analyser/python/permissions_comparison_enhanced.py:512-530 | each org's setting is read from its first entry of that name, or is the kind's default |
| PermissionsComparison.NamesOfSnoc | runtime/apps/permissions-analyser/python/permissions_comparison_enhanced.py:510-534 | the names of a concatenation of reports are the concatenation of their names |
| PermissionsComparison.ReportsSnoc | runtime/apps/permissions-analyser/python/permissions_comparison_enhanced.py:510-534 | reporting one more name appends it exactly when it is reported |
| PermissionsComparison.ReportedNames | runtime/apps/permissions-analyser/python/permissions_comparison_enhanced.py:510-534 | a name appears in the report exactly when it is among the candidates and its settings differ |
| PermissionsComparison.ReportedSorted | runtime/apps/permissions-analyser/python/permissions_comparison_enhanced.py:510 | reporting over sorted names keeps the report sorted and without duplicates |
| PermissionsComparison.ReportSpec | runtime/apps/permissions-analyser/python/permissions_comparison_enhanced.py:532-534 | a name's report is present exactly when its settings are not all equal, and carries that name's settings |
| PermissionsComparison.KindDiffsMembers | runtime/apps/permissions-analyser/python/permissions_comparison_enhanced.py:502-536 | every reported entry is the per-org settings of its own name |
| PermissionsComparison.KindDiffsSpec | runtime/apps/permissions-analyser/python/permissions_comparison_enhanced.py:502-536 | a name is reported exactly when some org lists it and the orgs' settings are not all equal; the report is in sorted name order without duplicates |
| PermissionsComparison.AbsentTakesDefault | runtime/apps/permissions-analyser/python/permissions_comparison_enhanced.py:526-530 | an org without the entry contributes all flags False, False, or 'Hidden' for a tab |
| PermissionsComparison.PartialListingReported | runtime/apps/permissions-analyser/python/permissions_comparison_enhanced.py:640-652 | a name one org lists with a non-default setting and another org does not list at all is always reported |
| PermissionsComparison.AddEntryNames | runtime/apps/permissions-analyser/python/permissions_comparison_enhanced.py:505-507 | adding one org's entries to the running set adds exactly their names |
| PermissionsComparison.CollectNames | runtime/apps/permissions-analyser/python/permissions_comparison_enhanced.py:504-507 | the first loop collects exactly the names any org lists |
| PermissionsComparison.OrgSettings | runtime/apps/permissions-analyser/python/permissions_comparison_enhanced.py:512-530 | the inner loop yields each org's setting in org order |
| PermissionsComparison.CompareName | runtime/apps/permissions-analyser/python/permissions_comparison_enhanced.py:511-534 | one name's settings are kept exactly when the kind's check finds them differing |
| PermissionsComparison.CompareKind | runtime/apps/permissions-analyser/python/permissions_comparison_enhanced.py:502-536 | the comparison of one kind returns exactly the differing names in sorted order |
| PermissionsComparison.HoldersOfShared | runtime/apps/permissions-analyser/python/permissions_comparison_enhanced.py:455-459 | an item every org holds is compared across all orgs, in org order |
| PermissionsComparison.HoldersSpec | runtime/apps/permissions-analyser/python/permissions_comparison_enhanced.py:455-459 | the orgs compared for an item are exactly those holding it |
| PermissionsComparison.Compared | runtime/apps/permissions-analyser/python/permissions_comparison_enhanced.py:464-498 | a kind is compared exactly when it belongs to the category and is selected, or the item is a permission set group |
| PermissionsComparison.SectionsSound | runtime/apps/permissions-analyser/python/permissions_comparison_enhanced.py:464-498 | every reported section is a compared kind's non-empty differences |
| PermissionsComparison.SectionsComplete | runtime/apps/permissions-analyser/python/permissions_comparison_enhanced.py:464-498 | every compared kind with differences has its section |
| PermissionsComparison.ItemDifferencesSpec | runtime/apps/permissions-analyser/python/permissions_comparison_enhanced.py:451-500 | fewer than two holders give no differences; otherwise exactly the compared kinds with differences are reported |
| PermissionsComparison.CollectHolders | runtime/apps/permissions-analyser/python/permissions_comparison_enhanced.py:455-459 | the first loop collects the holders of the item |
| PermissionsComparison.CompareKinds | runtime/apps/permissions-analyser/python/permissions_comparison_enhanced.py:464-498 | the chain of selected checks keeps exactly the non-empty sections |
| PermissionsComparison.CompareItem | runtime/apps/permissions-analyser/python/permissions_comparison_enhanced.py:451-500 | the comparison of one item is its differences by compared kind |
| PermissionsComparison.NonEmptyStep | runtime/apps/permissions-analyser/python/permissions_comparison_enhanced.py:444-447 | one loop step adds the item exactly when its differences are non-empty |
| PermissionsComparison.AllItemsSpec | runtime/apps/permissions-analyser/python/permissions_comparison_enhanced.py:423-428 | an item is among all items exactly when some org holds it |
| PermissionsComparison.ItemMapSpec | runtime/apps/permissions-analyser/python/permissions_comparison_enhanced.py:423-425 | each org is listed with exactly its own items |
| PermissionsComparison.CommonItemsSpec | runtime/apps/permissions-analyser/python/permissions_comparison_enhanced.py:430-433 | the common items are exactly those every org holds, and none when there is no org |
| PermissionsComparison.UniqueMapDomain | runtime/apps/permissions-analyser/python/permissions_comparison_enhanced.py:436-439 | only orgs of the data are listed with unique items |
| PermissionsComparison.UniqueMapAt | runtime/apps/permissions-analyser/python/permissions_comparison_enhanced.py:436-439 | an org is listed exactly when it has items outside the common ones, and then with exactly those |
| PermissionsComparison.DifferencesSpec | runtime/apps/permissions-analyser/python/permissions_comparison_enhanced.py:410-449 | an item has differences exactly when every org holds it, there are two orgs or more, and some compared kind differs |
| PermissionsComparison.CompareDifferences | runtime/apps/permissions-analyser/python/permissions_comparison_enhanced.py:444-447 | the differences map holds exactly the common items with some differing compared kind |
| PermissionsComparison.UniquePartition | runtime/apps/permissions-analyser/python/permissions_comparison_enhanced.py:423-439 | every org's items are the common items plus its unique ones, which are disjoint |
| PermissionsComparison.CollectItems | runtime/apps/permissions-analyser/python/permissions_comparison_enhanced.py:423-428 | the first loop yields all items and each org's items |
| PermissionsComparison.CollectUnique | runtime/apps/permissions-analyser/python/permissions_comparison_enhanced.py:436-439 | the unique loop yields each org's non-common items when it has some |
| PermissionsComparison.CompareCommon | runtime/apps/permissions-analyser/python/permissions_comparison_enhanced.py:444-447 | the last loop yields each common item's non-empty differences |
| PermissionsComparison.CompareCategory | runtime/apps/permissions-analyser/python/permissions_comparison_enhanced.py:410-449 | comparing a category yields all, per-org, common and unique items and the differences of the common ones |

## Left out

- File, directory and JSON/CSV/parquet I/O, logging, and writing summary or blacklist files are left out. Directory listings, loaded records and parsed JSON lines are parameters of the model. This covers `save_blacklisted_fks`, `save_report` and the resolution files `generateResolutions` writes.
- dask and pandas frames are modelled as sequences of records, except in `DetailedComparison`, where each org's table is a map from the text of its key value to its record (see the `DetailedComparison` lines below). A missing or NaN cell is `Null`.
- The detailed comparison indexes each org's frame by its key field (`set_index`, multi_org_comparison.py:288-289, 403-409). The model's tables (`OrgTable`) map key text to record, so a key value appears at most once per org, is never null, and is always text. In the source three other cases change the result. A duplicated key value makes `df.loc[key, field]` return a Series, on which `if pd.isna(value)` raises (lines 408-409). A NaN key among text keys makes `sorted(all_keys)` raise (line 391). Integer keys are sorted numerically, not as text. In a pair comparison a column whose comparison raises is skipped by the per-column handler (lines 329-356), and `_compare_two_instances` turns any other raise into an `error` entry (lines 319-321). `compare_all_objects` records an object whose processing raised with status `error` (lines 570-576). None of these cases is represented; the members below inherit this.
- DetailedComparison.CompareTwoInstances: a table with a duplicated or null key value cannot be built, so neither the columns the source skips on a raise nor its `error` result arise.
- DetailedComparison.PerformAllVsAll: inherits `CompareTwoInstances`; no pair result is an `error` entry.
- DetailedComparison.CreateDetailedComparison: the keys are sorted as text and are unique per org, so the raises on a duplicated key (multi_org_comparison.py:408-409) and on a NaN key among text keys (line 391), and the numeric order of integer keys, are not represented.
- DetailedComparison.SingleObjectOutcome: has no `error` outcome. The source records status `error` for an object whose detailed comparison raises on a duplicated or null key (multi_org_comparison.py:570-576).
- DetailedComparison.CompareSingleObject: never ends in an `error` outcome, for the same reason.
- DetailedComparison.ProcessObject: never records the source's `error` status, for the same reason.
- DetailedComparison.CompareEach: never records the source's `error` status, for the same reason.
- DetailedComparison.CompareAllObjects: no object ends with the `error` status, so the completed and differing counts are over objects that never raise.
- The set-based comparator keys each record by the tuple of its object, primary key and data-column values (multi_org_comparison_optimized.py:304-306, 318-327). A NaN cell in such a tuple is a fresh float object, so two tuples holding NaN are unequal in the source even when every cell matches. The model's composite key (`CompositeKeyOf`) compares `Null` cells as equal. For an identical record with a NaN cell present in two orgs, the source puts the key in the set difference, and when its primary key is null too it finds no counterpart (lines 393-403) and emits MISSING rows, where the model emits nothing. The members below inherit this.
- OptimizedComparison.CompositeKeyOf: a `Null` cell equals another `Null` cell, where a NaN cell in the source's key tuple equals no other.
- OptimizedComparison.DifferenceKeysSpec: a key holding a `Null` cell is left out of the difference when the other org has the same key; the source counts it as a difference.
- OptimizedComparison.CommonKeysSpec: a key holding a `Null` cell can be common to two orgs; in the source it never is.
- OptimizedComparison.SetComparator.ComparePair: omits the MISSING rows the source emits for an identical record with a null primary key and a NaN cell.
- OptimizedComparison.SetComparator.CompareWithOthers: inherits the omission of `ComparePair`.
- OptimizedComparison.SetComparator.RunSetComparisons: inherits the omission of `ComparePair`.
- `np.isclose` and numeric dtype tests are an abstract equality predicate, given as a parameter.
- Python set iteration order (`ref_set - comp_set`, the lists built from sets) is not specified by the language. The model visits keys in record order, and in the permissions comparison it keeps the collected names as sets.
- Python's `True == 1` in set and dict comparisons is not modelled: value equality is structural.
- Other JSON parsing, `new Date(...)`, `new URL(...)` and the `os.platform()` value are parameters. They appear as the date parser of `ConfigValidation`, `urlParses` in `SharedValidations`, and the platform argument of `GraphqlCursor`.
- The `today` default of `dateTo` in the SOQL builder is a parameter.
- The timestamp of a save-time validation run is left out.
- A JavaScript check that throws is modelled as a result: `Threw` in `SaveValidations` and the `Threw` run of `ConfigValidation` (a null configuration entry). The engine's exception text is a parameter.
- GraphqlCursor.Paginate: requires that some response ends the paging. Without such a response the source loops for ever. The `pageHandler` callback the source calls with each page's edges is left out, as a caller-side effect; the model gives the requests sent and the edge total.
- `DuplicateResolution.PreviewOk` treats only a string value as safe to slice. Python also slices lists, and those are not modelled.
- The resolver's files and their backups are maps from path to lines. File-system errors while copying a file are left out.
- `analyzeDuplicateForeignKeys`, `generateResolutions`, `loadConfiguration`, `applyResolutions` and `applyObjectResolutions` of `duplicateResolver.js` are left out. They are file loading and writing around the modelled strategy functions. `calculateSummaryStats` is modelled as `CalculateSummaryStats` over the report's entries.
- The in-place sort of `orgsAffected` by the `keep_first` strategy is modelled in the resolution it returns. The side effect on the report object is left out.
- `get_resolution_recommendations` and `main` of the detector are left out, as reporting glue.
- `compare_muting_permission_sets` is left out: it returns a fixed empty structure.
- Excel/CSV export and text summaries are left out.
- Config generator: UI rendering, navigation, session storage and Lucide icons are left out. Of an object's configuration only `Fields` and `foreignKey` are modelled; `Active`, `ActiveCondition` and the date ranges are not touched by the modelled operations.
- JavaScript objects list the keys that look like array indices (`"2"`, `"10"`) first, in ascending order, and every other key in insertion order; they also turn every key into text. Metadata type names and object names are never such strings here, so the model keeps plain insertion order for them. Record values are a different matter. The file engine keys `foreignKeyIndex` by foreign-key value and `valueGroups` by field value (file-engine.js:93-120, 182-196), and `duplicateResolver.js` keys `duplicates` by foreign-key value (lines 119 and 198). For those objects the model keeps first-seen order, so where some values look like integers the source lists them in a different order: the values `"10"`, `"2"`, `"x"` are grouped as `"2"`, `"10"`, `"x"` by the source and as `"10"`, `"2"`, `"x"` by the model. Apart from the order, the keys, groups and orgs reported are the same, except for the key identity noted for `FindDuplicatesForObject` and for values named after `Object.prototype` members, described next. The members below inherit the order.
- Values named after `Object.prototype` members (`constructor`, `toString`, `__proto__`) behave differently in the source's plain objects, and the model treats them like any other value. In file-engine.js:98-101 the test `!foreignKeyIndex[fkValue]` finds the inherited member, so such a foreign-key value never becomes an own key of the index and its records are never compared or reported missing (for `__proto__` the records are written onto `Object.prototype` instead). In file-engine.js:184-185 a differing field value named `toString` or `constructor` makes `valueGroups[value].push` throw, and the handler at lines 159-162 re-throws, so the comparison of that object fails. In duplicateResolver.js:119 `duplicates["__proto__"] = …` sets the prototype of `duplicates`, so that key is never reported. The lines below name the members concerned.
- FileEngine.StoreRecordSpec: a record whose foreign-key value is named after an `Object.prototype` member is indexed by the model and never by the source.
- FileEngine.AddRecordSpec: indexes a foreign-key value named after an `Object.prototype` member, which the source never adds as a key.
- FileEngine.IndexSpec: lists keys named after `Object.prototype` members, which the source's index never holds.
- FileEngine.IndexOrg: indexes keys named after `Object.prototype` members, which the source never adds.
- FileEngine.MissingSpec: can report a key named after an `Object.prototype` member as missing; the source never does.
- FileEngine.MissingRecordsSpec: can report a key named after an `Object.prototype` member as missing; the source never does.
- FileEngine.FieldDifferencesSpec: reports a difference on a field whose values include one named after an `Object.prototype` member, where the source throws.
- DuplicateStrategy.ReportedIff: reports the key `__proto__` like any other; the source's assignment sets the prototype instead.
- DuplicateStrategy.FindDuplicatesSpec: reports the key `__proto__` like any other; the source never reports it.
- FileEngine.BuildForeignKeyIndex: the index lists its keys in first-seen order, not with integer-like keys first, and it holds keys named after `Object.prototype` members, which the source never adds.
- FileEngine.CompareIndexed: walks the index in first-seen key order, not the `for…in` order of the source, and reports a difference where a value named after an `Object.prototype` member makes the source throw.
- FileEngine.CompareObjectRecords: its missing records and field differences come in first-seen key order, not the source's order. It also compares keys named after `Object.prototype` members, which the source drops, and reports differences where such a field value makes the source throw.
- FileEngine.ProcessKey: the value groups it reports are in first-seen order, and a differing value named after an `Object.prototype` member is grouped where the source throws.
- FileEngine.CompareFieldsForRecord: the value groups it reports are in first-seen order, and a differing value named after an `Object.prototype` member is grouped where the source throws.
- FileEngine.CompareField: the value groups it reports are in first-seen order, and a differing value named after an `Object.prototype` member is grouped where the source throws.
- FileEngine.GroupByValue: builds the value groups in first-seen order, where the source lists integer-like values first, and groups a value named after an `Object.prototype` member, on which the source's `push` throws.
- FileEngine.GroupsSpec: states the groups in first-seen order, where the source lists integer-like values first, and includes values named after `Object.prototype` members, on which the source throws.
- FileEngine.MinorityOrgs: lists the minority orgs in group first-seen order; the set of orgs listed is the same as the source's.
- DuplicateStrategy.FindDuplicatesForObject: keys duplicates by value in first-seen order. The source turns each key into text, so a number and the string of its digits (`1` and `"1"`) are one key there and two in the model, and it lists integer-like keys first. It also reports the key `__proto__`, which the source loses to the prototype.
- DuplicateStrategy.ResolveObjectDuplicates: inherits the key order, the key identity and the `__proto__` key of `FindDuplicatesForObject`.
- DuplicateStrategy.ResolutionsOfFields: lists the resolutions in first-seen key order, not the source's enumeration order of `duplicates`.
- `generatePackageXml` computes `requiredTypes` and never uses it, so the model omits that value.
- The metadata readers are proved to read back documents in a fixed layout. That layout is one element per record, one field per line, and names and values without `<` or line breaks. Other layouts of the same XML are not covered.
- MetadataExtractor.ProfileRoundTrip: covers only field values without line breaks, because the source's `.`-based scans do not match across lines.
- The members below model the corrected behaviour named under Findings, and the as-written behaviour is kept beside them for the finding lemmas.
- ConfigValidation.ValidateObject: a date-filter error clears `isValid`. As written (validation.js:97-110) the date errors are appended but the object stays valid; `ObjectOutcome` with `datesInvalidate` false and `DateErrorsDropped` state that.
- ConfigValidation.AddDateErrors: clears `isValid` on a date error, the corrected behaviour of validation.js:97-110.
- ConfigValidation.AddDateFilterErrors: clears `isValid` when the filter fails, the corrected behaviour of validation.js:98-103.
- ConfigValidation.ValidateObjects: aggregates the corrected per-object outcomes, so an object whose only errors are date errors is reported invalid with them.
- ConfigValidation.ValidateConfig: runs over the corrected per-object outcomes.
- SaveValidations.ValidateObjectConfiguration: uses the intended object-name pattern and key-type list. `Outcome` with `asWritten` true, and `Types` with `asWritten` true, give the run as written.
- DuplicateResolution.RemoveDuplicatesSpec: states the corrected, preview-free filter (`KeepFilter`). As written, the log preview at duplicate_resolver.py:177-191 raises on a matching record whose `SBQQ__AdvancedCondition__c` is null or not a string, and the outer handler restores the backup and re-raises. `PreviewCrash` and `AsWrittenAgrees` relate the two.
- DuplicateResolution.ApplyOneSpec: a resolution whose preview would raise in the source, and be reported as failed, is applied by the model.
- DuplicateResolution.Resolver.RemoveDuplicateRecords: runs the corrected filter (`FilterLines` without previews), so it rewrites the file where the source raises and restores the backup.
- DuplicateResolution.Resolver.ApplySingleResolution: inherits the corrected filter, so a resolution the source reports as failed is reported as applied.
- DuplicateResolution.Resolver.ApplyResolutions: the per-resolution outcomes come from the corrected filter.
- GraphqlCursor.EscapeForCliSpec: states the corrected shell escaping of `EscapeForCli` (backslash, double quote, dollar and backquote escaped off Windows). graphqlRunner.js:18 escapes only double quotes; `EscapeForCliAsWrittenSpec` and `ShellReadsAsWrittenWrongly` state what that escaping does.
- GraphqlCursor.Command: builds the command line from the corrected escaping, so its read-back does not hold for the source when the query holds a backslash, a dollar or a backquote.
- GraphqlCursor.InjectAt: inserts the cursor literally. The source passes it inside the replacement string of `String.replace` (graphqlRunner.js:38-41), where `$$`, `$&`, `` $` ``, `$'` and `$1` are expanded, so a cursor holding one of those is rewritten by the source; the model does not capture that rewriting.
- GraphqlCursor.InjectedCursorReadsBack: holds for literal insertion only; a cursor holding a `$` replacement pattern does not read back in the source.
- Common.Value: a value is null, a string, an integer or a boolean. A JSON number with a fraction or an exponent (`1.5`) and a nested array or object inside a record (such as `attributes`) are not represented, nor are the comparisons and text renderings the source applies to them.
- Common.IsSpace: knows space, tab, line feed and carriage return only, where JavaScript `trim()` and Python `strip()` also remove the other Unicode whitespace; `IsBlank` inherits this.
- Common.Lower: folds ASCII letters only, where `toLowerCase` and `lower()` fold every cased letter.
- Common.LessEq: orders strings by code point, where JavaScript's default `sort` compares UTF-16 code units; the two differ only for characters outside the Basic Multilingual Plane.
- MetadataDefinitions.OptionAvailableIff: looks names up in the definition table only. The source's object lookups also find names inherited from `Object.prototype` (such as `constructor`): as an option name such a name reads as available, and as a permission type its option lookup throws.
- NonCommonMetadata.AddOrg: treats every item name alike. In the source an item named after an `Object.prototype` member (such as `constructor`) makes `push` throw, and the catch skips the rest of that org's items; integer-like item names are also listed first in the summary.
- NonCommonMetadata.Summarize: keeps items in first-seen order, where the source's summary object lists integer-like names first.
- PackageXml.AddOptionItems: an entry of `selectedPermissionOptions` whose value is null makes `options.objectPermissions` throw in the source (extractor.js:472); the model's option entries are always sets of flags, so that error is not represented.
- PermissionsComparison.EntryNamesSpec: entries without a string name are skipped. In the source an entry without the name field raises a `KeyError`, and a name that is not a string is collected as it is, so a mix of such names with strings makes `sorted` raise a `TypeError`.
- PermissionsComparison.PerOrgAt: a found entry without its value field (`enabled`, `visibility`) reads as null, where the source's `entry['enabled']` raises a `KeyError`. The parser of the same file always writes those fields.
- SaveValidations.Outcome: `fields` is either absent or a list; a `fields` value of another type (a string or an object) is not represented. The `checks` flags, the `fieldResults` and the `orgResults` the source records beside each check's result are left out.
- UI components, HTTP routes other than the two helpers, process spawning, workers, SQLite and the other near-duplicate copies of the modelled files are not part of this model.

## Findings

| source | as written | input that shows it | evidently intended | confidence | as-written member | corrected member |
|---|---|---|---|---|---|---|
| cpq-toolset/apps/data-comparison/js/validation.js:97-110 | date-filter errors are appended to an object's errors without clearing `isValid`, and `validateConfig` copies errors only from invalid objects | an object `{foreignKey: "Id", LastModifiedBetween: ["2024-01-01"]}` | the configuration is invalid and reports the date error | not executed | ConfigValidation.DateErrorsDropped | ConfigValidation.CorrectedReportsEveryError |
| dist/runtime/apps/data-comparison/components/modules/validationHandler/saveValidations.js:365-368 | the object-name pattern `^[a-zA-Z][a-zA-Z0-9_]*__?[c]?$` needs an underscore before the end | the object name `Account` | standard objects and `__c` custom objects both pass | not executed | SaveValidations.StandardObjectsRejectedAsWritten | SaveValidations.ObjectPatternSpec |
| dist/runtime/apps/data-comparison/components/modules/validationHandler/saveValidations.js:319-322 | the lower-cased key type is looked up in a list holding `externalId` | a key field of type `externalId` | an `externalId` key is a suitable type | not executed | SaveValidations.ExternalIdRejectedAsWritten | SaveValidations.KeyTypeSuitableSpec |
| shared/utils/graphqlRunner.js:18 | only double quotes are backslash-escaped for the shell | a query holding a backslash before a quote, as the cursor injection writes for a cursor containing a quote | the shell reads back the query unchanged | not executed | GraphqlCursor.ShellReadsAsWrittenWrongly | GraphqlCursor.ShellReadsEscape |
| runtime/apps/data-comparison/python/duplicate_resolver.py:177-191 | the log preview slices `record.get('SBQQ__AdvancedCondition__c', 'N/A')[:50]` | a matching record whose `SBQQ__AdvancedCondition__c` is JSON null | a null condition does not abort the rewrite | not executed | DuplicateResolution.PreviewCrash | DuplicateResolution.KeepFilterSpec |
| apps/data-comparison/worker/duplicateResolver.js:373-379 | a counter is bumped only when it is already truthy, and every counter starts at 0 | one resolution with action `blacklist` | the counts of blacklist and keep resolutions | not executed | DuplicateStrategy.TallyAsWrittenAllOther | DuplicateStrategy.TallySpec |
