# SQL-analisys advisory core in Dafny

This project models the advisory logic of SQL-analisys, a PostgreSQL tuning helper, and proves
properties of it. Each piece of that logic takes data already fetched from the server and returns
ordered recommendations. The data is an `EXPLAIN (FORMAT JSON)` plan tree, catalog rows or
statistics rows. The model covers:

- the plan-metrics extractor (`extract_metrics`). It annotates every plan node with its CPU, I/O
  and memory estimates and fires five node-level heuristics in a fixed order;
- the lock-level classifier (`detect_lock_level` with its `LOCK_LEVELS` table). It normalises case
  and whitespace, then matches an ordered list of statement prefixes;
- the statement-statistics loops of `full_pg_analysis`: the hot-statement, low hit-rate and N+1
  rules, over rows the caller supplies;
- the index advisor:
  - `extract_columns_from_filter`, a hand-written scanner equivalent to its regular expression;
  - the pre-order `walk` of `recommend_indexes`, with its per-call memo of existing indexes;
  - the drop suggestions that follow the walk;
  - `detect_n_plus_one`;
- the server health checks of `rec_db.py`:
  - settings thresholds and the shared_buffers unit conversion;
  - autovacuum ratios and age per table;
  - partitioning candidates by size;
  - bloat per table;
  - index usage.

The server appears only as data:
- a plan is a `Plans.Plan` value;
- the catalog lookup of a relation's indexes is a function parameter (`IndexAdvisor.Catalog`);
- the planner that may fail is a function parameter returning a `Result` (`QueryStats.Explainer`);
- cursor results are sequences of row datatypes;
- the current time is a `real` parameter, in seconds.

Numbers that Python holds as floats are `real`. Rounding is display only, so every figure is the
exact value before `round`.

Layout, one module per file:

| file | module | models |
|---|---|---|
| common.dfy | Common | Option, Result, and generic sequence helpers: Filter, Map, ConcatMap, stage ordering, a chain of checks that may fail |
| text.dfy | Text | the Python `str` operations the core uses: `isspace`, ASCII `upper`/`lower`, `strip`, `split`/`join`, `startswith`/`endswith`/`in`, `int()` |
| plans.dfy | Plans | the plan tree and its pre-order node list |
| plan_metrics.dfy | PlanMetrics | `extract_metrics` |
| lock_levels.dfy | LockLevels | `LOCK_LEVELS`, `detect_lock_level` |
| query_stats.dfy | QueryStats | the loops of `full_pg_analysis` |
| filter_columns.dfy | FilterColumns | `extract_columns_from_filter` |
| index_advisor.dfy | IndexAdvisor | `recommend_indexes` and its `walk`, `detect_n_plus_one` |
| db_health.dfy | DbHealth | `analyze_pg_settings`, `analyze_autovacuum`, `analyze_table_structure`, `analyze_table_bloat`, `analyze_index_usage` |

Form of each part:
- Pure code is functions and lemmas: `extract_metrics`, `detect_lock_level` and the regular
  expression.
- Code that updates state step by step is methods with loops, each proved equal to a
  specification function whose properties are lemmas. This covers:
  - the loops of `full_pg_analysis`;
  - the walk with its `seen_tables` memo;
  - the drop loop;
  - `detect_n_plus_one`;
  - every `analyze_*` function.
- The walk's memo is a `map` that the recursive `Walk` methods thread through. A ghost log of the
  relations looked up shows that the catalog is consulted at most once per relation.

## Model

| member | source | states |
|---|---|---|
| Plans.Preorder | rec_query.py:49-106 | the walk's visiting order: the node first, then its sub-plans in input order |
| PlanMetrics.ExtractMetrics | info_about_query.py:15-56 | annotates the plan tree node by node: absent figures read as 0, the root on the caller's tuple cost and every sub-plan on the default; its shape and figures are stated by ExtractMetricsMirrorsPlan and ExtractMetricsFigures |
| PlanMetrics.ExtractMetricsMirrorsPlan | info_about_query.py:42-55 | the annotated tree mirrors the plan all the way down: same node types, same number of children, same order |
| PlanMetrics.ExtractMetricsFigures | info_about_query.py:15-42 | at every node: cost and total estimate are the "Total Cost" (0 when absent); the CPU share is rows times the tuple cost; the I/O share is never negative and is `max(cost - cpu, 0)`; the memory estimate times 1 MiB is rows times width; the recommendations are NodeAdvice of the node's own figures. The root uses the caller's tuple cost, every other node the default 0.01 |
| PlanMetrics.ChildrenIgnoreCallerTupleCost | info_about_query.py:42 | the children and the node's recommendations do not depend on the caller's tuple cost |
| PlanMetrics.NodeAdvice | info_about_query.py:27-40 | the recommendations of one node: the five checks' contributions concatenated in evaluation order; NodeAdviceFiresExactly and NodeAdviceInOrder state which rules appear and in what order |
| PlanMetrics.FullScanCheck | info_about_query.py:30-31 | one full-scan recommendation carrying the row count, or none; FullScanCheckFires states when |
| PlanMetrics.ParallelCheck | info_about_query.py:32-33 | one parallel-plan recommendation, or none; ParallelCheckFires states when |
| PlanMetrics.WorkMemCheck | info_about_query.py:34-36 | one work_mem recommendation carrying the node type, the MiB figure and int(2 * MiB), or none; WorkMemCheckFires states when |
| PlanMetrics.NestedLoopCheck | info_about_query.py:37-38 | one nested-loop recommendation, or none; NestedLoopCheckFires states when |
| PlanMetrics.PartitionCheck | info_about_query.py:39-40 | one partitioning recommendation carrying the cost, or none; PartitionCheckFires states when |
| PlanMetrics.RulesOf | info_about_query.py:27-40 | one rule per recommendation, in list order |
| PlanMetrics.RulesOfAppend | info_about_query.py:27-40 | the rules of two lists one after the other are those of each list in turn |
| PlanMetrics.AppendInOrder | info_about_query.py:27-40 | appending at most one recommendation of a later rule keeps the list in evaluation order |
| PlanMetrics.NodeAdviceInOrder | info_about_query.py:27-40 | a node's recommendations follow evaluation order strictly, one per rule at most, so there are at most five |
| PlanMetrics.FullScanCheckFires | info_about_query.py:30-31 | the full-scan check contributes its rule exactly when the node type ends with "Seq Scan" and rows exceed 100000 |
| PlanMetrics.ParallelCheckFires | info_about_query.py:32-33 | the parallel check contributes its rule exactly when "Parallel" occurs in the node type |
| PlanMetrics.WorkMemCheckFires | info_about_query.py:34-36 | the work_mem check contributes its rule exactly for Hash or Sort nodes over 10 MiB |
| PlanMetrics.NestedLoopCheckFires | info_about_query.py:37-38 | the nested-loop check contributes its rule exactly for a Nested Loop of more than 50000 rows |
| PlanMetrics.PartitionCheckFires | info_about_query.py:39-40 | the partitioning check contributes its rule exactly for cost above 100000 on "Seq Scan" or "Bitmap Heap Scan" |
| PlanMetrics.NodeAdviceRules | info_about_query.py:27-40 | the rules of a node's recommendations are those of the five checks, concatenated in evaluation order |
| PlanMetrics.FiveRules | info_about_query.py:27-40 | five checks that each add their own rule under their own condition contain a rule exactly when its condition holds |
| PlanMetrics.NodeAdviceFiresExactly | info_about_query.py:30-40 | for every rule: the rule is among a node's recommendations exactly when its condition holds |
| PlanMetrics.ParallelSeqScanGetsBoth | info_about_query.py:30-33 | a "Parallel Seq Scan" of more than 100000 rows gets exactly the full-scan and the parallel recommendation, in that order |
| PlanMetrics.SeqScanOfManyRowsGetsOne | info_about_query.py:30-40 | a "Seq Scan" of 150000 rows with cost at most 100000 gets exactly one full-scan recommendation |
| PlanMetrics.HashOf19MiBSuggests38 | info_about_query.py:34-36 | a Hash node of 2000000 rows of width 10 gets exactly one work_mem recommendation, suggesting int(2 * MB) = 38 |
| Text.UpperChar | info_about_query.py:127 | upper-casing one character keeps whitespace as whitespace and leaves no lower-case ASCII letter |
| Text.LowerChar | rec_db.py:64 | lower-casing one character keeps whitespace as whitespace and leaves no upper-case ASCII letter |
| Text.Upper | info_about_query.py:127 | upper-casing keeps the length |
| Text.Lower | rec_db.py:64 | lower-casing keeps the length |
| Text.UpperOfLower | info_about_query.py:127 | upper-casing a lower-cased text gives the upper-cased text |
| Text.UpperAppend | info_about_query.py:127 | upper-casing distributes over concatenation |
| Text.UpperOfSpaces | info_about_query.py:127 | upper-casing leaves whitespace unchanged |
| Text.TrimLeft | info_about_query.py:127 | the result is empty or starts with a non-space, and is no longer than the input |
| Text.TrimRight | info_about_query.py:127 | the result is a prefix of the input, empty or ending with a non-space |
| Text.TrimLeftDropsSpaces | info_about_query.py:127 | `lstrip` leaves a suffix of the input and what it removes is all whitespace |
| Text.TrimRightDropsSpaces | info_about_query.py:127 | what `rstrip` removes from the end is all whitespace |
| Text.Strip | info_about_query.py:127 | the result is empty or has a non-space at both ends |
| Text.WordLen | info_about_query.py:127 | the first word's length: no space before it, a space right after it unless the text ends |
| Text.Words | info_about_query.py:127 | `str.split()` without a separator: the maximal runs of non-whitespace characters, in order |
| Text.WordsAreWords | info_about_query.py:127 | every word that `split()` returns is non-empty and holds no whitespace |
| Text.Join | info_about_query.py:127 | `" ".join(words)`: the words with the separator between each two |
| Text.WordLenBeforeSpace | info_about_query.py:127 | a word ends where whitespace begins |
| Text.WordsSkipSpaces | info_about_query.py:127 | leading whitespace does not change the words |
| Text.WordsAroundSpace | info_about_query.py:127 | a nonempty run of whitespace separates words: the words of `a + w + b` are those of `a` then those of `b` |
| Text.WordsOfPadded | info_about_query.py:127 | whitespace at either end does not change the words |
| Text.UpperAround | info_about_query.py:127 | upper-casing leaves a whitespace run in the middle in place |
| Text.UpperPadded | info_about_query.py:127 | upper-casing leaves whitespace padding in place |
| Text.StartsWithFirstChar | info_about_query.py:128-147 | a text cannot start with two prefixes whose first characters differ |
| Text.PrefixChars | info_about_query.py:128-147 | a text that starts with a prefix of two or more characters has that prefix's first two characters |
| Text.WordsOfTrimLeft | info_about_query.py:127 | stripping the left end does not change the words |
| Text.WordsOfTrimRight | info_about_query.py:127 | stripping the right end does not change the words |
| Text.WordsOfStrip | info_about_query.py:127 | stripping does not change the words |
| Text.TrimLeftUpper | info_about_query.py:127 | left stripping and upper-casing commute |
| Text.TrimRightUpper | info_about_query.py:127 | right stripping and upper-casing commute |
| Text.StripUpper | info_about_query.py:127 | stripping and upper-casing commute |
| Text.ParseInt | rec_db.py:27 | `int(setting)` on a decimal string: whitespace around it ignored, one optional sign, at least one digit, anything else an error; ParseDigits, ParseNegatedDigits and ParseIntString state what it reads |
| Text.DigitChar | rec_db.py:27 | the decimal digit of a value below ten is a digit for that value |
| Text.DecimalString | rec_db.py:27 | the decimal text of a natural number is nonempty and all digits |
| Text.DigitsValueOfDecimal | rec_db.py:27 | reading the decimal text of `n` gives `n` back |
| Text.StripUnpadded | rec_db.py:27 | a text with no whitespace at either end is its own strip |
| Text.DigitIsNotSpace | rec_db.py:27 | no digit is whitespace |
| Text.ParseDigits | rec_db.py:27 | `int()` of a nonempty digit string is its decimal value |
| Text.ParseNegatedDigits | rec_db.py:27 | `int()` of a minus sign followed by digits is the negated value |
| Text.ParseIntString | rec_db.py:27-53 | `int()` of the decimal text of any integer gives that integer back |
| LockLevels.LevelFor | info_about_query.py:128-148 | the ordered prefix tests on the normalised statement, the first that holds deciding; LevelForKeyword states the level each keyword gets |
| LockLevels.KeywordsExclude | info_about_query.py:128-147 | apart from the two CREATE INDEX prefixes, no normalised statement starts with two of the recognised keywords at once |
| LockLevels.LevelForKeyword | info_about_query.py:128-147 | SELECT … FOR UPDATE gives ROW EXCLUSIVE and any other SELECT ACCESS SHARE; INSERT, UPDATE and DELETE give ROW EXCLUSIVE; CREATE INDEX CONCURRENTLY gives SHARE UPDATE EXCLUSIVE; any other CREATE INDEX, ALTER, DROP and TRUNCATE give ACCESS EXCLUSIVE |
| LockLevels.DetectLockLevel | info_about_query.py:87-148 | the answer is always the key and risk marker of some entry of the table |
| LockLevels.ConcurrentlyStartsCreateIndex | info_about_query.py:138-141 | "CREATE INDEX CONCURRENTLY" also starts with "CREATE INDEX", so the order of the two tests matters |
| LockLevels.UnknownIffNoKeyword | info_about_query.py:128-148 | the fallback UNKNOWN is chosen exactly when the statement starts with none of the keywords |
| LockLevels.UndeterminedOnlyForUnknown | info_about_query.py:120-123 | the undetermined risk marker is reported exactly for the fallback level |
| LockLevels.SpecificPrefixWins | info_about_query.py:128-141 | "CREATE INDEX CONCURRENTLY" gives SHARE UPDATE EXCLUSIVE although it also starts with "CREATE INDEX"; "SELECT … FOR UPDATE" gives ROW EXCLUSIVE |
| LockLevels.Normalize | info_about_query.py:127 | the statement stripped, upper-cased, split on whitespace and re-joined by single spaces; its case, spacing and padding invariances are the lemmas below |
| LockLevels.NormalizeUpper | info_about_query.py:127 | stripping before upper-casing changes nothing about the normalised form |
| LockLevels.NormalizeIgnoresCase | info_about_query.py:127 | statements that differ only in letter case have the same normalised form |
| LockLevels.LockLevelIgnoresCase | info_about_query.py:127 | statements that differ only in letter case get the same answer |
| LockLevels.LockLevelOfLowerCase | info_about_query.py:127 | a lower-cased statement gets the same answer as the statement |
| LockLevels.NormalizeIgnoresSpacing | info_about_query.py:127 | any nonempty whitespace run normalises like a single space |
| LockLevels.LockLevelIgnoresSpacing | info_about_query.py:127 | any nonempty whitespace run gets the same answer as a single space |
| LockLevels.NormalizeIgnoresPadding | info_about_query.py:127 | whitespace at either end does not change the normalised form |
| LockLevels.LockLevelIgnoresPadding | info_about_query.py:127 | whitespace at either end does not change the answer |
| QueryStats.StatementAdvice | info_about_query.py:187-191 | at most two pieces of advice: the hot-statement one exactly when calls exceed the threshold and the mean time exceeds 50 ms; the low hit-rate one exactly when more blocks were read than hit; the hot one first |
| QueryStats.PlanOf | info_about_query.py:182-185 | the analysed plan of the statement on the default tuple cost, or the message of the error the planner raised |
| QueryStats.Detail | info_about_query.py:193-203 | one report entry: the stripped statement, the figures as read, StatementAdvice of the row and PlanOf the unstripped statement |
| QueryStats.Details | info_about_query.py:181-203 | one report entry per expensive row |
| QueryStats.DetailsPerRow | info_about_query.py:181-203 | entry `i` is built from row `i`: stripped text, the figures as read, the advice and the plan or the planner's error |
| QueryStats.SuspectOf | info_about_query.py:219-228 | one suspect entry: the stripped statement, calls, mean time and rows per call |
| QueryStats.Suspects | info_about_query.py:217-228 | the suspect entries of the flagged rows, in input order; SuspectsExactly and SuspectsKeepOrder state which and in what order |
| QueryStats.SuspectRowsExactly | info_about_query.py:217-218 | a row is kept exactly when it occurs in the listing and calls > threshold, mean < limit and rows <= limit |
| QueryStats.SuspectsKeepOrder | info_about_query.py:217-228 | the suspects of two listings one after the other are those of the first, then those of the second |
| QueryStats.SuspectsExactly | info_about_query.py:217-228 | a suspect is reported exactly when some flagged row yields it; there are never more suspects than rows |
| QueryStats.SuspectRowsOfOne | info_about_query.py:217-218 | a single row is kept exactly when the rule flags it |
| QueryStats.FastFrequentCallsAreSuspect | info_about_query.py:217-218 | with the defaults 1000/10/10, 5000 calls at 2 ms returning 1 row is a suspect, and the same row at 200 ms is not |
| QueryStats.CollectSuspects | info_about_query.py:217-228 | the N+1 loop returns exactly the suspects of the listing, in input order |
| QueryStats.FullPgAnalysis | info_about_query.py:181-230 | the report holds the detailed entries of the expensive rows and the N+1 suspects of the frequent rows |
| QueryStats.AnalyzeStatement | info_about_query.py:182-203 | the loop body builds the report entry of its row |
| FilterColumns.IdentEnd | rec_query.py:38 | the longest run of identifier characters from a position: all identifier characters, followed by a non-identifier or the end |
| FilterColumns.SkipSpaces | rec_query.py:38 | `\s*` taken greedily: only whitespace skipped, a non-space or the end after it |
| FilterColumns.OperatorLen | rec_query.py:38 | a positive operator length fits within the text |
| FilterColumns.TryEnds | rec_query.py:38 | a chosen identifier end lies within the run and is followed by an operator |
| FilterColumns.MatchAt | rec_query.py:38 | a match ends after its start, within the text |
| FilterColumns.Findall | rec_query.py:38 | every captured column is the group of a comparison at some position of the text |
| FilterColumns.ExtractColumns | rec_query.py:33-39 | no columns for a missing or empty filter; otherwise every column is an identifier at a word boundary followed by whitespace and one of `= > < >= <= LIKE ILIKE`; a set, so no duplicates |
| FilterColumns.FindallEmptyIffNoComparison | rec_query.py:38 | the scan from a position finds nothing exactly when no comparison starts at or after it |
| FilterColumns.FindallCapturesLeftmost | rec_query.py:38 | the leftmost comparison from a position on is captured first: the first column is a comparison at the same place, at least as long as any there |
| FilterColumns.ExtractColumnsEmptyIffNoComparison | rec_query.py:33-39 | a filter yields no column exactly when no comparison occurs anywhere in it |
| FilterColumns.ExtractColumnsLeftmost | rec_query.py:33-39 | a filter with a comparison yields a column that is a comparison where the first comparison starts, at least as long as it |
| FilterColumns.OperatorLenExactly | rec_query.py:38 | the operator length is positive exactly when one of the seven operators occurs there |
| FilterColumns.OperatorAfterExactly | rec_query.py:38 | the scanner finds an operator after position `k` exactly when whitespace then an operator follows `k` |
| FilterColumns.OperatorAfterFollows | rec_query.py:38 | an operator found by the scanner is one the pattern allows |
| FilterColumns.OperatorOnlyAfterSpaces | rec_query.py:38 | backtracking into `\s*` never helps: an operator after any part of the whitespace run is found after all of it |
| FilterColumns.TryEndsExactly | rec_query.py:38 | the backtracking takes the longest identifier end followed by an operator, and fails exactly when there is none |
| FilterColumns.IdentifierAtExactly | rec_query.py:38 | an identifier occurs at a position exactly when it starts with an identifier start and ends within the identifier run |
| FilterColumns.MatchIsComparison | rec_query.py:38 | what the pattern captures at a position is a comparison there, and the longest one |
| FilterColumns.MatchedComparison | rec_query.py:38 | the identifier up to the chosen end is a comparison |
| FilterColumns.NoLongerComparison | rec_query.py:38 | no comparison at the position is longer than the captured one |
| FilterColumns.NoMatchNoComparison | rec_query.py:38 | the pattern fails at a position exactly when no comparison starts there |
| FilterColumns.LikeExampleIdentRun | rec_query.py:38 | in `aLIKE 'x'` the identifier run from the start ends before the space |
| FilterColumns.LikeExampleOperators | rec_query.py:38 | in `aLIKE 'x'` only the end right after `a` is followed by an operator |
| FilterColumns.LikeExampleBacktracks | rec_query.py:38 | in `aLIKE 'x'` the backtracking gives back `LIKE` and ends the identifier after `a` |
| FilterColumns.LikeExampleFirstMatch | rec_query.py:38 | in `aLIKE 'x'` the first match captures `a` and ends after `LIKE` |
| FilterColumns.LikeExampleOperatorLen | rec_query.py:38 | in `aLIKE 'x'` the operator right after `a` is `LIKE`, with no whitespace before it |
| FilterColumns.MatchAtChosenEnd | rec_query.py:38 | where an identifier starts at a word boundary and the backtracking chooses an end, the match captures up to that end and resumes after the operator |
| FilterColumns.LikeExampleRest | rec_query.py:38 | nothing matches in the rest of `aLIKE 'x'` |
| FilterColumns.FindallAtMatch | rec_query.py:38 | where the pattern matches, the scan records the column and resumes after the match |
| FilterColumns.LikeExampleFindall | rec_query.py:38 | the scan of `aLIKE 'x'` captures exactly `a` |
| FilterColumns.LikeRightAfterIdentifier | rec_query.py:33-39 | the columns of `aLIKE 'x'` are exactly {`a`} |
| FilterColumns.SetOfOne | rec_query.py:39 | the distinct names of a one-name list are that name |
| IndexAdvisor.DropAdvice | rec_query.py:110-116 | a drop suggestion is low priority, and the figure it reports as the size is the row's fifth column, the scan count |
| IndexAdvisor.DropAll | rec_query.py:110-116 | one drop suggestion per unused index |
| IndexAdvisor.ScanAdvice | rec_query.py:60-78 | the sequential-scan rule of one node; ScanRule states when it adds what |
| IndexAdvisor.JoinAdvice | rec_query.py:81-88 | the nested-loop rule of one node; JoinRule states when it adds what |
| IndexAdvisor.SortAdvice | rec_query.py:91-101 | the sort rule of one node; SortRule states when it adds what |
| IndexAdvisor.NodeAdvice | rec_query.py:59-101 | the three rules of one node, scan, join and sort, in that order |
| IndexAdvisor.AdviceAll | rec_query.py:49-104 | the advice of a list of nodes, node by node; over the pre-order list it is what the walk collects (RecommendIndexes) |
| IndexAdvisor.AdviceAllAppend | rec_query.py:49-104 | the advice of two node lists one after the other is the advice of each in turn |
| IndexAdvisor.RelationsOfAppend | rec_query.py:56-57 | the relations named by two node lists are those named by either |
| IndexAdvisor.MemoKeys | rec_query.py:47-57 | a relation is in the memo exactly when it was looked up |
| IndexAdvisor.ChildrenStep | rec_query.py:103-104 | visiting one more child appends that child's pre-order nodes |
| IndexAdvisor.WalkStep | rec_query.py:103-104 | one more child adds that child's advice and relations |
| IndexAdvisor.PreorderSplit | rec_query.py:49-104 | the advice of a subtree is the node's own advice followed by that of its children in order; its relations are the node's own plus the children's |
| IndexAdvisor.Fetch | rec_query.py:56-57 | the memo gains the node's relation if it has one, with its catalog answer; the log of lookups stays free of duplicates, so no relation is looked up twice |
| IndexAdvisor.Walk | rec_query.py:49-104 | the walk appends the advice of the subtree's nodes in pre-order; the memo then holds every relation the subtree names, each looked up once, with its catalog answer |
| IndexAdvisor.WalkChildren | rec_query.py:103-104 | the loop over the children appends the advice of each child's subtree in order |
| IndexAdvisor.WalkChild | rec_query.py:103-104 | one iteration of the children loop appends one child's subtree advice |
| IndexAdvisor.VisitNode | rec_query.py:59-101 | a node's rules read the memo and give the node's advice |
| IndexAdvisor.RecommendIndexes | rec_query.py:41-118 | the result is the advice of every node in pre-order followed by one drop suggestion per unused index; every relation the plan names is looked up exactly once and no other |
| IndexAdvisor.AppendDropSuggestions | rec_query.py:110-116 | the drop loop appends one drop suggestion per unused index, in catalog order |
| IndexAdvisor.ScanRule | rec_query.py:60-78 | a Seq Scan of a named relation: one high suggestion exactly when the filter yields columns that no existing definition wholly contains, naming the relation, the filter and exactly those columns; one medium one naming the relation exactly when there is no filter; nothing when the filter yields no column; nothing for other nodes |
| IndexAdvisor.JoinRule | rec_query.py:81-88 | a Nested Loop with a join filter gets one medium suggestion exactly when the filter yields columns; the existing indexes are not consulted |
| IndexAdvisor.SortRule | rec_query.py:91-101 | a node with a sort key and a relation gets one low suggestion exactly when no definition contains the key items joined by ", " |
| IndexAdvisor.NodeAdviceInOrder | rec_query.py:59-101 | a node gets at most three suggestions, all index creations, in the order scan, join, sort |
| IndexAdvisor.AdviceAllAdds | rec_query.py:49-104 | the walk only suggests index creations |
| IndexAdvisor.DropsComeLast | rec_query.py:106-118 | the drop suggestions are exactly the last entries, one per unused index |
| IndexAdvisor.DetectNPlusOne | rec_query.py:135-149 | exactly the suspects of the listing in input order: a statement is reported exactly when some row with calls > threshold, mean < limit and rows <= limit yields it |
| DbHealth.ShareOf | rec_db.py:87-89 | the ratio is 0 when the total is not positive, so nothing is divided by zero, and lies between 0 and 1 for counts that are part of the total |
| DbHealth.ParamsOf | rec_db.py:22 | the settings dictionary built row by row; ParamsOfKeys and ParamsOfLastWins state its keys and values |
| DbHealth.ParamsOfKeys | rec_db.py:22 | the settings dictionary has an entry exactly for every name read |
| DbHealth.ParamsOfLastWins | rec_db.py:22 | a name's entry holds the value of its last row |
| DbHealth.BuildParams | rec_db.py:22 | the dictionary loop builds the settings dictionary of the rows |
| DbHealth.SharedBuffersCheck | rec_db.py:24-37 | the shared_buffers block: nothing when the setting is absent, an error when it is not an integer, otherwise the advice of SharedBuffersCheckFires |
| DbHealth.WorkMemCheck | rec_db.py:39-48 | the work_mem block: nothing when absent, an error when not an integer, otherwise the advice of WorkMemCheckFires |
| DbHealth.MaintenanceWorkMemCheck | rec_db.py:50-59 | the maintenance_work_mem block: nothing when absent, an error when not an integer, otherwise the advice of MaintenanceWorkMemCheckFires |
| DbHealth.AutovacuumCheck | rec_db.py:61-69 | the autovacuum block, which cannot fail; AutovacuumCheckFires states when it advises |
| DbHealth.SettingsAdvice | rec_db.py:24-71 | the four blocks in order, the first error ending the analysis; SettingsFailure and SettingsAdviceExactly state its outcome |
| DbHealth.SharedBuffersCheckFailure | rec_db.py:25-27 | the shared_buffers check fails exactly when the setting is present and not an integer, naming shared_buffers |
| DbHealth.WorkMemCheckFailure | rec_db.py:40-42 | the work_mem check fails exactly when the setting is present and not an integer, naming work_mem |
| DbHealth.MaintenanceWorkMemCheckFailure | rec_db.py:51-53 | the maintenance_work_mem check fails exactly when the setting is present and not an integer, naming maintenance_work_mem |
| DbHealth.SharedBuffersCheckFires | rec_db.py:25-37 | a readable shared_buffers gives advice exactly when RAM is given and the buffers, converted from 8 kB pages when the unit says so, are under a quarter of it |
| DbHealth.WorkMemCheckFires | rec_db.py:40-48 | a readable work_mem gives advice exactly when it is under 4096 kB |
| DbHealth.MaintenanceWorkMemCheckFires | rec_db.py:51-59 | a readable maintenance_work_mem gives advice exactly when it is under 65536 kB |
| DbHealth.AutovacuumCheckFires | rec_db.py:62-69 | autovacuum gives advice exactly when its lower-cased value is "off", "false" or "0" |
| DbHealth.SettingsFailure | rec_db.py:24-59 | the analysis fails exactly when one of the three integer settings is present and unreadable, and then it names the first such setting in check order |
| DbHealth.SettingsAdviceExactly | rec_db.py:24-71 | with readable settings: at most four pieces of advice, ordered shared_buffers, work_mem, maintenance_work_mem, autovacuum, each present exactly when its condition holds |
| DbHealth.NoRamNoBufferAdvice | rec_db.py:29 | without a RAM size (absent or 0) there is never shared_buffers advice |
| DbHealth.SharedBuffersInPages | rec_db.py:27-37 | 16384 pages of 8 kB with 1 GiB of RAM is a share of 0.125 and gives exactly one shared_buffers recommendation |
| DbHealth.AnalyzePgSettings | rec_db.py:5-71 | the settings analysis returns the advice, or the failure, of the settings dictionary built from the rows |
| DbHealth.SharedBuffersStep | rec_db.py:24-37 | the shared_buffers block gives the shared_buffers check's outcome: its advice, or the failure naming the setting |
| DbHealth.WorkMemStep | rec_db.py:39-48 | the work_mem block gives the work_mem check's outcome |
| DbHealth.MaintenanceWorkMemStep | rec_db.py:50-59 | the maintenance_work_mem block gives the maintenance_work_mem check's outcome |
| DbHealth.AutovacuumStep | rec_db.py:61-69 | the autovacuum block gives the autovacuum check's advice |
| DbHealth.VacuumAdviceOf | rec_db.py:94-105 | the advice of one table: dead tuples, then autovacuum age, then analyze; VacuumAdviceExactly states when each appears |
| DbHealth.VacuumAdviceExactly | rec_db.py:94-105 | at most three pieces of advice per table, ordered dead tuples, vacuum age, analyze, each present exactly when its threshold is strictly exceeded |
| DbHealth.VacuumEntryOf | rec_db.py:86-116 | an empty table has ratios of 0; the dead-tuple percentage lies between 0 and 100 |
| DbHealth.EmptyTableOnlyAge | rec_db.py:87-105 | a table with no tuples can only get the vacuum-age advice |
| DbHealth.AnalyzeAutovacuum | rec_db.py:86-118 | exactly one entry per table, in order, even when it has no advice |
| DbHealth.PartitionAdviceOf | rec_db.py:130-138 | one suggestion per table over the size threshold, in row order; PartitionAdviceExactly states which |
| DbHealth.PartitionAdviceExactly | rec_db.py:130-138 | a table is named exactly when its size in MB exceeds the threshold; suggestions keep row order |
| DbHealth.AnalyzeTableStructure | rec_db.py:121-139 | the loop returns the partitioning suggestions of the rows |
| DbHealth.BloatEntryOf | rec_db.py:162-178 | at most one recommendation, present exactly when dead / (live + dead) exceeds the threshold; the size in MB; the bloat percentage lies between 0 and 100 |
| DbHealth.AnalyzeTableBloat | rec_db.py:141-180 | exactly one entry per table, in order |
| DbHealth.UsageEntryOf | rec_db.py:203-220 | at most one recommendation: "unused" exactly when the scan count is 0, otherwise "rarely used" exactly when the scan count is under threshold times tuples read; the figures as read |
| DbHealth.AnalyzeIndexUsage | rec_db.py:182-222 | exactly one entry per index, in order |

## Left out

- The psycopg2 connection, cursors and SQL text are not modelled. `analyze_query`, the EXPLAIN call
  of `recommend_indexes`, `get_existing_indexes` and `get_unused_indexes` become oracle parameters
  or input rows. The WHERE, ORDER BY and LIMIT clauses of the statistics queries are the caller's
  business.
- The pg_stat_statements column probe (`total_exec_time` or `total_time`) is not modelled: the rows
  carry the chosen column.
- Printing and message text are not modelled: `pretty_plan`, `print_full_pg_report` and every
  f-string. Each recommendation is a datatype value carrying the figures its message reports.
- `round(...)` and `:.1f` are display only. Every figure is the exact `real` before rounding.
- `health_check` and cli.py are printing and argument glue, so they are not part of this model.
  `health_check` also reads a `'recommendation'` key that the settings analysis never sets.
- `str.upper`, `str.lower` and `\w`/`\b` are modelled on ASCII letters only. Python applies them to
  all of Unicode.
- `int()` accepts optional whitespace, a sign and ASCII digits. Underscores between digits and
  non-ASCII digits are not modelled.
- DbHealth.AnalyzePgSettings collects the advice of each block in its own list and concatenates the
  lists in block order. The source appends to one shared list; the result is the same.
- DbHealth.AnalyzePgSettings: a setting that is not an integer ends the analysis with the name of the
  setting. Python raises a ValueError with a message at that point.
- `extract_metrics`'s `seq_page_cost` parameter is unused in the source and has no counterpart here.
- A plan node without "Node Type" makes `extract_metrics` fail on `None.endswith`. In the model the
  node type is always present.
- `now` is a single parameter for the whole of DbHealth.AnalyzeAutovacuum. The source reads the
  clock again for every row.
- The `or 0` of the live and dead counts is not modelled: the counts are plain integers. With a NULL
  dead count and positive live tuples the source raises a TypeError.
- An exception from EXPLAIN in `recommend_indexes` propagates in the source. The model takes the
  plan as already fetched.
- The generated index names depend on Python's set iteration order. The model keeps the columns as a
  set and does not build the name.
- IndexAdvisor.Walk: the ghost log of lookups is stated to be duplicate-free and to match the memo's
  keys. Its order is not stated.
- IndexAdvisor.DetectNPlusOne runs the same filter loop as `full_pg_analysis`
  (QueryStats.CollectSuspects) rather than a second copy of it. Its default thresholds
  (1000/10/10) are those of QueryStats.DefaultThresholds.
- FilterColumns.Findall does not promise that every comparison in the text is captured, because
  Python's `re.findall` does not either. Matches do not overlap, the scan resumes after each
  operator, and a comparison that starts inside an earlier match is skipped: in `a LIKE= 1` the
  `LIKE=` one is. What is promised is that each capture is a comparison, that a scan without
  captures means no comparison, and that the leftmost comparison is captured.
- The `description` text of each `LOCK_LEVELS` entry is not modelled. `LockInfo` carries the level's
  key and its risk marker only; the description is fixed prose chosen by the key.
- The `unit` and `context` columns of the settings rows are carried. Only the shared_buffers unit is
  read.
