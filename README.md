# Qupid core, modelled in Dafny

Qupid compiles a small SQL-like query language ("select … from … where … group by … having …
unwind … with …") into a MongoDB aggregation command. It runs the command and turns the BSON
documents that come back into a table of columns and rows. This project models the part of Qupid
between the parser and the database, in these stages:

* **The catalog** (`Catalog`). Each collection has properties with a long (C#) name and a short
  (stored) name, possibly nested, plus indices. The model covers converting dotted paths between
  long and short names, `GetProperty`, and the `*` expansion.
* **The syntax tree** (`Ast`, `Query`). Property references are interned by `collection.path`
  and recognise aggregate suffixes. The model covers the comparator, where, having, group-by,
  unwind and with clauses, the property list, and the query. It also covers the Mongo command
  text that `QupidQuery.ToString` builds from them.
* **The error manager** (`Diagnostics`). It is an ordered list of errors and warnings. An
  `AddError` at an already-used position is dropped. A query can run while no error is recorded.
* **The analyzer** (`Analyzer`, `AnalyzerProperties`). It resolves the query's collection. It
  gives every select, where, unwind, group-by and with property its short name, coerces where
  literals, expands `*` entries, and checks index use against the row-count threshold. It
  reports warnings and errors, or stops with an exception.
* **The compiler** (`Compile`). It issues the parser's diagnostics, decides whether to analyze,
  and turns an exception into an error entry.
* **The executor** (`Executor`). It starts from the documents the aggregate command returned. It
  maps them to rows, descending into nested documents and arrays. It renames the group key's
  `_id` column, runs the join plugins, and converts the headers back to long names.
* **A worked test** (`Collapse`, `Scenarios`). The compiler tests compare command texts after
  collapsing runs of white space and trimming. `Collapse` models that normalisation.
  `Scenarios` builds the tests' one-collection catalog and follows `SELECT Foo.* FROM Foo WHERE
  Foo.DateCreated > '2013-04-11'` through the analyzer's promises to the expected command text.

Nullable strings of the source (`AnalyzedName`, `Alias`, `AnalyzedValue`, a column header) are
`Option<string>`. Appending a null string appends nothing. .NET exceptions are `Fault` values: a
method returns the fault instead of throwing it. `NullReference` is a null dereference,
`MoreThanOneMatch` and `NoElements` are LINQ's `SingleOrDefault` and `First` failures, and
`InvalidCast` is `AsBsonDocument` on a value that is not a document. Case-insensitive comparison
lower-cases ASCII letters only.

Two behaviours of the code that the model keeps as written:
* `AddError` with a position (line and character both at least 0) drops the new error when ANY
  recorded entry already holds that position, a warning included. An error without a position is
  always recorded (ErrorManager.cs:16-33).
* Around the database call, `Run` catches only `MongoCommandException`; the caught exception
  becomes one error and the empty result (QueryExecutor.cs:52-67). A null reference or an invalid
  cast while mapping the documents, renaming the group column or converting the headers is not
  caught, so it leaves `Run` as an exception. The model's `Run` returns that fault.

Two details of the code that the contracts make explicit:
* The group-by analysis sets the key's alias and short name BEFORE it checks the aggregate count.
  So a query that fails on "only one COUNT or SUM" still has its key renamed to `_id`
  (QueryAnalyzer.cs:159-166).
* The where analysis stops at the first clause of another collection, or at the first clause
  that does not resolve. Clauses after it keep their old analyzed name and value
  (QueryAnalyzer.cs:218-232).

## Model

| member | source | states |
|---|---|---|
| Text.Split | Qupid/Execution/QueryExecutor.cs:167 | `String.Split('.')` gives at least one piece, and no piece contains the separator |
| Text.SplitJoin | Qupid/Execution/QueryExecutor.cs:184 | re-joining dot-free pieces with "." and splitting again gives the pieces back, so the recursive drill walks the remaining segments |
| Text.JoinSplit | Qupid/Execution/QueryExecutor.cs:184 | splitting a path and joining it with the same separator gives the path back |
| Text.TerminatedIsJoin | Qupid/Mongo/QupidCollection.cs:96-116 | the builder holding `seg.` for every segment is the dotted join plus one trailing dot, which the conversion then removes |
| Text.TerminatedTrim | Qupid/Mongo/QupidCollection.cs:106-115 | removing the builder's last character leaves the joined segments; an empty builder means no segment was converted |
| Text.SplitAppend | Qupid/Mongo/QupidCollection.cs:89 | splitting at a separator between two strings splits each of them separately |
| Catalog.SameCollectionCharwise | Qupid/Mongo/QupidCollection.cs:152-161 | two entries are equal exactly when their databases and names have equal lengths and agree letter by letter once lower-cased; the relation is reflexive, symmetric and transitive |
| Text.EqualsIgnoreCaseCharwise | Qupid/Mongo/QupidCollection.cs:160 | ordinal case-insensitive equality holds exactly for equal lengths and letter-by-letter agreement after lower-casing |
| Catalog.FetchProperty | Qupid/Mongo/QupidCollection.cs:222-226 | FirstOrDefault: the property found has the given long name ignoring case and no earlier property has it; none is found exactly when no property has that name |
| Catalog.FetchPropertyByShortName | Qupid/Mongo/QupidCollection.cs:132 | the same for the short name, first match included, as ConvertToLongPath's lookup does |
| Catalog.ShortPath | Qupid/Mongo/QupidCollection.cs:85-117 | ConvertToShortPath is null exactly when the first segment is not a long name of the top level |
| Catalog.LongPath | Qupid/Mongo/QupidCollection.cs:119-149 | ConvertToLongPath returns its input unchanged when the first segment is not a short name of the top level |
| Catalog.ConvertToShortPath | Qupid/Mongo/QupidCollection.cs:85-117 | the builder loop over the pieces, with its early breaks and the trailing-dot removal, computes ShortPath |
| Catalog.ConvertToLongPath | Qupid/Mongo/QupidCollection.cs:119-149 | the loop computes LongPath, including the fallback to the input |
| Catalog.GetProperty | Qupid/Mongo/QupidCollection.cs:37-60 | the loop returns the property the path walk ends on (PropertyAt) |
| Catalog.GetAllReferencedProperties | Qupid/Mongo/QupidCollection.cs:62-83 | the loop computes Expand: the leaves at a `*`, null for an unknown segment, and a fault when it descends past a leaf |
| Catalog.Leaves | Qupid/Mongo/QupidCollection.cs:70 | the expanded properties are exactly those without sub-properties |
| Catalog.LongToShortOf | Qupid/Mongo/QupidCollection.cs:31-32 | every property's long name is a key of the long-to-short dictionary |
| Catalog.ShortToLongOf | Qupid/Mongo/QupidCollection.cs:31-32 | every property's short name is a key of the short-to-long dictionary |
| Catalog.LongKey | Qupid/Mongo/QupidCollection.cs:31-32 | on a level with distinct names, a long-name key belongs to one property, and both dictionaries and both lookups agree on it |
| Catalog.ShortKey | Qupid/Mongo/QupidCollection.cs:31-32 | the same for a short-name key |
| Catalog.ShortWalkStep | Qupid/Mongo/QupidCollection.cs:92-104 | one turn of ConvertToShortPath's loop keeps the segments built so far a prefix of the whole walk |
| Catalog.LongWalkStep | Qupid/Mongo/QupidCollection.cs:127-139 | one turn of ConvertToLongPath's loop keeps the segments built so far a prefix of the whole walk |
| Catalog.LongShortWalk | Qupid/Mongo/QupidCollection.cs:85-149 | on a well-formed catalog, walking a resolvable long path to short names and back gives the same segments |
| Catalog.ShortLongWalk | Qupid/Mongo/QupidCollection.cs:85-149 | walking a resolvable short path to long names and back gives the same segments |
| Catalog.LongShortRoundTrip | Qupid/Mongo/QupidCollection.cs:85-149 | ConvertToLongPath(ConvertToShortPath(p)) == p for every resolvable long path p |
| Catalog.ShortLongRoundTrip | Qupid/Mongo/QupidCollection.cs:85-149 | ConvertToShortPath(ConvertToLongPath(s)) == s for every resolvable short path s |
| Catalog.ShortWalkPrefix | Qupid/Mongo/QupidCollection.cs:92-104 | converting a longer path extends the conversion of its prefix |
| Catalog.ShortWalkStops | Qupid/Mongo/QupidCollection.cs:95 | a segment unknown at the level reached ends the conversion there |
| Catalog.UnknownSuffixIgnored | Qupid/Mongo/QupidCollection.cs:85-117 | an unknown last segment, such as the `SUM` of `Donations.TotalAmount.SUM`, is dropped and the rest still converts |
| Catalog.PropertyWalkMatchesShortWalk | Qupid/Mongo/QupidCollection.cs:37-60 | the property GetProperty ends on is the one whose short name the conversion appends last |
| Catalog.PropertyAtAgreesWithShortPath | Qupid/Mongo/QupidCollection.cs:37-117 | on a well-formed catalog GetProperty finds a property exactly when ConvertToShortPath converts |
| Catalog.ExpandStar | Qupid/Mongo/QupidCollection.cs:62-71 | expanding `*` gives the top level's leaf properties, in list order |
| Catalog.ExpandNeedsStar | Qupid/Mongo/QupidCollection.cs:80-82 | a path without a `*` segment never yields a property list |
| Diagnostics.AnyWithSeverity | Qupid/AST/QupidQuery.cs:40-48 | `Any(e => e.Severity == s)` is true exactly when some entry has severity s |
| Diagnostics.ErrorManager.constructor | Qupid/ErrorManager.cs:9 | a new manager holds no entries |
| Diagnostics.ErrorManager.Add | Qupid/ErrorManager.cs:11-14 | appends the entry at the end |
| Diagnostics.ErrorManager.AddError | Qupid/ErrorManager.cs:16-33 | appends an error unless its position is given and already held by some entry |
| Diagnostics.ErrorManager.AddWarning | Qupid/ErrorManager.cs:35-44 | always appends a warning |
| Diagnostics.ErrorManager.Issue | Qupid/ErrorManager.cs:16-44 | issues one report through AddError or AddWarning |
| Diagnostics.ErrorManager.IssueAll | Qupid/ErrorManager.cs:16-44 | issues the reports in order; the list is Apply of the old list and the reports |
| Diagnostics.ErrorManager.CanExecute | Qupid/ErrorManager.cs:50-53 | true exactly when no entry has Error severity |
| Diagnostics.ErrorManager.HasAnyIssues | Qupid/ErrorManager.cs:55-58 | true exactly when some entry is an error or a warning |
| Diagnostics.ErrorManager.GetErrors | Qupid/ErrorManager.cs:60-63 | a copy holding the entries in insertion order |
| Diagnostics.WarningAlwaysAppended | Qupid/ErrorManager.cs:35-44 | AddWarning always adds exactly one entry: the warning with the given text and position |
| Diagnostics.ErrorDroppedIffPositionTaken | Qupid/ErrorManager.cs:16-33 | AddError leaves the list unchanged exactly when the position is given and taken, and otherwise appends exactly that error |
| Diagnostics.UnpositionedErrorAppended | Qupid/ErrorManager.cs:19-23 | an error without a position is never dropped |
| Diagnostics.ApplyExtends | Qupid/ErrorManager.cs:11-44 | reports only ever append: the old list is a prefix of the new one, longer by at most one entry per report |
| Diagnostics.ApplyConcat | Qupid/ErrorManager.cs:11-44 | issuing reports in two batches is the same as issuing them all at once |
| Diagnostics.ErrorBlocksForever | Qupid/ErrorManager.cs:50-53 | once an error is recorded, no later report makes the query executable again |
| Diagnostics.WarningsNeverBlock | Qupid/ErrorManager.cs:35-53 | warnings never change whether the query can execute |
| Diagnostics.OnlyFirstFailureKept | Qupid/Compile/QueryAnalyzer.cs:289-292 | every analyzer failure is reported at (0, 0), so once an entry is there, later failures are dropped |
| Diagnostics.CanExecuteIffNoErrors | Qupid/AST/QupidQuery.cs:40-43 | CanExecute is the negation of HasErrors |
| Ast.Classify | Qupid/AST/PropertyReference.cs:27-45 | a path is a COUNT, SUM or AVG aggregate exactly when it ends with that suffix (ordinal, tried in that order) |
| Ast.PropertyReference.constructor | Qupid/AST/PropertyReference.cs:20-46 | keeps the collection, path and position, classifies the aggregate and sets the `col_count`/`_sum`/`_avg` alias |
| Ast.PropertyReference.ToString | Qupid/AST/PropertyReference.cs:61-64 | prints the interning key `collection.path` |
| Ast.ReferenceTable.constructor | Qupid/AST/PropertyReference.cs:8 | the table of known references starts empty |
| Ast.ReferenceTable.GetReference | Qupid/AST/PropertyReference.cs:48-59 | returns the reference already filed under `col.path`, else files and returns a new one built by the constructor, holding `col` and `path`; with dot-free collections the returned reference always holds `col` and `path` |
| Ast.KeyDeterminesReference | Qupid/AST/PropertyReference.cs:50 | for dot-free collection names, the key `col.path` determines both the collection and the path |
| Ast.AggregateAliasesDistinct | Qupid/AST/PropertyReference.cs:27-45 | aggregates of different kinds on one collection get different aliases |
| Ast.AggregateSuffixes | Qupid/AST/PropertyReference.cs:27-45 | appending `.COUNT`, `.SUM` or `.AVG` to any path selects that aggregate |
| Ast.PropertyList.constructor | Qupid/AST/PropertyList.cs:10-13 | a new list is empty |
| Ast.PropertyList.Add | Qupid/AST/PropertyList.cs:15-18 | appends the reference at the end, with no membership test |
| Ast.ComparatorToString | Qupid/AST/ComparatorClause.cs:22-58 | the builder appends render the key, then the value or an operator document |
| Ast.AppendOperator | Qupid/AST/ComparatorClause.cs:60-67 | appends `{op:value}`, with a null value appended as nothing |
| Ast.OperatorBodiesDistinct | Qupid/AST/ComparatorClause.cs:29-55 | different comparisons give different right-hand sides for the same value |
| Ast.ComparisonsRenderDistinct | Qupid/AST/ComparatorClause.cs:22-58 | for the same key and value, the six comparisons render six different texts |
| Ast.ComparatorValueRecoverable | Qupid/AST/ComparatorClause.cs:22-58 | for a fixed key and comparison, the text determines the value (a null value reads as empty) |
| Ast.WhereClause.constructor | Qupid/AST/WhereClause.cs:8-12 | keeps the connector, property, comparison and literal; no analyzed value yet |
| Ast.WhereClause.WithoutOperand | Qupid/AST/WhereClause.cs:14-17 | the three-argument constructor keeps the default connector |
| Ast.WhereClause.ToString | Qupid/AST/WhereClause.cs:19-22 | the comparator text keyed by the property's analyzed name |
| Ast.HavingClause.constructor | Qupid/AST/HavingClause.cs:6-9 | keeps the property, comparison and literal |
| Ast.HavingClause.ToString | Qupid/AST/HavingClause.cs:11-14 | the comparator text keyed by the property's alias |
| Ast.GroupByClause.constructor | Qupid/AST/GroupByClause.cs:13-16 | keeps the property; the key and aggregation properties start null |
| Ast.GroupByClause.ToString | Qupid/AST/GroupByClause.cs:18-49 | the `$group` stage on the key's analyzed name, accumulating under the aggregate's alias, or the exception for an unsupported kind |
| Ast.AccumulatorsDistinct | Qupid/AST/GroupByClause.cs:26-46 | a count ignores the aggregated name; sum, average and count give different accumulators |
| Ast.GroupTextShape | Qupid/AST/GroupByClause.cs:18-49 | the stage renders exactly for the three aggregate kinds and then opens with the grouping key |
| Ast.UnwindClause.constructor | Qupid/AST/UnwindClause.cs:9-12 | keeps the property |
| Ast.UnwindClause.ToString | Qupid/AST/UnwindClause.cs:14-22 | `{$unwind : '$name'}` for the analyzed name |
| Ast.UnwindTextInjective | Qupid/AST/UnwindClause.cs:14-22 | the unwind text determines the analyzed name; an unresolved property renders with an empty name |
| Ast.WithClause.constructor | Qupid/AST/WithClause.cs:11-16 | keeps the join table and property; no selected columns yet |
| Query.MatchStage | Qupid/AST/QupidQuery.cs:64-95 | the where stage is empty exactly when there are no where clauses |
| Query.WhereTexts | Qupid/AST/QupidQuery.cs:80-91 | one text per where clause |
| Query.WhereTextAt | Qupid/AST/QupidQuery.cs:80-91 | the i-th text is the i-th clause's own text |
| Query.ProjectNames | Qupid/AST/QupidQuery.cs:128 | the projection takes at most one name per select entry |
| Query.QupidQuery.constructor | Qupid/AST/QupidQuery.cs:23-33 | keeps every clause and the collection name; no collection is resolved yet |
| Query.QupidQuery.HasErrors | Qupid/AST/QupidQuery.cs:40-43 | true exactly when the error manager cannot execute |
| Query.QupidQuery.HasWarnings | Qupid/AST/QupidQuery.cs:45-48 | true exactly when some entry is a warning |
| Query.QupidQuery.ToString | Qupid/AST/QupidQuery.cs:55-144 | the builder appends produce the command Render gives from the clause texts, or the group clause's exception |
| Query.QupidQuery.MatchClauses | Qupid/AST/QupidQuery.cs:64-95 | nothing for no clauses, one `$match` for one clause, an `$and` of all of them otherwise |
| Query.QupidQuery.JoinWhereClauses | Qupid/AST/QupidQuery.cs:79-91 | the clause texts separated by ", ", the first without a separator |
| Query.QupidQuery.JoinProjection | Qupid/AST/QupidQuery.cs:124-134 | `'name':1` for each select entry with a non-blank analyzed name, separated by ", " |
| Query.ProjectNamesSnoc | Qupid/AST/QupidQuery.cs:128 | one more select entry adds its name exactly when that name is not blank |
| Query.DocumentFrame | Qupid/AST/QupidQuery.cs:58-62 | every command opens with the collection name and the pipeline array, and closes both |
| Query.DocumentStagesRecoverable | Qupid/AST/QupidQuery.cs:55-144 | distinct stage texts give distinct commands |
| Query.RenderStageOrder | Qupid/AST/QupidQuery.cs:55-102 | a command starts with the header, then the where stage, then the unwind stage |
| Query.RenderFailsOnlyThroughGroup | Qupid/AST/QupidQuery.cs:104-108 | rendering fails exactly when the group clause's text throws, and with that exception |
| Query.RenderUsesHavingOnlyWithGroup | Qupid/AST/QupidQuery.cs:104-134 | the having clause is rendered only after a group, and the projection only without one |
| Query.WhereTextsIgnoreConnector | Qupid/AST/QupidQuery.cs:80-91 | the boolean connector of a where clause is never consulted |
| Query.ProjectNamesSound | Qupid/AST/QupidQuery.cs:128 | every projected name is the non-blank analyzed name of some select entry |
| Query.ProjectNamesComplete | Qupid/AST/QupidQuery.cs:128 | when every select entry is resolved, the projection names each of them, in list order |
| Query.ProjectNamesSkipBlank | Qupid/AST/QupidQuery.cs:128 | a select entry with a blank analyzed name does not reach the projection |
| Collapse.SqueezedConcat | Qupid.Tests/CompilerTests.cs:93 | `Regex.Replace(s, "\\s+", " ")` works piecewise across a boundary that has a visible character on one side |
| Collapse.SqueezedMerge | Qupid.Tests/CompilerTests.cs:93 | two runs of white space meeting at a boundary become a single space |
| Collapse.HeaderSqueezed | Qupid.Tests/CompilerTests.cs:93 | the three header lines of the command collapse to `{ aggregate:'<name>', pipeline: [` and one space |
| Collapse.ProjectionCollapsed | Qupid.Tests/CompilerTests.cs:93 | the command of one where clause and a projection, collapsed and trimmed, is the header, the two stage lines and `] }`, one space apart |
| Scenarios.FooFound | Qupid.Tests/TestCollectionFinder.cs:10-13 | the query's collection name `Foo` finds the catalog's one entry `foo`, ignoring case |
| Scenarios.FooIdPath | Qupid.Tests/TestCollectionFinder.cs:17-23 | in the test catalog `FooId` converts to `_id` and GetProperty finds its property |
| Scenarios.FooNamePath | Qupid.Tests/TestCollectionFinder.cs:24-30 | `Name` converts to `n` |
| Scenarios.FooDateCreatedPath | Qupid.Tests/TestCollectionFinder.cs:31-37 | `DateCreated` converts to `dc`, and its property has type `DateTime` |
| Scenarios.FooStar | Qupid.Tests/TestCollectionFinder.cs:14-37 | `*` expands to the three properties, in catalog order |
| Scenarios.FooDateCoerced | Qupid/Compile/QueryAnalyzer.cs:236-238 | a literal compared with `DateCreated` becomes `new Date(<literal>)` |
| Scenarios.FooIdCoerced | Qupid/Compile/QueryAnalyzer.cs:244-246 | a literal compared with `FooId` becomes `ObjectId(<literal>)` |
| Scenarios.StarExpanded | Qupid/Compile/QueryAnalyzer.cs:63-110 | what the select analysis promises for the list `[Foo.*]`: exactly the references made for the three leaves, named `_id`, `n`, `dc` |
| Scenarios.DateClauseScanned | Qupid/Compile/QueryAnalyzer.cs:218-259 | the first where pass over `Foo.DateCreated > …` names and values the clause and finds no index |
| Scenarios.DateClauseAnalyzed | Qupid/Compile/QueryAnalyzer.cs:212-259 | so the clause ends with the name `dc` and the coerced value |
| Scenarios.ProjectedShortNames | Qupid/AST/QupidQuery.cs:128 | the expanded references project `_id`, `n`, `dc` |
| Scenarios.DateQueryRendered | Qupid/AST/QupidQuery.cs:104-134 | the analyzed query renders its one where clause and the three short names, with no unwind or group stage |
| Scenarios.SelectStarWhereByDate | Qupid.Tests/CompilerTests.cs:86-96 | the command text of the analyzed `SELECT Foo.* FROM Foo WHERE Foo.DateCreated > '2013-04-11'`, collapsed as the test collapses it, is the text the test expects |
| Scenarios.AnalyzedSelectStarWhereByDate | Qupid.Tests/CompilerTests.cs:86-96 | the same, taking as hypotheses exactly what the select and where analyses promise |
| Analyzer.Matching | Qupid/Compile/QueryAnalyzer.cs:24 | the catalog entries whose name equals the query's collection name ignoring case, and no others |
| Analyzer.FindCollection | Qupid/Compile/QueryAnalyzer.cs:24 | SingleOrDefault: none exactly when no name matches; the exception exactly when two catalog positions match (`SeveralMatch`); otherwise the one matching entry |
| Analyzer.SeveralMatching | Qupid/Compile/QueryAnalyzer.cs:24 | the matches, kept with every repetition, number two or more exactly when two different catalog positions match the name |
| Analyzer.UsesIndex | Qupid/Compile/QueryAnalyzer.cs:254 | the index test fails only with `First` on an index without properties |
| Analyzer.RemoveFirst | Qupid/Compile/QueryAnalyzer.cs:98 | List.Remove keeps only entries that were there |
| Analyzer.RemoveFirstRemovesOne | Qupid/Compile/QueryAnalyzer.cs:98 | Remove takes out exactly one occurrence when there is one, and leaves the list alone otherwise |
| Analyzer.SelectListExtend | Qupid/Compile/QueryAnalyzer.cs:70-109 | the list after the earlier entries does not depend on what a later entry expands to |
| Analyzer.SelectNames | Qupid/Compile/QueryAnalyzer.cs:102-108 | the analyzed names after the first n entries cover every reference known before |
| Analyzer.SelectNamesAll | Qupid/Compile/QueryAnalyzer.cs:70-109 | after the loop, an entry holds its short name exactly when it resolves |
| Analyzer.SelectNamesAt | Qupid/Compile/QueryAnalyzer.cs:70-109 | after n entries, an entry holds its short name exactly when it is among them and resolves |
| Analyzer.ExpansionsSnoc | Qupid/Compile/QueryAnalyzer.cs:81-99 | the record of expansions extends by one entry's expansion |
| Analyzer.ExpansionsUnfold | Qupid/Compile/QueryAnalyzer.cs:81-99 | every star entry was expanded to new references for the leaves, and every other entry to nothing |
| Analyzer.ExpandedSnoc | Qupid/Compile/QueryAnalyzer.cs:92-95 | the references for the leaves extend by one leaf |
| Analyzer.NewReference | Qupid/Compile/QueryAnalyzer.cs:92-95 | a new reference named by the leaf's long name, analyzed to its short name, at the star's position |
| Analyzer.NewReferences | Qupid/Compile/QueryAnalyzer.cs:92-95 | one new reference per leaf, in leaf order |
| Analyzer.ScanWhere | Qupid/Compile/QueryAnalyzer.cs:218-259 | the first pass names and values at most the clauses it saw, and all of them when it runs through |
| Analyzer.ScanWhereSnoc | Qupid/Compile/QueryAnalyzer.cs:218-259 | one more clause advances the first pass only while it is running |
| Analyzer.PropsSnoc | Qupid/Compile/QueryAnalyzer.cs:218-220 | the clause properties extend by one clause's property |
| Analyzer.IndexScanSnoc | Qupid/Compile/QueryAnalyzer.cs:265-284 | one more clause extends the index pass only while it is running |
| Analyzer.ScanWhereStopped | Qupid/Compile/QueryAnalyzer.cs:224-231 | once the first pass has stopped, later clauses change nothing |
| Analyzer.IndexScanStopped | Qupid/Compile/QueryAnalyzer.cs:270-271 | once the index pass has stopped, later clauses change nothing |
| Analyzer.AggregateCount | Qupid/Compile/QueryAnalyzer.cs:162 | the count is zero exactly when no select entry is an aggregate |
| Analyzer.FirstAggregate | Qupid/Compile/QueryAnalyzer.cs:167 | an aggregate entry of the list, absent exactly when the list has none |
| Analyzer.Nullable | Qupid/Compile/QueryAnalyzer.cs:167-168 | the nullable field is non-null exactly when a value is present, and then holds it |
| Analyzer.AggregatePick | Qupid/Compile/QueryAnalyzer.cs:162-181 | the aggregate is picked exactly when there is at most one; a renamed aggregate is that one, a sum or average that resolves |
| Analyzer.GroupKeyed | Qupid/Compile/QueryAnalyzer.cs:159-193 | once the key is set, the aggregate is picked exactly when there is at most one |
| Analyzer.GroupIndexed | Qupid/Compile/QueryAnalyzer.cs:183-193 | the index check keeps the key and the aggregate choice |
| Analyzer.JoinColumns | Qupid/Compile/QueryAnalyzer.cs:117-119 | exactly the select entries of the joined table, ignoring case |
| Analyzer.QueryAnalyzer.constructor | Qupid/Compile/QueryAnalyzer.cs:15-20 | captures the query, the compiler's catalog, error manager and row threshold |
| Analyzer.QueryAnalyzer.Analyze | Qupid/Compile/QueryAnalyzer.cs:22-44 | an unknown collection or one without indices fails at (0, 0), several matches throw, and otherwise the collection is recorded and the clause analyses only add entries; on the three early returns no clause, property or select entry is touched, only the error list |
| Analyzer.QueryAnalyzer.AnalyzeClauses | Qupid/Compile/QueryAnalyzer.cs:38-43 | the clause analyses, in order, only ever add entries |
| Analyzer.QueryAnalyzer.LaterClauses | Qupid/Compile/QueryAnalyzer.cs:40-43 | the unwind, group-by, having and with analyses only ever add entries |
| Analyzer.QueryAnalyzer.SelectPhase | Qupid/Compile/QueryAnalyzer.cs:38 | the select analysis only adds entries, and every new list member is a new object |
| Analyzer.QueryAnalyzer.WherePhase | Qupid/Compile/QueryAnalyzer.cs:39 | the where analysis only adds entries |
| Analyzer.QueryAnalyzer.GroupPhase | Qupid/Compile/QueryAnalyzer.cs:41 | the group-by analysis only adds entries |
| Analyzer.QueryAnalyzer.Fail | Qupid/Compile/QueryAnalyzer.cs:289-292 | adds the error at line 0, character 0 |
| Analyzer.QueryAnalyzer.Report | Qupid/Compile/QueryAnalyzer.cs:54 | issues one report with its position |
| Analyzer.QueryAnalyzer.AnalyzeSelectList | Qupid/Compile/QueryAnalyzer.cs:63-110 | each resolvable entry of this collection gets its short name, others a warning; each `*` entry is replaced by new references for the leaves; aliases and foreign entries are untouched |
| Analyzer.QueryAnalyzer.AnalyzeSelectLoop | Qupid/Compile/QueryAnalyzer.cs:70-109 | the loop over the snapshot of the list keeps the select state entry by entry |
| Analyzer.QueryAnalyzer.AnalyzeSelectStep | Qupid/Compile/QueryAnalyzer.cs:70-109 | one turn of the loop extends the select state by one entry |
| Analyzer.QueryAnalyzer.AnalyzeSelectEntry | Qupid/Compile/QueryAnalyzer.cs:72-108 | one entry: it is skipped, expanded and removed, renamed, or warned about |
| Analyzer.QueryAnalyzer.AnalyzeWhereEntry | Qupid/Compile/QueryAnalyzer.cs:220-258 | one clause: a foreign or unresolvable property stops the pass; otherwise the name is set, the literal coerced by type, and index use noted |
| Analyzer.QueryAnalyzer.CheckWhereIndex | Qupid/Compile/QueryAnalyzer.cs:267-283 | one clause of the index pass: a warning on a small collection, an error on a large one, when unindexed |
| Analyzer.QueryAnalyzer.NameWhereStep | Qupid/Compile/QueryAnalyzer.cs:218-259 | one turn of the first where loop advances the scan and keeps names and values as it says; every where property keeps its alias |
| Analyzer.QueryAnalyzer.NameWhereClauses | Qupid/Compile/QueryAnalyzer.cs:216-259 | the first where loop: names and values exactly the clauses the scan reached, and no others; every where property keeps its alias |
| Analyzer.QueryAnalyzer.NameWhereLoop | Qupid/Compile/QueryAnalyzer.cs:218-259 | the loop runs while clauses remain and none has stopped it, and every where property keeps its alias |
| Analyzer.QueryAnalyzer.CheckWhereIndices | Qupid/Compile/QueryAnalyzer.cs:264-284 | the index pass issues the IndexScan reports and stops where it does |
| Analyzer.QueryAnalyzer.AnalyzeWhereClause | Qupid/Compile/QueryAnalyzer.cs:212-287 | a null list changes nothing; otherwise the first pass's reports, then (when no clause is indexed) the index pass's reports, the exception it ends with, and exactly which clauses got names and values; no alias changes |
| Analyzer.QueryAnalyzer.AnalyzeUnwindClause | Qupid/Compile/QueryAnalyzer.cs:46-61 | the unwound property gets its short name, or a warning at its position |
| Analyzer.QueryAnalyzer.AnalyzeHavingClause | Qupid/Compile/QueryAnalyzer.cs:197-210 | a having clause on another collection fails; otherwise its literal becomes the analyzed value |
| Analyzer.QueryAnalyzer.AnalyzeWithClause | Qupid/Compile/QueryAnalyzer.cs:112-134 | records the joined table's select entries; the join property gets its short name (and as alias when it has none), or an unpositioned error |
| Analyzer.QueryAnalyzer.AnalyzeGroupByClause | Qupid/Compile/QueryAnalyzer.cs:136-195 | the reports, exception, key alias `_id`, key name, aggregate choice and renamed aggregate that GroupCheck gives; other entries keep their aliases |
| Analyzer.QueryAnalyzer.AnalyzeGroupKey | Qupid/Compile/QueryAnalyzer.cs:153-193 | after the DateTime warning the key becomes `_id` with its short name, then the aggregate and index checks |
| Analyzer.QueryAnalyzer.AnalyzeGroupAggregate | Qupid/Compile/QueryAnalyzer.cs:162-193 | the aggregate checks, then the index check, leaving the key alone |
| Analyzer.QueryAnalyzer.PickAggregate | Qupid/Compile/QueryAnalyzer.cs:162-181 | Count, SingleOrDefault, and the short name of a sum or average, as AggregatePick says |
| Analyzer.QueryAnalyzer.CheckGroupIndex | Qupid/Compile/QueryAnalyzer.cs:183-193 | unindexed: a warning on a small collection, a failure on a large one |
| AnalyzerProperties.UsesIndexIsContains | Qupid/Compile/QueryAnalyzer.cs:254 | when every index has a property, the test is membership among the first short properties |
| AnalyzerProperties.UsesIndexThrows | Qupid/Compile/QueryAnalyzer.cs:254 | the test throws exactly when it reaches an index without properties before any index that matches |
| AnalyzerProperties.SelectReportsAreWarnings | Qupid/Compile/QueryAnalyzer.cs:85-106 | the select analysis only ever warns |
| AnalyzerProperties.SelectNeverBlocks | Qupid/Compile/QueryAnalyzer.cs:63-110 | so the select analysis never stops a query from executing |
| AnalyzerProperties.ScanRunningResolvesAt | Qupid/Compile/QueryAnalyzer.cs:221-232 | a first pass that ran through saw clause i on this collection, and resolvable |
| AnalyzerProperties.ScanRunningResolves | Qupid/Compile/QueryAnalyzer.cs:221-232 | a first pass that ran through saw every clause on this collection, and resolvable |
| AnalyzerProperties.IndexStepSeverity | Qupid/Compile/QueryAnalyzer.cs:267-283 | a resolvable clause does not stop the index pass, and its report is a warning exactly on a small collection |
| AnalyzerProperties.IndexScanSeverity | Qupid/Compile/QueryAnalyzer.cs:265-284 | over resolvable clauses the index pass never stops, and each report is a warning exactly on a small collection |
| AnalyzerProperties.SecondPassSeverity | Qupid/Compile/QueryAnalyzer.cs:262-285 | the unindexed-where reports are all warnings below the row threshold and all errors above it, and the pass never stops on a clause |
| AnalyzerProperties.SelectListMembers | Qupid/Compile/QueryAnalyzer.cs:92-98 | after the select analysis every entry was there before or came from expanding a star entry |
| AnalyzerProperties.SingleAggregateFound | Qupid/Compile/QueryAnalyzer.cs:167 | with exactly one aggregate, SingleOrDefault finds that one |
| AnalyzerProperties.GroupRenamesOnlyTheAggregate | Qupid/Compile/QueryAnalyzer.cs:162-181 | the group-by renames at most one select entry: the only aggregate of the list, when it is a sum or an average |
| Compile.ParseFailureRecorded | Qupid/Compile/Compiler.cs:52-55 | a caught exception always appends its error last, and the query can no longer execute |
| Compile.Compiler.constructor | Qupid/Compile/Compiler.cs:27-32 | keeps the finder and error manager; the threshold is 100000 and no catalog is fetched yet |
| Compile.Compiler.WithNewErrorManager | Qupid/Compile/Compiler.cs:22-25 | the same with a new, empty error manager |
| Compile.Compiler.Compile | Qupid/Compile/Compiler.cs:34-58 | fetches the catalog once; issues the parser's diagnostics; a parser exception gives null and one error; with an error recorded the tree is returned unanalyzed; otherwise it is analyzed, and an exception gives null and one error; on the parse-failure and error-recorded paths no part of the tree is touched |
| Compile.Compiler.RunAnalyzer | Qupid/Compile/Compiler.cs:49-55 | an analyzer exception becomes one unpositioned error and a null result; otherwise the tree is returned |
| Executor.Find | Qupid/Execution/QueryExecutor.cs:170 | TryGetValue finds a value exactly when an element has that name |
| Executor.DrillAllFailurePersists | Qupid/Execution/QueryExecutor.cs:174-186 | once the descent into an array fails on an element, it fails with that fault whatever follows |
| Executor.DrillExtractProperty | Qupid/Execution/QueryExecutor.cs:164-197 | the recursive descent appends to `result` exactly the leaves DrillDoc collects, or fails as DrillDoc does |
| Executor.DrillArray | Qupid/Execution/QueryExecutor.cs:174-186 | the element loop appends the leaves of every element in order (DrillAll), failing on the first element that is not a document or fails |
| Executor.DrillAllConcat | Qupid/Execution/QueryExecutor.cs:174-186 | the descent over two arrays in turn is the descent over the first, then over the second |
| Executor.DrillFollowsPath | Qupid/Execution/QueryExecutor.cs:164-197 | along a path of documents ending in a value that is not an array, the descent collects exactly that value |
| Executor.Shown | Qupid/Execution/QueryExecutor.cs:145 | one string per array element |
| Executor.DottedColumnReadsPath | Qupid/Execution/QueryExecutor.cs:151-161 | a dotted column whose path runs through documents to a plain value reads that value |
| Executor.ExtractColumnValue | Qupid/Execution/QueryExecutor.cs:133-162 | a null column throws; a plain name reads the field (missing gives "", an array its elements joined by ","); a dotted name descends and formats the leaves |
| Executor.RowValues | Qupid/Execution/QueryExecutor.cs:127 | a row succeeds exactly when every column does, with one cell per column, each the column's value |
| Executor.ExtractRow | Qupid/Execution/QueryExecutor.cs:127 | the Select over the short names computes RowValues |
| Executor.RowsOf | Qupid/Execution/QueryExecutor.cs:125-130 | one row per document, each a document whose row succeeds; it fails exactly when some document is not a document or its row fails |
| Executor.AggregateResult.constructor | Qupid/Execution/AggregateResult.cs:12-16 | empty columns and rows |
| Executor.AggregateResult.FromTable | Qupid/Plugin/IQupidJoinPlugin.cs:32 | the result a join plugin returns holds the given table |
| Executor.EntriesOf | Qupid/Execution/QueryExecutor.cs:110-115 | every select entry of the primary collection contributes its header and name |
| Executor.Headers | Qupid/Execution/QueryExecutor.cs:112 | one header per entry |
| Executor.Names | Qupid/Execution/QueryExecutor.cs:113-115 | one short name per entry |
| Executor.IdKeyed | Qupid/Execution/QueryExecutor.cs:119-123 | the short name equal to the group key's analyzed name is read from `_id`; a null name or key throws |
| Executor.MappedAligned | Qupid/Execution/QueryExecutor.cs:104-131 | the mapped table has one row per document and one cell per column |
| Executor.ParseResult | Qupid/Execution/QueryExecutor.cs:104-131 | fills the result with Mapped's table, or returns its fault |
| Executor.MapRows | Qupid/Execution/QueryExecutor.cs:125-130 | the document loop computes RowsOf |
| Executor.FirstIdColumn | Qupid/Execution/QueryExecutor.cs:75 | FirstOrDefault on `_id` throws exactly on a null header before any `_id`, finds none exactly when there is none, and otherwise finds the first one |
| Executor.IndexOf | Qupid/Execution/QueryExecutor.cs:79 | List.IndexOf: the first position holding the value, or -1 exactly when it is absent |
| Executor.IdIndexIsFirst | Qupid/Execution/QueryExecutor.cs:75-79 | IndexOf finds the `_id` header at the position where FirstOrDefault found it |
| Executor.FirstIdUnique | Qupid/Execution/QueryExecutor.cs:75 | there is only one first `_id` header |
| Executor.RenameTargetsFirstId | Qupid/Execution/QueryExecutor.cs:73-84 | the rename replaces only the first `_id` header, by the key's path; rows and other headers stay |
| Executor.RenameWithoutIdKeepsTable | Qupid/Execution/QueryExecutor.cs:75-77 | with no `_id` header and no null header, the rename changes nothing |
| Executor.JoinAllCompose | Qupid/Execution/QueryExecutor.cs:86-96 | running two plugin lists in turn joins like running their concatenation |
| Executor.PluginReportsCompose | Qupid/Execution/QueryExecutor.cs:86-96 | ... and issues the same reports, in the same order |
| Executor.LongNames | Qupid/Execution/QueryExecutor.cs:99 | every header is converted to its long name; a null header or collection throws |
| Executor.LongNamesKeepOrInvert | Qupid/Execution/QueryExecutor.cs:98-99 | headers unknown to the collection (plugin columns) pass through unchanged; resolvable short headers become long paths that convert back |
| Executor.QueryExecutor.constructor | Qupid/Execution/QueryExecutor.cs:16-19 | keeps the error manager; no plugins |
| Executor.QueryExecutor.WithPlugins | Qupid/Execution/QueryExecutor.cs:21-25 | keeps the error manager and the plugins |
| Executor.QueryExecutor.Run | Qupid/Execution/QueryExecutor.cs:68-101 | from the returned documents: the table Processed gives, in a new result, or its fault; the plugins' reports are issued exactly when the mapping and rename succeed |
| Executor.QueryExecutor.Finish | Qupid/Execution/QueryExecutor.cs:86-99 | the plugin loop then the long-name pass give Finished's table, or its fault |
| Executor.QueryExecutor.RenameIdColumn | Qupid/Execution/QueryExecutor.cs:73-84 | RemoveAt then Insert leave the table Renamed gives, or its fault |
| Executor.QueryExecutor.RunPlugins | Qupid/Execution/QueryExecutor.cs:86-96 | each plugin checks its columns, then joins on the previous output; the table is JoinAll and the reports are every plugin's, in order |

## Left out

- The query parser (`QuerySyntaxParser`, `AutoGen/ParserCode.cs`, ANTLR) is not modelled. Compile takes the parser's outcome as a parameter: the diagnostics it wrote, then the tree or the exception message.
- The driver part of Run (`QueryExecutor.cs:31-67`) is not modelled: parsing the command text, `RunCommand` against the database, and reading the `result` array. Run starts from the returned documents.
- `BsonValue.ToString` is a parameter `show` of the executor functions. BSON values are modelled as scalars, arrays and documents only.
- Join plugins are modelled as the reports `VerifySelectedColumns` writes and a total join function. `Init`, `IsColumnSupported` and a plugin that throws are not modelled.
- Collection discovery is not modelled: `FindAllCollections`, reflection over Mongo attributes (`InspectTypeForMongoAttributes`) and the finder classes. The catalog is a value given to the compiler.
- `PropertyReference.KnownReferences` is a static dictionary in the source. Here it is an explicit `ReferenceTable` object. Thread-safety of that table is not modelled.
- The `Errors` field of `AggregateResult` is never written by the core, so it is not modelled.
- Executor.QueryExecutor.Run: when an exception leaves Run, the source has already partly filled the discarded result. The contract gives the fault only, not that partial state.
- Analyzer.QueryAnalyzer.Analyze: on a resolved collection the contract says only that the clause analyses add entries. The exact effect of each analysis is stated by that analysis's own method.
- Analyzer.QueryAnalyzer.AnalyzeClauses, Analyzer.QueryAnalyzer.LaterClauses, Analyzer.QueryAnalyzer.SelectPhase, Analyzer.QueryAnalyzer.WherePhase and Analyzer.QueryAnalyzer.GroupPhase: stated only as "entries are only added". They are the per-clause methods seen from Analyze.
- Compile.Compiler.Compile: when the analyzer runs, the contract says only that the result is the tree or null, and that a null result ends with the exception's error. The analysis itself is stated by Analyzer.QueryAnalyzer.Analyze.
- Compile.Compiler.RunAnalyzer: stated only as the try/catch around Analyze, for the same reason.
- Executor.EntriesOf: the contract states that every primary-collection entry is present and that the list is no longer than the select list. Order and the exclusion of foreign entries follow from its definition, not from a separate lemma.
- Text.Lower: case-insensitive comparison lower-cases ASCII letters only. Culture rules for other characters are not modelled.
- `LiteralValue` is an `object` in the source and a `string` (the text its `ToString` gives) in the model. So a null literal is not modelled: the `ToString()` calls on it (QueryAnalyzer.cs:208, 239, 251) would throw a null reference, and `"new Date(" + null + ")"` would give `new Date()`. Neither is represented.
- A null `SelectProperties`, or a property list whose `Properties` is null, is not modelled. The query's select list is a non-null object holding a sequence, so the early return of QueryAnalyzer.cs:65-68 has no counterpart.
- Text.IsWhiteSpace: covers the six ASCII white-space characters (space, tab, line feed, vertical tab, form feed, carriage return). `String.IsNullOrWhiteSpace` (QupidQuery.cs:124, QueryAnalyzer.cs:129) also accepts the other Unicode white-space characters; an alias made only of those is treated as present here.
- Query.NewLine: `AppendLine` writes `Environment.NewLine`, which is "\r\n" on Windows. The model fixes it to "\n". The rendered command is whitespace-insensitive for the database.
- Ast.DefaultBooleanOperand: the `BooleanOperand` enum is not among the modelled files. The model assumes `And` and `Or` are its only values and that `And` is the one a default-initialised clause holds. Rendering ignores the connector (Query.WhereTextsIgnoreConnector), so nothing proved depends on that assumption.
- Ast.GroupByClause.ToString: the `AggregateTypes` enum is not among the modelled files. A reference that is not an aggregate never assigns `AggregateType` (PropertyReference.cs:27-45), so it holds the enum's default value. The model assumes that default is none of `Count`, `Sum` and `Average` (the `NotAggregate` kind), and so renders such a reference as the `default:` branch's exception (GroupByClause.cs:44-45). If `Count` were the enum's first value, the source would render `{$sum:1}` instead. The analyzer only ever stores an aggregate reference as the aggregation property (QueryAnalyzer.cs:167), so the compile path never reaches this case.
- Only one compiler test, CompilerTests.cs:86-96, is worked through to its expected text. The group-by tests (CompilerTests.cs:10-38) need the `$group` stage collapsed, which is not done; their catalog facts (the `_id` and `ObjectId` conversions) are proved. The single-column tests (CompilerTests.cs:56-82) have the shape `Collapse.ProjectionCollapsed` covers, but their text is not derived.
- Integer widths are not modelled: row counts and positions are unbounded integers, and the source does no arithmetic on them that could overflow.
