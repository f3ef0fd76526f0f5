/**
 * The semantic analyzer: resolves the query's collection against the catalog,
 * then walks the select list and every clause, filling in the analyzed short
 * names, aliases and coerced literal values on the AST in place and reporting
 * what it cannot resolve to the shared error manager.
 */
module Analyzer {
  import opened Wrappers
  import opened Text
  import opened Catalog
  import opened Diagnostics
  import opened Ast
  import opened Query

  // ---------------------------------------------------------------------
  // Reports and their messages
  // ---------------------------------------------------------------------

  /** Fail: an error at line 0, character 0. */
  function Failing(message: string): Report
  {
    ErrorReport(message, 0, 0)
  }

  /** AddError(message) without a position. */
  function Unplaced(message: string): Report
  {
    ErrorReport(message, NoPosition, NoPosition)
  }

  /** AddWarning(message) without a position. */
  function Caution(message: string): Report
  {
    WarningReport(message, NoPosition, NoPosition)
  }

  function UnknownCollection(name: string): string { "Unknown collection: " + name }
  const NullIndices := "Invalid collection, found a null 'Indices' property"
  function SelectInvalid(path: string): string { "The 'select' property (" + path + ") is invalid." }
  function UnwindInvalid(path: string): string { "The 'unwind' property (" + path + ") is invalid." }
  function WithInvalid(path: string): string { "The 'with' property (" + path + ") is invalid." }
  function GroupOnAggregate(path: string): string { "Cannot 'group by' an aggregate property " + path }
  function GroupInvalid(path: string): string { "The 'group by' property (" + path + ") is invalid." }
  const DateTimeGroup := "You really want to group by a DateTime value? Really?"
  const TooManyAggregates := "You can only include one 'COUNT' or 'SUM' property in your 'select'"
  const MissingAggregate := "The aggregation property was not specified. Include a '.COUNT' or '.SUM' in your select clause"
  const InvalidSum := "The Sum property is invalid - please append '.SUM' to the end of a valid numeric property name (ex: Donations.TotalAmount.SUM)."
  function GroupUnindexedCaution(path: string): string { "Group by (" + path + ") doesn't use an index. Running with caution" }
  function GroupUnindexedRefused(path: string): string { "Group by (" + path + ") doesn't use an index. Collection too large to allow" }
  function HavingInvalid(path: string): string { "The 'having' property (" + path + ") is invalid." }
  function WhereInvalid(path: string): string { "The 'where' property (" + path + ") is invalid." }
  function WhereUnindexedCaution(path: string): string { "Where clause (" + path + ") doesn't use an index. Proceed with caution" }
  function WhereUnindexedRefused(path: string): string { "Where clause (" + path + ") doesn't use an index. Collection too large to run un-indexed" }

  // ---------------------------------------------------------------------
  // Pure rules
  // ---------------------------------------------------------------------

  /** The catalog entries whose name equals `name` ignoring case, in catalog order. */
  function Matching(collections: seq<Collection>, name: string): (r: seq<Collection>)
    ensures forall c :: c in r <==> c in collections && EqualsIgnoreCase(c.name, name)
    ensures |r| <= |collections|
  {
    if |collections| == 0 then []
    else (if EqualsIgnoreCase(collections[0].name, name) then [collections[0]] else []) + Matching(collections[1..], name)
  }

  /** Two different catalog positions hold entries named `name`, ignoring case. */
  predicate SeveralMatch(collections: seq<Collection>, name: string)
  {
    exists i, j :: 0 <= i < j < |collections| && EqualsIgnoreCase(collections[i].name, name) && EqualsIgnoreCase(collections[j].name, name)
  }

  lemma MatchingUnfold(collections: seq<Collection>, name: string)
    requires |collections| > 0
    ensures |Matching(collections, name)|
         == (if EqualsIgnoreCase(collections[0].name, name) then 1 else 0) + |Matching(collections[1..], name)|
  {
  }

  /** Some entry matches exactly when Matching keeps one; the witness is a catalog position. */
  lemma MatchingPosition(collections: seq<Collection>, name: string) returns (j: nat)
    requires |Matching(collections, name)| > 0
    ensures j < |collections| && EqualsIgnoreCase(collections[j].name, name)
  {
    var m := Matching(collections, name);
    assert m[0] in m;
    j :| 0 <= j < |collections| && collections[j] == m[0];
  }

  lemma SeveralFromTail(collections: seq<Collection>, name: string)
    requires |collections| > 0 && SeveralMatch(collections[1..], name)
    ensures SeveralMatch(collections, name)
  {
    var tail := collections[1..];
    var i, j :| 0 <= i < j < |tail| && EqualsIgnoreCase(tail[i].name, name) && EqualsIgnoreCase(tail[j].name, name);
    assert collections[i + 1] == tail[i] && collections[j + 1] == tail[j];
  }

  lemma SeveralToTail(collections: seq<Collection>, name: string)
    requires |collections| > 0 && !EqualsIgnoreCase(collections[0].name, name) && SeveralMatch(collections, name)
    ensures SeveralMatch(collections[1..], name)
  {
    var tail := collections[1..];
    var i, j :| 0 <= i < j < |collections| && EqualsIgnoreCase(collections[i].name, name) && EqualsIgnoreCase(collections[j].name, name);
    assert tail[i - 1] == collections[i] && tail[j - 1] == collections[j];
  }

  lemma SeveralWithHead(collections: seq<Collection>, name: string, j: nat)
    requires 0 < j < |collections| && EqualsIgnoreCase(collections[0].name, name) && EqualsIgnoreCase(collections[j].name, name)
    ensures SeveralMatch(collections, name)
  {
  }

  lemma SeveralPastHead(collections: seq<Collection>, name: string)
    requires |collections| > 0 && SeveralMatch(collections, name)
    ensures |Matching(collections[1..], name)| > 0
  {
    var tail := collections[1..];
    var i, j :| 0 <= i < j < |collections| && EqualsIgnoreCase(collections[i].name, name) && EqualsIgnoreCase(collections[j].name, name);
    assert tail[j - 1] == collections[j];
    assert tail[j - 1] in Matching(tail, name);
  }

  /** Matching keeps every matching entry, so it has two or more exactly when two positions match. */
  lemma {:induction false} SeveralMatching(collections: seq<Collection>, name: string)
    ensures |Matching(collections, name)| >= 2 <==> SeveralMatch(collections, name)
    decreases |collections|
  {
    if |collections| > 0 {
      var tail := collections[1..];
      SeveralMatching(tail, name);
      MatchingUnfold(collections, name);
      if EqualsIgnoreCase(collections[0].name, name) {
        if |Matching(tail, name)| > 0 {
          var j := MatchingPosition(tail, name);
          assert collections[j + 1] == tail[j];
          SeveralWithHead(collections, name, j + 1);
        }
        if SeveralMatch(collections, name) {
          SeveralPastHead(collections, name);
        }
      } else {
        if SeveralMatch(tail, name) {
          SeveralFromTail(collections, name);
        }
        if SeveralMatch(collections, name) {
          SeveralToTail(collections, name);
        }
      }
    }
  }

  /** SingleOrDefault over the catalog: none, the one match, or an exception for several. */
  function FindCollection(collections: seq<Collection>, name: string): (r: Result<Option<Collection>, Fault>)
    ensures r == Success(None) <==> forall c :: c in collections ==> !EqualsIgnoreCase(c.name, name)
    ensures r.Success? && r.value.Some? ==> r.value.value in collections && EqualsIgnoreCase(r.value.value.name, name)
    ensures r.Failure? <==> SeveralMatch(collections, name)
    ensures r.Failure? ==> r.error == MoreThanOneMatch
  {
    SeveralMatching(collections, name);
    var m := Matching(collections, name);
    assert |m| > 0 ==> m[0] in m;
    if |m| == 0 then Success(None)
    else if |m| == 1 then Success(Some(m[0]))
    else Failure(MoreThanOneMatch)
  }

  /**
   * Indices.Select(i => i.ShortProperties.First()).Contains(shortName), evaluated lazily:
   * it stops at the first index whose first short property is the whole short path, and
   * throws when it reaches an index without properties.
   */
  function UsesIndex(indices: seq<Index>, shortName: string): (r: Result<bool, Fault>)
    ensures r.Failure? ==> r.error == NoElements
    decreases |indices|
  {
    if |indices| == 0 then Success(false)
    else if |indices[0].shortProperties| == 0 then Failure(NoElements)
    else if indices[0].shortProperties[0] == shortName then Success(true)
    else UsesIndex(indices[1..], shortName)
  }

  /** The where literal rewritten for the declared type of its property. */
  function Coerce(typeName: string, literal: string): string
  {
    if typeName == "DateTime" then "new Date(" + literal + ")"
    else if typeName == "Boolean" then (if literal == "1" then "true" else "false")
    else if typeName == "BsonObjectId" then "ObjectId(" + literal + ")"
    else literal
  }

  /** The select entries of one collection that are not aggregates are the ones the select analysis looks at. */
  predicate Selected(c: Collection, p: PropertyReference)
  {
    EqualsIgnoreCase(p.collection, c.name) && !p.IsAggregate()
  }

  /** A select entry that is expanded: its path is exactly "*". */
  predicate IsStar(c: Collection, p: PropertyReference)
  {
    Selected(c, p) && p.path == "*"
  }

  /** A select entry that gets its short name. */
  predicate Resolves(c: Collection, p: PropertyReference)
  {
    Selected(c, p) && p.path != "*" && ShortPath(c, p.path).Some?
  }

  /** The warning, if any, for one select entry. */
  function SelectReport(c: Collection, p: PropertyReference): seq<Report>
  {
    if !Selected(c, p) || p.path == "*" || ShortPath(c, p.path).Some? then []
    else [WarningReport(SelectInvalid(p.path), p.line, p.character)]
  }

  /** The warnings for the first `n` select entries, in list order. */
  function SelectReports(c: Collection, items: seq<PropertyReference>, n: nat): seq<Report>
    requires n <= |items|
  {
    if n == 0 then [] else SelectReports(c, items, n - 1) + SelectReport(c, items[n - 1])
  }

  /** List.Remove: the list without the first occurrence of `x` (compared by reference). */
  function RemoveFirst(s: seq<PropertyReference>, x: PropertyReference): (r: seq<PropertyReference>)
    ensures forall y :: y in r ==> y in s
  {
    if |s| == 0 then []
    else if s[0] == x then s[1..] else [s[0]] + RemoveFirst(s[1..], x)
  }

  /** Remove takes out exactly one occurrence when there is one, and leaves the list alone otherwise. */
  lemma {:induction false} RemoveFirstRemovesOne(s: seq<PropertyReference>, x: PropertyReference)
    ensures x !in s ==> RemoveFirst(s, x) == s
    ensures x in s ==> |RemoveFirst(s, x)| == |s| - 1 && multiset(RemoveFirst(s, x)) == multiset(s) - multiset{x}
  {
    if |s| > 0 {
      assert s == [s[0]] + s[1..];
      if s[0] != x {
        RemoveFirstRemovesOne(s[1..], x);
      }
    }
  }

  /** The select list after the first `n` entries of `items` were analyzed, `added[j]` being the entries expanded from `items[j]`. */
  ghost function SelectList(c: Collection, start: seq<PropertyReference>, items: seq<PropertyReference>,
                            added: seq<seq<PropertyReference>>, n: nat): seq<PropertyReference>
    requires n <= |items| && n <= |added|
  {
    if n == 0 then start
    else
      var before := SelectList(c, start, items, added, n - 1);
      if IsStar(c, items[n - 1]) then RemoveFirst(before + added[n - 1], items[n - 1]) else before
  }

  /** Recording the expansion of a later entry does not change the list after the earlier ones. */
  lemma {:induction false} SelectListExtend(c: Collection, start: seq<PropertyReference>, items: seq<PropertyReference>,
                                            added: seq<seq<PropertyReference>>, refs: seq<PropertyReference>, n: nat)
    requires n <= |items| && n <= |added|
    ensures SelectList(c, start, items, added + [refs], n) == SelectList(c, start, items, added, n)
  {
    if n > 0 {
      SelectListExtend(c, start, items, added, refs, n - 1);
      assert (added + [refs])[n - 1] == added[n - 1];
    }
  }

  /** The analyzed names after the first `n` select entries: each entry that resolves maps to its short name. */
  ghost function SelectNames(c: Collection, items: seq<PropertyReference>, n: nat,
                             names0: map<PropertyReference, Option<string>>): (r: map<PropertyReference, Option<string>>)
    requires n <= |items|
    ensures forall o :: o in names0 ==> o in r
  {
    if n == 0 then names0
    else
      var m := SelectNames(c, items, n - 1, names0);
      if Resolves(c, items[n - 1]) then m[items[n - 1] := ShortPath(c, items[n - 1].path)] else m
  }

  /** After all entries, an entry holds its short name exactly when it resolves. */
  lemma SelectNamesAll(c: Collection, items: seq<PropertyReference>, names0: map<PropertyReference, Option<string>>)
    ensures forall o :: o in items && o in names0 ==>
      SelectNames(c, items, |items|, names0)[o] == if Resolves(c, o) then ShortPath(c, o.path) else names0[o]
  {
    forall o | o in items && o in names0
      ensures SelectNames(c, items, |items|, names0)[o] == if Resolves(c, o) then ShortPath(c, o.path) else names0[o]
    {
      SelectNamesAt(c, items, |items|, names0, o);
      assert items[..|items|] == items;
    }
  }

  /** After the first `n` entries, an entry holds its short name exactly when it is among them and resolves. */
  lemma {:induction false} SelectNamesAt(c: Collection, items: seq<PropertyReference>, n: nat,
                                         names0: map<PropertyReference, Option<string>>, o: PropertyReference)
    requires n <= |items| && o in names0
    ensures SelectNames(c, items, n, names0)[o] ==
      if o in items[..n] && Resolves(c, o) then ShortPath(c, o.path) else names0[o]
  {
    if n > 0 {
      SelectNamesAt(c, items, n - 1, names0, o);
      assert items[..n] == items[..n - 1] + [items[n - 1]];
    }
  }

  /** The reference made for one expanded leaf. */
  ghost predicate MadeFor(collection: string, leaf: Property, line: int, character: int, r: PropertyReference)
    reads r
  {
    && r.collection == collection && r.path == leaf.longName
    && r.line == line && r.character == character
    && r.aggregate == Classify(leaf.longName)
    && r.alias == AggregateAlias(collection, r.aggregate)
    && r.analyzedName == Some(leaf.shortName)
  }

  /** The references made for the expanded leaves: named by long name, analyzed to the short name, at the star's position. */
  ghost predicate ExpandedFrom(collection: string, leaves: seq<Property>, line: int, character: int,
                               refs: seq<PropertyReference>)
    reads set r | r in refs
  {
    && |refs| == |leaves|
    && forall j :: 0 <= j < |refs| ==> MadeFor(collection, leaves[j], line, character, refs[j])
  }

  /** ExpandedFrom for every star entry among the first |added| items, and nothing added for the others; `made` holds every added reference. */
  ghost predicate ExpansionsHold(c: Collection, items: seq<PropertyReference>, added: seq<seq<PropertyReference>>,
                                 made: set<PropertyReference>)
    reads made
  {
    && |added| <= |items|
    && (forall j, r :: 0 <= j < |added| && r in added[j] ==> r in made)
    && forall j :: 0 <= j < |added| ==>
      && (IsStar(c, items[j]) ==> ExpandedFrom(c.name, Leaves(c.top.properties), items[j].line, items[j].character, added[j]))
      && (!IsStar(c, items[j]) ==> added[j] == [])
  }

  lemma ExpansionsSnoc(c: Collection, items: seq<PropertyReference>, added: seq<seq<PropertyReference>>,
                       made: set<PropertyReference>, refs: seq<PropertyReference>)
    requires ExpansionsHold(c, items, added, made) && |added| < |items|
    requires IsStar(c, items[|added|]) ==> ExpandedFrom(c.name, Leaves(c.top.properties), items[|added|].line, items[|added|].character, refs)
    requires !IsStar(c, items[|added|]) ==> refs == []
    ensures ExpansionsHold(c, items, added + [refs], made + set r | r in refs)
  {
    var next := added + [refs];
    var made' := made + set r | r in refs;
    forall j, r | 0 <= j < |next| && r in next[j]
      ensures r in made'
    {
      if j < |added| {
        assert next[j] == added[j];
      }
    }
    forall j | 0 <= j < |next|
      ensures IsStar(c, items[j]) ==> ExpandedFrom(c.name, Leaves(c.top.properties), items[j].line, items[j].character, next[j])
      ensures !IsStar(c, items[j]) ==> next[j] == []
    {
      if j < |added| {
        assert next[j] == added[j];
      }
    }
  }

  lemma ExpansionsUnfold(c: Collection, items: seq<PropertyReference>, added: seq<seq<PropertyReference>>, made: set<PropertyReference>)
    requires ExpansionsHold(c, items, added, made) && |added| == |items|
    ensures forall k, r :: 0 <= k < |added| && r in added[k] ==> r in made
    ensures forall k :: 0 <= k < |added| ==>
      && (IsStar(c, items[k]) ==> ExpandedFrom(c.name, Leaves(c.top.properties), items[k].line, items[k].character, added[k]))
      && (!IsStar(c, items[k]) ==> added[k] == [])
  {
  }

  lemma ExpandedSnoc(collection: string, leaves: seq<Property>, line: int, character: int,
                     refs: seq<PropertyReference>, j: nat, r: PropertyReference)
    requires j < |leaves| && ExpandedFrom(collection, leaves[..j], line, character, refs)
    requires MadeFor(collection, leaves[j], line, character, r)
    ensures ExpandedFrom(collection, leaves[..j + 1], line, character, refs + [r])
  {
    var next := refs + [r];
    forall i | 0 <= i < |next|
      ensures MadeFor(collection, leaves[..j + 1][i], line, character, next[i])
    {
      if i < |refs| {
        assert next[i] == refs[i] && leaves[..j + 1][i] == leaves[..j][i];
      }
    }
  }

  /** `new PropertyReference(...) { AnalyzedName = ... }` for one leaf. */
  method NewReference(collection: string, leaf: Property, line: int, character: int) returns (r: PropertyReference)
    ensures fresh(r) && MadeFor(collection, leaf, line, character, r)
  {
    r := new PropertyReference(collection, leaf.longName, line, character);
    r.analyzedName := Some(leaf.shortName);
  }

  /** A new reference for every leaf, with its analyzed name preset. */
  method NewReferences(collection: string, leaves: seq<Property>, line: int, character: int)
    returns (refs: seq<PropertyReference>)
    ensures ExpandedFrom(collection, leaves, line, character, refs)
    ensures forall r :: r in refs ==> fresh(r)
  {
    refs := [];
    var j := 0;
    while j < |leaves|
      invariant 0 <= j <= |leaves|
      invariant ExpandedFrom(collection, leaves[..j], line, character, refs)
      invariant forall r :: r in refs ==> fresh(r)
    {
      var r := NewReference(collection, leaves[j], line, character);
      ExpandedSnoc(collection, leaves, line, character, refs, j, r);
      refs := refs + [r];
      j := j + 1;
    }
    assert leaves[..j] == leaves;
  }

  // ---------------------------------------------------------------------
  // The where clauses
  // ---------------------------------------------------------------------

  /** How a pass over the where clauses ended: still going, stopped by a report, or by an exception. */
  datatype Exit = Running | Stopped | Threw(fault: Fault)

  /** What the first pass does with one clause: its reports, whether it set the name and the value, and whether an index was hit. */
  datatype ClauseOutcome = ClauseOutcome(reports: seq<Report>, named: bool, valued: bool, usesIndex: bool, exit: Exit)

  /** The first pass over the clauses so far: reports, how many clauses got their name and their value, and whether some clause is indexed. */
  datatype WhereScan = WhereScan(reports: seq<Report>, named: nat, valued: nat, indexFound: bool, exit: Exit)

  /** The analyzed value of a clause whose property GetProperty found (the literal itself otherwise, which no caller uses). */
  function CoercedValue(c: Collection, w: WhereClause): string
  {
    match PropertyAt(c, w.property.path)
    case Some(p) => Coerce(p.typeName, w.literal)
    case None => w.literal
  }

  /** One clause of the first loop of AnalyzeWhereClause. */
  function WhereStep(c: Collection, indices: seq<Index>, w: WhereClause): ClauseOutcome
  {
    var p := w.property;
    if !EqualsIgnoreCase(p.collection, c.name) then
      ClauseOutcome([Failing(WhereInvalid(p.path))], false, false, false, Stopped)
    else match ShortPath(c, p.path)
      case None => ClauseOutcome([Unplaced(WhereInvalid(p.path))], false, false, false, Stopped)
      case Some(s) =>
        if PropertyAt(c, p.path).None? then ClauseOutcome([], true, false, false, Threw(NullReference))
        else match UsesIndex(indices, s)
          case Failure(f) => ClauseOutcome([], true, true, false, Threw(f))
          case Success(b) => ClauseOutcome([], true, true, b, Running)
  }

  /** The first pass over `ws`, which stops at the first clause that does not run through. */
  function ScanWhere(c: Collection, indices: seq<Index>, ws: seq<WhereClause>): (r: WhereScan)
    ensures r.named <= |ws| && r.valued <= r.named
    ensures r.exit.Running? ==> r.named == |ws| && r.valued == |ws|
  {
    if |ws| == 0 then WhereScan([], 0, 0, false, Running)
    else
      var prev := ScanWhere(c, indices, ws[..|ws| - 1]);
      if !prev.exit.Running? then prev
      else Advance(prev, WhereStep(c, indices, ws[|ws| - 1]), |ws| - 1)
  }

  /** The scan after clause `n` ran with outcome `o`. */
  function Advance(prev: WhereScan, o: ClauseOutcome, n: nat): WhereScan
  {
    WhereScan(prev.reports + o.reports, if o.named then n + 1 else n, if o.valued then n + 1 else n,
              prev.indexFound || o.usesIndex, o.exit)
  }

  /** What the second pass does with one clause: its report, if any, and how it ends. */
  datatype ClauseCheck = ClauseCheck(reports: seq<Report>, exit: Exit)

  /** One clause of the index-admission loop, on a collection that is small or not. */
  function IndexStep(c: Collection, indices: seq<Index>, w: WhereClause, small: bool): ClauseCheck
  {
    var p := w.property;
    match ShortPath(c, p.path)
    case None => ClauseCheck([Failing(WhereInvalid(p.path))], Stopped)
    case Some(s) =>
      match UsesIndex(indices, s)
      case Failure(f) => ClauseCheck([], Threw(f))
      case Success(true) => ClauseCheck([], Running)
      case Success(false) =>
        if small then ClauseCheck([Caution(WhereUnindexedCaution(p.path))], Running)
        else ClauseCheck([Unplaced(WhereUnindexedRefused(p.path))], Running)
  }

  /** The index-admission pass over `ws`. */
  function IndexScan(c: Collection, indices: seq<Index>, ws: seq<WhereClause>, small: bool): ClauseCheck
  {
    if |ws| == 0 then ClauseCheck([], Running)
    else
      var prev := IndexScan(c, indices, ws[..|ws| - 1], small);
      if !prev.exit.Running? then prev
      else
        var o := IndexStep(c, indices, ws[|ws| - 1], small);
        ClauseCheck(prev.reports + o.reports, o.exit)
  }

  /** The second pass runs only when the first ran through and found no indexed clause. */
  function SecondPass(c: Collection, indices: seq<Index>, ws: seq<WhereClause>, small: bool): ClauseCheck
  {
    var scan := ScanWhere(c, indices, ws);
    if scan.exit.Running? && !scan.indexFound then IndexScan(c, indices, ws, small) else ClauseCheck([], Running)
  }

  /** The exception AnalyzeWhereClause ends with, if any. */
  function WhereFault(c: Collection, indices: seq<Index>, ws: seq<WhereClause>, small: bool): Option<Fault>
  {
    var scan := ScanWhere(c, indices, ws);
    var second := SecondPass(c, indices, ws, small);
    if scan.exit.Threw? then Some(scan.exit.fault)
    else if second.exit.Threw? then Some(second.exit.fault)
    else None
  }

  function Props(ws: seq<WhereClause>): set<PropertyReference>
  {
    set w | w in ws :: w.property
  }

  /**
   * Nothing the analysis may change has changed since the previous state: the query, its
   * select list and entries, its where clauses and their properties, and the unwind, group by,
   * having and with clause objects.
   */
  twostate predicate Untouched(q: QupidQuery)
    reads q, q.selectProperties, set o | o in q.selectProperties.properties
    reads (set w | w in q.Wheres()), Props(q.Wheres())
    reads if q.unwindClause != null then {q.unwindClause.property} else {}
    reads if q.groupByClause != null then {q.groupByClause, q.groupByClause.property} else {}
    reads if q.havingClause != null then {q.havingClause} else {}
    reads if q.withClause != null then {q.withClause, q.withClause.joinProperty} else {}
  {
    && unchanged(q, q.selectProperties)
    && (forall o :: o in q.selectProperties.properties ==> unchanged(o))
    && unchanged(set w | w in q.Wheres())
    && unchanged(Props(q.Wheres()))
    && (q.unwindClause != null ==> unchanged(q.unwindClause.property))
    && (q.groupByClause != null ==> unchanged(q.groupByClause, q.groupByClause.property))
    && (q.havingClause != null ==> unchanged(q.havingClause))
    && (q.withClause != null ==> unchanged(q.withClause, q.withClause.joinProperty))
  }

  lemma ScanWhereSnoc(c: Collection, indices: seq<Index>, ws: seq<WhereClause>, i: nat)
    requires i < |ws|
    ensures ScanWhere(c, indices, ws[..i + 1]) ==
      if ScanWhere(c, indices, ws[..i]).exit.Running?
      then Advance(ScanWhere(c, indices, ws[..i]), WhereStep(c, indices, ws[i]), i)
      else ScanWhere(c, indices, ws[..i])
  {
    assert ws[..i + 1][..i] == ws[..i];
  }

  lemma PropsSnoc(ws: seq<WhereClause>, i: nat)
    requires i < |ws|
    ensures Props(ws[..i + 1]) == Props(ws[..i]) + {ws[i].property}
    ensures forall x :: x in ws[..i + 1] <==> x in ws[..i] || x == ws[i]
  {
    assert forall x :: x in ws[..i + 1] <==> x in ws[..i] || x == ws[i];
  }

  lemma IndexScanSnoc(c: Collection, indices: seq<Index>, ws: seq<WhereClause>, small: bool, i: nat)
    requires i < |ws|
    ensures IndexScan(c, indices, ws[..i + 1], small) ==
      var prev := IndexScan(c, indices, ws[..i], small);
      if !prev.exit.Running? then prev
      else
        var o := IndexStep(c, indices, ws[i], small);
        ClauseCheck(prev.reports + o.reports, o.exit)
  {
    assert ws[..i + 1][..i] == ws[..i];
  }

  /** Once a pass has stopped, the clauses after it change nothing. */
  lemma {:induction false} ScanWhereStopped(c: Collection, indices: seq<Index>, ws: seq<WhereClause>, i: nat)
    requires i <= |ws| && !ScanWhere(c, indices, ws[..i]).exit.Running?
    ensures ScanWhere(c, indices, ws) == ScanWhere(c, indices, ws[..i])
    decreases |ws| - i
  {
    if i == |ws| {
      assert ws[..i] == ws;
    } else {
      ScanWhereSnoc(c, indices, ws, i);
      ScanWhereStopped(c, indices, ws, i + 1);
    }
  }

  lemma {:induction false} IndexScanStopped(c: Collection, indices: seq<Index>, ws: seq<WhereClause>, small: bool, i: nat)
    requires i <= |ws| && !IndexScan(c, indices, ws[..i], small).exit.Running?
    ensures IndexScan(c, indices, ws, small) == IndexScan(c, indices, ws[..i], small)
    decreases |ws| - i
  {
    if i == |ws| {
      assert ws[..i] == ws;
    } else {
      IndexScanSnoc(c, indices, ws, small, i);
      IndexScanStopped(c, indices, ws, small, i + 1);
    }
  }

  // ---------------------------------------------------------------------
  // Group by, unwind, having and with
  // ---------------------------------------------------------------------

  /** Count(pr => pr.IsAggregate) over the select list. */
  function AggregateCount(props: seq<PropertyReference>): (n: nat)
    ensures n <= |props|
    ensures n == 0 <==> forall p :: p in props ==> !p.IsAggregate()
  {
    if |props| == 0 then 0
    else (if props[0].IsAggregate() then 1 else 0) + AggregateCount(props[1..])
  }

  /** The first aggregate entry of the select list, if any (SingleOrDefault once there is at most one). */
  function FirstAggregate(props: seq<PropertyReference>): (r: Option<PropertyReference>)
    ensures r.Some? ==> r.value in props && r.value.IsAggregate()
    ensures r.None? <==> AggregateCount(props) == 0
  {
    if |props| == 0 then None
    else if props[0].IsAggregate() then Some(props[0])
    else FirstAggregate(props[1..])
  }

  /** The reference a nullable C# field holds for an optional value. */
  function Nullable(o: Option<PropertyReference>): (r: PropertyReference?)
    ensures o.Some? <==> r != null
    ensures o.Some? ==> r == o.value
  {
    if o.Some? then o.value else null
  }

  /**
   * What AnalyzeGroupByClause does for a grouping key and a select list: the reports in order,
   * whether it got as far as setting the key, the aggregation property, and the aggregation
   * property's short name, and the exception it ends with.
   */
  datatype GroupOutcome = GroupOutcome(reports: seq<Report>, keyed: bool, picked: bool, aggregation: Option<PropertyReference>,
                                       renamed: Option<PropertyReference>, fault: Option<Fault>)

  function GroupCheck(c: Collection, indices: seq<Index>, key: PropertyReference, props: seq<PropertyReference>,
                      small: bool): GroupOutcome
  {
    if key.IsAggregate() then GroupOutcome([Unplaced(GroupOnAggregate(key.path))], false, false, None, None, None)
    else match ShortPath(c, key.path)
      case None => GroupOutcome([Unplaced(GroupInvalid(key.path))], false, false, None, None, None)
      case Some(shortName) =>
        match PropertyAt(c, key.path)
        case None => GroupOutcome([], false, false, None, None, Some(NullReference))
        case Some(dbProp) => Prepend(DateCaution(dbProp.typeName), GroupKeyed(c, indices, key.path, shortName, props, small))
  }

  /** The warning for grouping on a DateTime property. */
  function DateCaution(typeName: string): seq<Report>
  {
    if typeName == "DateTime" then [Caution(DateTimeGroup)] else []
  }

  function Prepend(reports: seq<Report>, o: GroupOutcome): GroupOutcome
  {
    o.(reports := reports + o.reports)
  }

  /** The aggregate checks of AnalyzeGroupByClause: their reports, the aggregation property chosen, the one renamed, and whether they stop the analysis. */
  datatype Pick = Pick(reports: seq<Report>, picked: bool, aggregation: Option<PropertyReference>,
                       renamed: Option<PropertyReference>, stopped: bool)

  function AggregatePick(c: Collection, props: seq<PropertyReference>): (r: Pick)
    ensures r.picked <==> AggregateCount(props) <= 1
    ensures r.picked ==> r.aggregation == FirstAggregate(props)
    ensures r.renamed.Some? ==>
      r.renamed == FirstAggregate(props) && r.renamed.value.aggregate != Count && ShortPath(c, r.renamed.value.path).Some?
  {
    if AggregateCount(props) > 1 then Pick([Failing(TooManyAggregates)], false, None, None, true)
    else
      var agg := FirstAggregate(props);
      if agg.Some? && agg.value.aggregate != Count && ShortPath(c, agg.value.path).None? then
        Pick([Failing(InvalidSum)], true, agg, None, true)
      else
        Pick(if agg.None? then [Caution(MissingAggregate)] else [], true, agg,
             if agg.Some? && agg.value.aggregate != Count then agg else None, false)
  }

  /** The rest of AnalyzeGroupByClause once the key is set: the aggregate checks, then the index check. */
  function GroupKeyed(c: Collection, indices: seq<Index>, keyPath: string, shortName: string,
                      props: seq<PropertyReference>, small: bool): (r: GroupOutcome)
    ensures r.keyed
    ensures r.picked <==> AggregateCount(props) <= 1
    ensures r.picked ==> r.aggregation == FirstAggregate(props)
    ensures r.renamed.Some? ==>
      r.renamed == FirstAggregate(props) && r.renamed.value.aggregate != Count && ShortPath(c, r.renamed.value.path).Some?
  {
    var pick := AggregatePick(c, props);
    if pick.stopped then GroupOutcome(pick.reports, true, pick.picked, pick.aggregation, pick.renamed, None)
    else Prepend(pick.reports, GroupIndexed(indices, keyPath, shortName, small, pick.aggregation, pick.renamed))
  }

  /** The index check of AnalyzeGroupByClause: the key's short name must be the first property of some index. */
  function GroupIndexed(indices: seq<Index>, keyPath: string, shortName: string, small: bool,
                        agg: Option<PropertyReference>, renamed: Option<PropertyReference>): (r: GroupOutcome)
    ensures r.keyed && r.picked && r.aggregation == agg && r.renamed == renamed
  {
    match UsesIndex(indices, shortName)
    case Failure(f) => GroupOutcome([], true, true, agg, renamed, Some(f))
    case Success(true) => GroupOutcome([], true, true, agg, renamed, None)
    case Success(false) =>
      var last := if small then Caution(GroupUnindexedCaution(keyPath)) else Failing(GroupUnindexedRefused(keyPath));
      GroupOutcome([last], true, true, agg, renamed, None)
  }

  /** The select entries of the joined table: SelectProperties.Where(p => p.Collection equals the table, ignoring case). */
  function JoinColumns(props: seq<PropertyReference>, table: string): (r: seq<PropertyReference>)
    ensures forall p :: p in r ==> p in props && EqualsIgnoreCase(p.collection, table)
    ensures forall p :: p in props && EqualsIgnoreCase(p.collection, table) ==> p in r
    ensures |r| <= |props|
  {
    if |props| == 0 then []
    else (if EqualsIgnoreCase(props[0].collection, table) then [props[0]] else []) + JoinColumns(props[1..], table)
  }

  lemma PrefixTransitive(a: seq<QueryError>, b: seq<QueryError>, c: seq<QueryError>)
    requires a <= b && b <= c
    ensures a <= c
  {
    assert c[..|a|] == b[..|a|];
  }

  class QueryAnalyzer {
    const query: QupidQuery
    const collections: seq<Collection>
    const errorManager: ErrorManager
    const maxCollectionSizeWithNoIndex: int

    /** The compiler's catalog, error manager and row-count threshold, captured for one query. */
    constructor(collections: seq<Collection>, root: QupidQuery, errorManager: ErrorManager, maxCollectionSizeWithNoIndex: int)
      ensures query == root && this.collections == collections && this.errorManager == errorManager
      ensures this.maxCollectionSizeWithNoIndex == maxCollectionSizeWithNoIndex
    {
      query := root;
      this.collections := collections;
      this.errorManager := errorManager;
      this.maxCollectionSizeWithNoIndex := maxCollectionSizeWithNoIndex;
    }

    /**
     * Analyze: resolves the query's collection by name, ignoring case; an unknown name or a
     * catalog entry without indices fails, several matches throw; otherwise the collection is
     * recorded on the query and the select list, where, unwind, group by, having and with
     * clauses are analyzed in that order, an exception ending the analysis.
     */
    method Analyze() returns (fault: Option<Fault>)
      modifies query, query.selectProperties, errorManager, set o | o in query.selectProperties.properties
      modifies (set w | w in query.Wheres()), Props(query.Wheres())
      modifies if query.unwindClause != null then {query.unwindClause.property} else {}
      modifies if query.groupByClause != null then {query.groupByClause, query.groupByClause.property} else {}
      modifies if query.havingClause != null then {query.havingClause} else {}
      modifies if query.withClause != null then {query.withClause, query.withClause.joinProperty} else {}
      ensures
        var found := FindCollection(collections, query.collectionName);
        && (found.Failure? ==>
              fault == Some(MoreThanOneMatch) && errorManager.errors == old(errorManager.errors)
              && query.collection == old(query.collection))
        && (found == Success(None) ==>
              fault.None? && errorManager.errors == Apply(old(errorManager.errors), [Failing(UnknownCollection(query.collectionName))])
              && query.collection == old(query.collection))
        && (found.Success? && found.value.Some? && found.value.value.indices.None? ==>
              fault.None? && errorManager.errors == Apply(old(errorManager.errors), [Failing(NullIndices)])
              && query.collection == old(query.collection))
        && (found.Success? && found.value.Some? && found.value.value.indices.Some? ==>
              query.collection == found.value && old(errorManager.errors) <= errorManager.errors)
      // On the three early returns nothing but the error list is touched: no clause is analyzed.
      ensures
        var found := FindCollection(collections, query.collectionName);
        (found.Failure? || found.value.None? || found.value.value.indices.None?) ==> Untouched(query)
    {
      var found := FindCollection(collections, query.collectionName);
      if found.Failure? {
        return Some(found.error);
      }
      if found.value.None? {
        Fail(UnknownCollection(query.collectionName));
        return None;
      }
      var c := found.value.value;
      if c.indices.None? {
        Fail(NullIndices);
        return None;
      }
      query.collection := Some(c);
      fault := AnalyzeClauses(c);
    }

    /** The clause analyses of Analyze, in order, stopping at the first exception; they only ever add errors. */
    method AnalyzeClauses(c: Collection) returns (fault: Option<Fault>)
      requires c.indices.Some?
      modifies query.selectProperties, errorManager, set o | o in query.selectProperties.properties
      modifies (set w | w in query.Wheres()), Props(query.Wheres())
      modifies if query.unwindClause != null then {query.unwindClause.property} else {}
      modifies if query.groupByClause != null then {query.groupByClause, query.groupByClause.property} else {}
      modifies if query.havingClause != null then {query.havingClause} else {}
      modifies if query.withClause != null then {query.withClause, query.withClause.joinProperty} else {}
      ensures old(errorManager.errors) <= errorManager.errors
    {
      ghost var e0 := errorManager.errors;
      SelectPhase(c);
      ghost var e1 := errorManager.errors;
      fault := WherePhase(c);
      PrefixTransitive(e0, e1, errorManager.errors);
      if fault.Some? {
        return;
      }
      ghost var e2 := errorManager.errors;
      fault := LaterClauses(c);
      PrefixTransitive(e0, e2, errorManager.errors);
    }

    /** The unwind, group by, having and with analyses, seen from Analyze: errors only grow. */
    method LaterClauses(c: Collection) returns (fault: Option<Fault>)
      requires c.indices.Some?
      modifies errorManager
      modifies if query.unwindClause != null then {query.unwindClause.property} else {}
      modifies if query.groupByClause != null then {query.groupByClause, query.groupByClause.property} else {}
      modifies if query.havingClause != null then {query.havingClause} else {}
      modifies if query.withClause != null then {query.withClause, query.withClause.joinProperty} else {}
      modifies set o | o in query.selectProperties.properties
      ensures old(errorManager.errors) <= errorManager.errors
    {
      ghost var e0 := errorManager.errors;
      AnalyzeUnwindClause(c, query.unwindClause);
      ghost var e3 := errorManager.errors;
      fault := GroupPhase(c);
      PrefixTransitive(e0, e3, errorManager.errors);
      if fault.Some? {
        return;
      }
      ghost var e4 := errorManager.errors;
      AnalyzeHavingClause(c, query.havingClause);
      if query.havingClause != null && !EqualsIgnoreCase(query.havingClause.property.collection, c.name) {
        ApplyExtends(e4, [Failing(HavingInvalid(query.havingClause.property.path))]);
      }
      PrefixTransitive(e0, e4, errorManager.errors);
      ghost var e5 := errorManager.errors;
      AnalyzeWithClause(c, query.withClause);
      if query.withClause != null && ShortPath(c, query.withClause.joinProperty.path).None? {
        ApplyExtends(e5, [Unplaced(WithInvalid(query.withClause.joinProperty.path))]);
      }
      PrefixTransitive(e0, e5, errorManager.errors);
    }

    /** AnalyzeSelectList on the query's list, seen from Analyze: errors only grow, and new entries are new objects. */
    method SelectPhase(c: Collection)
      modifies query.selectProperties, errorManager, set o | o in query.selectProperties.properties
      ensures old(errorManager.errors) <= errorManager.errors
      ensures forall o :: o in query.selectProperties.properties ==> o in old(query.selectProperties.properties) || fresh(o)
    {
      ghost var items := query.selectProperties.properties;
      ghost var added := AnalyzeSelectList(c, query.selectProperties);
      ApplyExtends(old(errorManager.errors), SelectReports(c, items, |added|));
    }

    /** AnalyzeWhereClause on the query's where clauses, seen from Analyze: errors only grow. */
    method WherePhase(c: Collection) returns (fault: Option<Fault>)
      requires c.indices.Some?
      modifies errorManager, (set w | w in query.Wheres()), Props(query.Wheres())
      ensures old(errorManager.errors) <= errorManager.errors
    {
      fault := AnalyzeWhereClause(c, query.whereClauses);
      if query.whereClauses.Some? {
        var ws := query.whereClauses.value;
        ApplyExtends(old(errorManager.errors), ScanWhere(c, c.indices.value, ws).reports
                     + SecondPass(c, c.indices.value, ws, c.numberOfRows < maxCollectionSizeWithNoIndex).reports);
      }
    }

    /** AnalyzeGroupByClause on the query's group by clause, seen from Analyze: errors only grow. */
    method GroupPhase(c: Collection) returns (fault: Option<Fault>)
      requires c.indices.Some?
      modifies if query.groupByClause != null then {query.groupByClause, query.groupByClause.property} else {}
      modifies errorManager, set o | o in query.selectProperties.properties
      ensures old(errorManager.errors) <= errorManager.errors
    {
      fault := AnalyzeGroupByClause(c, query.groupByClause);
      if query.groupByClause != null {
        ApplyExtends(old(errorManager.errors),
                     GroupCheck(c, c.indices.value, query.groupByClause.property, query.selectProperties.properties,
                                c.numberOfRows < maxCollectionSizeWithNoIndex).reports);
      }
    }

    method Fail(message: string)
      modifies errorManager
      ensures errorManager.errors == Apply(old(errorManager.errors), [Failing(message)])
    {
      errorManager.AddError(message, 0, 0);
    }

    /** Issues the report, as AddError or AddWarning with its position. */
    method Report(report: Report)
      modifies errorManager
      ensures errorManager.errors == Apply(old(errorManager.errors), [report])
    {
      errorManager.Issue(report);
    }

    /** Every select entry holds the analyzed name SelectNames gives after `k` entries, and its alias from `aliases0`. */
    ghost predicate SelectNamed(c: Collection, items: seq<PropertyReference>, k: nat,
                                names0: map<PropertyReference, Option<string>>, aliases0: map<PropertyReference, Option<string>>)
      reads set o | o in items
      requires k <= |items|
    {
      forall o :: o in items ==>
        && o in names0 && o in aliases0
        && o.analyzedName == SelectNames(c, items, k, names0)[o]
        && o.alias == aliases0[o]
    }

    /** The state of AnalyzeSelectList's loop after the first `k` entries of the snapshot `items`. */
    ghost predicate SelectState(c: Collection, list: PropertyList, items: seq<PropertyReference>, k: nat,
                                added: seq<seq<PropertyReference>>, errors0: seq<QueryError>,
                                names0: map<PropertyReference, Option<string>>, aliases0: map<PropertyReference, Option<string>>,
                                made: set<PropertyReference>)
      reads this, list, errorManager, made, set o | o in items
    {
      && k <= |items| && |added| == k
      && list.properties == SelectList(c, items, items, added, k)
      && errorManager.errors == Apply(errors0, SelectReports(c, items, k))
      && SelectNamed(c, items, k, names0, aliases0)
      && ExpansionsHold(c, items, added, made)
      && (forall r :: r in made ==> r !in items)
    }

    /** One turn of AnalyzeSelectList's loop. */
    method AnalyzeSelectStep(c: Collection, list: PropertyList, items: seq<PropertyReference>, k: nat,
                             ghost added: seq<seq<PropertyReference>>, ghost errors0: seq<QueryError>,
                             ghost names0: map<PropertyReference, Option<string>>, ghost aliases0: map<PropertyReference, Option<string>>,
                             ghost made: set<PropertyReference>)
      returns (ghost refs: seq<PropertyReference>)
      requires k < |items|
      requires SelectState(c, list, items, k, added, errors0, names0, aliases0, made)
      modifies list, errorManager, set o | o in items
      ensures SelectState(c, list, items, k + 1, added + [refs], errors0, names0, aliases0, made + set r | r in refs)
      ensures forall o :: o in list.properties ==> o in old(list.properties) || fresh(o)
    {
      var prop := items[k];
      ApplyConcat(errors0, SelectReports(c, items, k), SelectReport(c, prop));
      refs := AnalyzeSelectEntry(c, list, prop);
      SelectListExtend(c, items, items, added, refs, k);
      assert (added + [refs])[k] == refs;
      forall o | o in items
        ensures o.analyzedName == SelectNames(c, items, k + 1, names0)[o]
        ensures o.alias == aliases0[o]
      {
        if o != prop {
          assert o.analyzedName == old(o.analyzedName) && o.alias == old(o.alias);
        }
      }
      ExpansionsSnoc(c, items, added, made, refs);
    }

    /**
     * AnalyzeSelectList: over a snapshot of the list, entries of this collection that are not
     * aggregates get their short name, or a warning; a "*" entry is replaced by new entries for
     * the top-level leaves, appended at the end.
     */
    method AnalyzeSelectList(c: Collection, list: PropertyList) returns (ghost added: seq<seq<PropertyReference>>)
      modifies list, errorManager, set o | o in list.properties
      ensures |added| == |old(list.properties)|
      ensures list.properties == SelectList(c, old(list.properties), old(list.properties), added, |added|)
      ensures errorManager.errors == Apply(old(errorManager.errors), SelectReports(c, old(list.properties), |added|))
      ensures forall o :: o in old(list.properties) ==>
        && o.analyzedName == (if Resolves(c, o) then ShortPath(c, o.path) else old(o.analyzedName))
        && o.alias == old(o.alias)
      ensures forall k :: 0 <= k < |added| ==>
        && (IsStar(c, old(list.properties)[k]) ==>
              && ExpandedFrom(c.name, Leaves(c.top.properties), old(list.properties)[k].line,
                              old(list.properties)[k].character, added[k])
              && forall r :: r in added[k] ==> r !in old(list.properties))
        && (!IsStar(c, old(list.properties)[k]) ==> added[k] == [])
      ensures forall o :: o in list.properties ==> o in old(list.properties) || fresh(o)
    {
      var items := list.properties;
      ghost var names0: map<PropertyReference, Option<string>> := map o: PropertyReference | o in items :: o.analyzedName;
      ghost var aliases0: map<PropertyReference, Option<string>> := map o: PropertyReference | o in items :: o.alias;
      ghost var made;
      added, made := AnalyzeSelectLoop(c, list, items, errorManager.errors, names0, aliases0);
      SelectNamesAll(c, items, names0);
      ExpansionsUnfold(c, items, added, made);
    }

    /** The loop of AnalyzeSelectList, over the snapshot `items`. */
    method AnalyzeSelectLoop(c: Collection, list: PropertyList, items: seq<PropertyReference>, ghost errors0: seq<QueryError>,
                             ghost names0: map<PropertyReference, Option<string>>, ghost aliases0: map<PropertyReference, Option<string>>)
      returns (ghost added: seq<seq<PropertyReference>>, ghost made: set<PropertyReference>)
      requires SelectState(c, list, items, 0, [], errors0, names0, aliases0, {})
      modifies list, errorManager, set o | o in items
      ensures SelectState(c, list, items, |items|, added, errors0, names0, aliases0, made)
      ensures forall o :: o in list.properties ==> o in items || fresh(o)
    {
      added := [];
      made := {};
      var k := 0;
      while k < |items|
        invariant k <= |items|
        invariant SelectState(c, list, items, k, added, errors0, names0, aliases0, made)
        invariant forall o :: o in list.properties ==> o in items || fresh(o)
      {
        var refs := AnalyzeSelectStep(c, list, items, k, added, errors0, names0, aliases0, made);
        added := added + [refs];
        made := made + set r | r in refs;
        k := k + 1;
      }
    }

    /** One entry of AnalyzeSelectList's loop. */
    method AnalyzeSelectEntry(c: Collection, list: PropertyList, prop: PropertyReference) returns (ghost refs: seq<PropertyReference>)
      modifies list, prop, errorManager
      ensures list.properties == (if IsStar(c, prop) then RemoveFirst(old(list.properties) + refs, prop) else old(list.properties))
      ensures errorManager.errors == Apply(old(errorManager.errors), SelectReport(c, prop))
      ensures prop.analyzedName == (if Resolves(c, prop) then Some(ShortPath(c, prop.path).value) else old(prop.analyzedName))
      ensures prop.alias == old(prop.alias)
      ensures IsStar(c, prop) ==>
        ExpandedFrom(c.name, Leaves(c.top.properties), prop.line, prop.character, refs) && forall r :: r in refs ==> fresh(r)
      ensures !IsStar(c, prop) ==> refs == []
      ensures forall o :: o in list.properties ==> o in old(list.properties) || fresh(o)
    {
      refs := [];
      if !EqualsIgnoreCase(prop.collection, c.name) || prop.IsAggregate() {
        // entries of a joined collection and aggregates are left alone
        return;
      }
      if prop.path == "*" {
        ExpandStar(c);
        var expanded := GetAllReferencedProperties(c, prop.path);
        var made := NewReferences(c.name, expanded.properties, prop.line, prop.character);
        list.properties := list.properties + made;
        list.properties := RemoveFirst(list.properties, prop);
        refs := made;
        return;
      }
      var shortName := ConvertToShortPath(c, prop.path);
      if shortName.None? {
        errorManager.AddWarning(SelectInvalid(prop.path), prop.line, prop.character);
      } else {
        prop.analyzedName := shortName;
      }
    }

    /** One clause of AnalyzeWhereClause's first loop. */
    method AnalyzeWhereEntry(c: Collection, w: WhereClause) returns (exit: Exit, uses: bool)
      requires c.indices.Some?
      modifies w, w.property, errorManager
      ensures var o := WhereStep(c, c.indices.value, w);
        && exit == o.exit && uses == o.usesIndex
        && errorManager.errors == Apply(old(errorManager.errors), o.reports)
        && w.property.analyzedName == (if o.named then ShortPath(c, w.property.path) else old(w.property.analyzedName))
        && w.analyzedValue == (if o.valued then Some(CoercedValue(c, w)) else old(w.analyzedValue))
      ensures w.property.alias == old(w.property.alias)
    {
      var prop := w.property;
      uses := false;
      if !EqualsIgnoreCase(prop.collection, c.name) {
        Fail(WhereInvalid(prop.path));
        return Stopped, false;
      }
      var shortName := ConvertToShortPath(c, prop.path);
      if shortName.None? {
        errorManager.AddError(WhereInvalid(prop.path), NoPosition, NoPosition);
        return Stopped, false;
      }
      prop.analyzedName := shortName;
      var dbProp := GetProperty(c, prop.path);
      if dbProp.None? {
        return Threw(NullReference), false;
      }
      var typeName := dbProp.value.typeName;
      if typeName == "DateTime" {
        w.analyzedValue := Some("new Date(" + w.literal + ")");
      } else if typeName == "Boolean" {
        w.analyzedValue := Some(if w.literal == "1" then "true" else "false");
      } else if typeName == "BsonObjectId" {
        w.analyzedValue := Some("ObjectId(" + w.literal + ")");
      } else {
        w.analyzedValue := Some(w.literal);
      }
      var usesIndex := UsesIndex(c.indices.value, shortName.value);
      if usesIndex.Failure? {
        return Threw(usesIndex.error), false;
      }
      return Running, usesIndex.value;
    }

    /** One clause of AnalyzeWhereClause's index-admission loop. */
    method CheckWhereIndex(c: Collection, w: WhereClause, small: bool) returns (exit: Exit)
      requires c.indices.Some?
      modifies errorManager
      ensures var o := IndexStep(c, c.indices.value, w, small);
        exit == o.exit && errorManager.errors == Apply(old(errorManager.errors), o.reports)
    {
      var shortName := ConvertToShortPath(c, w.property.path);
      if shortName.None? {
        Fail(WhereInvalid(w.property.path));
        return Stopped;
      }
      var usesIndex := UsesIndex(c.indices.value, shortName.value);
      if usesIndex.Failure? {
        return Threw(usesIndex.error);
      }
      if !usesIndex.value && small {
        errorManager.AddWarning(WhereUnindexedCaution(w.property.path), NoPosition, NoPosition);
      } else if !usesIndex.value {
        errorManager.AddError(WhereUnindexedRefused(w.property.path), NoPosition, NoPosition);
      }
      return Running;
    }

    /** Every clause property gets its short name once a clause before `n` holds it, and keeps its value from `names0` otherwise. */
    ghost predicate NamedUpTo(c: Collection, ws: seq<WhereClause>, n: nat, names0: map<PropertyReference, Option<string>>)
      reads Props(ws)
      requires n <= |ws|
    {
      forall o :: o in Props(ws) ==>
        o.analyzedName == (if o in Props(ws[..n]) then ShortPath(c, o.path) else if o in names0 then names0[o] else None)
    }

    /** Every clause before `n` holds its coerced literal; the others keep their value from `values0`. */
    ghost predicate ValuedUpTo(c: Collection, ws: seq<WhereClause>, n: nat, values0: map<WhereClause, Option<string>>)
      reads set w | w in ws
      requires n <= |ws|
    {
      forall w :: w in ws ==>
        w.analyzedValue == (if w in ws[..n] then Some(CoercedValue(c, w)) else if w in values0 then values0[w] else None)
    }

    /** One turn of the first loop of AnalyzeWhereClause. */
    method NameWhereStep(c: Collection, ws: seq<WhereClause>, i: nat, ghost scan: WhereScan,
                         ghost names0: map<PropertyReference, Option<string>>, ghost values0: map<WhereClause, Option<string>>)
      returns (exit: Exit, uses: bool, ghost next: WhereScan)
      requires c.indices.Some? && i < |ws| && scan == ScanWhere(c, c.indices.value, ws[..i]) && scan.exit.Running?
      requires NamedUpTo(c, ws, i, names0) && ValuedUpTo(c, ws, i, values0)
      modifies errorManager, Props(ws), set w | w in ws
      ensures next == ScanWhere(c, c.indices.value, ws[..i + 1]) == Advance(scan, WhereStep(c, c.indices.value, ws[i]), i)
      ensures exit == next.exit
      ensures uses == WhereStep(c, c.indices.value, ws[i]).usesIndex
      ensures errorManager.errors == Apply(old(errorManager.errors), WhereStep(c, c.indices.value, ws[i]).reports)
      ensures NamedUpTo(c, ws, next.named, names0) && ValuedUpTo(c, ws, next.valued, values0)
      ensures forall o :: o in Props(ws) ==> o.alias == old(o.alias)
    {
      var w := ws[i];
      ghost var o := WhereStep(c, c.indices.value, w);
      ScanWhereSnoc(c, c.indices.value, ws, i);
      PropsSnoc(ws, i);
      exit, uses := AnalyzeWhereEntry(c, w);
      next := Advance(scan, o, i);
      forall p | p in Props(ws)
        ensures p.analyzedName == (if p in Props(ws[..next.named]) then ShortPath(c, p.path) else if p in names0 then names0[p] else None)
      {
        if p != w.property {
          assert p.analyzedName == old(p.analyzedName);
        }
      }
      forall x | x in ws
        ensures x.analyzedValue == (if x in ws[..next.valued] then Some(CoercedValue(c, x)) else if x in values0 then values0[x] else None)
      {
        if x != w {
          assert x.analyzedValue == old(x.analyzedValue);
        }
      }
      forall p | p in Props(ws)
        ensures p.alias == old(p.alias)
      {
        if p != w.property {
          assert p.alias == old(p.alias);
        }
      }
    }

    /** Every clause property keeps the alias recorded in `aliases0`. */
    ghost predicate AliasesKept(ws: seq<WhereClause>, aliases0: map<PropertyReference, Option<string>>)
      reads Props(ws)
    {
      forall o :: o in Props(ws) ==> o in aliases0 && o.alias == aliases0[o]
    }

    /** The state of the first loop of AnalyzeWhereClause after the clauses before `i`. */
    ghost predicate WhereState(c: Collection, ws: seq<WhereClause>, i: nat, scan: WhereScan, exit: Exit, indexFound: bool,
                               errors0: seq<QueryError>, names0: map<PropertyReference, Option<string>>,
                               values0: map<WhereClause, Option<string>>, aliases0: map<PropertyReference, Option<string>>)
      reads this, errorManager, Props(ws), set w | w in ws
      requires c.indices.Some?
    {
      && i <= |ws| && scan == ScanWhere(c, c.indices.value, ws[..i])
      && exit == scan.exit && indexFound == (|ws| == 0 || scan.indexFound)
      && errorManager.errors == Apply(errors0, scan.reports)
      && NamedUpTo(c, ws, scan.named, names0) && ValuedUpTo(c, ws, scan.valued, values0)
      && AliasesKept(ws, aliases0)
    }

    /** The first loop of AnalyzeWhereClause, up to the first clause that stops it. */
    method NameWhereClauses(c: Collection, ws: seq<WhereClause>) returns (exit: Exit, indexFound: bool)
      requires c.indices.Some?
      modifies errorManager, Props(ws), set w | w in ws
      ensures var scan := ScanWhere(c, c.indices.value, ws);
        && exit == scan.exit && indexFound == (|ws| == 0 || scan.indexFound)
        && errorManager.errors == Apply(old(errorManager.errors), scan.reports)
        && (forall o :: o in Props(ws) ==>
              o.analyzedName == (if o in Props(ws[..scan.named]) then ShortPath(c, o.path) else old(o.analyzedName)))
        && (forall w :: w in ws ==>
              w.analyzedValue == (if w in ws[..scan.valued] then Some(CoercedValue(c, w)) else old(w.analyzedValue)))
      ensures forall o :: o in Props(ws) ==> o.alias == old(o.alias)
    {
      ghost var names0 := map o | o in Props(ws) :: o.analyzedName;
      ghost var values0 := map w | w in ws :: w.analyzedValue;
      ghost var aliases0 := map o | o in Props(ws) :: o.alias;
      assert ws[..0] == [];
      var i;
      ghost var scan;
      exit, indexFound, i, scan := NameWhereLoop(c, ws, errorManager.errors, names0, values0, aliases0);
      if i == |ws| {
        assert ws[..i] == ws;
      } else {
        ScanWhereStopped(c, c.indices.value, ws, i);
      }
    }

    /** The loop of NameWhereClauses: it runs while clauses remain and none has stopped it. */
    method NameWhereLoop(c: Collection, ws: seq<WhereClause>, ghost errors0: seq<QueryError>,
                         ghost names0: map<PropertyReference, Option<string>>, ghost values0: map<WhereClause, Option<string>>,
                         ghost aliases0: map<PropertyReference, Option<string>>)
      returns (exit: Exit, indexFound: bool, i: nat, ghost scan: WhereScan)
      requires c.indices.Some?
      requires WhereState(c, ws, 0, ScanWhere(c, c.indices.value, ws[..0]), Running, |ws| == 0, errors0, names0, values0, aliases0)
      modifies errorManager, Props(ws), set w | w in ws
      ensures WhereState(c, ws, i, scan, exit, indexFound, errors0, names0, values0, aliases0)
      ensures i == |ws| || !exit.Running?
    {
      var indices := c.indices.value;
      exit := Running;
      indexFound := |ws| == 0;
      i := 0;
      scan := ScanWhere(c, indices, ws[..0]);
      while i < |ws| && exit.Running?
        invariant WhereState(c, ws, i, scan, exit, indexFound, errors0, names0, values0, aliases0)
      {
        ApplyConcat(errors0, scan.reports, WhereStep(c, indices, ws[i]).reports);
        var uses;
        exit, uses, scan := NameWhereStep(c, ws, i, scan, names0, values0);
        if uses {
          indexFound := true;
        }
        i := i + 1;
      }
    }

    /** The index-admission loop of AnalyzeWhereClause, up to the first clause that stops it. */
    method CheckWhereIndices(c: Collection, ws: seq<WhereClause>, small: bool) returns (exit: Exit)
      requires c.indices.Some?
      modifies errorManager
      ensures var check := IndexScan(c, c.indices.value, ws, small);
        exit == check.exit && errorManager.errors == Apply(old(errorManager.errors), check.reports)
    {
      var indices := c.indices.value;
      ghost var errors0 := errorManager.errors;
      exit := Running;
      var j := 0;
      while j < |ws| && exit.Running?
        invariant 0 <= j <= |ws|
        invariant exit == IndexScan(c, indices, ws[..j], small).exit
        invariant errorManager.errors == Apply(errors0, IndexScan(c, indices, ws[..j], small).reports)
      {
        ghost var prev := IndexScan(c, indices, ws[..j], small);
        IndexScanSnoc(c, indices, ws, small, j);
        ApplyConcat(errors0, prev.reports, IndexStep(c, indices, ws[j], small).reports);
        exit := CheckWhereIndex(c, ws[j], small);
        j := j + 1;
      }
      if j == |ws| {
        assert ws[..j] == ws;
      } else {
        IndexScanStopped(c, indices, ws, small, j);
      }
    }

    /**
     * AnalyzeWhereClause: names each clause's property and coerces its literal, stopping at the
     * first clause that is foreign or unresolvable; then, when no clause is indexed, reports each
     * unindexed clause as a warning on a small collection and as an error on a large one.
     */
    method AnalyzeWhereClause(c: Collection, list: Option<seq<WhereClause>>) returns (fault: Option<Fault>)
      requires c.indices.Some?
      modifies if list.Some? then set w | w in list.value else {}
      modifies if list.Some? then Props(list.value) else {}
      modifies errorManager
      ensures list.None? ==> errorManager.errors == old(errorManager.errors) && fault.None?
      ensures list.Some? ==>
        var ws := list.value;
        var small := c.numberOfRows < maxCollectionSizeWithNoIndex;
        var scan := ScanWhere(c, c.indices.value, ws);
        && errorManager.errors == Apply(old(errorManager.errors), scan.reports + SecondPass(c, c.indices.value, ws, small).reports)
        && fault == WhereFault(c, c.indices.value, ws, small)
        && (forall o :: o in Props(ws) ==>
              o.analyzedName == (if o in Props(ws[..scan.named]) then ShortPath(c, o.path) else old(o.analyzedName)))
        && (forall w :: w in ws ==>
              w.analyzedValue == (if w in ws[..scan.valued] then Some(CoercedValue(c, w)) else old(w.analyzedValue)))
        && (forall o :: o in Props(ws) ==> o.alias == old(o.alias))
    {
      if list.None? {
        return None;
      }
      var ws := list.value;
      var small := c.numberOfRows < maxCollectionSizeWithNoIndex;
      ghost var errors0 := errorManager.errors;
      var exit, indexFound := NameWhereClauses(c, ws);
      ghost var scanReports := ScanWhere(c, c.indices.value, ws).reports;
      if !exit.Running? {
        assert scanReports + [] == scanReports;
        return if exit.Threw? then Some(exit.fault) else None;
      }
      if indexFound {
        assert scanReports + [] == scanReports;
        return None;
      }
      ghost var errors1 := errorManager.errors;
      exit := CheckWhereIndices(c, ws, small);
      ApplyConcat(errors0, scanReports, IndexScan(c, c.indices.value, ws, small).reports);
      return if exit.Threw? then Some(exit.fault) else None;
    }

    /** AnalyzeUnwindClause: the unwound property gets its short name, or a warning at its position. */
    method AnalyzeUnwindClause(c: Collection, unwind: UnwindClause?)
      modifies if unwind != null then {unwind.property} else {}
      modifies errorManager
      ensures unwind == null ==> errorManager.errors == old(errorManager.errors)
      ensures unwind != null ==>
        var p := unwind.property;
        && p.alias == old(p.alias)
        && (ShortPath(c, p.path).None? ==>
              errorManager.errors == WithWarning(old(errorManager.errors), UnwindInvalid(p.path), p.line, p.character)
              && p.analyzedName == old(p.analyzedName))
        && (ShortPath(c, p.path).Some? ==>
              errorManager.errors == old(errorManager.errors) && p.analyzedName == ShortPath(c, p.path))
    {
      if unwind != null {
        var prop := unwind.property;
        var shortName := ConvertToShortPath(c, prop.path);
        if shortName.None? {
          errorManager.AddWarning(UnwindInvalid(prop.path), prop.line, prop.character);
        } else {
          prop.analyzedName := shortName;
        }
      }
    }

    /** AnalyzeHavingClause: a having on another collection fails; otherwise its literal is taken as the analyzed value. */
    method AnalyzeHavingClause(c: Collection, having: HavingClause?)
      modifies if having != null then {having} else {}
      modifies errorManager
      ensures having == null ==> errorManager.errors == old(errorManager.errors)
      ensures having != null && !EqualsIgnoreCase(having.property.collection, c.name) ==>
        errorManager.errors == Apply(old(errorManager.errors), [Failing(HavingInvalid(having.property.path))])
        && having.analyzedValue == old(having.analyzedValue)
      ensures having != null && EqualsIgnoreCase(having.property.collection, c.name) ==>
        errorManager.errors == old(errorManager.errors) && having.analyzedValue == Some(having.literal)
    {
      if having != null {
        var prop := having.property;
        if !EqualsIgnoreCase(prop.collection, c.name) {
          Fail(HavingInvalid(prop.path));
          return;
        }
        having.analyzedValue := Some(having.literal);
      }
    }

    /**
     * AnalyzeWithClause: records the select entries of the joined table, then gives the join
     * property its short name in this collection, and that name as alias when it has none.
     */
    method AnalyzeWithClause(c: Collection, with: WithClause?)
      modifies if with != null then {with, with.joinProperty} else {}
      modifies errorManager
      ensures with == null ==> errorManager.errors == old(errorManager.errors)
      ensures with != null ==>
        var p := with.joinProperty;
        && with.selectedColumns == Some(JoinColumns(query.selectProperties.properties, with.joinOnTable))
        && (ShortPath(c, p.path).None? ==>
              && errorManager.errors == Apply(old(errorManager.errors), [Unplaced(WithInvalid(p.path))])
              && p.analyzedName == old(p.analyzedName) && p.alias == old(p.alias))
        && (ShortPath(c, p.path).Some? ==>
              && errorManager.errors == old(errorManager.errors)
              && p.analyzedName == ShortPath(c, p.path)
              && p.alias == (if IsNullOrWhiteSpace(old(p.alias)) then ShortPath(c, p.path) else old(p.alias)))
    {
      if with != null {
        var withTable := with.joinOnTable;
        var columns := JoinColumns(query.selectProperties.properties, withTable);
        with.selectedColumns := Some(columns);
        var shortName := ConvertToShortPath(c, with.joinProperty.path);
        if shortName.None? {
          errorManager.AddError(WithInvalid(with.joinProperty.path), NoPosition, NoPosition);
          return;
        }
        with.joinProperty.analyzedName := shortName;
        if IsNullOrWhiteSpace(with.joinProperty.alias) {
          with.joinProperty.alias := shortName;
        }
      }
    }

    /**
     * AnalyzeGroupByClause: the grouping key must be a resolvable, non-aggregate property; it
     * becomes "_id" with its short name; at most one aggregate may be selected, and a sum or
     * average must resolve; an unindexed key is a warning on a small collection and an error on
     * a large one.
     */
    method AnalyzeGroupByClause(c: Collection, group: GroupByClause?) returns (fault: Option<Fault>)
      requires c.indices.Some?
      modifies if group != null then {group, group.property} else {}
      modifies errorManager, set o | o in query.selectProperties.properties
      ensures group == null ==> errorManager.errors == old(errorManager.errors) && fault.None?
      ensures group != null ==>
        var props := query.selectProperties.properties;
        var o := GroupCheck(c, c.indices.value, group.property, props, c.numberOfRows < maxCollectionSizeWithNoIndex);
        var key := group.property;
        && errorManager.errors == Apply(old(errorManager.errors), o.reports)
        && fault == o.fault
        && key.alias == (if o.keyed then Some("_id") else old(key.alias))
        && key.analyzedName == (if o.keyed then ShortPath(c, key.path) else old(key.analyzedName))
        && group.aggregateByProperty == (if o.keyed then key else old(group.aggregateByProperty))
        && group.aggregationProperty == (if o.picked then Nullable(o.aggregation) else old(group.aggregationProperty))
        && (forall p :: p in props && p != key ==> p.alias == old(p.alias))
        && (forall p :: p in props && p != key ==>
              p.analyzedName == (if o.renamed == Some(p) then ShortPath(c, p.path) else old(p.analyzedName)))
    {
      if group == null {
        return None;
      }
      var key := group.property;
      if key.IsAggregate() {
        errorManager.AddError(GroupOnAggregate(key.path), NoPosition, NoPosition);
        return None;
      }
      var shortName := ConvertToShortPath(c, key.path);
      if shortName.None? {
        errorManager.AddError(GroupInvalid(key.path), NoPosition, NoPosition);
        return None;
      }
      var dbProp := GetProperty(c, key.path);
      if dbProp.None? {
        return Some(NullReference);
      }
      fault := AnalyzeGroupKey(c, group, shortName.value, dbProp.value.typeName);
      assert GroupCheck(c, c.indices.value, key, query.selectProperties.properties, c.numberOfRows < maxCollectionSizeWithNoIndex)
        == Prepend(DateCaution(dbProp.value.typeName), GroupKeyed(c, c.indices.value, key.path, shortName.value,
                   query.selectProperties.properties, c.numberOfRows < maxCollectionSizeWithNoIndex));
    }

    /** AnalyzeGroupByClause once the key resolves to a property of type `typeName`: the key becomes "_id", then the aggregates. */
    method AnalyzeGroupKey(c: Collection, group: GroupByClause, shortName: string, typeName: string)
      returns (fault: Option<Fault>)
      requires c.indices.Some? && !group.property.IsAggregate()
      modifies group, group.property, errorManager, set o | o in query.selectProperties.properties
      ensures
        var props := query.selectProperties.properties;
        var o := Prepend(DateCaution(typeName), GroupKeyed(c, c.indices.value, group.property.path, shortName, props,
                                                           c.numberOfRows < maxCollectionSizeWithNoIndex));
        var key := group.property;
        && errorManager.errors == Apply(old(errorManager.errors), o.reports)
        && fault == o.fault
        && key.alias == Some("_id")
        && key.analyzedName == Some(shortName)
        && group.aggregateByProperty == key
        && group.aggregationProperty == (if o.picked then Nullable(o.aggregation) else old(group.aggregationProperty))
        && (forall p :: p in props && p != key ==> p.alias == old(p.alias))
        && (forall p :: p in props && p != key ==>
              p.analyzedName == (if o.renamed == Some(p) then ShortPath(c, p.path) else old(p.analyzedName)))
    {
      var key := group.property;
      ghost var errors0 := errorManager.errors;
      if typeName == "DateTime" {
        errorManager.AddWarning(DateTimeGroup, NoPosition, NoPosition);
      }
      assert errorManager.errors == Apply(errors0, DateCaution(typeName));
      key.alias := Some("_id");
      key.analyzedName := Some(shortName);
      group.aggregateByProperty := key;
      var props := query.selectProperties.properties;
      fault := AnalyzeGroupAggregate(c, group, shortName, props);
      ghost var rest := GroupKeyed(c, c.indices.value, key.path, shortName, props,
                                   c.numberOfRows < maxCollectionSizeWithNoIndex);
      ApplyConcat(errors0, DateCaution(typeName), rest.reports);
    }

    /** The aggregate checks and the index check of AnalyzeGroupByClause, once the key is set. */
    method AnalyzeGroupAggregate(c: Collection, group: GroupByClause, shortName: string, props: seq<PropertyReference>)
      returns (fault: Option<Fault>)
      requires c.indices.Some? && !group.property.IsAggregate()
      modifies group, errorManager, set o | o in props
      ensures
        var o := GroupKeyed(c, c.indices.value, group.property.path, shortName, props, c.numberOfRows < maxCollectionSizeWithNoIndex);
        && errorManager.errors == Apply(old(errorManager.errors), o.reports)
        && fault == o.fault
        && group.aggregateByProperty == old(group.aggregateByProperty)
        && group.property.alias == old(group.property.alias)
        && group.property.analyzedName == old(group.property.analyzedName)
        && group.aggregationProperty == (if o.picked then Nullable(o.aggregation) else old(group.aggregationProperty))
        && (forall p :: p in props ==> p.alias == old(p.alias))
        && (forall p :: p in props ==>
              p.analyzedName == (if o.renamed == Some(p) then ShortPath(c, p.path) else old(p.analyzedName)))
    {
      ghost var errors0 := errorManager.errors;
      ghost var pick := AggregatePick(c, props);
      var stopped := PickAggregate(c, group, props);
      if stopped {
        return None;
      }
      fault := CheckGroupIndex(c, group.property.path, shortName);
      ghost var small := c.numberOfRows < maxCollectionSizeWithNoIndex;
      ghost var rest := GroupIndexed(c.indices.value, group.property.path, shortName, small, pick.aggregation, pick.renamed);
      assert rest.reports == GroupIndexed(c.indices.value, group.property.path, shortName, small, None, None).reports;
      ApplyConcat(errors0, pick.reports, rest.reports);
    }

    /** Count, SingleOrDefault and the short name of a sum or average, as AnalyzeGroupByClause does them. */
    method PickAggregate(c: Collection, group: GroupByClause, props: seq<PropertyReference>) returns (stopped: bool)
      requires !group.property.IsAggregate()
      modifies group, errorManager, set o | o in props
      ensures
        var pick := AggregatePick(c, props);
        && stopped == pick.stopped
        && errorManager.errors == Apply(old(errorManager.errors), pick.reports)
        && group.aggregateByProperty == old(group.aggregateByProperty)
        && group.property.alias == old(group.property.alias)
        && group.property.analyzedName == old(group.property.analyzedName)
        && group.aggregationProperty == (if pick.picked then Nullable(pick.aggregation) else old(group.aggregationProperty))
        && (forall p :: p in props ==> p.alias == old(p.alias))
        && (forall p :: p in props ==>
              p.analyzedName == (if pick.renamed == Some(p) then ShortPath(c, p.path) else old(p.analyzedName)))
    {
      if AggregateCount(props) > 1 {
        Fail(TooManyAggregates);
        return true;
      }
      var agg := FirstAggregate(props);
      group.aggregationProperty := Nullable(agg);
      if agg.None? {
        errorManager.AddWarning(MissingAggregate, NoPosition, NoPosition);
      } else if agg.value.aggregate != Count {
        var aggShortName := ConvertToShortPath(c, agg.value.path);
        if aggShortName.None? {
          Fail(InvalidSum);
          return true;
        }
        agg.value.analyzedName := aggShortName;
      }
      return false;
    }

    /** The index check of AnalyzeGroupByClause. */
    method CheckGroupIndex(c: Collection, keyPath: string, shortName: string) returns (fault: Option<Fault>)
      requires c.indices.Some?
      modifies errorManager
      ensures var o := GroupIndexed(c.indices.value, keyPath, shortName, c.numberOfRows < maxCollectionSizeWithNoIndex, None, None);
        errorManager.errors == Apply(old(errorManager.errors), o.reports) && fault == o.fault
    {
      var usesIndex := UsesIndex(c.indices.value, shortName);
      if usesIndex.Failure? {
        return Some(usesIndex.error);
      }
      if !usesIndex.value && c.numberOfRows < maxCollectionSizeWithNoIndex {
        errorManager.AddWarning(GroupUnindexedCaution(keyPath), NoPosition, NoPosition);
      } else if !usesIndex.value {
        Fail(GroupUnindexedRefused(keyPath));
      }
      return None;
    }
  }
}
