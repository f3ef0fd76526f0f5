/**
 * The result mapper of the query executor: the documents MongoDB returns are
 * flattened into a table whose columns are the selected properties; nested
 * values are reached by descending dotted paths through documents and arrays.
 * After mapping, the group key's "_id" column is renamed, the join plugins run
 * in order, and every column is converted back to its long name.
 */
module Executor {
  import opened Wrappers
  import opened Text
  import opened Catalog
  import opened Diagnostics
  import opened Ast
  import opened Query

  /**
   * A BSON value: a scalar with its text, an array, or a document whose elements keep
   * their order. BsonValue.ToString is not modelled: it is the parameter `show`.
   */
  datatype Bson = Scalar(text: string) | Arr(items: seq<Bson>) | Doc(fields: seq<(string, Bson)>)

  /** BsonDocument.TryGetValue: the value of the first element with that name, if any. */
  function Find(fields: seq<(string, Bson)>, name: string): (r: Option<Bson>)
    ensures r.None? <==> forall i :: 0 <= i < |fields| ==> fields[i].0 != name
    ensures r.Some? ==> exists i :: 0 <= i < |fields| && fields[i] == (name, r.value)
  {
    if |fields| == 0 then None
    else if fields[0].0 == name then Some(fields[0].1)
    else
      var r := Find(fields[1..], name);
      assert forall i :: 0 < i < |fields| ==> fields[i] == fields[1..][i - 1];
      r
  }

  /** A successful result with `prefix` in front, or the same fault. */
  function Appended<T>(prefix: seq<T>, r: Result<seq<T>, Fault>): Result<seq<T>, Fault>
  {
    match r
    case Success(s) => Success(prefix + s)
    case Failure(f) => Failure(f)
  }

  // ---------------------------------------------------------------------
  // Descent through nested values
  // ---------------------------------------------------------------------

  /**
   * The leaves DrillExtractProperty collects from `v` for the segments `segs`: the value
   * must be a document (AsBsonDocument); a missing segment adds nothing; at the last
   * segment a scalar or document adds its text and an array only its first element;
   * before it, an array is descended element by element and any other value directly.
   */
  function DrillDoc(show: Bson -> string, v: Bson, segs: seq<string>): Result<seq<string>, Fault>
    requires |segs| >= 1
    decreases |segs|, 0
  {
    if !v.Doc? then Failure(InvalidCast)
    else match Find(v.fields, segs[0])
      case None => Success([])
      case Some(val) =>
        if val.Arr? then
          if |segs| == 1 then Success(if |val.items| == 0 then [] else [show(val.items[0])])
          else DrillAll(show, val.items, segs[1..])
        else if |segs| == 1 then Success([show(val)])
        else DrillDoc(show, val, segs[1..])
  }

  /** The leaves collected from each of `docs` in order, stopping at the first fault. */
  function DrillAll(show: Bson -> string, docs: seq<Bson>, segs: seq<string>): Result<seq<string>, Fault>
    requires |segs| >= 1
    decreases |segs|, |docs|
  {
    if |docs| == 0 then Success([])
    else match DrillAll(show, docs[..|docs| - 1], segs)
      case Failure(f) => Failure(f)
      case Success(init) => Appended(init, DrillDoc(show, docs[|docs| - 1], segs))
  }

  lemma AppendedTwice<T>(a: seq<T>, b: seq<T>, r: Result<seq<T>, Fault>)
    ensures Appended(a, Appended(b, r)) == Appended(a + b, r)
  {
    if r.Success? {
      assert a + (b + r.value) == (a + b) + r.value;
    }
  }

  /** Once the descent fails on some element of an array, it fails with that fault however many elements follow. */
  lemma {:induction false} DrillAllFailurePersists(show: Bson -> string, docs: seq<Bson>, segs: seq<string>, k: nat)
    requires |segs| >= 1 && k <= |docs|
    requires DrillAll(show, docs[..k], segs).Failure?
    ensures DrillAll(show, docs, segs) == DrillAll(show, docs[..k], segs)
    decreases |docs| - k
  {
    if k < |docs| {
      assert docs[..k + 1][..k] == docs[..k];
      DrillAllFailurePersists(show, docs, segs, k + 1);
    } else {
      assert docs[..k] == docs;
    }
  }

  /**
   * DrillExtractProperty: splits the remaining column path at dots, looks up the first
   * segment, and recurses on the rest of the path joined again with dots, appending the
   * leaves to `result`.
   */
  method DrillExtractProperty(show: Bson -> string, curDoc: Bson, curColumnRemains: string, result: seq<string>)
    returns (r: Result<seq<string>, Fault>)
    requires curDoc.Doc?
    ensures r == Appended(result, DrillDoc(show, curDoc, Split(curColumnRemains, '.')))
    decreases |Split(curColumnRemains, '.')|, 1
  {
    var splitColumnRemains := Split(curColumnRemains, '.');
    var startPiece := splitColumnRemains[0];
    var found := Find(curDoc.fields, startPiece);
    if found.None? {
      assert result + [] == result;
      return Success(result);
    }
    var val := found.value;
    var rest := splitColumnRemains[1..];
    if |splitColumnRemains| > 1 {
      SplitJoin(rest, '.');
    }
    if val.Arr? {
      if |splitColumnRemains| == 1 {
        // The element loop returns on its first element when the path ends here.
        if |val.items| > 0 {
          return Success(result + [show(val.items[0])]);
        }
        assert result + [] == result;
        return Success(result);
      }
      r := DrillArray(show, val.items, rest, result);
      return;
    }
    if |splitColumnRemains| == 1 {
      return Success(result + [show(val)]);
    }
    if !val.Doc? {
      return Failure(InvalidCast);
    }
    r := DrillExtractProperty(show, val, Join(rest, "."), result);
  }

  /** The element loop of DrillExtractProperty: each element must be a document and is descended with the rest of the path. */
  method DrillArray(show: Bson -> string, items: seq<Bson>, rest: seq<string>, result: seq<string>)
    returns (r: Result<seq<string>, Fault>)
    requires |rest| >= 1
    requires forall i :: 0 <= i < |rest| ==> '.' !in rest[i]
    ensures r == Appended(result, DrillAll(show, items, rest))
    decreases |rest|, 2
  {
    SplitJoin(rest, '.');
    var acc := result;
    var k := 0;
    assert items[..0] == [] && result + [] == result;
    while k < |items|
      invariant k <= |items|
      invariant Appended(result, DrillAll(show, items[..k], rest)) == Success(acc)
    {
      assert items[..k + 1][..k] == items[..k];
      assert acc == result + acc[|result|..];
      AppendedTwice(result, acc[|result|..], DrillDoc(show, items[k], rest));
      if !items[k].Doc? {
        DrillAllFailurePersists(show, items, rest, k + 1);
        return Failure(InvalidCast);
      }
      var sub := DrillExtractProperty(show, items[k], Join(rest, "."), acc);
      if sub.Failure? {
        DrillAllFailurePersists(show, items, rest, k + 1);
        return sub;
      }
      acc := sub.value;
      k := k + 1;
    }
    assert items[..k] == items;
    return Success(acc);
  }

  /** The descent over two arrays one after the other is the descent over the first, then over the second. */
  lemma {:induction false} DrillAllConcat(show: Bson -> string, a: seq<Bson>, b: seq<Bson>, segs: seq<string>)
    requires |segs| >= 1
    ensures DrillAll(show, a + b, segs) ==
      match DrillAll(show, a, segs)
      case Failure(f) => Failure(f)
      case Success(x) => Appended(x, DrillAll(show, b, segs))
    decreases |b|
  {
    if |b| == 0 {
      assert a + b == a;
      if DrillAll(show, a, segs).Success? {
        assert DrillAll(show, a, segs).value + [] == DrillAll(show, a, segs).value;
      }
    } else {
      var init := b[..|b| - 1];
      assert (a + b)[..|a + b| - 1] == a + init;
      assert (a + b)[|a + b| - 1] == b[|b| - 1];
      DrillAllConcat(show, a, init, segs);
      if DrillAll(show, a, segs).Success? && DrillAll(show, init, segs).Success? {
        AppendedTwice(DrillAll(show, a, segs).value, DrillAll(show, init, segs).value, DrillDoc(show, b[|b| - 1], segs));
      }
    }
  }

  /** The value a plain nested lookup reaches: every step must find a field of a document. */
  function PathValue(v: Bson, segs: seq<string>): Option<Bson>
    requires |segs| >= 1
    decreases |segs|
  {
    if !v.Doc? then None
    else match Find(v.fields, segs[0])
      case None => None
      case Some(x) => if |segs| == 1 then Some(x) else PathValue(x, segs[1..])
  }

  /** Along a path of documents ending in a value that is not an array, the descent collects exactly that value. */
  lemma {:induction false} DrillFollowsPath(show: Bson -> string, v: Bson, segs: seq<string>)
    requires |segs| >= 1
    requires PathValue(v, segs).Some? && !PathValue(v, segs).value.Arr?
    ensures DrillDoc(show, v, segs) == Success([show(PathValue(v, segs).value)])
    decreases |segs|
  {
    if |segs| > 1 {
      var x := Find(v.fields, segs[0]).value;
      DrillFollowsPath(show, x, segs[1..]);
    }
  }

  // ---------------------------------------------------------------------
  // One cell, one row, all rows
  // ---------------------------------------------------------------------

  /** The strings of the elements of an array, in order. */
  function Shown(show: Bson -> string, items: seq<Bson>): (r: seq<string>)
    ensures |r| == |items|
  {
    seq(|items|, i requires 0 <= i < |items| => show(items[i]))
  }

  /** The text of a dotted column: no leaf gives "", one leaf itself, several a bracketed list. */
  function FormatLeaves(leaves: seq<string>): string
  {
    if |leaves| < 2 then Join(leaves, "") else "[" + Join(leaves, ", ") + "]"
  }

  /**
   * ExtractColumnValue: a null column name throws; a name without a dot reads the field
   * directly (missing gives "", an array its elements joined by ","); a dotted name is
   * descended and its leaves formatted.
   */
  function ColumnValue(show: Bson -> string, doc: Bson, col: Option<string>): Result<string, Fault>
    requires doc.Doc?
  {
    match col
    case None => Failure(NullReference)
    case Some(c) =>
      if '.' !in c then
        match Find(doc.fields, c)
        case None => Success("")
        case Some(v) => Success(if v.Arr? then Join(Shown(show, v.items), ",") else show(v))
      else
        match DrillDoc(show, doc, Split(c, '.'))
        case Failure(f) => Failure(f)
        case Success(leaves) => Success(FormatLeaves(leaves))
  }

  /** A dotted column whose path runs through documents to a value that is not an array reads that value. */
  lemma DottedColumnReadsPath(show: Bson -> string, doc: Bson, c: string)
    requires doc.Doc? && '.' in c
    requires PathValue(doc, Split(c, '.')).Some? && !PathValue(doc, Split(c, '.')).value.Arr?
    ensures ColumnValue(show, doc, Some(c)) == Success(show(PathValue(doc, Split(c, '.')).value))
  {
    DrillFollowsPath(show, doc, Split(c, '.'));
  }

  method ExtractColumnValue(show: Bson -> string, curDoc: Bson, col: Option<string>) returns (r: Result<string, Fault>)
    requires curDoc.Doc?
    ensures r == ColumnValue(show, curDoc, col)
  {
    if col.None? {
      return Failure(NullReference);
    }
    var c := col.value;
    if '.' !in c {
      var val := Find(curDoc.fields, c);
      if val.None? {
        return Success("");
      }
      if val.value.Arr? {
        return Success(Join(Shown(show, val.value.items), ","));
      }
      return Success(show(val.value));
    }
    var curResult := DrillExtractProperty(show, curDoc, c, []);
    assert forall x: seq<string> :: [] + x == x;
    if curResult.Failure? {
      return Failure(curResult.error);
    }
    return Success(FormatLeaves(curResult.value));
  }

  /** The cells of one document, one per column in order; the first column that throws decides the fault. */
  function RowValues(show: Bson -> string, doc: Bson, cols: seq<Option<string>>): (r: Result<seq<string>, Fault>)
    requires doc.Doc?
    ensures r.Success? <==> forall i :: 0 <= i < |cols| ==> ColumnValue(show, doc, cols[i]).Success?
    ensures r.Success? ==> |r.value| == |cols|
    ensures r.Success? ==> forall i :: 0 <= i < |cols| ==> ColumnValue(show, doc, cols[i]) == Success(r.value[i])
    decreases |cols|
  {
    if |cols| == 0 then Success([])
    else match ColumnValue(show, doc, cols[0])
      case Failure(f) => Failure(f)
      case Success(cell) =>
        var rest := RowValues(show, doc, cols[1..]);
        assert forall i :: 0 < i < |cols| ==> cols[i] == cols[1..][i - 1];
        Appended([cell], rest)
  }

  /** The row ParseResult builds from one document (its Select over the short names). */
  method ExtractRow(show: Bson -> string, curDoc: Bson, shortList: seq<Option<string>>) returns (r: Result<seq<string>, Fault>)
    requires curDoc.Doc?
    ensures r == RowValues(show, curDoc, shortList)
  {
    var row: seq<string> := [];
    var i := 0;
    assert shortList[0..] == shortList;
    assert forall x: seq<string> :: [] + x == x;
    while i < |shortList|
      invariant i <= |shortList|
      invariant RowValues(show, curDoc, shortList) == Appended(row, RowValues(show, curDoc, shortList[i..]))
    {
      assert shortList[i..][1..] == shortList[i + 1..];
      var cell := ExtractColumnValue(show, curDoc, shortList[i]);
      if cell.Failure? {
        return Failure(cell.error);
      }
      AppendedTwice(row, [cell.value], RowValues(show, curDoc, shortList[i + 1..]));
      row := row + [cell.value];
      i := i + 1;
    }
    assert row + [] == row;
    return Success(row);
  }

  /**
   * The rows of all documents, in order: each must be a document (AsBsonDocument) and
   * gives one row with one cell per column; the first fault stops the mapping.
   */
  function RowsOf(show: Bson -> string, docs: seq<Bson>, cols: seq<Option<string>>): (r: Result<seq<seq<string>>, Fault>)
    ensures r.Success? ==> |r.value| == |docs|
    ensures r.Success? ==> forall i :: 0 <= i < |docs| ==>
      docs[i].Doc? && RowValues(show, docs[i], cols) == Success(r.value[i]) && |r.value[i]| == |cols|
    ensures r.Failure? <==> exists i :: 0 <= i < |docs| && (!docs[i].Doc? || RowValues(show, docs[i], cols).Failure?)
    decreases |docs|
  {
    if |docs| == 0 then Success([])
    else if !docs[0].Doc? then Failure(InvalidCast)
    else match RowValues(show, docs[0], cols)
      case Failure(f) => Failure(f)
      case Success(row) =>
        var rest := RowsOf(show, docs[1..], cols);
        assert forall i :: 0 < i < |docs| ==> docs[i] == docs[1..][i - 1];
        Appended([row], rest)
  }

  // ---------------------------------------------------------------------
  // The result table
  // ---------------------------------------------------------------------

  /** The columns (null entries allowed, as List<string> allows them) and the rows of a result. */
  datatype Table = Table(columns: seq<Option<string>>, rows: seq<seq<string>>)

  /** AggregateResult: a column list and a row list, both edited in place. */
  class AggregateResult {
    var columns: seq<Option<string>>
    var rows: seq<seq<string>>

    constructor()
      ensures columns == [] && rows == []
    {
      columns := [];
      rows := [];
    }

    /** The object a join plugin returns. */
    constructor FromTable(t: Table)
      ensures columns == t.columns && rows == t.rows
    {
      columns := t.columns;
      rows := t.rows;
    }

    function Contents(): Table
      reads this
    {
      Table(columns, rows)
    }
  }

  /** What the mapping needs of one select entry: its header and the name the documents use for it. */
  datatype Entry = Entry(header: Option<string>, name: Option<string>)

  /** The header is the path, or the alias for an aggregate; the documents use the analyzed short name, or the alias for an aggregate. */
  function EntryOf(p: PropertyReference): Entry
    reads p
  {
    if p.IsAggregate() then Entry(p.alias, p.alias) else Entry(Some(p.path), p.analyzedName)
  }

  /** The select entries of the primary collection (compared ignoring case), in list order. */
  function EntriesOf(props: seq<PropertyReference>, name: string): (r: seq<Entry>)
    reads set p | p in props
    ensures |r| <= |props|
    ensures forall i :: 0 <= i < |props| && EqualsIgnoreCase(props[i].collection, name) ==> EntryOf(props[i]) in r
    decreases |props|
  {
    if |props| == 0 then []
    else
      var rest := EntriesOf(props[1..], name);
      assert forall i :: 0 < i < |props| ==> props[i] == props[1..][i - 1];
      if EqualsIgnoreCase(props[0].collection, name) then [EntryOf(props[0])] + rest else rest
  }

  function Headers(entries: seq<Entry>): (r: seq<Option<string>>)
    ensures |r| == |entries|
  {
    seq(|entries|, i requires 0 <= i < |entries| => entries[i].header)
  }

  function Names(entries: seq<Entry>): (r: seq<Option<string>>)
    ensures |r| == |entries|
  {
    seq(|entries|, i requires 0 <= i < |entries| => entries[i].name)
  }

  /**
   * What the group by does to the short names: the one equal to the key's analyzed name is
   * read from "_id". `key` is None when the key reference is null, else its analyzed name;
   * a null name in the list, or a null key when the list is not empty, throws.
   */
  function IdKeyed(short: seq<Option<string>>, key: Option<Option<string>>): (r: Result<seq<Option<string>>, Fault>)
    ensures r.Success? <==> (|short| == 0 || key.Some?) && forall i :: 0 <= i < |short| ==> short[i].Some?
    ensures r.Failure? ==> r.error == NullReference
    ensures r.Success? ==> |r.value| == |short|
    ensures r.Success? ==> forall i :: 0 <= i < |short| ==>
      r.value[i] == Some(if key.value == short[i] then "_id" else short[i].value)
    decreases |short|
  {
    if |short| == 0 then Success([])
    else if short[0].None? || key.None? then Failure(NullReference)
    else
      var rest := IdKeyed(short[1..], key);
      assert forall i :: 0 < i < |short| ==> short[i] == short[1..][i - 1];
      Appended([Some(if key.value == short[0] then "_id" else short[0].value)], rest)
  }

  /** The group by as the executor sees it: none, a null key reference, or the key's analyzed name and path. */
  datatype Grouping = Ungrouped | NullKey | Keyed(name: Option<string>, path: string)

  function GroupingOf(g: GroupByClause?): Grouping
    reads g
    reads if g != null && g.aggregateByProperty != null then {g.aggregateByProperty} else {}
  {
    if g == null then Ungrouped
    else if g.aggregateByProperty == null then NullKey
    else Keyed(g.aggregateByProperty.analyzedName, g.aggregateByProperty.path)
  }

  /** The key the short names are compared with: None for a null reference. */
  function KeyOf(grouping: Grouping): Option<Option<string>>
  {
    if grouping.Keyed? then Some(grouping.name) else None
  }

  /** The state of the query that Run reads: none of it changes while Run runs. */
  datatype Shape = Shape(entries: seq<Entry>, grouping: Grouping, collection: Option<Collection>)

  function ShapeOf(q: QupidQuery): Shape
    reads q, q.selectProperties, (set p | p in q.selectProperties.properties), q.groupByClause
    reads if q.groupByClause != null && q.groupByClause.aggregateByProperty != null
          then {q.groupByClause.aggregateByProperty} else {}
  {
    Shape(EntriesOf(q.selectProperties.properties, q.collectionName), GroupingOf(q.groupByClause), q.collection)
  }

  /** The names ParseResult reads each document with. */
  function ReadNames(s: Shape): Result<seq<Option<string>>, Fault>
  {
    if s.grouping.Ungrouped? then Success(Names(s.entries)) else IdKeyed(Names(s.entries), KeyOf(s.grouping))
  }

  /**
   * What ParseResult leaves in a fresh result: nothing for no documents, else the headers
   * of the primary-collection entries and one row per document.
   */
  function Mapped(show: Bson -> string, docs: seq<Bson>, s: Shape): Result<Table, Fault>
  {
    if |docs| == 0 then Success(Table([], []))
    else
      match ReadNames(s)
      case Failure(f) => Failure(f)
      case Success(names) =>
        match RowsOf(show, docs, names)
        case Failure(f) => Failure(f)
        case Success(rows) => Success(Table(Headers(s.entries), rows))
  }

  /** Every mapped row has one cell per column, and there is one row per document. */
  lemma MappedAligned(show: Bson -> string, docs: seq<Bson>, s: Shape)
    requires Mapped(show, docs, s).Success?
    ensures |Mapped(show, docs, s).value.rows| == |docs|
    ensures forall i :: 0 <= i < |docs| ==> |Mapped(show, docs, s).value.rows[i]| == |Mapped(show, docs, s).value.columns|
  {
    if |docs| > 0 {
      assert |ReadNames(s).value| == |s.entries|;
    }
  }

  /** ParseResult, on the fresh result Run made. */
  method ParseResult(show: Bson -> string, resultArray: seq<Bson>, query: QupidQuery, results: AggregateResult)
    returns (fault: Option<Fault>)
    requires results.columns == [] && results.rows == []
    modifies results
    ensures match Mapped(show, resultArray, old(ShapeOf(query)))
      case Failure(f) => fault == Some(f)
      case Success(t) => fault == None && results.Contents() == t
  {
    if |resultArray| == 0 {
      return None;
    }
    var entries := EntriesOf(query.selectProperties.properties, query.collectionName);
    results.columns := Headers(entries);
    var shortList := Names(entries);
    if query.groupByClause != null {
      var key: Option<Option<string>> := None;
      if query.groupByClause.aggregateByProperty != null {
        key := Some(query.groupByClause.aggregateByProperty.analyzedName);
      }
      var keyed := IdKeyed(shortList, key);
      if keyed.Failure? {
        return Some(keyed.error);
      }
      shortList := keyed.value;
    }
    assert ReadNames(ShapeOf(query)) == Success(shortList);
    var rows := MapRows(show, resultArray, shortList);
    if rows.Failure? {
      return Some(rows.error);
    }
    results.rows := rows.value;
    return None;
  }

  /** ParseResult's loop over the documents: each must be a document and gives one row. */
  method MapRows(show: Bson -> string, resultArray: seq<Bson>, shortList: seq<Option<string>>)
    returns (r: Result<seq<seq<string>>, Fault>)
    ensures r == RowsOf(show, resultArray, shortList)
  {
    var rows: seq<seq<string>> := [];
    assert forall x: seq<seq<string>> :: [] + x == x;
    assert resultArray[0..] == resultArray;
    var k := 0;
    while k < |resultArray|
      invariant k <= |resultArray|
      invariant RowsOf(show, resultArray, shortList) == Appended(rows, RowsOf(show, resultArray[k..], shortList))
    {
      assert resultArray[k..][1..] == resultArray[k + 1..];
      var curVal := resultArray[k];
      if !curVal.Doc? {
        return Failure(InvalidCast);
      }
      var row := ExtractRow(show, curVal, shortList);
      if row.Failure? {
        return Failure(row.error);
      }
      AppendedTwice(rows, [row.value], RowsOf(show, resultArray[k + 1..], shortList));
      rows := rows + [row.value];
      k := k + 1;
    }
    assert rows + [] == rows;
    return Success(rows);
  }

  // ---------------------------------------------------------------------
  // Run: renaming the group key, the join plugins, the long names
  // ---------------------------------------------------------------------

  /** A header that reads "_id" in lower case. */
  predicate IsIdColumn(c: Option<string>)
  {
    c.Some? && Lower(c.value) == "_id"
  }

  /** Column `j` is the first "_id" header, and every header before it is a non-null other name. */
  predicate FirstIdAt(cols: seq<Option<string>>, j: int)
  {
    0 <= j < |cols| && IsIdColumn(cols[j]) && forall k :: 0 <= k < j ==> cols[k].Some? && !IsIdColumn(cols[k])
  }

  /** Column `j` is a null header met before any "_id" header. */
  predicate NullBeforeId(cols: seq<Option<string>>, j: int)
  {
    0 <= j < |cols| && cols[j].None? && forall k :: 0 <= k < j ==> cols[k].Some? && !IsIdColumn(cols[k])
  }

  /** FirstOrDefault(c => c.ToLowerInvariant().Equals("_id")): lower-casing a null header first throws. */
  function FirstIdColumn(cols: seq<Option<string>>): (r: Result<Option<string>, Fault>)
    ensures r.Failure? <==> exists j :: NullBeforeId(cols, j)
    ensures r.Failure? ==> r.error == NullReference
    ensures r == Success(None) <==> forall j :: 0 <= j < |cols| ==> cols[j].Some? && !IsIdColumn(cols[j])
    ensures r.Success? && r.value.Some? ==> exists j :: FirstIdAt(cols, j) && cols[j] == r.value
    decreases |cols|
  {
    if |cols| == 0 then Success(None)
    else if cols[0].None? then
      assert NullBeforeId(cols, 0);
      Failure(NullReference)
    else if IsIdColumn(cols[0]) then
      assert FirstIdAt(cols, 0);
      Success(cols[0])
    else
      var r := FirstIdColumn(cols[1..]);
      assert forall k :: 0 < k < |cols| ==> cols[k] == cols[1..][k - 1];
      assert forall j :: NullBeforeId(cols[1..], j) ==> NullBeforeId(cols, j + 1);
      assert forall j :: 0 < j && NullBeforeId(cols, j) ==> NullBeforeId(cols[1..], j - 1);
      assert forall j :: FirstIdAt(cols[1..], j) ==> FirstIdAt(cols, j + 1);
      r
  }

  /** List.IndexOf: the first position holding `x`, or -1. */
  function IndexOf(cols: seq<Option<string>>, x: Option<string>): (r: int)
    ensures -1 <= r < |cols|
    ensures r == -1 <==> x !in cols
    ensures r >= 0 ==> cols[r] == x && forall k :: 0 <= k < r ==> cols[k] != x
    decreases |cols|
  {
    if |cols| == 0 then -1
    else if cols[0] == x then 0
    else
      var r := IndexOf(cols[1..], x);
      assert forall k :: 0 < k < |cols| ==> cols[k] == cols[1..][k - 1];
      if r == -1 then -1 else r + 1
  }

  /** IndexOf finds the "_id" header that FirstOrDefault returned at the position where it was found. */
  lemma IdIndexIsFirst(cols: seq<Option<string>>)
    requires FirstIdColumn(cols).Success? && FirstIdColumn(cols).value.Some?
    ensures FirstIdAt(cols, IndexOf(cols, FirstIdColumn(cols).value))
  {
    var j :| FirstIdAt(cols, j) && cols[j] == FirstIdColumn(cols).value;
    var idx := IndexOf(cols, cols[j]);
    assert cols[j] in cols;
  }

  /** There is only one first "_id" header. */
  lemma FirstIdUnique(cols: seq<Option<string>>, i: int, j: int)
    requires FirstIdAt(cols, i) && FirstIdAt(cols, j)
    ensures i == j
  {
  }

  /**
   * The group by rename in Run: with a group by and some columns, the first "_id" header is
   * removed and the key's path inserted at its position; a null key then throws.
   */
  function Renamed(t: Table, grouping: Grouping): (r: Result<Table, Fault>)
  {
    if grouping.Ungrouped? || |t.columns| == 0 then Success(t)
    else match FirstIdColumn(t.columns)
      case Failure(f) => Failure(f)
      case Success(None) => Success(t)
      case Success(Some(x)) =>
        IdIndexIsFirst(t.columns);
        var idx := IndexOf(t.columns, Some(x));
        if grouping.NullKey? then Failure(NullReference)
        else Success(t.(columns := t.columns[..idx] + [Some(grouping.path)] + t.columns[idx + 1..]))
  }

  /** Putting `x` between the columns before and after position `idx` is updating position `idx`. */
  lemma SpliceIsUpdate(cols: seq<Option<string>>, idx: nat, x: Option<string>)
    requires idx < |cols|
    ensures cols[..idx] + [x] + cols[idx + 1..] == cols[idx := x]
  {
  }

  /**
   * The rename touches only the first "_id" header, which takes the key's path; the rows
   * and every other header stay.
   */
  lemma RenameTargetsFirstId(t: Table, grouping: Grouping)
    requires Renamed(t, grouping).Success?
    ensures Renamed(t, grouping).value.rows == t.rows
    ensures !grouping.Ungrouped? ==> forall j :: FirstIdAt(t.columns, j) ==>
      grouping.Keyed? && Renamed(t, grouping).value.columns == t.columns[j := Some(grouping.path)]
  {
    var cols := t.columns;
    if !grouping.Ungrouped? && |cols| > 0 && FirstIdColumn(cols).value.Some? {
      IdIndexIsFirst(cols);
      var idx := IndexOf(cols, FirstIdColumn(cols).value);
      SpliceIsUpdate(cols, idx, Some(grouping.path));
      forall j | FirstIdAt(cols, j)
        ensures j == idx
      {
        FirstIdUnique(cols, idx, j);
      }
    }
  }

  /** Without an "_id" header, and with no null header for the search to throw on, the rename changes nothing. */
  lemma RenameWithoutIdKeepsTable(t: Table, grouping: Grouping)
    requires forall j :: 0 <= j < |t.columns| ==> t.columns[j].Some? && !IsIdColumn(t.columns[j])
    ensures Renamed(t, grouping) == Success(t)
  {
  }

  /**
   * A join plugin: the reports its column check issues, and the table its join returns.
   * Each plugin's own code is not part of this model.
   */
  datatype Plugin = Plugin(verify: seq<Report>, join: Table -> Table)

  /** The table after the plugins ran in list order, each on the previous one's output. */
  function JoinAll(t: Table, plugins: seq<Plugin>): Table
    decreases |plugins|
  {
    if |plugins| == 0 then t else plugins[|plugins| - 1].join(JoinAll(t, plugins[..|plugins| - 1]))
  }

  /** Every plugin's reports, in plugin order. */
  function PluginReports(plugins: seq<Plugin>): seq<Report>
    decreases |plugins|
  {
    if |plugins| == 0 then [] else PluginReports(plugins[..|plugins| - 1]) + plugins[|plugins| - 1].verify
  }

  /** Running two plugin lists one after the other joins like running their concatenation. */
  lemma {:induction false} JoinAllCompose(t: Table, a: seq<Plugin>, b: seq<Plugin>)
    ensures JoinAll(t, a + b) == JoinAll(JoinAll(t, a), b)
    decreases |b|
  {
    if |b| == 0 {
      assert a + b == a;
    } else {
      var init := b[..|b| - 1];
      assert (a + b)[..|a + b| - 1] == a + init;
      assert (a + b)[|a + b| - 1] == b[|b| - 1];
      JoinAllCompose(t, a, init);
    }
  }

  /** ... and issues the same reports, in the same order. */
  lemma {:induction false} PluginReportsCompose(a: seq<Plugin>, b: seq<Plugin>)
    ensures PluginReports(a + b) == PluginReports(a) + PluginReports(b)
    decreases |b|
  {
    if |b| == 0 {
      assert a + b == a;
      assert PluginReports(a) + [] == PluginReports(a);
    } else {
      var init := b[..|b| - 1];
      var last := b[|b| - 1].verify;
      assert (a + b)[..|a + b| - 1] == a + init;
      assert (a + b)[|a + b| - 1] == b[|b| - 1];
      assert PluginReports(a + b) == PluginReports(a + init) + last;
      PluginReportsCompose(a, init);
      assert PluginReports(b) == PluginReports(init) + last;
      assert (PluginReports(a) + PluginReports(init)) + last == PluginReports(a) + (PluginReports(init) + last);
    }
  }

  /**
   * The final pass of Run: every header converted to its long name (ConvertToLongPath, or
   * the header itself); a null header or a null collection throws.
   */
  function LongNames(coll: Option<Collection>, cols: seq<Option<string>>): (r: Result<seq<Option<string>>, Fault>)
    ensures r.Success? <==> |cols| == 0 || (coll.Some? && forall i :: 0 <= i < |cols| ==> cols[i].Some?)
    ensures r.Failure? ==> r.error == NullReference
    ensures r.Success? ==> |r.value| == |cols|
    ensures r.Success? ==> forall i :: 0 <= i < |cols| ==> r.value[i] == Some(LongPath(coll.value, cols[i].value))
    decreases |cols|
  {
    if |cols| == 0 then Success([])
    else if coll.None? || cols[0].None? then Failure(NullReference)
    else
      var rest := LongNames(coll, cols[1..]);
      assert forall k :: 0 < k < |cols| ==> cols[k] == cols[1..][k - 1];
      Appended([Some(LongPath(coll.value, cols[0].value))], rest)
  }

  /**
   * Headers a plugin added, whose first segment is no short name of the collection, pass
   * through unchanged; headers that are full short paths become long paths that convert
   * back to them.
   */
  lemma LongNamesKeepOrInvert(c: Collection, cols: seq<Option<string>>)
    requires LongNames(Some(c), cols).Success?
    ensures forall i :: 0 <= i < |cols| && Split(cols[i].value, '.')[0] !in c.top.shortToLong ==>
      LongNames(Some(c), cols).value[i] == cols[i]
    ensures WellFormed(c.top) ==> forall i :: 0 <= i < |cols| && ShortResolvable(c.top, Split(cols[i].value, '.')) ==>
      ShortPath(c, LongNames(Some(c), cols).value[i].value) == cols[i]
  {
    if WellFormed(c.top) {
      forall i | 0 <= i < |cols| && ShortResolvable(c.top, Split(cols[i].value, '.'))
        ensures ShortPath(c, LongNames(Some(c), cols).value[i].value) == cols[i]
      {
        ShortLongRoundTrip(c, cols[i].value);
      }
    }
  }

  /** The plugins' joins, then the long-name pass. */
  function Finished(t: Table, coll: Option<Collection>, plugins: seq<Plugin>): Result<Table, Fault>
  {
    var joined := JoinAll(t, plugins);
    match LongNames(coll, joined.columns)
    case Failure(f) => Failure(f)
    case Success(cols) => Success(joined.(columns := cols))
  }

  /** What Run does with the mapped table. */
  function AfterMapping(t: Table, s: Shape, plugins: seq<Plugin>): Result<Table, Fault>
  {
    match Renamed(t, s.grouping)
    case Failure(f) => Failure(f)
    case Success(t2) => Finished(t2, s.collection, plugins)
  }

  /** What Run returns from the documents the command produced. */
  function Processed(show: Bson -> string, docs: seq<Bson>, s: Shape, plugins: seq<Plugin>): Result<Table, Fault>
  {
    match Mapped(show, docs, s)
    case Failure(f) => Failure(f)
    case Success(t) => AfterMapping(t, s, plugins)
  }

  /** The plugins run, and issue their reports, once the mapping and the rename went through. */
  predicate ReachesPlugins(show: Bson -> string, docs: seq<Bson>, s: Shape)
  {
    Mapped(show, docs, s).Success? && Renamed(Mapped(show, docs, s).value, s.grouping).Success?
  }

  /** QueryExecutor: the shared error manager and the join plugins, in order. */
  class QueryExecutor {
    const errorManager: ErrorManager
    const joinPlugins: seq<Plugin>

    constructor(errorManager: ErrorManager)
      ensures this.errorManager == errorManager && joinPlugins == []
    {
      this.errorManager := errorManager;
      joinPlugins := [];
    }

    constructor WithPlugins(errorManager: ErrorManager, plugins: seq<Plugin>)
      ensures this.errorManager == errorManager && joinPlugins == plugins
    {
      this.errorManager := errorManager;
      joinPlugins := plugins;
    }

    /**
     * Run, from the documents the aggregate command returned: map them, rename the group
     * key's column, run the plugins, convert the headers to long names. A fault is an
     * exception that leaves Run.
     */
    method Run(show: Bson -> string, resultArray: seq<Bson>, query: QupidQuery) returns (r: Result<AggregateResult, Fault>)
      modifies errorManager
      ensures errorManager.errors ==
        if ReachesPlugins(show, resultArray, old(ShapeOf(query))) then Apply(old(errorManager.errors), PluginReports(joinPlugins))
        else old(errorManager.errors)
      ensures match Processed(show, resultArray, old(ShapeOf(query)), joinPlugins)
        case Failure(f) => r == Failure(f)
        case Success(t) => r.Success? && fresh(r.value) && r.value.Contents() == t
    {
      ghost var shape := ShapeOf(query);
      var aggResult := new AggregateResult();
      var fault := ParseResult(show, resultArray, query, aggResult);
      if fault.Some? {
        assert Processed(show, resultArray, shape, joinPlugins) == Failure(fault.value);
        return Failure(fault.value);
      }
      ghost var mapped := aggResult.Contents();
      assert Mapped(show, resultArray, shape) == Success(mapped);
      assert GroupingOf(query.groupByClause) == shape.grouping;
      fault := RenameIdColumn(aggResult, query.groupByClause);
      if fault.Some? {
        assert Processed(show, resultArray, shape, joinPlugins) == Failure(fault.value);
        return Failure(fault.value);
      }
      assert Renamed(mapped, shape.grouping) == Success(aggResult.Contents());
      assert Processed(show, resultArray, shape, joinPlugins) == Finished(aggResult.Contents(), shape.collection, joinPlugins);
      r := Finish(aggResult, query.collection);
    }

    /** The plugin loop and the long-name pass of Run. */
    method Finish(aggResult: AggregateResult, coll: Option<Collection>) returns (r: Result<AggregateResult, Fault>)
      modifies errorManager, aggResult
      ensures errorManager.errors == Apply(old(errorManager.errors), PluginReports(joinPlugins))
      ensures match Finished(old(aggResult.Contents()), coll, joinPlugins)
        case Failure(f) => r == Failure(f)
        case Success(t) => r.Success? && (r.value == aggResult || fresh(r.value)) && r.value.Contents() == t
    {
      var joined := RunPlugins(aggResult);
      var longNames := LongNames(coll, joined.columns);
      if longNames.Failure? {
        return Failure(longNames.error);
      }
      joined.columns := longNames.value;
      return Success(joined);
    }

    /** Replaces the first "_id" header by the group key's path, as RemoveAt followed by Insert. */
    method RenameIdColumn(aggResult: AggregateResult, g: GroupByClause?) returns (fault: Option<Fault>)
      modifies aggResult
      ensures match Renamed(old(aggResult.Contents()), old(GroupingOf(g)))
        case Failure(f) => fault == Some(f)
        case Success(t) => fault == None && aggResult.Contents() == t
    {
      if g != null && |aggResult.columns| > 0 {
        var idCol := FirstIdColumn(aggResult.columns);
        if idCol.Failure? {
          return Some(idCol.error);
        }
        if idCol.value.Some? {
          IdIndexIsFirst(aggResult.columns);
          var cols := aggResult.columns;
          var idColIdx := IndexOf(cols, idCol.value);
          aggResult.columns := cols[..idColIdx] + cols[idColIdx + 1..];
          if g.aggregateByProperty == null {
            return Some(NullReference);
          }
          var removed := aggResult.columns;
          assert removed[..idColIdx] == cols[..idColIdx] && removed[idColIdx..] == cols[idColIdx + 1..];
          aggResult.columns := removed[..idColIdx] + [Some(g.aggregateByProperty.path)] + removed[idColIdx..];
        }
      }
      return None;
    }

    /** Each plugin in turn checks its columns, then joins; the check never stops the join. */
    method RunPlugins(aggResult: AggregateResult) returns (out: AggregateResult)
      modifies errorManager
      ensures out == aggResult || fresh(out)
      ensures out.Contents() == JoinAll(old(aggResult.Contents()), joinPlugins)
      ensures errorManager.errors == Apply(old(errorManager.errors), PluginReports(joinPlugins))
    {
      out := aggResult;
      ghost var t0 := aggResult.Contents();
      ghost var errors0 := errorManager.errors;
      var i := 0;
      while i < |joinPlugins|
        invariant i <= |joinPlugins|
        invariant out == aggResult || fresh(out)
        invariant out.Contents() == JoinAll(t0, joinPlugins[..i])
        invariant errorManager.errors == Apply(errors0, PluginReports(joinPlugins[..i]))
      {
        var plugin := joinPlugins[i];
        assert joinPlugins[..i + 1][..i] == joinPlugins[..i];
        ApplyConcat(errors0, PluginReports(joinPlugins[..i]), plugin.verify);
        errorManager.IssueAll(plugin.verify);
        out := new AggregateResult.FromTable(plugin.join(out.Contents()));
        i := i + 1;
      }
      assert joinPlugins[..i] == joinPlugins;
    }
  }
}
