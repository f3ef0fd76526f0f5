/**
 * Worked compilations against the catalog the compiler tests use: one
 * collection `foo` with three leaf properties and an empty index list.
 * The tests compare the command text after collapsing every run of white
 * space to one space and trimming the ends; the analyzed query's text is
 * shown to collapse to the text the date-comparison test expects.
 */
module Scenarios {
  import opened Wrappers
  import opened Text
  import opened Catalog
  import opened Ast
  import opened Query
  import opened Analyzer
  import opened Collapse

  // ---------------------------------------------------------------------
  // The test catalog
  // ---------------------------------------------------------------------

  const FooId := Property("_id", "FooId", "BsonObjectId", false, false, false, [], None)
  const FooName := Property("n", "Name", "string", false, false, false, [], None)
  const FooDateCreated := Property("dc", "DateCreated", "DateTime", false, false, false, [], None)

  const FooProperties := [FooId, FooName, FooDateCreated]

  /** Database and name "foo", no indices, the three properties and both name dictionaries; the row count is left at zero. */
  const Foo := Collection("foo", "foo", Some([]),
    Level(FooProperties,
          map["_id" := "FooId", "n" := "Name", "dc" := "DateCreated"],
          map["FooId" := "_id", "Name" := "n", "DateCreated" := "dc"]),
    0)

  /** The query names the collection "Foo"; the catalog lookup ignores case and finds the one entry. */
  lemma FooFound()
    ensures FindCollection([Foo], "Foo") == Success(Some(Foo))
  {
    EqualsIgnoreCaseCharwise("foo", "Foo");
    assert Matching([Foo], "Foo") == [Foo];
  }

  /** A one-segment path whose segment names a leaf of the level converts to that leaf's short name. */
  lemma OneSegment(c: Collection, x: string, p: Property)
    requires '.' !in x && x in c.top.longToShort && c.top.longToShort[x] == p.shortName
    requires FetchProperty(c.top.properties, x) == Some(p) && p.sub.None?
    ensures ShortPath(c, x) == Some(p.shortName) && PropertyAt(c, x) == Some(p)
  {
    SplitSingle(x, '.');
    assert [x][1..] == [];
    assert ShortWalk(c.top, [x]) == [p.shortName];
    assert PropertyWalk(c.top, [x], None) == PropertyWalk(c.top, [], Some(p));
  }

  lemma FooIdFetched()
    ensures FetchProperty(FooProperties, "FooId") == Some(FooId)
  {
  }

  lemma FooNameFetched()
    ensures FetchProperty(FooProperties, "Name") == Some(FooName)
  {
    assert FooProperties[1..] == [FooName, FooDateCreated];
    assert |Lower("FooId")| != |Lower("Name")|;
  }

  lemma FooDateCreatedFetched()
    ensures FetchProperty(FooProperties, "DateCreated") == Some(FooDateCreated)
  {
    var rest := [FooName, FooDateCreated];
    assert FooProperties[1..] == rest && rest[1..] == [FooDateCreated];
    assert FetchProperty([FooDateCreated], "DateCreated") == Some(FooDateCreated);
    assert |Lower("Name")| != |Lower("DateCreated")|;
    assert FetchProperty(rest, "DateCreated") == Some(FooDateCreated);
    assert |Lower("FooId")| != |Lower("DateCreated")|;
  }

  lemma DateCreatedDotFree()
    ensures '.' !in "DateCreated"
  {
  }

  lemma DateCreatedShortName()
    ensures "DateCreated" in Foo.top.longToShort && Foo.top.longToShort["DateCreated"] == "dc"
  {
  }

  lemma FooIdPath()
    ensures ShortPath(Foo, "FooId") == Some("_id") && PropertyAt(Foo, "FooId") == Some(FooId)
  {
    FooIdFetched();
    OneSegment(Foo, "FooId", FooId);
  }

  lemma FooNamePath()
    ensures ShortPath(Foo, "Name") == Some("n") && PropertyAt(Foo, "Name") == Some(FooName)
  {
    FooNameFetched();
    OneSegment(Foo, "Name", FooName);
  }

  lemma FooDateCreatedPath()
    ensures ShortPath(Foo, "DateCreated") == Some("dc") && PropertyAt(Foo, "DateCreated") == Some(FooDateCreated)
  {
    FooDateCreatedFetched();
    DateCreatedDotFree();
    DateCreatedShortName();
    OneSegment(Foo, "DateCreated", FooDateCreated);
  }

  /** GetAllReferencedProperties("*") gives the three properties, in catalog order. */
  lemma FooStar()
    ensures Expand(Foo, "*") == Expanded(FooProperties)
  {
    ExpandStar(Foo);
    assert FooProperties[1..] == [FooName, FooDateCreated];
    assert FooProperties[1..][1..] == [FooDateCreated];
  }

  /** All three properties are leaves. */
  lemma FooLeaves()
    ensures Leaves(Foo.top.properties) == FooProperties
  {
    FooStar();
    ExpandStar(Foo);
  }

  /** A where literal compared with FooId becomes an object id. */
  lemma FooIdCoerced(w: WhereClause)
    requires w.property.path == "FooId"
    ensures CoercedValue(Foo, w) == "ObjectId(" + w.literal + ")"
  {
    FooIdPath();
  }

  /** A where literal compared with DateCreated becomes a JavaScript date. */
  lemma FooDateCoerced(w: WhereClause)
    requires w.property.path == "DateCreated"
    ensures CoercedValue(Foo, w) == "new Date(" + w.literal + ")"
  {
    FooDateCreatedPath();
  }

  // ---------------------------------------------------------------------
  // SELECT Foo.* FROM Foo WHERE Foo.DateCreated > '2013-04-11'
  // ---------------------------------------------------------------------

  /** The select entry `Foo.*` is a star entry of the test collection. */
  lemma StarSelected(star: PropertyReference)
    requires star.collection == "Foo" && star.path == "*" && star.aggregate == Classify("*")
    ensures IsStar(Foo, star)
  {
    EqualsIgnoreCaseCharwise("Foo", "foo");
  }

  /** A select list of the one star entry becomes exactly the references made for the expansion. */
  lemma StarReplaced(star: PropertyReference, added: seq<seq<PropertyReference>>)
    requires IsStar(Foo, star) && |added| == 1
    ensures SelectList(Foo, [star], [star], added, 1) == added[0]
  {
    var refs := added[0];
    assert SelectList(Foo, [star], [star], added, 0) == [star];
    assert ([star] + refs)[0] == star;
    assert ([star] + refs)[1..] == refs;
  }

  lemma FooNamedFoo()
    ensures EqualsIgnoreCase("Foo", Foo.name)
  {
    EqualsIgnoreCaseCharwise("Foo", "foo");
  }

  lemma DateClauseStep(w: WhereClause)
    requires w.property.collection == "Foo" && w.property.path == "DateCreated"
    ensures WhereStep(Foo, [], w) == ClauseOutcome([], true, true, false, Running)
  {
    FooNamedFoo();
    FooDateCreatedPath();
    assert UsesIndex([], "dc") == Success(false);
  }

  /** The first pass over the one where clause names it and values it, and finds no index. */
  lemma DateClauseScanned(w: WhereClause)
    requires w.property.collection == "Foo" && w.property.path == "DateCreated"
    ensures ScanWhere(Foo, [], [w]) == WhereScan([], 1, 1, false, Running)
  {
    DateClauseStep(w);
    assert [w][..0] == [];
    assert ScanWhere(Foo, [], []) == WhereScan([], 0, 0, false, Running);
  }

  const DateClause := "{'dc':{$gt:new Date('2013-04-11')}}"

  lemma DateValue()
    ensures "new Date(" + "'2013-04-11'" + ")" == "new Date('2013-04-11')"
  {
  }

  lemma DateBodyPieces()
    ensures "{" + "$gt" + ":" + "new Date('2013-04-11')" + "}" == "{$gt:new Date('2013-04-11')}"
  {
  }

  lemma DateBody()
    ensures ComparatorBody(GreaterThan, "new Date('2013-04-11')") == "{$gt:new Date('2013-04-11')}"
  {
    assert Operator(GreaterThan) == "$gt";
    DateBodyPieces();
  }

  lemma DateComparatorPieces()
    ensures "{'" + "dc" + "':" + "{$gt:new Date('2013-04-11')}" + "}" == DateClause
  {
  }

  lemma DateComparator()
    ensures ComparatorText(Some("dc"), GreaterThan, Some("new Date('2013-04-11')")) == DateClause
  {
    DateBody();
    DateComparatorPieces();
  }

  /** The rendered where clause. */
  lemma DateClauseText(w: WhereClause)
    requires w.property.analyzedName == Some("dc") && w.comparison == GreaterThan
    requires w.analyzedValue == Some("new Date(" + "'2013-04-11'" + ")")
    ensures w.Text() == DateClause
  {
    DateValue();
    DateComparator();
  }

  lemma DateClauseWords()
    ensures "{'dc':{$gt:new" + " " + "Date('2013-04-11')}}" == DateClause
  {
  }

  lemma DateClauseLeftTidy()
    ensures Tidy("{'dc':{$gt:new")
  {
    SolidTidy("{'dc':{$gt:new");
  }

  lemma DateClauseRightTidy()
    ensures Tidy("Date('2013-04-11')}}")
  {
    SolidTidy("Date('2013-04-11')}}");
  }

  lemma DateClauseTidy()
    ensures Tidy(DateClause)
  {
    DateClauseLeftTidy();
    DateClauseRightTidy();
    TidyJoined("{'dc':{$gt:new", "Date('2013-04-11')}}");
    DateClauseWords();
  }

  lemma ShortNamesVisible()
    ensures !IsNullOrWhiteSpace(Some("_id")) && !IsNullOrWhiteSpace(Some("n")) && !IsNullOrWhiteSpace(Some("dc"))
  {
    assert !IsWhiteSpace("_id"[0]) && !IsWhiteSpace("n"[0]) && !IsWhiteSpace("dc"[0]);
  }

  /** The three made references project their short names, in catalog order. */
  lemma ProjectedShortNames(refs: seq<PropertyReference>, line: int, character: int)
    requires ExpandedFrom("foo", FooProperties, line, character, refs)
    ensures ProjectNames(refs) == ["_id", "n", "dc"]
  {
    assert MadeFor("foo", FooProperties[0], line, character, refs[0]);
    assert MadeFor("foo", FooProperties[1], line, character, refs[1]);
    assert MadeFor("foo", FooProperties[2], line, character, refs[2]);
    ShortNamesVisible();
    assert refs[..0] == [];
    ProjectNamesSnoc(refs, 0);
    ProjectNamesSnoc(refs, 1);
    ProjectNamesSnoc(refs, 2);
    assert refs[..3] == refs;
  }

  lemma ShortNamesSolid()
    ensures forall i :: 0 <= i < |["_id", "n", "dc"]| ==> Solid(["_id", "n", "dc"][i])
  {
    assert Solid("_id") && Solid("n") && Solid("dc");
  }

  /** The text CompilerTests.cs expects, in the pieces the collapsed command is made of. */
  const ExpectedDateQuery :=
    "{ aggregate:'foo', pipeline: [" + " " + "{$match: {'dc':{$gt:new Date('2013-04-11')}}}," + " " +
    "{$project:{ '_id':1, 'n':1, 'dc':1 }}," + " " + "] }"

  lemma HeaderLineFoo()
    ensures HeaderLine("foo") == "{ aggregate:'foo', pipeline: ["
  {
  }

  lemma MatchLineDate()
    ensures MatchLine(DateClause) == "{$match: {'dc':{$gt:new Date('2013-04-11')}}},"
  {
  }

  lemma ShortNamesListed()
    ensures Join(ProjectItems(["_id", "n", "dc"]), ", ") == "'_id':1, 'n':1, 'dc':1"
  {
    var items := ProjectItems(["_id", "n", "dc"]);
    assert |items| == 3 && items[0] == "'_id':1" && items[1] == "'n':1" && items[2] == "'dc':1";
    assert items[1..][1..] == ["'dc':1"];
    assert Join(items[1..], ", ") == "'n':1" + ", " + "'dc':1";
  }

  lemma ProjectLineShortNames()
    ensures ProjectLine(["_id", "n", "dc"]) == "{$project:{ '_id':1, 'n':1, 'dc':1 }},"
  {
    ShortNamesListed();
  }

  lemma FooSolid()
    ensures Solid("foo")
  {
  }

  lemma DateProjection()
    ensures Collapsed(Document("foo", MatchStage([DateClause]) + ProjectStage(["_id", "n", "dc"]))) ==
      HeaderLine("foo") + " " + MatchLine(DateClause) + " " + ProjectLine(["_id", "n", "dc"]) + " " + "] }"
  {
    FooSolid();
    DateClauseTidy();
    ShortNamesSolid();
    ProjectionCollapsed("foo", DateClause, ["_id", "n", "dc"]);
  }

  lemma ExpectedPieces()
    ensures HeaderLine("foo") + " " + MatchLine(DateClause) + " " + ProjectLine(["_id", "n", "dc"]) + " " + "] }" == ExpectedDateQuery
  {
    HeaderLineFoo();
    MatchLineDate();
    ProjectLineShortNames();
  }

  /** The command of the analyzed date query, collapsed, is the text the test expects. */
  lemma DateDocumentCollapsed()
    ensures Collapsed(Document("foo", MatchStage([DateClause]) + ProjectStage(["_id", "n", "dc"]))) == ExpectedDateQuery
  {
    DateProjection();
    ExpectedPieces();
  }

  lemma DateWhereTexts(w: WhereClause)
    requires w.Text() == DateClause
    ensures WhereTexts([w]) == [DateClause]
  {
    assert [w][..0] == [];
  }

  /** Without unwind or group, one where text and the three names render as the two stages. */
  lemma DateRender(having: Option<string>)
    ensures Render("foo", [DateClause], None, None, having, ["_id", "n", "dc"]) ==
      Success(Document("foo", MatchStage([DateClause]) + ProjectStage(["_id", "n", "dc"])))
  {
    assert MatchStage([DateClause]) + UnwindStage(None) == MatchStage([DateClause]);
  }

  /** The analyzed date query renders its one where clause and the three short names, with no unwind or group. */
  lemma DateQueryRendered(q: QupidQuery, w: WhereClause, line: int, character: int)
    requires q.collection == Some(Foo) && q.unwindClause == null && q.groupByClause == null
    requires ExpandedFrom("foo", FooProperties, line, character, q.selectProperties.properties)
    requires q.Wheres() == [w]
    requires w.property.path == "DateCreated" && w.comparison == GreaterThan && w.literal == "'2013-04-11'"
    requires w.property.analyzedName == ShortPath(Foo, w.property.path)
    requires w.analyzedValue == Some(CoercedValue(Foo, w))
    ensures q.Text() == Success(Document("foo", MatchStage([DateClause]) + ProjectStage(["_id", "n", "dc"])))
  {
    FooDateCreatedPath();
    FooDateCoerced(w);
    DateClauseText(w);
    DateWhereTexts(w);
    ProjectedShortNames(q.selectProperties.properties, line, character);
    DateRender(q.HavingText());
  }

  /**
   * SelectStar_WhereByDate: once the analyzer has resolved the collection, replaced `Foo.*`
   * by the references for the three leaves (at the star's position) and named and
   * valued the one where clause, the query's command text collapses to the expected text.
   */
  lemma SelectStarWhereByDate(q: QupidQuery, w: WhereClause, line: int, character: int)
    requires q.collection == Some(Foo) && q.unwindClause == null && q.groupByClause == null
    requires ExpandedFrom("foo", FooProperties, line, character, q.selectProperties.properties)
    requires q.Wheres() == [w]
    requires w.property.path == "DateCreated" && w.comparison == GreaterThan && w.literal == "'2013-04-11'"
    requires w.property.analyzedName == ShortPath(Foo, w.property.path)
    requires w.analyzedValue == Some(CoercedValue(Foo, w))
    ensures q.Text().Success? && Collapsed(q.Text().value) == ExpectedDateQuery
  {
    DateQueryRendered(q, w, line, character);
    DateDocumentCollapsed();
  }

  /** What AnalyzeSelectList promises for the list `[Foo.*]`: the references for the three leaves. */
  lemma StarExpanded(star: PropertyReference, added: seq<seq<PropertyReference>>, list: seq<PropertyReference>)
    requires star.collection == "Foo" && star.path == "*" && star.aggregate == Classify("*")
    requires |added| == 1 && list == SelectList(Foo, [star], [star], added, 1)
    requires IsStar(Foo, star) ==> ExpandedFrom(Foo.name, Leaves(Foo.top.properties), star.line, star.character, added[0])
    ensures ExpandedFrom("foo", FooProperties, star.line, star.character, list)
  {
    StarSelected(star);
    StarReplaced(star, added);
    FooLeaves();
  }

  /** What AnalyzeWhereClause promises for the clause `Foo.DateCreated > ...`: it is named and valued. */
  lemma DateClauseAnalyzed(w: WhereClause)
    requires w.property.collection == "Foo" && w.property.path == "DateCreated"
    requires var scan := ScanWhere(Foo, [], [w]);
      && w.property.analyzedName == (if w.property in Props([w][..scan.named]) then ShortPath(Foo, w.property.path) else None)
      && w.analyzedValue == (if w in [w][..scan.valued] then Some(CoercedValue(Foo, w)) else None)
    ensures w.property.analyzedName == ShortPath(Foo, w.property.path)
    ensures w.analyzedValue == Some(CoercedValue(Foo, w))
  {
    DateClauseScanned(w);
    assert [w][..1] == [w];
    assert w.property in Props([w]);
  }

  /**
   * The same, from what the analyzer promises: AnalyzeSelectList on the one entry `Foo.*`
   * and AnalyzeWhereClause on the one clause `Foo.DateCreated > '2013-04-11'`, with the
   * collection resolved and neither unwind nor group by.
   */
  lemma AnalyzedSelectStarWhereByDate(q: QupidQuery, star: PropertyReference, added: seq<seq<PropertyReference>>, w: WhereClause)
    requires q.collection == Some(Foo) && q.unwindClause == null && q.groupByClause == null
    requires star.collection == "Foo" && star.path == "*" && star.aggregate == Classify("*")
    requires |added| == 1 && q.selectProperties.properties == SelectList(Foo, [star], [star], added, 1)
    requires IsStar(Foo, star) ==> ExpandedFrom(Foo.name, Leaves(Foo.top.properties), star.line, star.character, added[0])
    requires q.Wheres() == [w]
    requires w.property.collection == "Foo" && w.property.path == "DateCreated"
    requires w.comparison == GreaterThan && w.literal == "'2013-04-11'"
    requires var scan := ScanWhere(Foo, [], [w]);
      && w.property.analyzedName == (if w.property in Props([w][..scan.named]) then ShortPath(Foo, w.property.path) else None)
      && w.analyzedValue == (if w in [w][..scan.valued] then Some(CoercedValue(Foo, w)) else None)
    ensures q.Text().Success? && Collapsed(q.Text().value) == ExpectedDateQuery
  {
    StarExpanded(star, added, q.selectProperties.properties);
    DateClauseAnalyzed(w);
    SelectStarWhereByDate(q, w, star.line, star.character);
  }
}
