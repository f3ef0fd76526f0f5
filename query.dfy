/**
 * The compiled query (the root of the AST) and the text of the MongoDB
 * `aggregate` command it renders to: a `$match` stage for the where
 * clauses, an optional `$unwind`, then either a `$group` stage (with the
 * having clause as a second `$match`) or a `$project` of the selected
 * short names.
 */
module Query {
  import opened Wrappers
  import opened Text
  import opened Catalog
  import opened Diagnostics
  import opened Ast

  /** The line terminator AppendLine writes. */
  const NewLine := "\n"

  /** The where stage: nothing, one clause, or the clauses and-ed together in list order. */
  function MatchStage(clauses: seq<string>): (r: string)
    ensures r == "" <==> |clauses| == 0
  {
    if |clauses| == 0 then ""
    else if |clauses| == 1 then "    " + "{$match: " + clauses[0] + "}" + "," + NewLine
    else "    " + "{$match: {$and: [ " + Join(clauses, ", ") + " ]}}" + "," + NewLine
  }

  function UnwindStage(unwind: Option<string>): string
  {
    match unwind
    case None => ""
    case Some(u) => "    " + u + "," + NewLine
  }

  /** The $group stage, then the having clause as a $match, which ends without a line break. */
  function GroupStages(group: string, having: Option<string>): string
  {
    "    " + group + "," + NewLine +
    match having
    case None => ""
    case Some(h) => "    " + "{$match: " + h + "}"
  }

  function ProjectItems(names: seq<string>): seq<string>
  {
    seq(|names|, i requires 0 <= i < |names| => "'" + names[i] + "':1")
  }

  function ProjectStage(names: seq<string>): string
  {
    "    " + "{$project:{ " + Join(ProjectItems(names), ", ") + " }}," + NewLine
  }

  /** The command document around the pipeline stages. */
  function Document(name: string, stages: string): string
  {
    "{" + NewLine + "  aggregate:'" + name + "'," + NewLine + "  pipeline: [" + NewLine + stages + "  ]" + NewLine + "}" + NewLine
  }

  /** The opening of every command: the collection name and the start of the pipeline array. */
  function Header(name: string): string
  {
    "{" + NewLine + "  aggregate:'" + name + "'," + NewLine + "  pipeline: [" + NewLine
  }

  /** The closing of every command: the end of the pipeline array and of the document. */
  const Footer := "  ]" + NewLine + "}" + NewLine

  /**
   * The whole command from the rendered parts: the where texts, the unwind text, the
   * group text (absent, rendered, or the exception it raises), the having text and the
   * projected names. The having text is used only with a group, the names only without one.
   */
  function Render(name: string, wheres: seq<string>, unwind: Option<string>, group: Option<Result<string, Fault>>,
                  having: Option<string>, names: seq<string>): Result<string, Fault>
  {
    var head := MatchStage(wheres) + UnwindStage(unwind);
    match group
    case Some(Failure(f)) => Failure(f)
    case Some(Success(g)) => Success(Document(name, head + GroupStages(g, having)))
    case None => Success(Document(name, head + ProjectStage(names)))
  }

  /** The texts of the where clauses, in list order. */
  function WhereTexts(ws: seq<WhereClause>): (r: seq<string>)
    reads set w | w in ws, set w | w in ws :: w.property
    ensures |r| == |ws|
  {
    if |ws| == 0 then [] else WhereTexts(ws[..|ws| - 1]) + [ws[|ws| - 1].Text()]
  }

  /** The i-th text is the i-th clause's own text. */
  lemma {:induction false} WhereTextAt(ws: seq<WhereClause>, i: nat)
    requires i < |ws|
    ensures WhereTexts(ws)[i] == ws[i].Text()
  {
    if i < |ws| - 1 {
      WhereTextAt(ws[..|ws| - 1], i);
    }
  }

  /** The analyzed names of the select entries that have a non-blank one, in list order. */
  function ProjectNames(ps: seq<PropertyReference>): (r: seq<string>)
    reads set p | p in ps
    ensures |r| <= |ps|
  {
    if |ps| == 0 then []
    else
      var last := ps[|ps| - 1];
      ProjectNames(ps[..|ps| - 1]) + (if IsNullOrWhiteSpace(last.analyzedName) then [] else [last.analyzedName.value])
  }

  class QupidQuery {
    const selectProperties: PropertyList
    /** Null when the query has no where keyword. */
    const whereClauses: Option<seq<WhereClause>>
    const groupByClause: GroupByClause?
    const havingClause: HavingClause?
    const unwindClause: UnwindClause?
    const withClause: WithClause?
    const collectionName: string
    const errorManager: ErrorManager

    /** The catalog entry the analyzer resolved; null before analysis. */
    var collection: Option<Collection>

    /** The source's constructor, plus the error manager the parser then assigns. */
    constructor(pl: PropertyList, collection: string, where: Option<seq<WhereClause>>, unwind: UnwindClause?,
                groupBy: GroupByClause?, have: HavingClause?, with: WithClause?, errorManager: ErrorManager)
      ensures selectProperties == pl && collectionName == collection && whereClauses == where
      ensures unwindClause == unwind && groupByClause == groupBy && havingClause == have && withClause == with
      ensures this.errorManager == errorManager && this.collection == None
    {
      collectionName := collection;
      selectProperties := pl;
      whereClauses := where;
      unwindClause := unwind;
      groupByClause := groupBy;
      havingClause := have;
      withClause := with;
      this.errorManager := errorManager;
      this.collection := None;
    }

    /** The where clauses, a null list counting as empty. */
    function Wheres(): seq<WhereClause>
    {
      if whereClauses.Some? then whereClauses.value else []
    }

    function HasErrors(): (r: bool)
      reads this, errorManager
      ensures r <==> !errorManager.CanExecute()
    {
      AnyWithSeverity(errorManager.GetErrors(), Error)
    }

    function HasWarnings(): (r: bool)
      reads this, errorManager
      ensures r <==> HasSeverity(errorManager.errors, Warning)
    {
      AnyWithSeverity(errorManager.GetErrors(), Warning)
    }

    function UnwindText(): Option<string>
      reads if unwindClause != null then {unwindClause.property} else {}
    {
      if unwindClause == null then None else Some(Ast.UnwindText(unwindClause.property.analyzedName))
    }

    function HavingText(): Option<string>
      reads if havingClause != null then {havingClause, havingClause.property} else {}
    {
      if havingClause == null then None else Some(havingClause.Text())
    }

    /** The command text ToString produces, or the exception it raises. */
    function Text(): Result<string, Fault>
      reads this, selectProperties, set p | p in selectProperties.properties
      reads set w | w in Wheres(), set w | w in Wheres() :: w.property
      reads if unwindClause != null then {unwindClause.property} else {}
      reads if havingClause != null then {havingClause, havingClause.property} else {}
      reads if groupByClause != null then {groupByClause, groupByClause.aggregateByProperty, groupByClause.aggregationProperty} else {}
    {
      if collection.None? then Failure(NullReference)
      else
        Render(collection.value.name, WhereTexts(Wheres()), UnwindText(),
               if groupByClause == null then None else Some(groupByClause.Text()),
               HavingText(), ProjectNames(selectProperties.properties))
    }

    /** ToString / GetMongoQuery: each stage is built as the builder appends it, then framed by the header and footer. */
    method ToString() returns (r: Result<string, Fault>)
      ensures r == Text()
    {
      if collection.None? {
        return Failure(NullReference);
      }
      var name := collection.value.name;
      var matchStage := MatchClauses(Wheres());
      var unwindStage := "";
      if unwindClause != null {
        unwindStage := "    " + Ast.UnwindText(unwindClause.property.analyzedName) + "," + NewLine;
      }
      var tail := "";
      if groupByClause != null {
        var g := groupByClause.Text();
        if g.Failure? {
          return Failure(g.error);
        }
        var havingStage := "";
        if havingClause != null {
          havingStage := "    " + "{$match: " + havingClause.Text() + "}";
        }
        tail := "    " + g.value + "," + NewLine + havingStage;
        assert tail == GroupStages(g.value, HavingText());
      } else {
        var items := JoinProjection(selectProperties.properties);
        tail := "    " + "{$project:{ " + items + " }}," + NewLine;
        assert matchStage == MatchStage(WhereTexts(Wheres()));
      }
      var stages := matchStage + unwindStage + tail;
      r := Success("{" + NewLine + "  aggregate:'" + name + "'," + NewLine + "  pipeline: [" + NewLine + stages + "  ]" + NewLine + "}" + NewLine);
    }
  }

  /** The where part of ToString: nothing for an empty list, one clause alone, or several and-ed together. */
  method MatchClauses(list: seq<WhereClause>) returns (r: string)
    ensures r == MatchStage(WhereTexts(list))
  {
    r := "";
    if |list| > 0 {
      if |list| == 1 {
        var t := list[0].Text();
        r := "    " + "{$match: " + t + "}" + "," + NewLine;
      } else {
        var joined := JoinWhereClauses(list);
        r := "    " + "{$match: {$and: [ " + joined + " ]}}" + "," + NewLine;
      }
    }
  }

  lemma WhereTextsSnoc(list: seq<WhereClause>, i: nat)
    requires i < |list|
    ensures WhereTexts(list[..i + 1]) == WhereTexts(list[..i]) + [list[i].Text()]
  {
    assert list[..i + 1][..i] == list[..i];
  }

  /** Joining one more element of `s`: the element alone at first, after a separator otherwise. */
  lemma JoinPrefixStep(s: seq<string>, i: nat, sep: string)
    requires i < |s|
    ensures Join(s[..i + 1], sep) == if i == 0 then s[i] else Join(s[..i], sep) + sep + s[i]
  {
    assert s[..i + 1] == s[..i] + [s[i]];
    if i > 0 {
      JoinSnoc(s[..i], s[i], sep);
    }
  }

  /** The clauses separated by ", ", the first one without a separator. */
  method JoinWhereClauses(list: seq<WhereClause>) returns (r: string)
    ensures r == Join(WhereTexts(list), ", ")
  {
    ghost var texts := WhereTexts(list);
    r := "";
    var isFirst := true;
    var i := 0;
    while i < |list|
      invariant 0 <= i <= |list|
      invariant isFirst <==> i == 0
      invariant r == Join(texts[..i], ", ")
    {
      var t := list[i].Text();
      WhereTextAt(list, i);
      JoinPrefixStep(texts, i, ", ");
      if isFirst {
        isFirst := false;
      } else {
        r := r + ", ";
      }
      r := r + t;
      i := i + 1;
    }
    assert texts[..|list|] == texts;
  }

  lemma ProjectNamesSnoc(ps: seq<PropertyReference>, i: nat)
    requires i < |ps|
    ensures ProjectNames(ps[..i + 1]) ==
      ProjectNames(ps[..i]) + (if IsNullOrWhiteSpace(ps[i].analyzedName) then [] else [ps[i].analyzedName.value])
  {
    assert ps[..i + 1][..i] == ps[..i];
  }

  lemma ProjectItemsSnoc(names: seq<string>, name: string)
    ensures ProjectItems(names + [name]) == ProjectItems(names) + ["'" + name + "':1"]
  {
  }

  /** One select entry more: a non-blank name adds its item, after ", " unless it is the first. */
  lemma ProjectionStep(ps: seq<PropertyReference>, i: nat)
    requires i < |ps|
    ensures IsNullOrWhiteSpace(ps[i].analyzedName) ==> ProjectNames(ps[..i + 1]) == ProjectNames(ps[..i])
    ensures !IsNullOrWhiteSpace(ps[i].analyzedName) ==>
      |ProjectNames(ps[..i + 1])| > 0 &&
      Join(ProjectItems(ProjectNames(ps[..i + 1])), ", ") ==
        (if |ProjectNames(ps[..i])| == 0 then "" else Join(ProjectItems(ProjectNames(ps[..i])), ", ") + ", ")
        + ("'" + ps[i].analyzedName.value + "':1")
  {
    ProjectNamesSnoc(ps, i);
    var names := ProjectNames(ps[..i]);
    if IsNullOrWhiteSpace(ps[i].analyzedName) {
      assert names + [] == names;
    } else {
      var entry := "'" + ps[i].analyzedName.value + "':1";
      ProjectItemsSnoc(names, ps[i].analyzedName.value);
      if |names| == 0 {
        assert ProjectItems(names) + [entry] == [entry];
      } else {
        JoinSnoc(ProjectItems(names), entry, ", ");
      }
    }
  }

  /** The "'name':1" entries of the select entries with a non-blank analyzed name, separated by ", ". */
  method JoinProjection(properties: seq<PropertyReference>) returns (r: string)
    ensures r == Join(ProjectItems(ProjectNames(properties)), ", ")
  {
    r := "";
    var isFirst := true;
    var i := 0;
    while i < |properties|
      invariant 0 <= i <= |properties|
      invariant isFirst <==> |ProjectNames(properties[..i])| == 0
      invariant r == Join(ProjectItems(ProjectNames(properties[..i])), ", ")
    {
      var item := properties[i];
      ProjectionStep(properties, i);
      if !IsNullOrWhiteSpace(item.analyzedName) {
        if isFirst {
          isFirst := false;
        } else {
          r := r + ", ";
        }
        r := r + ("'" + item.analyzedName.value + "':1");
      }
      i := i + 1;
    }
    assert properties[..|properties|] == properties;
  }

  // ---------------------------------------------------------------------
  // Properties of the rendered command.
  // ---------------------------------------------------------------------

  /** Every command opens with the collection name and the pipeline array and closes both. */
  lemma DocumentFrame(name: string, stages: string)
    ensures Document(name, stages) == Header(name) + stages + Footer
    ensures Header(name) <= Document(name, stages)
    ensures Document(name, stages)[|Document(name, stages)| - |Footer|..] == Footer
  {
    var d := Document(name, stages);
    assert d == Header(name) + stages + Footer;
    assert d[..|Header(name)|] == Header(name);
  }

  /** The stages can be read back from the command: distinct stage texts give distinct commands. */
  lemma DocumentStagesRecoverable(name: string, s1: string, s2: string)
    ensures Document(name, s1) == Document(name, s2) <==> s1 == s2
  {
    DocumentFrame(name, s1);
    DocumentFrame(name, s2);
    if Document(name, s1) == Document(name, s2) {
      InfixDetermined(Header(name), s1, s2, Footer);
    }
  }

  /** A rendered command starts with the header, then the where stage, then the unwind stage. */
  lemma RenderStageOrder(name: string, wheres: seq<string>, unwind: Option<string>, group: Option<Result<string, Fault>>,
                         having: Option<string>, names: seq<string>)
    requires Render(name, wheres, unwind, group, having, names).Success?
    ensures Header(name) + MatchStage(wheres) + UnwindStage(unwind) <= Render(name, wheres, unwind, group, having, names).value
  {
    var head := MatchStage(wheres) + UnwindStage(unwind);
    var rest := if group.Some? then GroupStages(group.value.value, having) else ProjectStage(names);
    assert Render(name, wheres, unwind, group, having, names).value == Document(name, head + rest);
    DocumentFrame(name, head + rest);
    FramePrefix(Header(name), MatchStage(wheres), UnwindStage(unwind), rest, Footer);
  }

  lemma FramePrefix(h: string, m: string, u: string, rest: string, f: string)
    ensures h + m + u <= h + (m + u + rest) + f
  {
    assert h + (m + u + rest) + f == (h + m + u) + (rest + f);
    assert ((h + m + u) + (rest + f))[..|h + m + u|] == h + m + u;
  }

  /** Rendering fails exactly when the group text is an exception, and then with that exception. */
  lemma RenderFailsOnlyThroughGroup(name: string, wheres: seq<string>, unwind: Option<string>, group: Option<Result<string, Fault>>,
                                    having: Option<string>, names: seq<string>)
    ensures Render(name, wheres, unwind, group, having, names).Failure? <==> group.Some? && group.value.Failure?
    ensures Render(name, wheres, unwind, group, having, names).Failure? ==>
      Render(name, wheres, unwind, group, having, names).error == group.value.error
  {
  }

  /** The having clause is rendered only after a group; the projection only without one. */
  lemma RenderUsesHavingOnlyWithGroup(name: string, wheres: seq<string>, unwind: Option<string>, g: Result<string, Fault>,
                                      having: Option<string>, other: Option<string>, names: seq<string>, otherNames: seq<string>)
    ensures Render(name, wheres, unwind, None, having, names) == Render(name, wheres, unwind, None, other, names)
    ensures Render(name, wheres, unwind, Some(g), having, names) == Render(name, wheres, unwind, Some(g), having, otherNames)
  {
  }

  /** The boolean connector of a where clause is never consulted: clauses agreeing on key, comparison and value render alike. */
  lemma WhereTextsIgnoreConnector(ws1: seq<WhereClause>, ws2: seq<WhereClause>)
    requires |ws1| == |ws2|
    requires forall i :: 0 <= i < |ws1| ==>
      ws1[i].property.analyzedName == ws2[i].property.analyzedName &&
      ws1[i].comparison == ws2[i].comparison && ws1[i].analyzedValue == ws2[i].analyzedValue
    ensures WhereTexts(ws1) == WhereTexts(ws2)
  {
    var t1 := WhereTexts(ws1);
    var t2 := WhereTexts(ws2);
    forall i | 0 <= i < |ws1|
      ensures t1[i] == t2[i]
    {
      WhereTextAt(ws1, i);
      WhereTextAt(ws2, i);
    }
  }

  /** Every projected name is the non-blank analyzed name of some select entry. */
  lemma {:induction false} ProjectNamesSound(ps: seq<PropertyReference>)
    ensures forall n :: n in ProjectNames(ps) ==>
      exists p :: p in ps && p.analyzedName == Some(n) && !IsNullOrWhiteSpace(Some(n))
  {
    if |ps| > 0 {
      var init := ps[..|ps| - 1];
      ProjectNamesSound(init);
      forall n | n in ProjectNames(ps)
        ensures exists p :: p in ps && p.analyzedName == Some(n) && !IsNullOrWhiteSpace(Some(n))
      {
        if n in ProjectNames(init) {
          var p :| p in init && p.analyzedName == Some(n) && !IsNullOrWhiteSpace(Some(n));
          assert p in ps;
        } else {
          assert ps[|ps| - 1] in ps;
        }
      }
    }
  }

  /** When every select entry is resolved, the projection names each of them, in list order. */
  lemma {:induction false} ProjectNamesComplete(ps: seq<PropertyReference>)
    requires forall p :: p in ps ==> !IsNullOrWhiteSpace(p.analyzedName)
    ensures |ProjectNames(ps)| == |ps|
    ensures forall i :: 0 <= i < |ps| ==> Some(ProjectNames(ps)[i]) == ps[i].analyzedName
  {
    if |ps| > 0 {
      var init := ps[..|ps| - 1];
      assert forall p :: p in init ==> p in ps;
      ProjectNamesComplete(init);
      assert ps[|ps| - 1] in ps;
    }
  }

  /** A select entry with a blank analyzed name does not reach the projection. */
  lemma {:induction false} ProjectNamesSkipBlank(ps: seq<PropertyReference>, blank: PropertyReference)
    requires IsNullOrWhiteSpace(blank.analyzedName)
    ensures ProjectNames(ps + [blank]) == ProjectNames(ps)
  {
    assert (ps + [blank])[..|ps|] == ps;
  }
}
