/**
 * Properties of the analyzer's rules that relate several of its functions:
 * how the index lookup decides, which reports can block execution, what the
 * select list holds afterwards, and which aggregate the group by renames.
 */
module AnalyzerProperties {
  import opened Wrappers
  import opened Text
  import opened Catalog
  import opened Diagnostics
  import opened Ast
  import opened Analyzer

  // ---------------------------------------------------------------------
  // The index lookup
  // ---------------------------------------------------------------------

  /** When every index lists at least one property, the lookup is plain membership among the first short properties. */
  lemma {:induction false} UsesIndexIsContains(indices: seq<Index>, shortName: string)
    requires forall i :: 0 <= i < |indices| ==> |indices[i].shortProperties| > 0
    ensures UsesIndex(indices, shortName)
         == Success(exists i :: 0 <= i < |indices| && indices[i].shortProperties[0] == shortName)
    decreases |indices|
  {
    if |indices| > 0 && indices[0].shortProperties[0] != shortName {
      var rest := indices[1..];
      assert forall i :: 0 <= i < |rest| ==> rest[i] == indices[i + 1];
      UsesIndexIsContains(rest, shortName);
      if exists i :: 0 <= i < |indices| && indices[i].shortProperties[0] == shortName {
        var i :| 0 <= i < |indices| && indices[i].shortProperties[0] == shortName;
        assert rest[i - 1].shortProperties[0] == shortName;
      }
    }
  }

  /** Index `i` has no properties, and every index before it has a first short property other than the name. */
  predicate ReachesEmpty(indices: seq<Index>, shortName: string, i: int)
  {
    && 0 <= i < |indices| && |indices[i].shortProperties| == 0
    && forall j :: 0 <= j < i ==> |indices[j].shortProperties| > 0 && indices[j].shortProperties[0] != shortName
  }

  /** The lookup throws exactly when it reaches an index without properties before any index that matches. */
  lemma {:induction false} UsesIndexThrows(indices: seq<Index>, shortName: string)
    ensures UsesIndex(indices, shortName).Failure? <==> exists i :: ReachesEmpty(indices, shortName, i)
    decreases |indices|
  {
    if |indices| > 0 && |indices[0].shortProperties| == 0 {
      assert ReachesEmpty(indices, shortName, 0);
    } else if |indices| > 0 && indices[0].shortProperties[0] != shortName {
      var rest := indices[1..];
      UsesIndexThrows(rest, shortName);
      if UsesIndex(indices, shortName).Failure? {
        var i :| ReachesEmpty(rest, shortName, i);
        assert ReachesEmpty(indices, shortName, i + 1) by {
          forall j | 0 <= j < i + 1
            ensures |indices[j].shortProperties| > 0 && indices[j].shortProperties[0] != shortName
          {
            if j > 0 {
              assert indices[j] == rest[j - 1];
            }
          }
        }
      } else if i :| ReachesEmpty(indices, shortName, i) {
        assert i > 0;
        assert ReachesEmpty(rest, shortName, i - 1) by {
          assert forall j :: 0 <= j < i - 1 ==> rest[j] == indices[j + 1];
        }
      }
    }
  }

  // ---------------------------------------------------------------------
  // Severity of the reports
  // ---------------------------------------------------------------------

  /** An unresolvable select entry is only ever a warning. */
  lemma {:induction false} SelectReportsAreWarnings(c: Collection, items: seq<PropertyReference>, n: nat)
    requires n <= |items|
    ensures forall r :: r in SelectReports(c, items, n) ==> r.WarningReport?
  {
    if n > 0 {
      SelectReportsAreWarnings(c, items, n - 1);
    }
  }

  /** So the select list analysis never stops a query from executing. */
  lemma SelectNeverBlocks(errors: seq<QueryError>, c: Collection, items: seq<PropertyReference>)
    ensures CanExecuteWith(Apply(errors, SelectReports(c, items, |items|))) == CanExecuteWith(errors)
  {
    SelectReportsAreWarnings(c, items, |items|);
    WarningsNeverBlock(errors, SelectReports(c, items, |items|));
  }

  /** A first pass that ran through saw clause `i` on this collection and resolvable. */
  lemma {:induction false} ScanRunningResolvesAt(c: Collection, indices: seq<Index>, ws: seq<WhereClause>, i: nat)
    requires i < |ws| && ScanWhere(c, indices, ws).exit.Running?
    ensures EqualsIgnoreCase(ws[i].property.collection, c.name) && ShortPath(c, ws[i].property.path).Some?
  {
    var init := ws[..|ws| - 1];
    if i < |ws| - 1 {
      ScanRunningResolvesAt(c, indices, init, i);
    }
  }

  /** A first pass that ran through saw every clause on this collection and resolvable. */
  lemma ScanRunningResolves(c: Collection, indices: seq<Index>, ws: seq<WhereClause>)
    requires ScanWhere(c, indices, ws).exit.Running?
    ensures forall i :: 0 <= i < |ws| ==>
      EqualsIgnoreCase(ws[i].property.collection, c.name) && ShortPath(c, ws[i].property.path).Some?
  {
    forall i | 0 <= i < |ws|
      ensures EqualsIgnoreCase(ws[i].property.collection, c.name) && ShortPath(c, ws[i].property.path).Some?
    {
      ScanRunningResolvesAt(c, indices, ws, i);
    }
  }

  /** One resolvable clause of the index pass: it does not stop, and its report is a warning exactly on a small collection. */
  lemma IndexStepSeverity(c: Collection, indices: seq<Index>, w: WhereClause, small: bool)
    requires ShortPath(c, w.property.path).Some?
    ensures !IndexStep(c, indices, w, small).exit.Stopped?
    ensures forall r :: r in IndexStep(c, indices, w, small).reports ==> (r.WarningReport? <==> small)
  {
  }

  /** Over resolvable clauses the index pass never stops early, and each report is a warning exactly on a small collection. */
  lemma {:induction false} IndexScanSeverity(c: Collection, indices: seq<Index>, ws: seq<WhereClause>, small: bool)
    requires forall i :: 0 <= i < |ws| ==> ShortPath(c, ws[i].property.path).Some?
    ensures !IndexScan(c, indices, ws, small).exit.Stopped?
    ensures forall r :: r in IndexScan(c, indices, ws, small).reports ==> (r.WarningReport? <==> small)
  {
    if |ws| > 0 {
      var init := ws[..|ws| - 1];
      assert forall i :: 0 <= i < |init| ==> init[i] == ws[i];
      IndexScanSeverity(c, indices, init, small);
      IndexStepSeverity(c, indices, ws[|ws| - 1], small);
    }
  }

  /**
   * The unindexed-where reports: on a collection below the row threshold they are all warnings,
   * on a larger one all errors, and the pass never stops on a clause.
   */
  lemma SecondPassSeverity(c: Collection, indices: seq<Index>, ws: seq<WhereClause>, small: bool)
    ensures !SecondPass(c, indices, ws, small).exit.Stopped?
    ensures forall r :: r in SecondPass(c, indices, ws, small).reports ==> (r.WarningReport? <==> small)
  {
    if ScanWhere(c, indices, ws).exit.Running? {
      ScanRunningResolves(c, indices, ws);
      IndexScanSeverity(c, indices, ws, small);
    }
  }

  // ---------------------------------------------------------------------
  // The select list
  // ---------------------------------------------------------------------

  /** After the select analysis every entry was there before or was made by expanding a star entry. */
  lemma {:induction false} SelectListMembers(c: Collection, start: seq<PropertyReference>, items: seq<PropertyReference>,
                                             added: seq<seq<PropertyReference>>, n: nat, o: PropertyReference)
    requires n <= |items| && n <= |added|
    requires o in SelectList(c, start, items, added, n)
    ensures o in start || exists j :: 0 <= j < n && o in added[j]
  {
    if n > 0 {
      var before := SelectList(c, start, items, added, n - 1);
      if o in before {
        SelectListMembers(c, start, items, added, n - 1, o);
      } else {
        assert IsStar(c, items[n - 1]);
        assert o in before + added[n - 1];
        assert o in added[n - 1];
      }
    }
  }

  // ---------------------------------------------------------------------
  // The aggregate of a group by
  // ---------------------------------------------------------------------

  /** With exactly one aggregate in the list, SingleOrDefault finds that one. */
  lemma {:induction false} SingleAggregateFound(props: seq<PropertyReference>, p: PropertyReference)
    requires AggregateCount(props) == 1 && p in props && p.IsAggregate()
    ensures FirstAggregate(props) == Some(p)
  {
    if props[0] != p {
      assert p in props[1..];
      assert AggregateCount(props[1..]) != 0;
      SingleAggregateFound(props[1..], p);
    }
  }

  /** The group by renames at most one select entry: the only aggregate of the list, when it is a sum or an average. */
  lemma GroupRenamesOnlyTheAggregate(c: Collection, indices: seq<Index>, key: PropertyReference,
                                     props: seq<PropertyReference>, small: bool)
    ensures var o := GroupCheck(c, indices, key, props, small);
      o.renamed.Some? ==>
        && AggregateCount(props) == 1
        && o.renamed.value in props && o.renamed.value.aggregate != Count
        && forall p :: p in props && p.IsAggregate() ==> p == o.renamed.value
  {
    var o := GroupCheck(c, indices, key, props, small);
    if o.renamed.Some? {
      assert o.renamed == FirstAggregate(props);
      assert AggregateCount(props) != 0;
      forall p | p in props && p.IsAggregate()
        ensures p == o.renamed.value
      {
        SingleAggregateFound(props, p);
      }
    }
  }
}
