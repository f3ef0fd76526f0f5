/**
 * The compiler front door: fetches the catalog once, runs the parser, and
 * runs the analyzer only while the shared error manager still allows
 * execution; any exception becomes one unpositioned error and a null result.
 */
module Compile {
  import opened Wrappers
  import opened Catalog
  import opened Diagnostics
  import opened Query
  import opened Analyzer

  /** The row-count threshold a new compiler starts with. */
  const DefaultMaxSize := 100000

  const ParseFailurePrefix := "Error parsing your query. "

  /** The error an exception with message `message` becomes. */
  function ParseFailure(message: string): QueryError
  {
    QueryError(Error, ParseFailurePrefix + message, NoPosition, NoPosition)
  }

  /** The last error is the one an exception during analysis becomes. */
  predicate EndsWithFaultError(errors: seq<QueryError>)
  {
    |errors| > 0 && exists f: Fault :: errors[|errors| - 1] == ParseFailure(f.Message())
  }

  /**
   * What the parser did with the query text: the diagnostics it reported, then either
   * the AST it built or the message of the exception it threw.
   */
  datatype ParseOutcome = ParseOutcome(reports: seq<Report>, ast: Result<QupidQuery, string>)

  /** An unpositioned AddError is never deduplicated, so a caught exception always leaves its error last. */
  lemma ParseFailureRecorded(errors: seq<QueryError>, message: string)
    ensures WithError(errors, ParseFailurePrefix + message, NoPosition, NoPosition) == errors + [ParseFailure(message)]
    ensures !CanExecuteWith(errors + [ParseFailure(message)])
  {
    UnpositionedErrorAppended(errors, ParseFailurePrefix + message, NoPosition, NoPosition);
    assert (errors + [ParseFailure(message)])[|errors|] == ParseFailure(message);
  }

  class Compiler {
    /** The catalog, fetched from the finder on the first compile. */
    var collections: Option<seq<Collection>>
    var maxCollectionSizeWithNoIndex: int
    /** What the collection finder returns. */
    const finder: seq<Collection>
    const errorManager: ErrorManager

    constructor(finder: seq<Collection>, errorManager: ErrorManager)
      ensures this.finder == finder && this.errorManager == errorManager
      ensures collections == None && maxCollectionSizeWithNoIndex == DefaultMaxSize
    {
      maxCollectionSizeWithNoIndex := DefaultMaxSize;
      this.finder := finder;
      this.errorManager := errorManager;
      collections := None;
    }

    /** The one-argument constructor: a fresh, empty error manager. */
    constructor WithNewErrorManager(finder: seq<Collection>)
      ensures this.finder == finder && fresh(errorManager) && errorManager.errors == []
      ensures collections == None && maxCollectionSizeWithNoIndex == DefaultMaxSize
    {
      maxCollectionSizeWithNoIndex := DefaultMaxSize;
      this.finder := finder;
      errorManager := new ErrorManager();
      collections := None;
    }

    /**
     * Compile: the parser's reports are issued first; a parser exception gives null and one
     * error; with an error already recorded the AST is returned unanalyzed; otherwise it is
     * analyzed, and an exception during analysis gives null and one error.
     */
    method Compile(parsed: ParseOutcome) returns (r: QupidQuery?)
      modifies this, errorManager
      modifies if parsed.ast.Success? then {parsed.ast.value, parsed.ast.value.selectProperties} else {}
      modifies if parsed.ast.Success? then set o | o in parsed.ast.value.selectProperties.properties else {}
      modifies if parsed.ast.Success? then set w | w in parsed.ast.value.Wheres() else {}
      modifies if parsed.ast.Success? then Props(parsed.ast.value.Wheres()) else {}
      modifies if parsed.ast.Success? && parsed.ast.value.unwindClause != null
               then {parsed.ast.value.unwindClause.property} else {}
      modifies if parsed.ast.Success? && parsed.ast.value.groupByClause != null
               then {parsed.ast.value.groupByClause, parsed.ast.value.groupByClause.property} else {}
      modifies if parsed.ast.Success? && parsed.ast.value.havingClause != null
               then {parsed.ast.value.havingClause} else {}
      modifies if parsed.ast.Success? && parsed.ast.value.withClause != null
               then {parsed.ast.value.withClause, parsed.ast.value.withClause.joinProperty} else {}
      ensures collections == if old(collections).Some? then old(collections) else Some(finder)
      ensures maxCollectionSizeWithNoIndex == old(maxCollectionSizeWithNoIndex)
      ensures old(errorManager.errors) <= errorManager.errors
      ensures parsed.ast.Failure? ==>
        r == null && errorManager.errors == Apply(old(errorManager.errors), parsed.reports) + [ParseFailure(parsed.ast.error)]
      ensures parsed.ast.Success? && !CanExecuteWith(Apply(old(errorManager.errors), parsed.reports)) ==>
        && r == parsed.ast.value
        && errorManager.errors == Apply(old(errorManager.errors), parsed.reports)
        && Untouched(parsed.ast.value)
      ensures parsed.ast.Success? && !CanExecuteWith(old(errorManager.errors)) ==>
        r == parsed.ast.value && Untouched(parsed.ast.value)
      ensures parsed.ast.Success? && CanExecuteWith(Apply(old(errorManager.errors), parsed.reports)) ==>
        && (r == null || r == parsed.ast.value)
        && (r == null ==> EndsWithFaultError(errorManager.errors))
    {
      if collections.None? {
        collections := Some(finder);
      }
      ghost var errors0 := errorManager.errors;
      errorManager.IssueAll(parsed.reports);
      ApplyExtends(errors0, parsed.reports);
      if parsed.ast.Failure? {
        ParseFailureRecorded(errorManager.errors, parsed.ast.error);
        errorManager.AddError(ParseFailurePrefix + parsed.ast.error, NoPosition, NoPosition);
        return null;
      }
      var ast := parsed.ast.value;
      if !CanExecuteWith(errors0) {
        ErrorBlocksForever(errors0, parsed.reports);
      }
      if !errorManager.CanExecute() {
        return ast;
      }
      r := RunAnalyzer(ast);
    }

    /** The analyzer run inside Compile's try block: an exception becomes one unpositioned error and a null result. */
    method RunAnalyzer(ast: QupidQuery) returns (r: QupidQuery?)
      requires collections.Some?
      modifies ast, ast.selectProperties, errorManager, set o | o in ast.selectProperties.properties
      modifies (set w | w in ast.Wheres()), Props(ast.Wheres())
      modifies if ast.unwindClause != null then {ast.unwindClause.property} else {}
      modifies if ast.groupByClause != null then {ast.groupByClause, ast.groupByClause.property} else {}
      modifies if ast.havingClause != null then {ast.havingClause} else {}
      modifies if ast.withClause != null then {ast.withClause, ast.withClause.joinProperty} else {}
      ensures old(errorManager.errors) <= errorManager.errors
      ensures r == null || r == ast
      ensures r == null ==> EndsWithFaultError(errorManager.errors)
    {
      var analyzer := new QueryAnalyzer(collections.value, ast, errorManager, maxCollectionSizeWithNoIndex);
      var fault := analyzer.Analyze();
      if fault.Some? {
        ParseFailureRecorded(errorManager.errors, fault.value.Message());
        errorManager.AddError(ParseFailurePrefix + fault.value.Message(), NoPosition, NoPosition);
        assert errorManager.errors[|errorManager.errors| - 1] == ParseFailure(fault.value.Message());
        assert EndsWithFaultError(errorManager.errors);
        return null;
      }
      return ast;
    }
  }
}
