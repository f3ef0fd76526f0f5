/**
 * The diagnostic sink shared by the parser, the analyzer, the compiler and
 * the executor: an append-only list of errors and warnings, where an error
 * reported at a position some entry already holds is dropped.
 */
module Diagnostics {

  datatype Severity = Error | Warning

  /** One diagnostic; line and character are -1 when the reporter gives no position. */
  datatype QueryError = QueryError(severity: Severity, message: string, line: int, character: int)

  /** A call to AddError or AddWarning, with its arguments. */
  datatype Report =
    | ErrorReport(message: string, line: int, character: int)
    | WarningReport(message: string, line: int, character: int)

  /** AddError and AddWarning without a position use -1 for both coordinates. */
  const NoPosition := -1

  predicate HasEntryAt(errors: seq<QueryError>, line: int, character: int)
  {
    exists i :: 0 <= i < |errors| && errors[i].line == line && errors[i].character == character
  }

  predicate HasSeverity(errors: seq<QueryError>, severity: Severity)
  {
    exists i :: 0 <= i < |errors| && errors[i].severity == severity
  }

  /** Enumerable.Any(e => e.Severity == severity). */
  function AnyWithSeverity(errors: seq<QueryError>, severity: Severity): (r: bool)
    ensures r <==> HasSeverity(errors, severity)
    decreases |errors|
  {
    if |errors| == 0 then false
    else if errors[0].severity == severity then true
    else
      var rest := AnyWithSeverity(errors[1..], severity);
      assert HasSeverity(errors[1..], severity) ==> HasSeverity(errors, severity) by {
        if HasSeverity(errors[1..], severity) {
          var i :| 0 <= i < |errors[1..]| && errors[1..][i].severity == severity;
          assert errors[i + 1].severity == severity;
        }
      }
      assert HasSeverity(errors, severity) ==> HasSeverity(errors[1..], severity) by {
        if HasSeverity(errors, severity) {
          var i :| 0 <= i < |errors| && errors[i].severity == severity;
          assert i > 0 && errors[1..][i - 1].severity == severity;
        }
      }
      rest
  }

  /** The list after AddError. */
  function WithError(errors: seq<QueryError>, message: string, line: int, character: int): seq<QueryError>
  {
    if line >= 0 && character >= 0 && HasEntryAt(errors, line, character) then errors
    else errors + [QueryError(Error, message, line, character)]
  }

  /** The list after AddWarning. */
  function WithWarning(errors: seq<QueryError>, message: string, line: int, character: int): seq<QueryError>
  {
    errors + [QueryError(Warning, message, line, character)]
  }

  /** The list after the reports, issued in order. */
  function Apply(errors: seq<QueryError>, reports: seq<Report>): seq<QueryError>
    decreases |reports|
  {
    if |reports| == 0 then errors
    else
      var next := match reports[0]
        case ErrorReport(m, l, c) => WithError(errors, m, l, c)
        case WarningReport(m, l, c) => WithWarning(errors, m, l, c);
      Apply(next, reports[1..])
  }

  /** CanExecute over a list. */
  predicate CanExecuteWith(errors: seq<QueryError>)
  {
    |errors| == 0 || forall i :: 0 <= i < |errors| ==> errors[i].severity != Error
  }

  class ErrorManager {
    var errors: seq<QueryError>

    constructor()
      ensures errors == []
    {
      errors := [];
    }

    method Add(error: QueryError)
      modifies this
      ensures errors == old(errors) + [error]
    {
      errors := errors + [error];
    }

    /** Appends an error unless the position is given and some entry, of either severity, already holds it. */
    method AddError(message: string, line: int, character: int)
      modifies this
      ensures errors == WithError(old(errors), message, line, character)
    {
      var isDuplicateError := false;
      if line >= 0 && character >= 0 {
        isDuplicateError := HasEntryAt(errors, line, character);
      }
      if !isDuplicateError {
        Add(QueryError(Error, message, line, character));
      }
    }

    method AddWarning(message: string, line: int, character: int)
      modifies this
      ensures errors == WithWarning(old(errors), message, line, character)
    {
      Add(QueryError(Warning, message, line, character));
    }

    /** Issues one report through AddError or AddWarning. */
    method Issue(report: Report)
      modifies this
      ensures errors == Apply(old(errors), [report])
    {
      match report
      case ErrorReport(m, l, c) => AddError(m, l, c);
      case WarningReport(m, l, c) => AddWarning(m, l, c);
    }

    /** Issues each report in order: the parser's diagnostics, or what a join plugin's column check writes. */
    method IssueAll(reports: seq<Report>)
      modifies this
      ensures errors == Apply(old(errors), reports)
    {
      ghost var errors0 := errors;
      var i := 0;
      while i < |reports|
        invariant i <= |reports|
        invariant errors == Apply(errors0, reports[..i])
      {
        ApplyConcat(errors0, reports[..i], [reports[i]]);
        assert reports[..i + 1] == reports[..i] + [reports[i]];
        Issue(reports[i]);
        i := i + 1;
      }
      assert reports[..i] == reports;
    }

    /** True when no entry has Error severity. */
    function CanExecute(): (r: bool)
      reads this
      ensures r <==> !HasSeverity(errors, Error)
    {
      CanExecuteWith(errors)
    }

    function HasAnyIssues(): (r: bool)
      reads this
      ensures r <==> HasSeverity(errors, Error) || HasSeverity(errors, Warning)
    {
      assert |errors| > 0 ==> errors[0].severity == Error || errors[0].severity == Warning;
      |errors| > 0
    }

    /** A copy of the entries in insertion order; later additions do not change it. */
    function GetErrors(): (r: seq<QueryError>)
      reads this
      ensures |r| == |errors| && forall i :: 0 <= i < |r| ==> r[i] == errors[i]
    {
      errors
    }
  }

  // ---------------------------------------------------------------------
  // Properties of the sink.
  // ---------------------------------------------------------------------

  /** AddWarning always appends exactly one warning with the given text and position. */
  lemma WarningAlwaysAppended(errors: seq<QueryError>, message: string, line: int, character: int)
    ensures |WithWarning(errors, message, line, character)| == |errors| + 1
    ensures WithWarning(errors, message, line, character)[|errors|] == QueryError(Warning, message, line, character)
  {
  }

  /** AddError leaves the list unchanged exactly when its position is given and already taken. */
  lemma ErrorDroppedIffPositionTaken(errors: seq<QueryError>, message: string, line: int, character: int)
    ensures WithError(errors, message, line, character) == errors <==>
      line >= 0 && character >= 0 && HasEntryAt(errors, line, character)
    ensures WithError(errors, message, line, character) != errors ==>
      WithError(errors, message, line, character) == errors + [QueryError(Error, message, line, character)]
  {
    if !(line >= 0 && character >= 0 && HasEntryAt(errors, line, character)) {
      assert |WithError(errors, message, line, character)| == |errors| + 1;
    }
  }

  /** An error without a position (either coordinate negative) is never dropped. */
  lemma UnpositionedErrorAppended(errors: seq<QueryError>, message: string, line: int, character: int)
    requires line < 0 || character < 0
    ensures WithError(errors, message, line, character) == errors + [QueryError(Error, message, line, character)]
  {
  }

  /** Reports only ever append: the old list is a prefix of the new one. */
  lemma {:induction false} ApplyExtends(errors: seq<QueryError>, reports: seq<Report>)
    ensures errors <= Apply(errors, reports)
    ensures |Apply(errors, reports)| <= |errors| + |reports|
    decreases |reports|
  {
    if |reports| > 0 {
      var next := match reports[0]
        case ErrorReport(m, l, c) => WithError(errors, m, l, c)
        case WarningReport(m, l, c) => WithWarning(errors, m, l, c);
      ApplyExtends(next, reports[1..]);
    }
  }

  /** Issuing reports in two batches is issuing them all at once. */
  lemma {:induction false} ApplyConcat(errors: seq<QueryError>, a: seq<Report>, b: seq<Report>)
    ensures Apply(errors, a + b) == Apply(Apply(errors, a), b)
    decreases |a|
  {
    if |a| > 0 {
      assert (a + b)[0] == a[0];
      assert (a + b)[1..] == a[1..] + b;
      var next := match a[0]
        case ErrorReport(m, l, c) => WithError(errors, m, l, c)
        case WarningReport(m, l, c) => WithWarning(errors, m, l, c);
      ApplyConcat(next, a[1..], b);
    } else {
      assert a + b == b;
    }
  }

  /** Once an error is recorded, no later report makes the list executable again. */
  lemma ErrorBlocksForever(errors: seq<QueryError>, reports: seq<Report>)
    requires !CanExecuteWith(errors)
    ensures !CanExecuteWith(Apply(errors, reports))
  {
    ApplyExtends(errors, reports);
    var i :| 0 <= i < |errors| && errors[i].severity == Error;
    assert Apply(errors, reports)[i] == errors[i];
  }

  /** Warnings never change whether the list can execute. */
  lemma {:induction false} WarningsNeverBlock(errors: seq<QueryError>, reports: seq<Report>)
    requires forall r :: r in reports ==> r.WarningReport?
    ensures CanExecuteWith(Apply(errors, reports)) == CanExecuteWith(errors)
    decreases |reports|
  {
    if |reports| > 0 {
      var next := WithWarning(errors, reports[0].message, reports[0].line, reports[0].character);
      assert reports[0] in reports;
      assert CanExecuteWith(next) == CanExecuteWith(errors) by {
        assert forall i :: 0 <= i < |errors| ==> next[i] == errors[i];
      }
      assert forall r :: r in reports[1..] ==> r in reports;
      WarningsNeverBlock(next, reports[1..]);
    }
  }

  /** Every analyzer failure is reported at (0, 0), so after one entry there, further failures are dropped. */
  lemma OnlyFirstFailureKept(errors: seq<QueryError>, messages: seq<string>)
    requires HasEntryAt(errors, 0, 0)
    ensures Apply(errors, seq(|messages|, k requires 0 <= k < |messages| => ErrorReport(messages[k], 0, 0))) == errors
    decreases |messages|
  {
    var reports := seq(|messages|, k requires 0 <= k < |messages| => ErrorReport(messages[k], 0, 0));
    if |messages| > 0 {
      OnlyFirstFailureKept(errors, messages[1..]);
      assert reports[1..] == seq(|messages[1..]|, k requires 0 <= k < |messages[1..]| => ErrorReport(messages[1..][k], 0, 0));
    }
  }

  /** A list can execute exactly when it has no entry of Error severity (HasErrors is its negation). */
  lemma CanExecuteIffNoErrors(errors: seq<QueryError>)
    ensures CanExecuteWith(errors) <==> !HasSeverity(errors, Error)
  {
  }
}
