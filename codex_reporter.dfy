/**
 * The validation reporter of the `validate` command: it collects one result
 * per checked file and summarises them. Printing to the console is not part
 * of this model; the summary line is the text `print` would end with.
 */
module CodexReporter {
  import opened Wrappers
  import opened Text
  import opened CodexMetadata
  import CodexFormat

  /** `ValidationResult`: one checked file. */
  datatype FileResult = FileResult(
    filePath: string,
    valid: bool,
    metadata: Option<Metadata>,
    errors: seq<string>,
    warnings: seq<string>)

  /** `getSummary()`'s three counters. */
  datatype Summary = Summary(valid: nat, errors: nat, warnings: nat)

  /** `toJSON()`: the results with their summary. */
  datatype Report = Report(results: seq<FileResult>, summary: Summary)

  /** A result counted as valid: marked valid and free of errors. */
  predicate Clean(r: FileResult) {
    r.valid && |r.errors| == 0
  }

  function CountValid(rs: seq<FileResult>): (n: nat)
    ensures n <= |rs|
  {
    if |rs| == 0 then 0 else CountValid(rs[..|rs| - 1]) + (if Clean(rs[|rs| - 1]) then 1 else 0)
  }

  function TotalErrors(rs: seq<FileResult>): nat {
    if |rs| == 0 then 0 else TotalErrors(rs[..|rs| - 1]) + |rs[|rs| - 1].errors|
  }

  function TotalWarnings(rs: seq<FileResult>): nat {
    if |rs| == 0 then 0 else TotalWarnings(rs[..|rs| - 1]) + |rs[|rs| - 1].warnings|
  }

  /** The summary of a list of results. */
  function SummaryOf(rs: seq<FileResult>): Summary {
    Summary(CountValid(rs), TotalErrors(rs), TotalWarnings(rs))
  }

  /** Some result carries an error. */
  predicate SomeError(rs: seq<FileResult>) {
    exists i :: 0 <= i < |rs| && |rs[i].errors| > 0
  }

  /** Some result carries a warning. */
  predicate SomeWarning(rs: seq<FileResult>) {
    exists i :: 0 <= i < |rs| && |rs[i].warnings| > 0
  }

  /** The error total is positive exactly when some result has an error. */
  lemma {:induction false} ErrorTotalPositive(rs: seq<FileResult>)
    ensures TotalErrors(rs) > 0 <==> SomeError(rs)
    decreases |rs|
  {
    if |rs| > 0 {
      var init := rs[..|rs| - 1];
      ErrorTotalPositive(init);
      if SomeError(init) {
        var i :| 0 <= i < |init| && |init[i].errors| > 0;
        assert rs[i] == init[i];
      }
      if SomeError(rs) {
        var i :| 0 <= i < |rs| && |rs[i].errors| > 0;
        if i < |rs| - 1 {
          assert rs[i] == init[i];
        }
      }
    }
  }

  /** The warning total is positive exactly when some result has a warning. */
  lemma {:induction false} WarningTotalPositive(rs: seq<FileResult>)
    ensures TotalWarnings(rs) > 0 <==> SomeWarning(rs)
    decreases |rs|
  {
    if |rs| > 0 {
      var init := rs[..|rs| - 1];
      WarningTotalPositive(init);
      if SomeWarning(init) {
        var i :| 0 <= i < |init| && |init[i].warnings| > 0;
        assert rs[i] == init[i];
      }
      if SomeWarning(rs) {
        var i :| 0 <= i < |rs| && |rs[i].warnings| > 0;
        if i < |rs| - 1 {
          assert rs[i] == init[i];
        }
      }
    }
  }

  /** Every result is valid exactly when the valid count is the number of results. */
  lemma {:induction false} AllClean(rs: seq<FileResult>)
    ensures CountValid(rs) == |rs| <==> forall i :: 0 <= i < |rs| ==> Clean(rs[i])
    decreases |rs|
  {
    if |rs| > 0 {
      var init := rs[..|rs| - 1];
      AllClean(init);
      assert forall i :: 0 <= i < |init| ==> rs[i] == init[i];
    }
  }

  /** The counters of a summary add up over a split of the results. */
  lemma {:induction false} SummaryConcat(a: seq<FileResult>, b: seq<FileResult>)
    ensures CountValid(a + b) == CountValid(a) + CountValid(b)
    ensures TotalErrors(a + b) == TotalErrors(a) + TotalErrors(b)
    ensures TotalWarnings(a + b) == TotalWarnings(a) + TotalWarnings(b)
    decreases |b|
  {
    if |b| == 0 {
      assert a + b == a;
    } else {
      var b' := b[..|b| - 1];
      SummaryConcat(a, b');
      assert (a + b)[..|a + b| - 1] == a + b';
      assert (a + b)[|a + b| - 1] == b[|b| - 1];
    }
  }

  /** `ValidationReporter`: the results added so far, in order. */
  class ValidationReporter {
    var results: seq<FileResult>

    constructor()
      ensures results == []
    {
      results := [];
    }

    /** `addResult(result)`: appends, leaving earlier results as they were. */
    method AddResult(r: FileResult)
      modifies this
      ensures results == old(results) + [r]
    {
      results := results + [r];
    }

    /** `getResults()`: the results in insertion order. */
    method GetResults() returns (rs: seq<FileResult>)
      ensures rs == results
    {
      rs := results;
    }

    /** `getSummary()`: the three counters over all results. */
    method GetSummary() returns (s: Summary)
      ensures s == SummaryOf(results)
      ensures s.valid <= |results|
    {
      var valid: nat := 0;
      var errors: nat := 0;
      var warnings: nat := 0;
      var i := 0;
      while i < |results|
        invariant 0 <= i <= |results|
        invariant valid == CountValid(results[..i])
        invariant errors == TotalErrors(results[..i])
        invariant warnings == TotalWarnings(results[..i])
      {
        var result := results[i];
        assert results[..i + 1][..i] == results[..i];
        if result.valid && |result.errors| == 0 {
          valid := valid + 1;
        }
        errors := errors + |result.errors|;
        warnings := warnings + |result.warnings|;
        i := i + 1;
      }
      assert results[..i] == results;
      s := Summary(valid, errors, warnings);
    }

    /** `hasErrors()`: some result has an error, that is, the summary counts errors. */
    function HasErrors(): (b: bool)
      reads this
      ensures b <==> SummaryOf(results).errors > 0
    {
      ErrorTotalPositive(results);
      exists i :: 0 <= i < |results| && |results[i].errors| > 0
    }

    /** `hasWarnings()`: some result has a warning, that is, the summary counts warnings. */
    function HasWarnings(): (b: bool)
      reads this
      ensures b <==> SummaryOf(results).warnings > 0
    {
      WarningTotalPositive(results);
      exists i :: 0 <= i < |results| && |results[i].warnings| > 0
    }

    /** `formatSummary(summary)`: the same text as the output formatter's summary line. */
    method FormatSummary(s: Summary) returns (text: string)
      ensures text == "\nSummary: " + JoinWith(CodexFormat.SummaryParts(s.valid, s.errors, s.warnings), ", ")
    {
      text := CodexFormat.FormatSummary(s.valid, s.errors, s.warnings);
    }

    /** `toJSON()`: the results paired with their summary. */
    method ToJson() returns (rep: Report)
      ensures rep.results == results
      ensures rep.summary == SummaryOf(results)
    {
      var s := GetSummary();
      rep := Report(results, s);
    }
  }

  /** Adding a result adds its own counts to the summary. */
  lemma AddedSummary(rs: seq<FileResult>, r: FileResult)
    ensures SummaryOf(rs + [r]) == Summary(
      CountValid(rs) + (if Clean(r) then 1 else 0),
      TotalErrors(rs) + |r.errors|,
      TotalWarnings(rs) + |r.warnings|)
  {
    assert (rs + [r])[..|rs|] == rs;
  }
}
