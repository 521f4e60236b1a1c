/**
 * The `validate` command: each file's frontmatter is read, parsed and
 * validated into one result, the results are collected by a reporter, and
 * the exit status follows from the reporter's error and warning flags.
 * Finding the files, printing and `process.exit` itself are not part of this
 * model: the command's outcome is the report and the status it would exit with.
 */
module CodexValidate {
  import opened Wrappers
  import opened CodexMetadata
  import opened CodexReporter

  const NoFrontmatterWarning := "No frontmatter found (file will not sync)"
  const ParseError := "Failed to parse frontmatter"
  const NoSyncRulesWarning := "No sync rules defined (codex_sync_include is empty)"
  const MissingOrgWarning := "Missing org field (recommended)"
  const MissingSystemWarning := "Missing system field (recommended)"

  /** The warnings of a file whose metadata passed validation, in the order they are checked. */
  function SuccessWarnings(m: Metadata): seq<string> {
    (if |OrEmpty(m.syncInclude)| == 0 then [NoSyncRulesWarning] else [])
    + (if !Truthy(m.org) then [MissingOrgWarning] else [])
    + (if !Truthy(m.system) then [MissingSystemWarning] else [])
  }

  /** Each success warning is given exactly when its field is missing or empty. */
  lemma SuccessWarningsIff(m: Metadata)
    ensures var ws := SuccessWarnings(m);
      && (NoSyncRulesWarning in ws <==> |OrEmpty(m.syncInclude)| == 0)
      && (MissingOrgWarning in ws <==> !Truthy(m.org))
      && (MissingSystemWarning in ws <==> !Truthy(m.system))
      && |ws| <= 3
  {
  }

  /** The result `validateFile(filePath)` resolves to. */
  function FileValidation(lib: Library, read: string -> Result<string>, path: string): FileResult {
    match ReadFileContent(read, path)
    case Err(message) => FileResult(path, false, None, ["Failed to validate: " + message], [])
    case Ok(content) =>
      if !lib.hasFrontmatter(content) then FileResult(path, false, None, [], [NoFrontmatterWarning])
      else match lib.parseMetadata(content)
        case None => FileResult(path, false, None, [ParseError], [])
        case Some(m) =>
          var check := lib.validateMetadata(m);
          if !check.valid && check.errors.Some? then FileResult(path, false, None, check.errors.value, [])
          else FileResult(path, true, Some(m), [], SuccessWarnings(m))
  }

  /**
   * `validateFile(filePath)`: the result record starts invalid and empty and
   * is updated step by step; `FileValidationCases` describes each way out.
   */
  method ValidateFile(lib: Library, read: string -> Result<string>, path: string) returns (result: FileResult)
    ensures result == FileValidation(lib, read, path)
  {
    result := FileResult(path, false, None, [], []);
    var contentOrError := ReadFileContent(read, path);
    if contentOrError.Err? {
      result := result.(errors := result.errors + ["Failed to validate: " + contentOrError.error]);
      return;
    }
    var content := contentOrError.value;
    if !lib.hasFrontmatter(content) {
      result := result.(warnings := result.warnings + [NoFrontmatterWarning]);
      return;
    }
    var parseResult := lib.parseMetadata(content);
    if parseResult.None? {
      result := result.(errors := result.errors + [ParseError]);
      return;
    }
    var m := parseResult.value;
    var validation := lib.validateMetadata(m);
    if !validation.valid && validation.errors.Some? {
      var es := validation.errors.value;
      for i := 0 to |es|
        invariant result == FileResult(path, false, None, es[..i], [])
      {
        assert es[..i + 1] == es[..i] + [es[i]];
        result := result.(errors := result.errors + [es[i]]);
      }
      assert es[..|es|] == es;
      return;
    }
    result := result.(valid := true, metadata := Some(m));
    if m.syncInclude.None? || |m.syncInclude.value| == 0 {
      result := result.(warnings := result.warnings + [NoSyncRulesWarning]);
    }
    if !Truthy(m.org) {
      result := result.(warnings := result.warnings + [MissingOrgWarning]);
    }
    if !Truthy(m.system) {
      result := result.(warnings := result.warnings + [MissingSystemWarning]);
    }
    assert result.warnings == [] + SuccessWarnings(m);
  }

  /**
   * What each way out of `validateFile` leaves: an unreadable file one
   * "Failed to validate" error, a file without frontmatter one warning, an
   * unparsable one one error, rejected metadata its own errors, and metadata
   * that passes a valid result with the success warnings.
   */
  lemma FileValidationCases(lib: Library, read: string -> Result<string>, path: string)
    ensures var result := FileValidation(lib, read, path);
      result.filePath == path
    ensures var result := FileValidation(lib, read, path);
      read(path).Err? ==>
        result == FileResult(path, false, None, ["Failed to validate: " + ("Failed to read file " + path + ": " + read(path).error)], [])
    ensures var result := FileValidation(lib, read, path);
      read(path).Ok? && !lib.hasFrontmatter(read(path).value) ==>
        result == FileResult(path, false, None, [], [NoFrontmatterWarning])
    ensures var result := FileValidation(lib, read, path);
      read(path).Ok? && lib.hasFrontmatter(read(path).value) && lib.parseMetadata(read(path).value).None? ==>
        result == FileResult(path, false, None, [ParseError], [])
    ensures var result := FileValidation(lib, read, path);
      result.valid <==> (read(path).Ok? && lib.hasFrontmatter(read(path).value)
        && lib.parseMetadata(read(path).value).Some?
        && var check := lib.validateMetadata(lib.parseMetadata(read(path).value).value);
        (check.valid || check.errors.None?))
    ensures var result := FileValidation(lib, read, path);
      !result.valid ==> result.metadata.None?
    ensures var result := FileValidation(lib, read, path);
      result.valid ==> (result.metadata.Some? && result.errors == []
        && result.warnings == SuccessWarnings(result.metadata.value))
  {
  }

  /** The results of validating the files, in order. */
  function ValidateAllSpec(lib: Library, read: string -> Result<string>, files: seq<string>): (rs: seq<FileResult>)
    ensures |rs| == |files|
  {
    if |files| == 0 then []
    else ValidateAllSpec(lib, read, files[..|files| - 1]) + [FileValidation(lib, read, files[|files| - 1])]
  }

  /** Each file's result sits at its own index. */
  lemma {:induction false} ValidateAllAt(lib: Library, read: string -> Result<string>, files: seq<string>, k: nat)
    requires k < |files|
    ensures ValidateAllSpec(lib, read, files)[k] == FileValidation(lib, read, files[k])
    decreases |files|
  {
    if k < |files| - 1 {
      ValidateAllAt(lib, read, files[..|files| - 1], k);
    }
  }

  /** The exit status: 1 when some result has an error, or under `--strict` a warning; 0 otherwise. */
  function ExitStatus(rs: seq<FileResult>, strict: bool): (code: int)
    ensures code == 0 || code == 1
  {
    if SomeError(rs) then 1 else if strict && SomeWarning(rs) then 1 else 0
  }

  /**
   * The command after the files are known: validate each into a fresh
   * reporter, then report the results and the exit status.
   */
  method ValidateCommand(lib: Library, read: string -> Result<string>, files: seq<string>, strict: bool)
    returns (report: Report, status: int)
    ensures report.results == ValidateAllSpec(lib, read, files)
    ensures report.summary == SummaryOf(report.results)
    ensures status == ExitStatus(report.results, strict)
  {
    var reporter := new ValidationReporter();
    for i := 0 to |files|
      invariant reporter.results == ValidateAllSpec(lib, read, files[..i])
    {
      assert files[..i + 1][..i] == files[..i];
      var result := ValidateFile(lib, read, files[i]);
      reporter.AddResult(result);
    }
    assert files[..|files|] == files;
    report := reporter.ToJson();
    status := 0;
    if reporter.HasErrors() {
      ErrorTotalPositive(reporter.results);
      status := 1;
    } else if strict && reporter.HasWarnings() {
      ErrorTotalPositive(reporter.results);
      WarningTotalPositive(reporter.results);
      status := 1;
    } else {
      ErrorTotalPositive(reporter.results);
      WarningTotalPositive(reporter.results);
    }
  }

  /** The exit status is non-zero exactly when some file's result has an error, or, under `--strict`, a warning. */
  lemma ExitStatusRule(lib: Library, read: string -> Result<string>, files: seq<string>, strict: bool)
    ensures var rs := ValidateAllSpec(lib, read, files);
      ExitStatus(rs, strict) != 0 <==>
        (exists k :: 0 <= k < |files| && |FileValidation(lib, read, files[k]).errors| > 0)
        || (strict && exists k :: 0 <= k < |files| && |FileValidation(lib, read, files[k]).warnings| > 0)
  {
    var rs := ValidateAllSpec(lib, read, files);
    forall k | 0 <= k < |files| ensures rs[k] == FileValidation(lib, read, files[k]) {
      ValidateAllAt(lib, read, files, k);
    }
  }

  /** A file without frontmatter is not an error: it fails the command only under `--strict`. */
  lemma NoFrontmatterOnlyWarns(lib: Library, read: string -> Result<string>, path: string)
    requires read(path).Ok? && !lib.hasFrontmatter(read(path).value)
    ensures ExitStatus([FileValidation(lib, read, path)], false) == 0
    ensures ExitStatus([FileValidation(lib, read, path)], true) == 1
  {
    var r := FileValidation(lib, read, path);
    assert [r][0] == r;
  }

  /**
   * Metadata the library rejects without listing errors is treated as passing:
   * the file is reported valid, with the success warnings.
   */
  lemma RejectedWithoutErrorsPasses(lib: Library, read: string -> Result<string>, path: string)
    requires read(path).Ok? && lib.hasFrontmatter(read(path).value)
    requires lib.parseMetadata(read(path).value).Some?
    requires var check := lib.validateMetadata(lib.parseMetadata(read(path).value).value);
      !check.valid && check.errors.None?
    ensures FileValidation(lib, read, path).valid
  {
  }

  /**
   * Metadata rejected with an empty error list leaves a result that is neither
   * valid nor in error: it counts as neither in the summary and does not fail
   * the command.
   */
  lemma RejectedWithEmptyErrors(lib: Library, read: string -> Result<string>, path: string)
    requires read(path).Ok? && lib.hasFrontmatter(read(path).value)
    requires lib.parseMetadata(read(path).value).Some?
    requires var check := lib.validateMetadata(lib.parseMetadata(read(path).value).value);
      !check.valid && check.errors == Some([])
    ensures var rs := [FileValidation(lib, read, path)];
      SummaryOf(rs) == Summary(0, 0, 0) && ExitStatus(rs, true) == 0
  {
    var r := FileValidation(lib, read, path);
    var rs := [r];
    assert rs[..0] == [];
    ErrorTotalPositive(rs);
    WarningTotalPositive(rs);
  }
}
