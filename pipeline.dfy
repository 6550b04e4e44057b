/**
 * `design_structure` and its two aliases: the ordered validation of a
 * request, then conversion, the edge-count check, the scaffold stage and the
 * cage design, each engine failure translated into one error of the taxonomy,
 * and the atomic-model step whose failure never reaches the caller.
 */
module Pipeline {
  import opened Text
  import opened Errors
  import opened Paths
  import opened Helical
  import opened Validation
  import opened Scaffold
  import opened Engine
  import opened Results

  /** The arguments of `design_structure`; the form is the caller's string, checked against the valid names. */
  datatype DesignRequest = DesignRequest(
    projectName: string,
    geometryFile: string,
    helicalForm: string,
    helicalTurns: int,
    scaffold: ScaffoldInput,
    outputDir: Option<string>,
    singleCrossovers: bool,
    printOutput: bool)

  /** A request with every optional argument at its default: B-form, 4 turns, no scaffold, the working directory. */
  function DefaultRequest(projectName: string, geometryFile: string): DesignRequest
  {
    DesignRequest(projectName, geometryFile, "Bform", 4, NoScaffold, None, false, true)
  }

  /** An outcome that is an error of the given kind. */
  predicate FailsWithKind<T>(r: Result<T>, kind: ErrorKind)
  {
    r.Err? && r.raised.Domain? && r.raised.error.kind == kind
  }

  /** What the validation phase hands on: the form and the project directory. */
  datatype Validated = Validated(form: HelicalForm, projectDir: string)

  /** Every validation passes: the reference, order-free statement of what the phase accepts. */
  predicate ValidationPasses(req: DesignRequest, env: Env)
  {
    ValidateGeometryAsWritten(req.geometryFile, env).None?
    && ParseForm(req.helicalForm).Some?
    && req.helicalTurns >= MinTurns(ParseForm(req.helicalForm).value)
    && ValidateScaffold(req.scaffold, env).None?
    && ValidateOutputDirectory(req.outputDir, req.projectName, env).Ok?
  }

  /** The scaffold check, then the output-directory check. */
  function ValidateTargets(req: DesignRequest, env: Env, form: HelicalForm): (r: Result<Validated>)
    ensures r.Ok? <==> ValidateScaffold(req.scaffold, env).None? && ValidateOutputDirectory(req.outputDir, req.projectName, env).Ok?
    ensures r.Ok? ==> r.value == Validated(form, ValidateOutputDirectory(req.outputDir, req.projectName, env).value)
    ensures r.Err? && r.raised.Domain? ==> r.raised.error.kind == ScaffoldSequence || r.raised.error.kind == OutputDirectory
  {
    match ValidateScaffold(req.scaffold, env)
    case Some(raised) => Err(raised)
    case None =>
      match ValidateOutputDirectory(req.outputDir, req.projectName, env)
      case Err(raised) => Err(raised)
      case Ok(dir) => Ok(Validated(form, dir))
  }

  /** The form check, then the turn check for that form, then the targets. */
  function ValidateHelical(req: DesignRequest, env: Env): (r: Result<Validated>)
    ensures r.Ok? <==> (ParseForm(req.helicalForm).Some? && req.helicalTurns >= MinTurns(ParseForm(req.helicalForm).value)
                        && ValidateTargets(req, env, ParseForm(req.helicalForm).value).Ok?)
    ensures r.Ok? ==> r == ValidateTargets(req, env, ParseForm(req.helicalForm).value)
    ensures FailsWithKind(r, Base) <==> req.helicalForm !in SortedFormNames
    ensures FailsWithKind(r, HelicalParameter) <==>
      ParseForm(req.helicalForm).Some? && req.helicalTurns < MinTurns(ParseForm(req.helicalForm).value)
  {
    match ParseForm(req.helicalForm)
    case None => Err(Domain(InvalidFormError(req.helicalForm)))
    case Some(form) =>
      match CheckTurns(form, req.helicalTurns)
      case Some(e) => Err(Domain(e))
      case None => ValidateTargets(req, env, form)
  }

  /**
   * The validation phase in the order the checks run: geometry file, form,
   * turns, scaffold, output directory; the first failure is the outcome.
   */
  function ValidateRequest(req: DesignRequest, env: Env): (r: Result<Validated>)
    ensures r.Ok? <==> ValidationPasses(req, env)
    ensures r.Ok? ==> r.value == Validated(ParseForm(req.helicalForm).value, ValidateOutputDirectory(req.outputDir, req.projectName, env).value)
    ensures FailsWithKind(r, Base) <==> ValidateGeometryAsWritten(req.geometryFile, env).None? && req.helicalForm !in SortedFormNames
    ensures FailsWithKind(r, HelicalParameter) <==> (ValidateGeometryAsWritten(req.geometryFile, env).None?
      && ParseForm(req.helicalForm).Some? && req.helicalTurns < MinTurns(ParseForm(req.helicalForm).value))
  {
    match ValidateGeometryAsWritten(req.geometryFile, env)
    case Some(e) => Err(Domain(e))
    case None => ValidateHelical(req, env)
  }

  /** The file system the engine phase runs in: validation has created the project directory. */
  function EngineEnv(req: DesignRequest, env: Env): Env
  {
    AfterOutputDirectory(req.outputDir, req.projectName, env)
  }

  /** The conversion call for a validated request. */
  function ConvertCallFor(req: DesignRequest, v: Validated): (r: ConvertCall)
    ensures r.geometryFile == req.geometryFile && r.projectDir == v.projectDir
    ensures r.aForm <==> v.form != Bform
    ensures v.form == Bform ==> 2 * r.minEdgeLen <= 21 * req.helicalTurns < 2 * r.minEdgeLen + 2
    ensures v.form != Bform ==> r.minEdgeLen == 11 * req.helicalTurns
  {
    var config := HelicalConfigFor(v.form, req.helicalTurns);
    ConvertCall(req.geometryFile, v.projectDir, config.minEdgeLen, config.aForm)
  }

  /** The cage-design call: the converted geometry, the request's crossover flag as 0 or 1, the resolved scaffold. */
  function CageCallFor(req: DesignRequest, v: Validated, c: Converted, scaffold: ResolvedScaffold): (r: CageCall)
    ensures r.shape == c.shape && r.edges == c.edges && r.edgeLengths == c.edgeLengths
    ensures r.fileName == c.fileName && r.stapleName == c.stapleName
    ensures r.scaffold == scaffold && r.resultsFolder == v.projectDir && r.printToConsole == req.printOutput
    ensures r.singleXOs in {0, 1} && (r.singleXOs == 1 <==> req.singleCrossovers)
    ensures r.aForm <==> v.form != Bform
    ensures r.twist == 1 <==> v.form == Aform || v.form == Bform
    ensures r.twist == 2 <==> v.form == Hybrid
    ensures r.twist == 3 <==> v.form == Twisted
  {
    var config := HelicalConfigFor(v.form, req.helicalTurns);
    CageCall(c.shape, c.edges, c.edgeLengths, c.fileName, c.stapleName,
      if req.singleCrossovers then 1 else 0, scaffold, config.aForm, v.projectDir, config.twist, req.printOutput)
  }

  /**
   * The engine phase after validation; of the engine it uses the conversion
   * and the cage design, since the atomic model cannot change the outcome.
   * Every failure in it is an error of the
   * taxonomy (no foreign exception escapes), and a success keeps the project
   * name and directory.
   */
  function RunEngine(req: DesignRequest, env: Env, convert: ConvertCall -> ConvertOutcome,
                     design: CageCall -> CageOutcome, v: Validated): (r: Result<DesignResult>)
    ensures r.Err? ==> r.raised.Domain?
    ensures r.Err? ==> r.raised.error.kind in {GeometryFile, DesignConstraint, ScaffoldSequence, StapleGeneration}
    ensures r.Ok? ==> r.value.projectName == req.projectName && r.value.outputDir == v.projectDir
  {
    match convert(ConvertCallFor(req, v))
    case ConvertFailed(failure) => Err(Domain(ConversionError(failure, req.geometryFile)))
    case ConvertOk(c) =>
      var edgeCount := EdgeCount(c.edges);
      if edgeCount == 0 then Err(Domain(NoEdgesError(req.geometryFile)))
      else
        match ScaffoldStage(req.scaffold, req.projectName, env, edgeCount, TotalEdgeLength(c.edgeLengths))
        case Err(raised) => Err(raised)
        case Ok(scaffold) =>
          match design(CageCallFor(req, v, c, scaffold))
          case CageFailed(text) =>
            Err(Domain(CageFailureError(text, scaffold, edgeCount, req.helicalForm, req.projectName, req.helicalTurns)))
          case Designed(name) => Ok(DesignResult(req.projectName, v.projectDir, name))
  }

  /**
   * `design_structure`: validation, then the engine. A rejected request fails
   * with the validation's own outcome; an accepted one returns a result for
   * the project under the validated directory.
   */
  function Design(req: DesignRequest, env: Env, engine: DesignEngine): (r: Result<DesignResult>)
    ensures !ValidationPasses(req, env) ==> r.Err? && r.raised == ValidateRequest(req, env).raised
    ensures r.Ok? ==> ValidationPasses(req, env) && r.value.projectName == req.projectName
    ensures r.Ok? ==> r.value.outputDir == ValidateOutputDirectory(req.outputDir, req.projectName, env).value
    ensures FailsWithKind(r, Base) <==> ValidateGeometryAsWritten(req.geometryFile, env).None? && req.helicalForm !in SortedFormNames
    ensures FailsWithKind(r, HelicalParameter) <==> (ValidateGeometryAsWritten(req.geometryFile, env).None?
      && ParseForm(req.helicalForm).Some? && req.helicalTurns < MinTurns(ParseForm(req.helicalForm).value))
  {
    match ValidateRequest(req, env)
    case Err(raised) => Err(raised)
    case Ok(v) => RunEngine(req, EngineEnv(req, env), engine.convert, engine.design, v)
  }

  /**
   * The pipeline step by step, as `design_structure` runs it: each check
   * returns early with its error, then the engine phase runs.
   */
  method DesignStructure(req: DesignRequest, env: Env, engine: DesignEngine) returns (r: Result<DesignResult>)
    ensures r == Design(req, env, engine)
  {
    var validated := CheckRequest(req, env);
    if validated.Err? {
      return Err(validated.raised);
    }
    r := RunDesignEngine(req, EngineEnv(req, env), engine, validated.value);
  }

  /** The validation phase of `design_structure`: each check in turn, returning early with its error. */
  method CheckRequest(req: DesignRequest, env: Env) returns (r: Result<Validated>)
    ensures r == ValidateRequest(req, env)
  {
    var geometryError := ValidateGeometryAsWritten(req.geometryFile, env);
    if geometryError.Some? {
      return Err(Domain(geometryError.value));
    }
    r := CheckHelical(req, env);
  }

  /** The form check, then the turn check for that form, then the targets. */
  method CheckHelical(req: DesignRequest, env: Env) returns (r: Result<Validated>)
    ensures r == ValidateHelical(req, env)
  {
    var parsed := ParseForm(req.helicalForm);
    if parsed.None? {
      return Err(Domain(InvalidFormError(req.helicalForm)));
    }
    var form := parsed.value;
    if req.helicalTurns < MinTurns(form) {
      return Err(Domain(HelicalParameterError(req.helicalForm, req.helicalTurns, MinTurns(form))));
    }
    r := CheckTargets(req, env, form);
  }

  /** The scaffold check, then the output-directory check, returning early with the first error. */
  method CheckTargets(req: DesignRequest, env: Env, form: HelicalForm) returns (r: Result<Validated>)
    ensures r == ValidateTargets(req, env, form)
  {
    var scaffoldError := ValidateScaffold(req.scaffold, env);
    if scaffoldError.Some? {
      return Err(scaffoldError.value);
    }
    var directory := ValidateOutputDirectory(req.outputDir, req.projectName, env);
    if directory.Err? {
      return Err(directory.raised);
    }
    r := Ok(Validated(form, directory.value));
  }

  /**
   * The engine phase of `design_structure`: conversion, the edge-count check,
   * the scaffold read line by line and its length check, the cage design,
   * then the atomic model, generated last with its outcome discarded.
   */
  method RunDesignEngine(req: DesignRequest, env: Env, engine: DesignEngine, v: Validated) returns (r: Result<DesignResult>)
    ensures r == RunEngine(req, env, engine.convert, engine.design, v)
  {
    var config := HelicalConfigFor(v.form, req.helicalTurns);
    var conversion := engine.convert(ConvertCall(req.geometryFile, v.projectDir, config.minEdgeLen, config.aForm));
    if conversion.ConvertFailed? {
      return Err(Domain(ConversionError(conversion.failure, req.geometryFile)));
    }
    var c := conversion.converted;
    var edgeCount := EdgeCount(c.edges);
    if edgeCount == 0 {
      return Err(Domain(NoEdgesError(req.geometryFile)));
    }
    var total := TotalEdgeLength(c.edgeLengths);

    var resolved := ProcessScaffoldSequence(req.scaffold, req.projectName, env);
    if resolved.Err? {
      return Err(Domain(ProcessingError(resolved.raised.text)));
    }
    var scaffold := resolved.value;
    var tooShort := LengthCheck(scaffold, edgeCount, total);
    if tooShort.Some? {
      return Err(Domain(tooShort.value));
    }

    var designed := engine.design(CageCallFor(req, v, c, scaffold));
    if designed.CageFailed? {
      return Err(Domain(CageFailureError(designed.text, scaffold, edgeCount, req.helicalForm, req.projectName, req.helicalTurns)));
    }
    // The atomic model is best effort: its outcome, failed or not, does not change the result.
    var _ := engine.pdb(PdbCall(designed.fullFileName, config.aForm, v.projectDir));
    r := Ok(DesignResult(req.projectName, v.projectDir, designed.fullFileName));
  }

  /** `design_dna_structure`: the pipeline with the form fixed to B-form. */
  method DesignDnaStructure(req: DesignRequest, env: Env, engine: DesignEngine) returns (r: Result<DesignResult>)
    ensures r == Design(req.(helicalForm := "Bform"), env, engine)
  {
    r := DesignStructure(req.(helicalForm := "Bform"), env, engine);
  }

  /** `design_rna_structure`: the pipeline with the form fixed to A-form. */
  method DesignRnaStructure(req: DesignRequest, env: Env, engine: DesignEngine) returns (r: Result<DesignResult>)
    ensures r == Design(req.(helicalForm := "Aform"), env, engine)
  {
    r := DesignStructure(req.(helicalForm := "Aform"), env, engine);
  }

  // ---------------------------------------------------------------- order of the checks

  /** A bad geometry file is reported whatever else is wrong with the request. */
  lemma GeometryErrorWins(req: DesignRequest, env: Env, engine: DesignEngine)
    requires ValidateGeometryAsWritten(req.geometryFile, env).Some?
    ensures Design(req, env, engine) == Err(Domain(ValidateGeometryAsWritten(req.geometryFile, env).value))
  {
  }

  /** With a good geometry file, an unknown form is reported before the turn count is looked at. */
  lemma InvalidFormBeforeTurns(req: DesignRequest, env: Env, engine: DesignEngine)
    requires ValidateGeometryAsWritten(req.geometryFile, env).None?
    requires req.helicalForm !in SortedFormNames
    ensures Design(req, env, engine) == Err(Domain(InvalidFormError(req.helicalForm)))
  {
  }

  /** Too few turns are reported before the scaffold and the output directory are validated. */
  lemma TurnsBeforeScaffoldAndDirectory(req: DesignRequest, env: Env, engine: DesignEngine, form: HelicalForm)
    requires ValidateGeometryAsWritten(req.geometryFile, env).None?
    requires req.helicalForm == FormName(form)
    requires req.helicalTurns < MinTurns(form)
    ensures Design(req, env, engine)
      == Err(Domain(HelicalParameterError(req.helicalForm, req.helicalTurns, MinTurns(form))))
  {
    ParseFormName(form);
  }

  /** A bad scaffold is reported before the output directory is created. */
  lemma ScaffoldBeforeDirectory(req: DesignRequest, env: Env, engine: DesignEngine)
    requires ValidateGeometryAsWritten(req.geometryFile, env).None?
    requires ParseForm(req.helicalForm).Some?
    requires req.helicalTurns >= MinTurns(ParseForm(req.helicalForm).value)
    requires ValidateScaffold(req.scaffold, env).Some?
    ensures Design(req, env, engine) == Err(ValidateScaffold(req.scaffold, env).value)
  {
  }

  /** A rejected request never reaches the engine: its outcome is the same whatever the engine does. */
  lemma RejectedRequestIgnoresEngine(req: DesignRequest, env: Env, e1: DesignEngine, e2: DesignEngine)
    requires !ValidationPasses(req, env)
    ensures Design(req, env, e1) == Design(req, env, e2)
  {
  }

  /** The aliases fix a valid form, so they never raise the base error. */
  lemma AliasesNeverRejectForm(req: DesignRequest, env: Env, engine: DesignEngine)
    ensures !FailsWithKind(Design(req.(helicalForm := "Bform"), env, engine), Base)
    ensures !FailsWithKind(Design(req.(helicalForm := "Aform"), env, engine), Base)
  {
  }

  /** Once the geometry file is good, an RNA design fails on its turns exactly when it has fewer than 4. */
  lemma RnaMinimumTurns(req: DesignRequest, env: Env, engine: DesignEngine)
    requires ValidateGeometryAsWritten(req.geometryFile, env).None?
    ensures FailsWithKind(Design(req.(helicalForm := "Aform"), env, engine), HelicalParameter) <==> req.helicalTurns < 4
  {
    ParseFormName(Aform);
    assert MinTurns(Aform) == 4;
  }

  /** Once the geometry file is good, a DNA design fails on its turns exactly when it has fewer than 3. */
  lemma DnaMinimumTurns(req: DesignRequest, env: Env, engine: DesignEngine)
    requires ValidateGeometryAsWritten(req.geometryFile, env).None?
    ensures FailsWithKind(Design(req.(helicalForm := "Bform"), env, engine), HelicalParameter) <==> req.helicalTurns < 3
  {
    ParseFormName(Bform);
    assert MinTurns(Bform) == 3;
  }

  /** The defaults pass the helical checks: B-form with 4 turns, edges of at least 42 nucleotides, no A-form flag, twist mode 1. */
  lemma DefaultsPassHelicalChecks(projectName: string, geometryFile: string)
    ensures var req := DefaultRequest(projectName, geometryFile);
      ParseForm(req.helicalForm) == Some(Bform) && CheckTurns(Bform, req.helicalTurns).None?
      && HelicalConfigFor(Bform, req.helicalTurns) == HelicalConfig(42, false, 1)
  {
  }

  // ---------------------------------------------------------------- the engine phase

  /** A conversion without edges is reported as such, before the scaffold stage and the cage design. */
  lemma NoEdgesReported(req: DesignRequest, env: Env, engine: DesignEngine)
    requires ValidationPasses(req, env)
    requires var outcome := engine.convert(ConvertCallFor(req, ValidateRequest(req, env).value));
      outcome.ConvertOk? && EdgeCount(outcome.converted.edges) == 0
    ensures Design(req, env, engine) == Err(Domain(NoEdgesError(req.geometryFile)))
  {
  }

  /** A failed conversion is reported as the translated conversion error, before anything else runs. */
  lemma ConversionFailureReported(req: DesignRequest, env: Env, engine: DesignEngine, v: Validated, failure: EngineFailure)
    requires ValidateRequest(req, env) == Ok(v)
    requires engine.convert(ConvertCallFor(req, v)) == ConvertFailed(failure)
    ensures Design(req, env, engine) == Err(Domain(ConversionError(failure, req.geometryFile)))
  {
  }

  /**
   * Once the geometry has edges, a scaffold that cannot be read (in the file
   * system as validation left it) is reported as "Error processing scaffold
   * sequence" carrying the original exception's text.
   */
  lemma ResolutionFailureReported(req: DesignRequest, env: Env, engine: DesignEngine, v: Validated, c: Converted)
    requires ValidateRequest(req, env) == Ok(v)
    requires engine.convert(ConvertCallFor(req, v)) == ConvertOk(c) && EdgeCount(c.edges) > 0
    requires ProcessScaffoldAsWritten(req.scaffold, req.projectName, EngineEnv(req, env)).Err?
    ensures Design(req, env, engine) == Err(Domain(ProcessingError(
      ProcessScaffoldAsWritten(req.scaffold, req.projectName, EngineEnv(req, env)).raised.text)))
  {
  }

  /**
   * A cage-design failure after a resolved scaffold that passed the length
   * check is reported as the error its text classifies to, built from the
   * edge count, the caller's form name, the project name and the turns.
   */
  lemma CageFailureReported(req: DesignRequest, env: Env, engine: DesignEngine, v: Validated, c: Converted,
                            s: ResolvedScaffold, text: string)
    requires ValidateRequest(req, env) == Ok(v)
    requires engine.convert(ConvertCallFor(req, v)) == ConvertOk(c) && EdgeCount(c.edges) > 0
    requires ProcessScaffoldAsWritten(req.scaffold, req.projectName, EngineEnv(req, env)) == Ok(s)
    requires LengthCheck(s, EdgeCount(c.edges), TotalEdgeLength(c.edgeLengths)).None?
    requires engine.design(CageCallFor(req, v, c, s)) == CageFailed(text)
    ensures Design(req, env, engine) == Err(Domain(CageFailureError(text, s, EdgeCount(c.edges),
      req.helicalForm, req.projectName, req.helicalTurns)))
  {
  }

  /**
   * As written, an inline scaffold spelled like the project, with no output
   * directory and nothing of that name beforehand, passes validation; but
   * validation then creates the project directory in the working directory,
   * so `exists()` finds it and reading it fails: the design stops with
   * "Error processing scaffold sequence".
   */
  lemma ProjectNamedScaffoldUnreadable(req: DesignRequest, env: Env, engine: DesignEngine, v: Validated, c: Converted)
    requires ValidateRequest(req, env) == Ok(v)
    requires req.outputDir.None? && req.scaffold == StrInput(req.projectName)
    requires req.projectName != DefaultScaffoldKeyword && !Exists(env, req.projectName)
    requires engine.convert(ConvertCallFor(req, v)) == ConvertOk(c) && EdgeCount(c.edges) > 0
    ensures Design(req, env, engine) == Err(Domain(ProcessingError(IsADirectoryText(req.projectName))))
  {
    var after := EngineEnv(req, env);
    assert after.files[req.projectName] == Unreadable(false, IsADirectoryText(req.projectName));
    assert ProcessScaffoldAsWritten(req.scaffold, req.projectName, after)
        == Err(Foreign(IsADirectoryText(req.projectName)));
  }

  /**
   * The empty scaffold, as written: validation takes "" for an empty inline
   * sequence, but `Path("")` is the current directory, which exists, so the
   * engine phase opens a directory and reports the processing error.
   */
  lemma EmptyScaffoldUnreadable(req: DesignRequest, env: Env, engine: DesignEngine, v: Validated, c: Converted)
    requires ValidateRequest(req, env) == Ok(v)
    requires req.scaffold == StrInput("")
    requires Exists(env, "") && env.files[""] == Unreadable(false, IsADirectoryText("."))
    requires engine.convert(ConvertCallFor(req, v)) == ConvertOk(c) && EdgeCount(c.edges) > 0
    ensures Design(req, env, engine) == Err(Domain(ProcessingError(IsADirectoryText("."))))
  {
    var after := EngineEnv(req, env);
    assert after.files[""] == Unreadable(false, IsADirectoryText("."));
    assert ProcessScaffoldAsWritten(req.scaffold, req.projectName, after)
        == Err(Foreign(IsADirectoryText(".")));
  }

  /**
   * The same request under the resolution aligned on validation: the value
   * was validated as an inline sequence, and it stays that sequence in the
   * file system the engine phase sees.
   */
  lemma ProjectNamedScaffoldAligned(req: DesignRequest, env: Env)
    requires ValidationPasses(req, env)
    requires req.outputDir.None? && req.scaffold == StrInput(req.projectName)
    requires req.projectName != DefaultScaffoldKeyword && !Exists(env, req.projectName)
    ensures ProcessScaffold(req.scaffold, req.projectName, EngineEnv(req, env))
         == Ok(Sequence(Upper(req.projectName), req.projectName))
    ensures AllBases(Upper(req.projectName))
  {
    InlineScaffoldAcceptedIff(req.projectName, env);
  }

  /**
   * Once the geometry has edges, a given non-empty scaffold shorter than
   * twice the total edge length is reported as too short; and a success means
   * the resolved scaffold is the default, empty or long enough.
   */
  lemma ScaffoldLengthEnforced(req: DesignRequest, env: Env, engine: DesignEngine, v: Validated,
                                c: Converted, s: ResolvedScaffold)
    requires ValidateRequest(req, env) == Ok(v)
    requires engine.convert(ConvertCallFor(req, v)) == ConvertOk(c) && EdgeCount(c.edges) > 0
    requires ProcessScaffoldAsWritten(req.scaffold, req.projectName, EngineEnv(req, env)) == Ok(s)
    ensures var total := TotalEdgeLength(c.edgeLengths);
      (s.Sequence? && s.bases != [] && |s.bases| < 2 * total)
        ==> Design(req, env, engine) == Err(Domain(TooShortError(|s.bases|, 2 * total, EdgeCount(c.edges), total)))
    ensures var total := TotalEdgeLength(c.edgeLengths);
      Design(req, env, engine).Ok? ==> s.EngineDefault? || s.bases == [] || |s.bases| >= 2 * total
  {
    ScaffoldStageTooShortIff(req.scaffold, req.projectName, EngineEnv(req, env), EdgeCount(c.edges), TotalEdgeLength(c.edgeLengths));
  }

  /**
   * A success whose scaffold is not an inline-looking name of an existing
   * file used the engine's default or a sequence of nucleotides only.
   */
  lemma ValidatedDesignUsesBases(req: DesignRequest, env: Env, engine: DesignEngine)
    requires Design(req, env, engine).Ok? && !InlineValueNamesFile(req.scaffold, EngineEnv(req, env))
    ensures var s := ProcessScaffoldAsWritten(req.scaffold, req.projectName, EngineEnv(req, env));
      s.Ok? && (s.value.EngineDefault? || AllBases(s.value.bases))
  {
    var after := EngineEnv(req, env);
    ScaffoldValidationKept(req.scaffold, req.outputDir, req.projectName, env);
    ResolutionsAgree(req.scaffold, req.projectName, after);
    ValidatedScaffoldResolves(req.scaffold, req.projectName, after);
  }

  /**
   * As written, an inline "ACGT" that names an existing readable one-line file
   * passes validation as a sequence, and the cage design receives the file's
   * content instead, whatever that content is, as long as it is long enough.
   */
  lemma InlineFileNameReachesDesign(req: DesignRequest, env: Env, engine: DesignEngine, v: Validated,
                                    c: Converted, content: string)
    requires ValidateRequest(req, env) == Ok(v) && req.scaffold == StrInput("ACGT")
    requires "ACGT" in env.files && env.files["ACGT"] == Readable(content)
    requires '\n' !in Strip(content) && |Strip(content)| >= 2 * TotalEdgeLength(c.edgeLengths)
    requires engine.convert(ConvertCallFor(req, v)) == ConvertOk(c) && EdgeCount(c.edges) > 0
    requires engine.design(CageCallFor(req, v, c, Sequence(Upper(Strip(content)), req.projectName))).Designed?
    ensures Design(req, env, engine) == Ok(DesignResult(req.projectName, v.projectDir,
      engine.design(CageCallFor(req, v, c, Sequence(Upper(Strip(content)), req.projectName))).fullFileName))
  {
    AcgtIsInline();
    InlineValueReadsNamedFile("ACGT", req.projectName, EngineEnv(req, env));
  }

  /**
   * As written, a blank `.ply` file reaches the caller as "Cannot read file"
   * wrapping the "File is empty" error, never as that error itself.
   */
  lemma BlankGeometryReportedUnreadable(req: DesignRequest, env: Env, engine: DesignEngine)
    requires Exists(env, req.geometryFile) && Lower(Suffix(req.geometryFile)) == ".ply"
    requires env.files[req.geometryFile].Readable? && AllSpace(Head(env.files[req.geometryFile].content, 100))
    ensures Design(req, env, engine) == Err(Domain(UnreadableGeometry(req.geometryFile,
      FullMessage(GeometryFileError(req.geometryFile, "File is empty", "PLY file contains no data")))))
  {
    BlankGeometryWrapped(req.geometryFile, env);
    GeometryErrorWins(req, env, engine);
  }

  /** The atomic-model step never matters: the outcome is the same whatever `pdbgen` does. */
  lemma PdbFailureNeverPropagates(req: DesignRequest, env: Env, engine: DesignEngine, pdb: PdbCall -> PdbOutcome)
    ensures Design(req, env, engine.(pdb := pdb)) == Design(req, env, engine)
  {
    assert engine.(pdb := pdb).convert == engine.convert && engine.(pdb := pdb).design == engine.design;
  }

  /**
   * A success is the project under the validated directory with the stem the
   * cage design returned for the call built from the converted geometry and
   * the resolved scaffold.
   */
  lemma SuccessDescribesDesign(req: DesignRequest, env: Env, engine: DesignEngine)
    requires Design(req, env, engine).Ok?
    ensures var v := ValidateRequest(req, env).value;
      var outcome := engine.convert(ConvertCallFor(req, v));
      outcome.ConvertOk?
      && EdgeCount(outcome.converted.edges) > 0
      && ProcessScaffoldAsWritten(req.scaffold, req.projectName, EngineEnv(req, env)).Ok?
      && var call := CageCallFor(req, v, outcome.converted,
                                 ProcessScaffoldAsWritten(req.scaffold, req.projectName, EngineEnv(req, env)).value);
         engine.design(call) == Designed(Design(req, env, engine).value.fullFileName)
         && call.resultsFolder == Design(req, env, engine).value.outputDir
         && call.singleXOs == (if req.singleCrossovers then 1 else 0)
  {
    var v := ValidateRequest(req, env).value;
    assert Design(req, env, engine) == RunEngine(req, EngineEnv(req, env), engine.convert, engine.design, v);
    EngineSuccess(req, EngineEnv(req, env), engine.convert, engine.design, v);
  }

  /** A successful engine phase: conversion with edges, a resolved scaffold, and the cage design's stem. */
  lemma EngineSuccess(req: DesignRequest, env: Env, convert: ConvertCall -> ConvertOutcome,
                      design: CageCall -> CageOutcome, v: Validated)
    requires RunEngine(req, env, convert, design, v).Ok?
    ensures convert(ConvertCallFor(req, v)).ConvertOk?
    ensures EdgeCount(convert(ConvertCallFor(req, v)).converted.edges) > 0
    ensures ProcessScaffoldAsWritten(req.scaffold, req.projectName, env).Ok?
    ensures design(CageCallFor(req, v, convert(ConvertCallFor(req, v)).converted,
                               ProcessScaffoldAsWritten(req.scaffold, req.projectName, env).value))
         == Designed(RunEngine(req, env, convert, design, v).value.fullFileName)
  {
    var c := convert(ConvertCallFor(req, v)).converted;
    var s := ScaffoldStage(req.scaffold, req.projectName, env, EdgeCount(c.edges), TotalEdgeLength(c.edgeLengths));
    assert s.Ok?;
  }
}
