/**
 * Input validation run before the engine is called: the geometry file, the
 * scaffold input and the output directory.
 */
module Validation {
  import opened Text
  import opened Errors
  import opened Paths

  // ---------------------------------------------------------------- geometry file

  /** The first `n` characters, as `f.read(n)` returns them. */
  function Head(content: string, n: nat): (r: string)
    ensures |r| == if |content| <= n then |content| else n
    ensures r == content[..|r|]
  {
    if |content| <= n then content else content[..n]
  }

  /** The checks made on the opened file's first characters: blank, or without the "ply" marker. */
  function HeaderProblem(path: string, head: string): (r: Option<DomainError>)
    ensures r.None? <==> !AllSpace(head) && Contains(Lower(head), "ply")
    ensures r.Some? ==> r.value.kind == GeometryFile && r.value.advice == GeometryAdvice(path)
    ensures r.Some? && AllSpace(head) ==> r.value == GeometryFileError(path, "File is empty", "PLY file contains no data")
  {
    if Strip(head) == "" then
      Some(GeometryFileError(path, "File is empty", "PLY file contains no data"))
    else if !Contains(Lower(head), "ply") then
      Some(GeometryFileError(path, "File doesn't appear to be in PLY format",
        "Expected PLY header, found: " + Head(head, 50) + "..."))
    else
      None
  }

  /**
   * Where a geometry check failed: before the file is opened, or inside the
   * block that reads it (the two header checks), where the source's generic
   * `except Exception` catches it again.
   */
  datatype GeometryFailure = BeforeRead(error: DomainError) | InsideRead(error: DomainError)

  /** The ordered checks: existence, then the extension (case-insensitive), then readability, then the header. */
  function GeometryCheck(path: string, env: Env): (r: Option<GeometryFailure>)
    ensures r.Some? ==> r.value.error.kind == GeometryFile
    ensures r.None? <==> (Exists(env, path) && Lower(Suffix(path)) == ".ply"
                          && env.files[path].Readable?
                          && !AllSpace(Head(env.files[path].content, 100))
                          && Contains(Lower(Head(env.files[path].content, 100)), "ply"))
  {
    if !Exists(env, path) then
      Some(BeforeRead(GeometryFileError(path, "File not found", "File path: " + Absolute(env, path))))
    else if Lower(Suffix(path)) != ".ply" then
      Some(BeforeRead(GeometryFileError(path, "Expected PLY file, got '" + Suffix(path) + "' file",
        "File must have .ply extension and be in PLY format")))
    else
      match env.files[path]
      case Unreadable(permission, text) =>
        if permission then
          Some(BeforeRead(GeometryFileError(path, "Permission denied", "Cannot read file due to permission restrictions")))
        else
          Some(BeforeRead(UnreadableGeometry(path, text)))
      case Readable(content) =>
        match HeaderProblem(path, Head(content, 100))
        case None => None
        case Some(e) => Some(InsideRead(e))
  }

  const CannotReadIssue := "Cannot read file"
  const UnexpectedErrorPrefix := "Unexpected error: "

  /** The error the geometry check raises for an unexpected failure while reading, with that failure's text. */
  function UnreadableGeometry(path: string, text: string): DomainError
  {
    GeometryFileError(path, CannotReadIssue, UnexpectedErrorPrefix + text)
  }

  /** `validate_geometry_file` as written: a header error raised inside the read block is re-wrapped as "Cannot read file". */
  function ValidateGeometryAsWritten(path: string, env: Env): (r: Option<DomainError>)
    ensures r.Some? ==> r.value.kind == GeometryFile
    ensures r.None? <==> GeometryCheck(path, env).None?
    ensures GeometryCheck(path, env).Some? && GeometryCheck(path, env).value.BeforeRead? ==>
              r == ValidateGeometry(path, env)
    ensures GeometryCheck(path, env).Some? && GeometryCheck(path, env).value.InsideRead? ==>
              r == Some(UnreadableGeometry(path, GeometryErrorText(path, ValidateGeometry(path, env).value)))
  {
    match GeometryCheck(path, env)
    case None => None
    case Some(BeforeRead(e)) => Some(e)
    case Some(InsideRead(e)) => Some(UnreadableGeometry(path, GeometryErrorText(path, e)))
  }

  /**
   * The text `str(e)` of a geometry-file error about `path`: its full message,
   * written with that file's suggestions so that it unfolds no other list.
   */
  function GeometryErrorText(path: string, e: DomainError): string
  {
    Compose(e.message, e.details, GeometrySuggestionList(path))
  }

  /** The re-wrapped details carry the full text of the header error, suggestions included. */
  lemma AsWrittenWrapsFullMessage(path: string, env: Env)
    requires GeometryCheck(path, env).Some? && GeometryCheck(path, env).value.InsideRead?
    ensures ValidateGeometryAsWritten(path, env)
         == Some(UnreadableGeometry(path, FullMessage(ValidateGeometry(path, env).value)))
    ensures ValidateGeometry(path, env).value.kind == GeometryFile
  {
    var e := GeometryCheck(path, env).value.error;
    assert e == HeaderProblem(path, Head(env.files[path].content, 100)).value;
    GeometryFullMessage(e);
  }

  /** Geometry validation with the header errors reported as raised. */
  function ValidateGeometry(path: string, env: Env): (r: Option<DomainError>)
    ensures r.Some? ==> r.value.kind == GeometryFile
    ensures r.None? <==> GeometryCheck(path, env).None?
  {
    match GeometryCheck(path, env)
    case None => None
    case Some(failure) => Some(failure.error)
  }

  /** As written, a blank `.ply` file is reported as unreadable, the "File is empty" error folded into the details. */
  lemma BlankGeometryWrapped(path: string, env: Env)
    requires Exists(env, path) && Lower(Suffix(path)) == ".ply"
    requires env.files[path].Readable? && AllSpace(Head(env.files[path].content, 100))
    ensures ValidateGeometryAsWritten(path, env)
         == Some(UnreadableGeometry(path, FullMessage(GeometryFileError(path, "File is empty", "PLY file contains no data"))))
  {
    EmptyGeometryReported(path, env);
    assert GeometryCheck(path, env).value.InsideRead? by {
      if GeometryCheck(path, env).value.BeforeRead? {
        BeforeReadNeverEmpty(path, env, "PLY file contains no data");
      }
    }
    AsWrittenWrapsFullMessage(path, env);
  }

  /** Existence is checked before the extension: a missing file is reported as not found whatever its extension. */
  lemma MissingGeometryReportedFirst(path: string, env: Env)
    requires !Exists(env, path)
    ensures ValidateGeometry(path, env) == Some(GeometryFileError(path, "File not found", "File path: " + Absolute(env, path)))
    ensures ValidateGeometryAsWritten(path, env) == ValidateGeometry(path, env)
  {
  }

  /** A geometry-file message determines the issue it reports. */
  lemma GeometryIssueDetermined(path: string, issue1: string, details1: string, issue2: string, details2: string)
    requires GeometryFileError(path, issue1, details1).message == GeometryFileError(path, issue2, details2).message
    ensures issue1 == issue2
  {
    var p := MessagePrefix(GeometryFile) + path + "': ";
    assert GeometryFileError(path, issue1, details1).message == p + issue1;
    assert GeometryFileError(path, issue2, details2).message == p + issue2;
    assert issue1 == (p + issue1)[|p|..];
  }

  /** As written, a blank file's "File is empty" error is never what the caller sees. */
  lemma AsWrittenNeverReportsEmpty(path: string, env: Env, details: string)
    ensures ValidateGeometryAsWritten(path, env) != Some(GeometryFileError(path, "File is empty", details))
  {
    match GeometryCheck(path, env)
    case None =>
    case Some(BeforeRead(e)) => BeforeReadNeverEmpty(path, env, details);
    case Some(InsideRead(e)) =>
      IssuesDiffer(path, "Cannot read file", "Unexpected error: " + FullMessage(e), "File is empty", details, 0);
  }

  /** The checks made before the file is opened never report a blank file. */
  lemma BeforeReadNeverEmpty(path: string, env: Env, details: string)
    requires GeometryCheck(path, env).Some? && GeometryCheck(path, env).value.BeforeRead?
    ensures GeometryCheck(path, env).value.error != GeometryFileError(path, "File is empty", details)
  {
    var e := GeometryCheck(path, env).value.error;
    if !Exists(env, path) {
      assert e == GeometryFileError(path, "File not found", "File path: " + Absolute(env, path));
      IssuesDiffer(path, "File not found", "File path: " + Absolute(env, path), "File is empty", details, 5);
    } else if Lower(Suffix(path)) != ".ply" {
      WrongExtensionNotEmpty(path, details);
    } else {
      UnreadableNotEmpty(path, env.files[path], details);
    }
  }

  /** The wrong-extension error is not the blank-file error. */
  lemma WrongExtensionNotEmpty(path: string, details: string)
    ensures GeometryFileError(path, "Expected PLY file, got '" + Suffix(path) + "' file",
              "File must have .ply extension and be in PLY format")
         != GeometryFileError(path, "File is empty", details)
  {
    var issue := "Expected PLY file, got '" + Suffix(path) + "' file";
    assert issue[0] == 'E';
    IssuesDiffer(path, issue, "File must have .ply extension and be in PLY format", "File is empty", details, 0);
  }

  /** The errors for a file that cannot be opened are not the blank-file error. */
  lemma UnreadableNotEmpty(path: string, entry: FileEntry, details: string)
    requires entry.Unreadable?
    ensures entry.permission ==> GeometryFileError(path, "Permission denied", "Cannot read file due to permission restrictions")
                                 != GeometryFileError(path, "File is empty", details)
    ensures UnreadableGeometry(path, entry.text) != GeometryFileError(path, "File is empty", details)
  {
    IssuesDiffer(path, "Permission denied", "Cannot read file due to permission restrictions", "File is empty", details, 0);
    IssuesDiffer(path, CannotReadIssue, UnexpectedErrorPrefix + entry.text, "File is empty", details, 0);
  }

  /** Geometry-file errors whose issues differ at some position are different errors. */
  lemma IssuesDiffer(path: string, issue1: string, details1: string, issue2: string, details2: string, j: nat)
    requires j < |issue1| && j < |issue2| && issue1[j] != issue2[j]
    ensures GeometryFileError(path, issue1, details1) != GeometryFileError(path, issue2, details2)
  {
    if GeometryFileError(path, issue1, details1) == GeometryFileError(path, issue2, details2) {
      GeometryIssueDetermined(path, issue1, details1, issue2, details2);
    }
  }

  /** With the header errors reported as raised, a blank .ply file is reported as empty. */
  lemma EmptyGeometryReported(path: string, env: Env)
    requires Exists(env, path) && Lower(Suffix(path)) == ".ply"
    requires env.files[path].Readable? && AllSpace(Head(env.files[path].content, 100))
    ensures ValidateGeometry(path, env) == Some(GeometryFileError(path, "File is empty", "PLY file contains no data"))
  {
  }

  // ---------------------------------------------------------------- scaffold input

  /**
   * The untyped scaffold parameter: absent (`None`), a `str`, a `Path`, or a
   * value of any other type. Only a `str` can equal the "M13.txt" keyword.
   */
  datatype ScaffoldInput = NoScaffold | StrInput(text: string) | PathInput(path: string) | OtherInput

  const DefaultScaffoldKeyword := "M13.txt"

  /** The input stands for the engine's default scaffold: absent, or the keyword string. */
  predicate IsDefaultScaffold(input: ScaffoldInput)
  {
    input == NoScaffold || input == StrInput(DefaultScaffoldKeyword)
  }

  predicate IsBase(c: char)
  {
    c == 'A' || c == 'T' || c == 'G' || c == 'C' || c == 'U'
  }

  predicate AllBases(s: string)
  {
    forall i :: 0 <= i < |s| ==> IsBase(s[i])
  }

  function NonBases(s: string): (r: string)
    ensures forall x :: x in r <==> x in s && !IsBase(x)
    decreases |s|
  {
    if s == [] then []
    else
      var rest := NonBases(s[1..]);
      assert forall x :: x in s <==> x == s[0] || x in s[1..];
      if IsBase(s[0]) then rest else [s[0]] + rest
  }

  /** `sorted(set(s.upper()) - set('ATGCU'))`: the offending characters, sorted, each once. */
  function InvalidBases(s: string): (r: string)
    ensures StrictlyIncreasing(r)
    ensures forall x :: x in r <==> x in Upper(s) && !IsBase(x)
    ensures r == [] <==> AllBases(Upper(s))
  {
    var r := SortedDistinct(NonBases(Upper(s)));
    assert r == [] <==> AllBases(Upper(s)) by {
      if !AllBases(Upper(s)) {
        var i :| 0 <= i < |s| && !IsBase(Upper(s)[i]);
        assert Upper(s)[i] in Upper(s);
        assert Upper(s)[i] in r;
      }
      if r != [] {
        assert r[0] in r;
        var i :| 0 <= i < |s| && Upper(s)[i] == r[0];
        assert !IsBase(Upper(s)[i]);
      }
    }
    r
  }

  /** One-character strings of the given characters. */
  function Singletons(s: string): (r: seq<string>)
    ensures |r| == |s| && forall i :: 0 <= i < |s| ==> r[i] == [s[i]]
  {
    seq(|s|, i requires 0 <= i < |s| => [s[i]])
  }

  /** "Found: " and the offending characters joined with ", ". */
  function InvalidReport(s: string): string
  {
    "Found: " + Join(Singletons(InvalidBases(s)), ", ")
  }

  /** The value is treated as a file name when it contains "/" or "\" or has a suffix. */
  predicate LooksLikePath(value: string)
  {
    '/' in value || '\\' in value || Suffix(value) != ""
  }

  /** A value has a suffix exactly when its last component has a dot that is neither its first nor its last character. */
  lemma LooksLikePathIff(value: string)
    ensures LooksLikePath(value) <==>
      '/' in value || '\\' in value || exists i :: InnerLastDot(BaseName(value), i)
  {
    SuffixIffInnerLastDot(value);
  }

  /** The alphabet check shared by the inline and the file branch. */
  function AlphabetCheck(sequence: string, issue: string): (r: Option<Raised>)
    ensures r.None? <==> AllBases(Upper(sequence))
    ensures r.Some? ==> r.value == Domain(ScaffoldSequenceError(issue, InvalidReport(sequence),
      "Only A, T, G, C, U are allowed. Sequence length: " + NatToString(|sequence|)))
  {
    if InvalidBases(sequence) != [] then
      Some(Domain(ScaffoldSequenceError(issue, InvalidReport(sequence),
        "Only A, T, G, C, U are allowed. Sequence length: " + NatToString(|sequence|))))
    else
      None
  }

  const FileAlphabetIssue := "Invalid characters in scaffold sequence"
  const InlineAlphabetIssue := "Invalid characters in scaffold sequence string"

  /** The checks on the content of a scaffold file: not blank, then the alphabet of the stripped content. */
  function ValidateScaffoldContent(value: string, content: string): (r: Option<Raised>)
    ensures r.None? <==> !AllSpace(content) && AllBases(Upper(Strip(content)))
    ensures AllSpace(content) ==> r == Some(Domain(ScaffoldSequenceError("Scaffold sequence file is empty", "File: " + value, "")))
    ensures !AllSpace(content) ==> r == AlphabetCheck(Strip(content), FileAlphabetIssue)
    ensures r.Some? ==> r.value.Domain? && r.value.error.kind == ScaffoldSequence
  {
    var sequence := Strip(content);
    if sequence == [] then
      Some(Domain(ScaffoldSequenceError("Scaffold sequence file is empty", "File: " + value, "")))
    else
      AlphabetCheck(sequence, FileAlphabetIssue)
  }

  /** The file branch: the file must exist and be readable, and its content must pass. */
  function ValidateScaffoldFile(value: string, env: Env): (r: Option<Raised>)
    ensures r.None? <==> Exists(env, value) && env.files[value].Readable?
                         && ValidateScaffoldContent(value, env.files[value].content).None?
    ensures Exists(env, value) && env.files[value].Readable? ==>
              r == ValidateScaffoldContent(value, env.files[value].content)
    ensures r.Some? && r.value.Domain? ==> r.value.error.kind == ScaffoldSequence
    ensures !Exists(env, value) ==>
              r == Some(Domain(ScaffoldSequenceError("Scaffold sequence file not found", "File: " + value,
                                                     "Attempted to read: " + Absolute(env, value))))
    ensures Exists(env, value) && env.files[value].Unreadable? ==>
              r == if env.files[value].permission
                   then Some(Domain(ScaffoldSequenceError("Cannot read scaffold sequence file", "Permission denied: " + value, "")))
                   else Some(Foreign(env.files[value].text))
  {
    if !Exists(env, value) then
      Some(Domain(ScaffoldSequenceError("Scaffold sequence file not found", "File: " + value,
        "Attempted to read: " + Absolute(env, value))))
    else
      match env.files[value]
      case Unreadable(permission, text) =>
        if permission then
          Some(Domain(ScaffoldSequenceError("Cannot read scaffold sequence file", "Permission denied: " + value, "")))
        else
          Some(Foreign(text))
      case Readable(content) => ValidateScaffoldContent(value, content)
  }

  /** Validation of a `str` or `Path` value other than the keyword. */
  function ValidateScaffoldValue(value: string, env: Env): (r: Option<Raised>)
    ensures LooksLikePath(value) ==> r == ValidateScaffoldFile(value, env)
    ensures !LooksLikePath(value) ==> r == AlphabetCheck(Upper(value), InlineAlphabetIssue)
  {
    if LooksLikePath(value) then ValidateScaffoldFile(value, env)
    else AlphabetCheck(Upper(value), InlineAlphabetIssue)
  }

  /**
   * `validate_scaffold_sequence`: the default inputs pass unchecked; a value
   * that looks like a path must name a readable, non-blank file whose
   * stripped content is nucleotides; any other value must itself be.
   * A read failure other than a permission error escapes as a foreign exception.
   */
  function ValidateScaffold(input: ScaffoldInput, env: Env): (r: Option<Raised>)
    ensures IsDefaultScaffold(input) || input == OtherInput ==> r.None?
    ensures input.PathInput? ==> r == ValidateScaffoldValue(input.path, env)
    ensures input.StrInput? && input.text != DefaultScaffoldKeyword ==> r == ValidateScaffoldValue(input.text, env)
    ensures r.Some? && r.value.Domain? ==> r.value.error.kind == ScaffoldSequence
  {
    match input
    case NoScaffold => None
    case OtherInput => None
    case StrInput(s) => if s == DefaultScaffoldKeyword then None else ValidateScaffoldValue(s, env)
    case PathInput(p) => ValidateScaffoldValue(p, env)
  }

  /** An inline value passes exactly when, upper-cased, it is all nucleotides; so the empty string passes. */
  lemma InlineScaffoldAcceptedIff(value: string, env: Env)
    requires !LooksLikePath(value) && value != DefaultScaffoldKeyword
    ensures ValidateScaffold(StrInput(value), env).None? <==> AllBases(Upper(value))
  {
    UpperIdempotent(value);
  }

  lemma UpperIdempotent(s: string)
    ensures Upper(Upper(s)) == Upper(s)
  {
  }

  /** The report names every character that is not a nucleotide after upper-casing. */
  lemma {:induction false} InvalidReportNames(s: string, c: char)
    requires c in Upper(s) && !IsBase(c)
    ensures Contains(InvalidReport(s), [c])
  {
    var bad := InvalidBases(s);
    var k :| 0 <= k < |bad| && bad[k] == c;
    JoinContains(Singletons(bad), ", ", k);
    ContainsInfix("Found: ", [c], "");
    ContainsShift("Found: ", Join(Singletons(bad), ", "), [c]);
  }

  lemma {:induction false} JoinContains(parts: seq<string>, sep: string, k: nat)
    requires k < |parts|
    ensures Contains(Join(parts, sep), parts[k])
    decreases |parts|
  {
    if |parts| == 1 {
      ContainsInfix("", parts[0], "");
      assert "" + parts[0] + "" == parts[0];
    } else if k == 0 {
      ContainsInfix("", parts[0], sep + Join(parts[1..], sep));
      assert "" + parts[0] + (sep + Join(parts[1..], sep)) == Join(parts, sep);
    } else {
      JoinContains(parts[1..], sep, k - 1);
      ContainsShift(parts[0] + sep, Join(parts[1..], sep), parts[k]);
    }
  }

  /** An inline scaffold with an offending character is rejected, and the message names that character upper-cased. */
  lemma InlineScaffoldReportsCharacter(value: string, env: Env, i: nat)
    requires !LooksLikePath(value) && value != DefaultScaffoldKeyword
    requires i < |value| && !IsBase(ToUpper(value[i]))
    ensures ValidateScaffold(StrInput(value), env).Some?
    ensures ValidateScaffold(StrInput(value), env).value.Domain?
    ensures Contains(ValidateScaffold(StrInput(value), env).value.error.message, [ToUpper(value[i])])
  {
    var u, c := Upper(value), ToUpper(value[i]);
    assert u[i] == c;
    UpperIdempotent(value);
    assert ValidateScaffold(StrInput(value), env) == AlphabetCheck(u, InlineAlphabetIssue);
    AlphabetCheckNames(u, c, InlineAlphabetIssue);
  }

  /** A rejected sequence's error message names each offending character. */
  lemma AlphabetCheckNames(s: string, c: char, issue: string)
    requires c in Upper(s) && !IsBase(c)
    ensures AlphabetCheck(s, issue).Some? && AlphabetCheck(s, issue).value.Domain?
    ensures Contains(AlphabetCheck(s, issue).value.error.message, [c])
  {
    InvalidReportNames(s, c);
    var d := "Only A, T, G, C, U are allowed. Sequence length: " + NatToString(|s|);
    assert !AllBases(Upper(s));
    ReportInMessage(issue, InvalidReport(s), d, [c]);
  }

  /** Whatever the sequence information contains, the scaffold error's message contains too. */
  lemma ReportInMessage(issue: string, info: string, details: string, sub: string)
    requires sub != [] && Contains(info, sub)
    ensures Contains(ScaffoldSequenceError(issue, info, details).message, sub)
  {
    var tail := " (" + info + ")";
    assert info != "";
    ContainsPrefixOf(info, ")", sub);
    ContainsShift(" (", info + ")", sub);
    AppendAssociative(" (", info, ")");
    ContainsEndOf(ScaffoldSequenceError(issue, info, details).message, tail, sub);
  }

  // ---------------------------------------------------------------- output directory

  /**
   * `validate_output_directory`: the project directory under the given
   * directory or the working directory, created if need be and probed for
   * writes. Only a permission error from the probe is translated.
   */
  function ValidateOutputDirectory(outputDir: Option<string>, projectName: string, env: Env): (r: Result<string>)
    ensures r.Ok? ==> r.value == JoinPath(if outputDir.Some? then outputDir.value else env.cwd, projectName)
    ensures r.Err? && r.raised.Domain? ==> r.raised.error.kind == OutputDirectory
    ensures var dir := JoinPath(if outputDir.Some? then outputDir.value else env.cwd, projectName);
      env.mkdir(dir) == MkdirPermissionDenied ==>
        r == Err(Domain(OutputDirectoryError(dir, "Permission denied - cannot create directory")))
    ensures var dir := JoinPath(if outputDir.Some? then outputDir.value else env.cwd, projectName);
      env.mkdir(dir).MkdirFailed? && Contains(env.mkdir(dir).text, "No space left on device") ==>
        r == Err(Domain(OutputDirectoryError(dir, "No space left on device")))
    ensures var dir := JoinPath(if outputDir.Some? then outputDir.value else env.cwd, projectName);
      env.mkdir(dir).MkdirFailed? && !Contains(env.mkdir(dir).text, "No space left on device") ==>
        r == Err(Domain(OutputDirectoryError(dir, "Cannot create directory: " + env.mkdir(dir).text)))
    ensures var dir := JoinPath(if outputDir.Some? then outputDir.value else env.cwd, projectName);
      env.mkdir(dir) == Created && env.probe(dir) == ProbePermissionDenied ==>
        r == Err(Domain(OutputDirectoryError(dir, "Directory exists but is not writable")))
    ensures var dir := JoinPath(if outputDir.Some? then outputDir.value else env.cwd, projectName);
      env.mkdir(dir) == Created && env.probe(dir).ProbeFailed? ==> r == Err(Foreign(env.probe(dir).text))
  {
    var base := if outputDir.Some? then outputDir.value else env.cwd;
    var projectDir := JoinPath(base, projectName);
    match env.mkdir(projectDir)
    case MkdirPermissionDenied =>
      Err(Domain(OutputDirectoryError(projectDir, "Permission denied - cannot create directory")))
    case MkdirFailed(text) =>
      if Contains(text, "No space left on device") then
        Err(Domain(OutputDirectoryError(projectDir, "No space left on device")))
      else
        Err(Domain(OutputDirectoryError(projectDir, "Cannot create directory: " + text)))
    case Created =>
      match env.probe(projectDir)
      case Writable => Ok(projectDir)
      case ProbePermissionDenied => Err(Domain(OutputDirectoryError(projectDir, "Directory exists but is not writable")))
      case ProbeFailed(text) => Err(Foreign(text))
  }

  /**
   * The file system once `validate_output_directory` has succeeded:
   * `mkdir(parents=True)` has made the given output directory and the project
   * directory under it. With no output directory the project directory lies
   * in the working directory, where the bare project name reaches it too.
   * The write probe's file is removed again, so it leaves no entry.
   */
  function AfterOutputDirectory(outputDir: Option<string>, projectName: string, env: Env): (r: Env)
    ensures r.cwd == env.cwd && r.mkdir == env.mkdir && r.probe == env.probe
    ensures var dir := JoinPath(if outputDir.Some? then outputDir.value else env.cwd, projectName);
      r.files.Keys == env.files.Keys + {dir, if outputDir.Some? then outputDir.value else projectName}
    ensures forall p :: p in env.files ==> r.files[p] == env.files[p]
    ensures forall p :: p in r.files && p !in env.files ==> r.files[p] == Unreadable(false, IsADirectoryText(p))
  {
    var dir := JoinPath(if outputDir.Some? then outputDir.value else env.cwd, projectName);
    match outputDir
    case Some(parent) => WithDirectory(WithDirectory(env, parent), dir)
    case None => WithDirectory(WithDirectory(env, dir), projectName)
  }

  /** Creating directories never undoes a passed scaffold validation: the paths it read keep their entries. */
  lemma ScaffoldValidationKept(input: ScaffoldInput, outputDir: Option<string>, projectName: string, env: Env)
    requires ValidateScaffold(input, env).None?
    ensures ValidateScaffold(input, AfterOutputDirectory(outputDir, projectName, env)).None?
  {
  }

  /** The directory is accepted exactly when it could be created (or already existed) and the write probe succeeded. */
  lemma OutputDirectoryAcceptedIff(outputDir: Option<string>, projectName: string, env: Env)
    ensures ValidateOutputDirectory(outputDir, projectName, env).Ok? <==>
      var dir := JoinPath(if outputDir.Some? then outputDir.value else env.cwd, projectName);
      env.mkdir(dir) == Created && env.probe(dir) == Writable
  {
  }
}
