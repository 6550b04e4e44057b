/**
 * The error taxonomy: the base error with message, technical details and
 * numbered suggestions, and its six kinds, each with a fixed message template
 * and a fixed suggestion list.
 */
module Errors {
  import opened Text

  datatype Option<T> = None | Some(value: T)

  /** `Base` is the root error class itself, raised directly only for an unknown helical form. */
  datatype ErrorKind =
    | Base
    | GeometryFile
    | ScaffoldSequence
    | HelicalParameter
    | DesignConstraint
    | StapleGeneration
    | OutputDirectory

  /**
   * The suggestion list an error carries: the caller's own list for the base
   * class, otherwise the fixed list of the subclass, recorded with the value
   * its first entry names. `SuggestionList` spells the list out.
   */
  datatype Advice =
    | Listed(suggestions: seq<string>)
    | GeometryAdvice(filename: string)
    | ScaffoldAdvice
    | HelicalAdvice(form: string, minRequired: int)
    | ConstraintAdvice
    | StapleAdvice
    | DirectoryAdvice(directory: string)

  /** An error as constructed: never changed after it is raised. */
  datatype DomainError = DomainError(kind: ErrorKind, message: string, details: string, advice: Advice)

  /** What leaves a stage when it raises: an error of the taxonomy, or a foreign exception identified by its text. */
  datatype Raised = Domain(error: DomainError) | Foreign(text: string)

  datatype Result<T> = Ok(value: T) | Err(raised: Raised)

  /** The opening words of each kind's message template. */
  function MessagePrefix(kind: ErrorKind): string
  {
    match kind
    case Base => "Invalid helical_form '"
    case GeometryFile => "Problem with geometry file '"
    case ScaffoldSequence => "Scaffold sequence problem: "
    case HelicalParameter => "Invalid helical parameters: "
    case DesignConstraint => "Design constraint violation: "
    case StapleGeneration => "Staple generation failed at stage: "
    case OutputDirectory => "Output directory problem: "
  }

  /** The kind a message announces by its opening words. */
  function KindOfMessage(m: string): Option<ErrorKind>
  {
    if StartsWith(m, MessagePrefix(Base)) then Some(Base)
    else if StartsWith(m, MessagePrefix(GeometryFile)) then Some(GeometryFile)
    else if StartsWith(m, MessagePrefix(ScaffoldSequence)) then Some(ScaffoldSequence)
    else if StartsWith(m, MessagePrefix(HelicalParameter)) then Some(HelicalParameter)
    else if StartsWith(m, MessagePrefix(DesignConstraint)) then Some(DesignConstraint)
    else if StartsWith(m, MessagePrefix(StapleGeneration)) then Some(StapleGeneration)
    else if StartsWith(m, MessagePrefix(OutputDirectory)) then Some(OutputDirectory)
    else None
  }

  /** A string that starts with `p` does not start with a `q` that disagrees with `p` at some position. */
  lemma PrefixesDiffer(p: string, rest: string, q: string, j: nat)
    requires j < |q| && j < |p| && p[j] != q[j]
    ensures !StartsWith(p + rest, q)
  {
    var m := p + rest;
    assert m[j] == p[j];
    if |q| <= |m| {
      assert m[..|q|][j] == m[j];
    }
  }

  /** The templates open with pairwise different words, so a message tells which kind raised it. */
  lemma KindOfPrefixed(kind: ErrorKind, rest: string)
    ensures KindOfMessage(MessagePrefix(kind) + rest) == Some(kind)
  {
    StartsWithAppend(MessagePrefix(kind), rest);
    match kind
    case Base =>
    case GeometryFile =>
      PrefixesDiffer(MessagePrefix(kind), rest, MessagePrefix(Base), 0);
    case ScaffoldSequence =>
      PrefixesDiffer(MessagePrefix(kind), rest, MessagePrefix(Base), 0);
      PrefixesDiffer(MessagePrefix(kind), rest, MessagePrefix(GeometryFile), 0);
    case HelicalParameter => HelicalPrefixedMessages(rest);
    case DesignConstraint => ConstraintPrefixedMessages(rest);
    case StapleGeneration => StaplePrefixedMessages(rest);
    case OutputDirectory => DirectoryPrefixedMessages(rest);
  }

  lemma HelicalPrefixedMessages(rest: string)
    ensures !StartsWith(MessagePrefix(HelicalParameter) + rest, MessagePrefix(Base))
    ensures !StartsWith(MessagePrefix(HelicalParameter) + rest, MessagePrefix(GeometryFile))
    ensures !StartsWith(MessagePrefix(HelicalParameter) + rest, MessagePrefix(ScaffoldSequence))
  {
    var p := MessagePrefix(HelicalParameter);
    PrefixesDiffer(p, rest, MessagePrefix(Base), 15);
    PrefixesDiffer(p, rest, MessagePrefix(GeometryFile), 0);
    PrefixesDiffer(p, rest, MessagePrefix(ScaffoldSequence), 0);
  }

  lemma ConstraintPrefixedMessages(rest: string)
    ensures !StartsWith(MessagePrefix(DesignConstraint) + rest, MessagePrefix(Base))
    ensures !StartsWith(MessagePrefix(DesignConstraint) + rest, MessagePrefix(GeometryFile))
    ensures !StartsWith(MessagePrefix(DesignConstraint) + rest, MessagePrefix(ScaffoldSequence))
    ensures !StartsWith(MessagePrefix(DesignConstraint) + rest, MessagePrefix(HelicalParameter))
  {
    var p := MessagePrefix(DesignConstraint);
    PrefixesDiffer(p, rest, MessagePrefix(Base), 0);
    PrefixesDiffer(p, rest, MessagePrefix(GeometryFile), 0);
    PrefixesDiffer(p, rest, MessagePrefix(ScaffoldSequence), 0);
    PrefixesDiffer(p, rest, MessagePrefix(HelicalParameter), 0);
  }

  lemma StaplePrefixedMessages(rest: string)
    ensures !StartsWith(MessagePrefix(StapleGeneration) + rest, MessagePrefix(Base))
    ensures !StartsWith(MessagePrefix(StapleGeneration) + rest, MessagePrefix(GeometryFile))
    ensures !StartsWith(MessagePrefix(StapleGeneration) + rest, MessagePrefix(ScaffoldSequence))
    ensures !StartsWith(MessagePrefix(StapleGeneration) + rest, MessagePrefix(HelicalParameter))
    ensures !StartsWith(MessagePrefix(StapleGeneration) + rest, MessagePrefix(DesignConstraint))
  {
    var p := MessagePrefix(StapleGeneration);
    PrefixesDiffer(p, rest, MessagePrefix(Base), 0);
    PrefixesDiffer(p, rest, MessagePrefix(GeometryFile), 0);
    PrefixesDiffer(p, rest, MessagePrefix(ScaffoldSequence), 1);
    PrefixesDiffer(p, rest, MessagePrefix(HelicalParameter), 0);
    PrefixesDiffer(p, rest, MessagePrefix(DesignConstraint), 0);
  }

  lemma DirectoryPrefixedMessages(rest: string)
    ensures !StartsWith(MessagePrefix(OutputDirectory) + rest, MessagePrefix(Base))
    ensures !StartsWith(MessagePrefix(OutputDirectory) + rest, MessagePrefix(GeometryFile))
    ensures !StartsWith(MessagePrefix(OutputDirectory) + rest, MessagePrefix(ScaffoldSequence))
    ensures !StartsWith(MessagePrefix(OutputDirectory) + rest, MessagePrefix(HelicalParameter))
    ensures !StartsWith(MessagePrefix(OutputDirectory) + rest, MessagePrefix(DesignConstraint))
    ensures !StartsWith(MessagePrefix(OutputDirectory) + rest, MessagePrefix(StapleGeneration))
  {
    var p := MessagePrefix(OutputDirectory);
    PrefixesDiffer(p, rest, MessagePrefix(Base), 0);
    PrefixesDiffer(p, rest, MessagePrefix(GeometryFile), 0);
    PrefixesDiffer(p, rest, MessagePrefix(ScaffoldSequence), 0);
    PrefixesDiffer(p, rest, MessagePrefix(HelicalParameter), 0);
    PrefixesDiffer(p, rest, MessagePrefix(DesignConstraint), 0);
    PrefixesDiffer(p, rest, MessagePrefix(StapleGeneration), 0);
  }

  /** One numbered suggestion line: two spaces of indent, the number, a dot. */
  function SuggestionLine(number: nat, suggestion: string): string
  {
    "\n  " + NatToString(number) + ". " + suggestion
  }

  /** The suggestion lines, numbered in order from `first`. */
  function Numbered(suggestions: seq<string>, first: nat): string
    decreases |suggestions|
  {
    if suggestions == [] then ""
    else SuggestionLine(first, suggestions[0]) + Numbered(suggestions[1..], first + 1)
  }

  /** Numbering a list with one more suggestion appends exactly that suggestion's line. */
  lemma {:induction false} NumberedSnoc(suggestions: seq<string>, last: string, first: nat)
    ensures Numbered(suggestions + [last], first)
         == Numbered(suggestions, first) + SuggestionLine(first + |suggestions|, last)
    decreases |suggestions|
  {
    if suggestions != [] {
      assert (suggestions + [last])[1..] == suggestions[1..] + [last];
      NumberedSnoc(suggestions[1..], last, first + 1);
    }
  }

  const DetailsHeader := "\n\nTechnical Details:\n"
  const SuggestionsHeader := "\n\nSuggestions to fix this:"

  /**
   * The text of the exception (`str(e)`): the message, then the technical
   * details under their header when there are any, then the suggestions
   * numbered from 1 under their header when there are any.
   */
  function Compose(message: string, details: string, suggestions: seq<string>): (r: string)
    ensures StartsWith(r, message)
    ensures r == message <==> details == "" && suggestions == []
    ensures details != "" ==> StartsWith(r, message + DetailsHeader + details)
    ensures details != "" && suggestions == [] ==> r == message + DetailsHeader + details
    ensures details == "" && suggestions != [] ==> r == message + SuggestionsHeader + Numbered(suggestions, 1)
    ensures suggestions != [] ==> EndsWith(r, SuggestionsHeader + Numbered(suggestions, 1))
    ensures |r| == |message| + (if details != "" then |DetailsHeader| + |details| else 0)
                 + (if suggestions != [] then |SuggestionsHeader| + |Numbered(suggestions, 1)| else 0)
  {
    var withDetails := if details != "" then message + DetailsHeader + details else message;
    var tail := SuggestionsHeader + Numbered(suggestions, 1);
    var full := if suggestions != [] then withDetails + SuggestionsHeader + Numbered(suggestions, 1) else withDetails;
    assert full[..|message|] == message;
    if suggestions != [] then
      AppendAssociative(withDetails, SuggestionsHeader, Numbered(suggestions, 1));
      EndsWithAppend(withDetails, tail);
      StartsWithAppend(withDetails, tail);
      full
    else
      full
  }

  /** `str(e)` for an error of the taxonomy: its message, details and class suggestions composed. */
  function FullMessage(e: DomainError): (r: string)
    ensures StartsWith(r, e.message)
    ensures e.details != "" ==> StartsWith(r, e.message + DetailsHeader + e.details)
  {
    Compose(e.message, e.details, SuggestionList(e.advice))
  }

  /** The constructor's step-by-step assembly of the full message, one `+=` per suggestion. */
  method BuildFullMessage(message: string, details: string, suggestions: seq<string>) returns (full: string)
    ensures full == Compose(message, details, suggestions)
  {
    full := message;
    if details != "" {
      full := full + DetailsHeader + details;
    }
    if suggestions != [] {
      full := full + SuggestionsHeader;
      ghost var header := full;
      var i := 0;
      while i < |suggestions|
        invariant 0 <= i <= |suggestions|
        invariant full == header + Numbered(suggestions[..i], 1)
      {
        NumberedSnoc(suggestions[..i], suggestions[i], 1);
        assert suggestions[..i + 1] == suggestions[..i] + [suggestions[i]];
        AppendAssociative(header, Numbered(suggestions[..i], 1), SuggestionLine(i + 1, suggestions[i]));
        full := full + SuggestionLine(i + 1, suggestions[i]);
        i := i + 1;
      }
      assert suggestions[..i] == suggestions;
    }
  }

  /** The base error; an absent suggestion list (`None`) means no suggestions. */
  function BaseError(message: string, details: string, suggestions: Option<seq<string>>): (e: DomainError)
    ensures e.kind == Base && e.message == message && e.details == details
    ensures e.advice == Listed(if suggestions.Some? then suggestions.value else [])
  {
    DomainError(Base, message, details, Listed(if suggestions.Some? then suggestions.value else []))
  }

  /** A base error's full text is its bare message exactly when it has neither details nor suggestions. */
  lemma BaseErrorBareMessage(message: string, details: string, suggestions: Option<seq<string>>)
    ensures var e := BaseError(message, details, suggestions);
      FullMessage(e) == message <==> details == "" && (suggestions.None? || suggestions.value == [])
  {
    var e := BaseError(message, details, suggestions);
    assert SuggestionList(e.advice) == (if suggestions.Some? then suggestions.value else []);
  }

  function GeometryFileError(filename: string, issue: string, details: string): (e: DomainError)
    ensures e.kind == GeometryFile && KindOfMessage(e.message) == Some(GeometryFile)
    ensures StartsWith(e.message, MessagePrefix(GeometryFile) + filename + "': ")
    ensures EndsWith(e.message, "': " + issue) && e.details == details
    ensures |e.message| == |MessagePrefix(GeometryFile)| + |filename| + 3 + |issue|
    ensures e.advice == GeometryAdvice(filename)
  {
    var message := MessagePrefix(GeometryFile) + (filename + "': " + issue);
    KindOfPrefixed(GeometryFile, filename + "': " + issue);
    assert message == (MessagePrefix(GeometryFile) + filename) + ("': " + issue);
    EndsWithAppend(MessagePrefix(GeometryFile) + filename, "': " + issue);
    assert message == (MessagePrefix(GeometryFile) + filename + "': ") + issue;
    StartsWithAppend(MessagePrefix(GeometryFile) + filename + "': ", issue);
    DomainError(GeometryFile, message, details, GeometryAdvice(filename))
  }

  /** The extra sequence information is appended in parentheses only when it is non-empty. */
  function ScaffoldSequenceError(issue: string, info: string, details: string): (e: DomainError)
    ensures e.kind == ScaffoldSequence && KindOfMessage(e.message) == Some(ScaffoldSequence)
    ensures e.message == MessagePrefix(ScaffoldSequence) + issue <==> info == ""
    ensures StartsWith(e.message, MessagePrefix(ScaffoldSequence) + issue)
    ensures info != "" ==> EndsWith(e.message, " (" + info + ")")
    ensures info != "" ==> |e.message| == |MessagePrefix(ScaffoldSequence)| + |issue| + |info| + 3
    ensures e.details == details && e.advice == ScaffoldAdvice
  {
    var parenthesised := if info != "" then " (" + info + ")" else "";
    var message := MessagePrefix(ScaffoldSequence) + (issue + parenthesised);
    KindOfPrefixed(ScaffoldSequence, issue + parenthesised);
    assert message == (MessagePrefix(ScaffoldSequence) + issue) + parenthesised;
    EndsWithAppend(MessagePrefix(ScaffoldSequence) + issue, parenthesised);
    StartsWithAppend(MessagePrefix(ScaffoldSequence) + issue, parenthesised);
    assert info == "" ==> message == MessagePrefix(ScaffoldSequence) + issue;
    assert info != "" ==> |message| > |MessagePrefix(ScaffoldSequence) + issue|;
    DomainError(ScaffoldSequence, message, details, ScaffoldAdvice)
  }

  function HelicalParameterError(form: string, turns: int, minRequired: int): (e: DomainError)
    ensures e.kind == HelicalParameter && KindOfMessage(e.message) == Some(HelicalParameter)
    ensures e.message == HelicalMessage(form, turns, minRequired)
    ensures e.details == HelicalDetails(form, minRequired) && e.advice == HelicalAdvice(form, minRequired)
  {
    KindOfPrefixed(HelicalParameter, form + HelicalMessageTail(turns, minRequired));
    DomainError(HelicalParameter, HelicalMessage(form, turns, minRequired),
      HelicalDetails(form, minRequired), HelicalAdvice(form, minRequired))
  }

  function HelicalMessageTail(turns: int, minRequired: int): string
  {
    " with " + IntToString(turns) + " turns (minimum " + IntToString(minRequired) + " required)"
  }

  function HelicalMessage(form: string, turns: int, minRequired: int): string
  {
    MessagePrefix(HelicalParameter) + (form + HelicalMessageTail(turns, minRequired))
  }

  /** The helical-parameter details: the form's minimum and why it exists. */
  function HelicalDetails(form: string, minRequired: int): (d: string)
    ensures StartsWith(d, "Helical form '" + form + "' requires minimum " + IntToString(minRequired) + " helical turns. ")
  {
    var head := "Helical form '" + form + "' requires minimum " + IntToString(minRequired) + " helical turns. ";
    StartsWithAppend(head, "This ensures sufficient nucleotides for proper crossover formation and structural stability.");
    head + "This ensures sufficient nucleotides for proper crossover formation and structural stability."
  }

  /** The helical-parameter message names the form, the turn count and the minimum. */
  lemma HelicalMessageNamesParameters(form: string, turns: int, minRequired: int)
    ensures Contains(HelicalMessage(form, turns, minRequired), form)
    ensures Contains(HelicalMessage(form, turns, minRequired), IntToString(turns))
    ensures Contains(HelicalMessage(form, turns, minRequired), IntToString(minRequired))
  {
    var p, t, m := MessagePrefix(HelicalParameter), IntToString(turns), IntToString(minRequired);
    var w, u, r := " with ", " turns (minimum ", " required)";
    var tail := HelicalMessageTail(turns, minRequired);
    assert tail == w + t + u + m + r;
    ContainsSelf(form);
    ContainsPrefixOf(form, tail, form);
    ContainsSelf(t);
    ContainsShift(w, t, t);
    ContainsPrefixOf(w + t, u, t);
    ContainsPrefixOf(w + t + u, m, t);
    ContainsPrefixOf(w + t + u + m, r, t);
    ContainsShift(form, tail, t);
    ContainsSelf(m);
    ContainsShift(w + t + u, m, m);
    ContainsPrefixOf(w + t + u + m, r, m);
    ContainsShift(form, tail, m);
    ContainsShift(p, form + tail, form);
    ContainsShift(p, form + tail, t);
    ContainsShift(p, form + tail, m);
  }

  /** The geometry information is appended on its own line only when it is non-empty. */
  function DesignConstraintError(constraint: string, info: string, details: string): (e: DomainError)
    ensures e.kind == DesignConstraint && KindOfMessage(e.message) == Some(DesignConstraint)
    ensures e.message == MessagePrefix(DesignConstraint) + constraint <==> info == ""
    ensures StartsWith(e.message, MessagePrefix(DesignConstraint) + constraint)
    ensures info != "" ==> EndsWith(e.message, "\nGeometry: " + info)
    ensures info != "" ==> |e.message| == |MessagePrefix(DesignConstraint)| + |constraint| + 11 + |info|
    ensures e.details == details && e.advice == ConstraintAdvice
  {
    var geometryLine := if info != "" then "\nGeometry: " + info else "";
    var message := MessagePrefix(DesignConstraint) + (constraint + geometryLine);
    KindOfPrefixed(DesignConstraint, constraint + geometryLine);
    assert message == (MessagePrefix(DesignConstraint) + constraint) + geometryLine;
    StartsWithAppend(MessagePrefix(DesignConstraint) + constraint, geometryLine);
    EndsWithAppend(MessagePrefix(DesignConstraint) + constraint, geometryLine);
    DomainError(DesignConstraint, message, details, ConstraintAdvice)
  }

  function StapleGenerationError(stage: string, details: string): (e: DomainError)
    ensures e.kind == StapleGeneration && KindOfMessage(e.message) == Some(StapleGeneration)
    ensures StartsWith(e.message, MessagePrefix(StapleGeneration)) && EndsWith(e.message, stage)
    ensures |e.message| == |MessagePrefix(StapleGeneration)| + |stage|
    ensures e.details == details && e.advice == StapleAdvice
  {
    var message := MessagePrefix(StapleGeneration) + stage;
    KindOfPrefixed(StapleGeneration, stage);
    StartsWithAppend(MessagePrefix(StapleGeneration), stage);
    EndsWithAppend(MessagePrefix(StapleGeneration), stage);
    DomainError(StapleGeneration, message, details, StapleAdvice)
  }

  /** The details always name the directory. */
  function OutputDirectoryError(directory: string, issue: string): (e: DomainError)
    ensures e.kind == OutputDirectory && KindOfMessage(e.message) == Some(OutputDirectory)
    ensures StartsWith(e.message, MessagePrefix(OutputDirectory)) && EndsWith(e.message, issue)
    ensures |e.message| == |MessagePrefix(OutputDirectory)| + |issue|
    ensures StartsWith(e.details, "Cannot access or create directory: ") && EndsWith(e.details, directory)
    ensures |e.details| == 35 + |directory|
    ensures e.advice == DirectoryAdvice(directory)
  {
    var message := MessagePrefix(OutputDirectory) + issue;
    KindOfPrefixed(OutputDirectory, issue);
    StartsWithAppend(MessagePrefix(OutputDirectory), issue);
    StartsWithAppend("Cannot access or create directory: ", directory);
    EndsWithAppend(MessagePrefix(OutputDirectory), issue);
    EndsWithAppend("Cannot access or create directory: ", directory);
    DomainError(OutputDirectory, message, "Cannot access or create directory: " + directory, DirectoryAdvice(directory))
  }

  // ---------------------------------------------------------------- the fixed suggestion lists

  /**
   * The suggestions an error lists: four for geometry-file and scaffold
   * errors, five for the other subclasses; where the list is about a file,
   * a form or a directory, its first entry names it.
   */
  function SuggestionList(advice: Advice): (r: seq<string>)
    ensures advice.Listed? ==> r == advice.suggestions
    ensures advice.GeometryAdvice? || advice == ScaffoldAdvice ==> |r| == 4
    ensures advice.HelicalAdvice? || advice in {ConstraintAdvice, StapleAdvice} || advice.DirectoryAdvice? ==> |r| == 5
    ensures advice.GeometryAdvice? ==> Contains(r[0], advice.filename)
    ensures advice.HelicalAdvice? ==> Contains(r[0], advice.form)
    ensures advice.DirectoryAdvice? ==> Contains(r[0], advice.directory)
  {
    match advice
    case Listed(suggestions) => suggestions
    case GeometryAdvice(filename) => GeometrySuggestionList(filename)
    case ScaffoldAdvice => ScaffoldSuggestions
    case HelicalAdvice(form, minRequired) =>
      ContainsInfix("Use at least " + IntToString(minRequired) + " helical turns for ", form, "");
      assert "Use at least " + IntToString(minRequired) + " helical turns for " + form
          == "Use at least " + IntToString(minRequired) + " helical turns for " + form + "";
      ["Use at least " + IntToString(minRequired) + " helical turns for " + form] + HelicalSuggestions
    case ConstraintAdvice => ConstraintSuggestions
    case StapleAdvice => StapleSuggestions
    case DirectoryAdvice(directory) =>
      ContainsInfix("Check that you have write permissions for '", directory, "'");
      ["Check that you have write permissions for '" + directory + "'"] + DirectorySuggestions
  }

  /** The four suggestions of a geometry-file error, the first naming the file. */
  function GeometrySuggestionList(filename: string): (r: seq<string>)
    ensures |r| == 4 && Contains(r[0], filename)
  {
    ContainsInfix("Check that the file '", filename, "' exists and is readable");
    ["Check that the file '" + filename + "' exists and is readable"] + GeometrySuggestions
  }

  /** The full text of a geometry-file error lists that file's four suggestions. */
  lemma GeometryFullMessage(e: DomainError)
    requires e.advice.GeometryAdvice?
    ensures FullMessage(e) == Compose(e.message, e.details, GeometrySuggestionList(e.advice.filename))
  {
  }

  /** The suggestions of a geometry-file error after the first, which names the file. */
  const GeometrySuggestions: seq<string> := [
    "Verify the file is in PLY format (see https://en.wikipedia.org/wiki/PLY_(file_format))",
    "Try opening the PLY file in a 3D viewer (like MeshLab) to verify it's valid",
    "Check the example PLY files in the repository for reference format"
  ]

  const ScaffoldSuggestions: seq<string> := [
    "Check that scaffold sequence file exists and contains valid nucleotides (A, T, G, C, U)",
    "Verify sequence length is sufficient for your geometry (typically 2x total edge length)",
    "Use 'M13.txt' or None to use default M13 scaffold sequence",
    "For large designs, pyDAEDALUS will generate random sequence automatically"
  ]

  /** The suggestions of a helical-parameter error after the first, which names the form. */
  const HelicalSuggestions: seq<string> := [
    "A-form (RNA): minimum 4 turns, 11 bp/turn → " + NatToString(4 * 11) + " bp minimum edge",
    "B-form (DNA): minimum 3 turns, 10.5 bp/turn → " + NatToString((21 * 3) / 2) + " bp minimum edge",
    "Consider using longer edges or switching helical form",
    "Check that your geometry has sufficiently long edges for the chosen parameters"
  ]

  const ConstraintSuggestions: seq<string> := [
    "Try increasing the number of helical turns per edge",
    "Use a simpler geometry with fewer faces or shorter edges",
    "Check that the geometry is a valid 3D polyhedron",
    "Verify the PLY file defines a closed, manifold surface",
    "Consider using B-form instead of A-form for more flexibility"
  ]

  const StapleSuggestions: seq<string> := [
    "Check that scaffold sequence is long enough for the design",
    "Verify geometry has reasonable edge length distribution",
    "Try using double crossover staples instead of single crossover",
    "Use a different scaffold sequence or let pyDAEDALUS generate one",
    "Simplify the geometry to reduce design complexity"
  ]

  /** The suggestions of an output-directory error after the first, which names the directory. */
  const DirectorySuggestions: seq<string> := [
    "Verify the parent directory exists",
    "Try using a different output directory",
    "Check available disk space",
    "Ensure the path doesn't contain invalid characters"
  ]
}
