/**
 * Scaffold resolution: turning the scaffold input into the sequence and name
 * handed to the engine, and the second-phase length check that needs the
 * total edge length of the converted geometry.
 */
module Scaffold {
  import opened Text
  import opened Errors
  import opened Paths
  import opened Validation

  /** What the engine is given: its own default (the source passes empty lists), or a sequence and its name. */
  datatype ResolvedScaffold = EngineDefault | Sequence(bases: string, name: string)

  /** Index of the first '\n' in `s`, or -1. */
  function IndexOfNewline(s: string): (i: int)
    ensures -1 <= i < |s|
    ensures i >= 0 ==> s[i] == '\n'
    ensures forall j :: 0 <= j < |s| && (i < 0 || j < i) ==> s[j] != '\n'
    decreases |s|
  {
    if s == [] then -1
    else if s[0] == '\n' then 0
    else
      var j := IndexOfNewline(s[1..]);
      assert forall k :: 1 <= k < |s| ==> s[k] == s[1..][k - 1];
      if j < 0 then -1 else j + 1
  }

  /** The first '\n' is found wherever it is. */
  lemma IndexOfNewlineAt(s: string, k: nat)
    requires k < |s| && s[k] == '\n' && forall j :: 0 <= j < k ==> s[j] != '\n'
    ensures IndexOfNewline(s) == k
  {
  }

  /** The first line of `s` as text-mode iteration yields it: up to and including the first '\n'. */
  function FirstLine(s: string): (line: string)
    requires s != []
    ensures 0 < |line| <= |s| && line == s[..|line|]
    ensures |line| < |s| ==> line[|line| - 1] == '\n'
    ensures forall j :: 0 <= j < |line| - 1 ==> line[j] != '\n'
    ensures line[|line| - 1] == '\n' || |line| == |s|
  {
    var i := IndexOfNewline(s);
    if i < 0 then s else s[..i + 1]
  }

  /** `''.join(line.strip() for line in f)`: every line stripped, the pieces concatenated. */
  function JoinStrippedLines(s: string): string
    decreases |s|
  {
    if s == [] then []
    else
      var line := FirstLine(s);
      Strip(line) + JoinStrippedLines(s[|line|..])
  }

  /** The concatenation of the stripped pieces, the reference for `JoinStrippedLines` over explicit lines. */
  function ConcatStripped(lines: seq<string>): string
  {
    if lines == [] then [] else Strip(lines[0]) + ConcatStripped(lines[1..])
  }

  /** The loop of `_process_scaffold_sequence` over the file's lines, and the final upper-casing. */
  method ReadScaffoldFile(content: string) returns (sequence: string)
    ensures sequence == Upper(JoinStrippedLines(content))
  {
    var joined := "";
    var rest := content;
    while rest != []
      invariant joined + JoinStrippedLines(rest) == JoinStrippedLines(content)
      decreases |rest|
    {
      var line := FirstLine(rest);
      JoinStrippedLinesStep(joined, rest);
      joined := joined + Strip(line);
      rest := rest[|line|..];
    }
    sequence := Upper(joined);
  }

  /** One iteration of the read loop: the first line's stripped text moves from the rest onto the joined prefix. */
  lemma JoinStrippedLinesStep(joined: string, rest: string)
    requires rest != []
    ensures joined + JoinStrippedLines(rest)
         == (joined + Strip(FirstLine(rest))) + JoinStrippedLines(rest[|FirstLine(rest)|..])
  {
    var line := FirstLine(rest);
    var piece, tail := Strip(line), JoinStrippedLines(rest[|line|..]);
    assert JoinStrippedLines(rest) == piece + tail;
    AppendAssociative(joined, piece, tail);
  }

  /** Appending blanks does not change what `strip()` gives. */
  lemma StripSpaceSuffix(a: string, w: string)
    requires AllSpace(w)
    ensures Strip(a + w) == Strip(a)
  {
    if AllSpace(a) {
      TrimStartSpacePrefix(a, w);
      assert w == w + [];
      TrimStartSpacePrefix(w, []);
      assert AllSpace(a + w);
    } else {
      TrimStartAppend(a, w);
      TrimEndSpaceSuffix(TrimStart(a), w);
    }
  }

  /** `strip()` only removes characters: one absent from the input is absent from the result. */
  lemma StripKeepsAbsent(s: string, c: char)
    requires c !in s
    ensures c !in Strip(s)
  {
    var t := TrimStart(s);
    var r := TrimEnd(t);
    forall k | 0 <= k < |r|
      ensures r[k] != c
    {
      assert r[k] == t[k];
      assert t[k] == s[|s| - |t| + k];
    }
  }

  /** Joining lines with '\n' and reading them back gives the stripped lines, concatenated. */
  lemma {:induction false} JoinStrippedLinesOfJoin(lines: seq<string>)
    requires forall i :: 0 <= i < |lines| ==> '\n' !in lines[i]
    ensures JoinStrippedLines(Join(lines, "\n")) == ConcatStripped(lines)
    decreases |lines|
  {
    if |lines| == 1 {
      if lines[0] != [] {
        assert FirstLine(lines[0]) == lines[0];
        assert lines[0][|lines[0]|..] == [];
      }
    } else if |lines| > 1 {
      JoinStrippedLinesCons(lines[0], Join(lines[1..], "\n"));
      JoinStrippedLinesOfJoin(lines[1..]);
    }
  }

  /** A line without a line break, its terminator and more text: the line is read first, stripped. */
  lemma JoinStrippedLinesCons(line: string, tail: string)
    requires '\n' !in line
    ensures JoinStrippedLines(line + "\n" + tail) == Strip(line) + JoinStrippedLines(tail)
  {
    var s := line + "\n" + tail;
    assert s[|line|] == '\n';
    forall j | 0 <= j < |line|
      ensures s[j] != '\n'
    {
      assert s[j] == line[j];
    }
    IndexOfNewlineAt(s, |line|);
    assert FirstLine(s) == line + "\n";
    assert s[|line| + 1..] == tail;
    StripSpaceSuffix(line, "\n");
  }

  /** The joined sequence never holds a line break. */
  lemma {:induction false} JoinStrippedLinesHasNoNewline(s: string)
    ensures '\n' !in JoinStrippedLines(s)
    decreases |s|
  {
    if s != [] {
      var line := FirstLine(s);
      StrippedFirstLineHasNoNewline(s);
      JoinStrippedLinesHasNoNewline(s[|line|..]);
      assert JoinStrippedLines(s) == Strip(line) + JoinStrippedLines(s[|line|..]);
    }
  }

  /** A stripped line has lost its terminating line break and holds no other. */
  lemma StrippedFirstLineHasNoNewline(s: string)
    requires s != []
    ensures '\n' !in Strip(FirstLine(s))
  {
    var line := FirstLine(s);
    if line[|line| - 1] == '\n' {
      var body := line[..|line| - 1];
      assert '\n' !in body by {
        assert forall j :: 0 <= j < |body| ==> body[j] == line[j];
      }
      assert line == body + "\n";
      StripSpaceSuffix(body, "\n");
      StripKeepsAbsent(body, '\n');
    } else {
      StripKeepsAbsent(line, '\n');
    }
  }

  /** Blank content joins to nothing. */
  lemma {:induction false} JoinStrippedAllSpace(s: string)
    requires AllSpace(s)
    ensures JoinStrippedLines(s) == []
    decreases |s|
  {
    if s != [] {
      var line := FirstLine(s);
      assert AllSpace(line) by {
        assert forall k :: 0 <= k < |line| ==> line[k] == s[k];
      }
      assert AllSpace(s[|line|..]) by {
        assert forall k :: 0 <= k < |s| - |line| ==> s[|line|..][k] == s[|line| + k];
      }
      JoinStrippedAllSpace(s[|line|..]);
    }
  }

  /** A line break with non-blank text on both sides survives `strip()`. */
  lemma NewlineBetweenNonBlank(line: string, rest: string)
    requires line != [] && line[|line| - 1] == '\n' && !AllSpace(line) && !AllSpace(rest)
    ensures '\n' in Strip(line + rest)
  {
    var t := TrimStart(line);
    TrimStartAppend(line, rest);
    TrimEndAppend(t, rest);
    assert t[|t| - 1] == line[|line| - 1];
    assert Strip(line + rest) == t + TrimEnd(rest);
    assert Strip(line + rest)[|t| - 1] == '\n';
  }

  /**
   * When the stripped content is a single line, joining the stripped lines
   * gives the same sequence as stripping the whole content once.
   */
  lemma {:induction false} JoinStrippedLinesOfClean(s: string)
    requires '\n' !in Strip(s)
    ensures JoinStrippedLines(s) == Strip(s)
    decreases |s|
  {
    if s != [] {
      var line := FirstLine(s);
      var rest := s[|line|..];
      assert s == line + rest;
      if AllSpace(line) {
        TrimStartSpacePrefix(line, rest);
        assert Strip(s) == Strip(rest);
        JoinStrippedLinesOfClean(rest);
      } else if AllSpace(rest) {
        JoinStrippedAllSpace(rest);
        StripSpaceSuffix(line, rest);
      } else {
        NewlineBetweenNonBlank(line, rest);
      }
    }
  }

  /**
   * `_process_scaffold_sequence` as written: any existing file is read, even
   * when the value does not look like a path and validation checked it as an
   * inline sequence. A failed read escapes as a foreign exception.
   */
  function ProcessScaffoldAsWritten(input: ScaffoldInput, projectName: string, env: Env): (r: Result<ResolvedScaffold>)
    ensures r.Ok? && r.value.Sequence? ==> r.value.name == projectName
    ensures r.Err? ==> r.raised.Foreign?
    ensures IsDefaultScaffold(input) || input == OtherInput ==> r == Ok(EngineDefault)
    ensures input.StrInput? && input.text != DefaultScaffoldKeyword ==>
              r == ResolveValue(input.text, projectName, env, Exists(env, input.text))
    ensures input.PathInput? ==> r == ResolveValue(input.path, projectName, env, Exists(env, input.path))
  {
    match input
    case NoScaffold => Ok(EngineDefault)
    case OtherInput => Ok(EngineDefault)
    case StrInput(s) => if s == DefaultScaffoldKeyword then Ok(EngineDefault) else ResolveValue(s, projectName, env, Exists(env, s))
    case PathInput(p) => ResolveValue(p, projectName, env, Exists(env, p))
  }

  /** Reads the named file when `readFile` holds, and otherwise takes the value itself as the sequence. */
  function ResolveValue(value: string, projectName: string, env: Env, readFile: bool): (r: Result<ResolvedScaffold>)
    requires readFile ==> Exists(env, value)
    ensures r.Ok? ==> r.value.Sequence? && r.value.name == projectName
    ensures !readFile ==> r == Ok(Sequence(Upper(value), projectName))
    ensures readFile && env.files[value].Readable? ==> r == Ok(Sequence(Upper(JoinStrippedLines(env.files[value].content)), projectName))
    ensures readFile && env.files[value].Unreadable? ==> r == Err(Foreign(env.files[value].text))
  {
    if readFile then
      match env.files[value]
      case Readable(content) => Ok(Sequence(Upper(JoinStrippedLines(content)), projectName))
      case Unreadable(_, text) => Err(Foreign(text))
    else
      Ok(Sequence(Upper(value), projectName))
  }

  /** Scaffold resolution that reads a file exactly when validation treated the value as a file name. */
  function ProcessScaffold(input: ScaffoldInput, projectName: string, env: Env): (r: Result<ResolvedScaffold>)
    ensures r.Ok? && r.value.Sequence? ==> r.value.name == projectName
    ensures r.Err? ==> r.raised.Foreign?
    ensures IsDefaultScaffold(input) || input == OtherInput ==> r == Ok(EngineDefault)
    ensures input.StrInput? && input.text != DefaultScaffoldKeyword ==>
              r == ResolveValue(input.text, projectName, env, LooksLikePath(input.text) && Exists(env, input.text))
    ensures input.PathInput? ==>
              r == ResolveValue(input.path, projectName, env, LooksLikePath(input.path) && Exists(env, input.path))
  {
    match input
    case NoScaffold => Ok(EngineDefault)
    case OtherInput => Ok(EngineDefault)
    case StrInput(s) =>
      if s == DefaultScaffoldKeyword then Ok(EngineDefault)
      else ResolveValue(s, projectName, env, LooksLikePath(s) && Exists(env, s))
    case PathInput(p) => ResolveValue(p, projectName, env, LooksLikePath(p) && Exists(env, p))
  }

  /** The imperative resolution as `design_structure` runs it: any existing file is read, line by line. */
  method ProcessScaffoldSequence(input: ScaffoldInput, projectName: string, env: Env) returns (r: Result<ResolvedScaffold>)
    ensures r == ProcessScaffoldAsWritten(input, projectName, env)
  {
    if input.NoScaffold? || input.OtherInput? || input == StrInput(DefaultScaffoldKeyword) {
      return Ok(EngineDefault);
    }
    var value := if input.StrInput? then input.text else input.path;
    if Exists(env, value) {
      match env.files[value]
      case Readable(content) =>
        var sequence := ReadScaffoldFile(content);
        r := Ok(Sequence(sequence, projectName));
      case Unreadable(_, text) =>
        r := Err(Foreign(text));
    } else {
      r := Ok(Sequence(Upper(value), projectName));
    }
  }

  /** A line break is never a nucleotide, upper-cased or not. */
  lemma LineBreakNotBase(s: string, k: nat)
    requires k < |s| && s[k] == '\n'
    ensures !AllBases(Upper(s))
  {
    assert ToUpper('\n') == '\n';
    assert Upper(s)[k] == '\n';
  }

  /**
   * A scaffold file whose stripped content still holds a line break (two
   * non-blank lines, say) is rejected: the line break is an invalid character.
   */
  lemma MultiLineFileRejected(value: string, env: Env)
    requires LooksLikePath(value) && Exists(env, value)
    requires env.files[value].Readable? && '\n' in Strip(env.files[value].content)
    ensures ValidateScaffold(PathInput(value), env).Some?
  {
    LineBreakContentRejected(value, env.files[value].content);
  }

  lemma LineBreakContentRejected(value: string, content: string)
    requires '\n' in Strip(content)
    ensures ValidateScaffoldContent(value, content).Some?
  {
    var stripped := Strip(content);
    var k :| 0 <= k < |stripped| && stripped[k] == '\n';
    LineBreakNotBase(stripped, k);
  }

  /**
   * As written, an inline value that happens to name an existing file passes
   * validation as a sequence, and then that file's content is what the
   * engine is given, unchecked.
   */
  lemma InlineValueNamingFileSendsFile(env: Env)
    requires env.files == map["ACGT" := Readable("xyz")]
    ensures ValidateScaffold(StrInput("ACGT"), env).None?
    ensures ProcessScaffoldAsWritten(StrInput("ACGT"), "cage", env) == Ok(Sequence("XYZ", "cage"))
    ensures !AllBases("XYZ")
  {
    AcgtIsInlineSequence(env);
    XyzFileReadsBack();
    assert !IsBase("XYZ"[0]);
  }

  /**
   * An inline-looking value that names an existing readable one-line file:
   * as written, the file's stripped content is sent on; the aligned
   * resolution keeps the value itself.
   */
  lemma InlineValueReadsNamedFile(value: string, projectName: string, env: Env)
    requires value != DefaultScaffoldKeyword && !LooksLikePath(value)
    requires Exists(env, value) && env.files[value].Readable? && '\n' !in Strip(env.files[value].content)
    ensures ProcessScaffoldAsWritten(StrInput(value), projectName, env)
         == Ok(Sequence(Upper(Strip(env.files[value].content)), projectName))
    ensures ProcessScaffold(StrInput(value), projectName, env) == Ok(Sequence(Upper(value), projectName))
  {
    JoinStrippedLinesOfClean(env.files[value].content);
  }

  lemma AcgtIsInlineSequence(env: Env)
    ensures ValidateScaffold(StrInput("ACGT"), env).None?
  {
    AcgtIsInline();
    InlineScaffoldAcceptedIff("ACGT", env);
  }

  lemma AcgtIsInline()
    ensures !LooksLikePath("ACGT") && AllBases(Upper("ACGT"))
  {
    var v := "ACGT";
    assert '.' !in v && '/' !in v && '\\' !in v;
    forall k | 0 <= k < |v| ensures IsBase(Upper(v)[k]) {
      assert IsBase(v[k]);
    }
  }

  lemma XyzFileReadsBack()
    ensures Upper(JoinStrippedLines("xyz")) == "XYZ"
  {
    XyzJoinsToItself();
    var u := Upper("xyz");
    assert u[0] == 'X' && u[1] == 'Y' && u[2] == 'Z';
  }

  lemma XyzJoinsToItself()
    ensures JoinStrippedLines("xyz") == "xyz"
  {
    XyzStripsToItself();
    assert '\n' !in "xyz";
    JoinStrippedLinesOfClean("xyz");
  }

  lemma XyzStripsToItself()
    ensures Strip("xyz") == "xyz"
  {
    StripPadded("", "xyz", "");
    assert "" + "xyz" + "" == "xyz";
  }

  /**
   * With resolution aligned on validation, a scaffold that passed validation
   * resolves without error, a given sequence is nucleotides only, and a file
   * gives its stripped content upper-cased.
   */
  lemma ValidatedScaffoldResolves(input: ScaffoldInput, projectName: string, env: Env)
    requires ValidateScaffold(input, env).None?
    ensures ProcessScaffold(input, projectName, env).Ok?
    ensures ProcessScaffold(input, projectName, env).value.Sequence? ==>
              AllBases(ProcessScaffold(input, projectName, env).value.bases)
  {
    if (input.StrInput? || input.PathInput?) && !IsDefaultScaffold(input) {
      var v := if input.StrInput? then input.text else input.path;
      if LooksLikePath(v) {
        ValidatedFileResolves(v, projectName, env);
      } else {
        UpperIdempotent(v);
      }
    }
  }

  /** A scaffold file that passed validation is read back as its stripped content, upper-cased. */
  lemma ValidatedFileResolves(value: string, projectName: string, env: Env)
    requires LooksLikePath(value) && ValidateScaffoldValue(value, env).None?
    ensures Exists(env, value) && env.files[value].Readable?
    ensures ResolveValue(value, projectName, env, true) == Ok(Sequence(Upper(Strip(env.files[value].content)), projectName))
    ensures AllBases(Upper(Strip(env.files[value].content)))
  {
    var content := env.files[value].content;
    var stripped := Strip(content);
    assert AllBases(Upper(stripped));
    assert forall k :: 0 <= k < |stripped| ==> stripped[k] != '\n' by {
      forall k | 0 <= k < |stripped| ensures stripped[k] != '\n' {
        assert IsBase(Upper(stripped)[k]);
      }
    }
    JoinStrippedLinesOfClean(content);
  }

  // ---------------------------------------------------------------- second-phase checks

  /** `sum(edge_length_vec)`. */
  function Sum(lengths: seq<nat>): nat
  {
    if lengths == [] then 0 else lengths[0] + Sum(lengths[1..])
  }

  /** The total of a concatenation is the sum of the totals. */
  lemma {:induction false} SumAppend(a: seq<nat>, b: seq<nat>)
    ensures Sum(a + b) == Sum(a) + Sum(b)
    decreases |a|
  {
    if a == [] {
      assert a + b == b;
    } else {
      assert (a + b)[1..] == a[1..] + b;
      SumAppend(a[1..], b);
    }
  }

  /** Every edge length is at most the total. */
  lemma {:induction false} SumBoundsElements(lengths: seq<nat>, i: nat)
    requires i < |lengths|
    ensures lengths[i] <= Sum(lengths)
    decreases |lengths|
  {
    if i > 0 {
      SumBoundsElements(lengths[1..], i - 1);
    }
  }

  const TooShortIssue := "Scaffold sequence too short"

  /** The error for a sequence of `provided` nucleotides against `required`, for `edgeCount` edges of total length `total`. */
  function TooShortError(provided: nat, required: nat, edgeCount: nat, total: nat): (e: DomainError)
    ensures e.kind == ScaffoldSequence
    ensures StartsWith(e.message, MessagePrefix(ScaffoldSequence) + TooShortIssue)
    ensures Contains(e.message, NatToString(provided)) && Contains(e.message, NatToString(required))
    ensures EndsWith(e.message, " (Provided: " + NatToString(provided) + " nt, Required: ≥" + NatToString(required) + " nt)")
    ensures |e.message| == |MessagePrefix(ScaffoldSequence)| + |TooShortIssue| + 32 + |NatToString(provided)| + |NatToString(required)|
  {
    var given, needed := NatToString(provided), NatToString(required);
    var info := TooShortInfo(given, needed);
    var details := "Geometry requires ~" + needed + " nucleotides (" + NatToString(edgeCount)
      + " edges, total length " + NatToString(total) + ".0 bp). Rule of thumb: scaffold length ≥ 2 × total edge length.";
    ReportInMessage(TooShortIssue, info, details, given);
    ReportInMessage(TooShortIssue, info, details, needed);
    ScaffoldSequenceError(TooShortIssue, info, details)
  }

  /** The too-short error's sequence information, "Provided: L nt, Required: ≥R nt", holds both numerals. */
  function TooShortInfo(given: string, needed: string): (info: string)
    ensures Contains(info, given) && Contains(info, needed)
    ensures " (" + info + ")" == " (Provided: " + given + " nt, Required: ≥" + needed + " nt)"
  {
    var head := "Provided: " + given + " nt, Required: ≥";
    ContainsInfix(head, needed, " nt");
    ContainsInfix("Provided: ", given, " nt, Required: ≥");
    ContainsPrefixOf(head, needed, given);
    ContainsPrefixOf(head + needed, " nt", given);
    head + needed + " nt"
  }

  predicate IsTooShort(e: DomainError)
  {
    StartsWith(e.message, MessagePrefix(ScaffoldSequence) + TooShortIssue)
  }

  /** The length check: only a non-empty given sequence is compared with twice the total edge length. */
  function LengthCheck(scaffold: ResolvedScaffold, edgeCount: nat, total: nat): (r: Option<DomainError>)
    ensures r.Some? <==> scaffold.Sequence? && scaffold.bases != [] && |scaffold.bases| < 2 * total
    ensures r.Some? ==> IsTooShort(r.value) && r.value.kind == ScaffoldSequence
  {
    if scaffold.Sequence? && scaffold.bases != [] && |scaffold.bases| < 2 * total then
      Some(TooShortError(|scaffold.bases|, 2 * total, edgeCount, total))
    else
      None
  }

  const ProcessingIssue := "Error processing scaffold sequence"

  /**
   * A failure while resolving the scaffold (the file read) becomes a scaffold
   * error whose details are the original text; it is never the too-short error.
   */
  function ProcessingError(text: string): (e: DomainError)
    ensures e.kind == ScaffoldSequence && e.details == text && !IsTooShort(e)
    ensures e.message == MessagePrefix(ScaffoldSequence) + ProcessingIssue && e.advice == ScaffoldAdvice
  {
    var e := ScaffoldSequenceError(ProcessingIssue, "", text);
    var p := MessagePrefix(ScaffoldSequence);
    assert e.message == p + ProcessingIssue;
    assert e.message[|p|] == 'E';
    assert (p + TooShortIssue)[|p|] == 'S';
    e
  }

  /**
   * The scaffold stage after conversion: resolution, then the length check.
   * The too-short error leaves the stage unchanged; a resolution failure,
   * always a foreign exception, is wrapped as a processing error.
   */
  function ScaffoldStage(input: ScaffoldInput, projectName: string, env: Env, edgeCount: nat, total: nat): (r: Result<ResolvedScaffold>)
    ensures r.Err? ==> r.raised.Domain? && r.raised.error.kind == ScaffoldSequence
    ensures ProcessScaffoldAsWritten(input, projectName, env).Err? ==>
              r == Err(Domain(ProcessingError(ProcessScaffoldAsWritten(input, projectName, env).raised.text)))
  {
    match ProcessScaffoldAsWritten(input, projectName, env)
    case Err(raised) => Err(Domain(ProcessingError(raised.text)))
    case Ok(scaffold) =>
      match LengthCheck(scaffold, edgeCount, total)
      case Some(e) => Err(Domain(e))
      case None => Ok(scaffold)
  }

  /**
   * Once the scaffold resolved, the stage fails with the too-short error
   * exactly when a non-empty sequence is shorter than twice the total edge
   * length, and otherwise hands on the resolved scaffold.
   */
  lemma ScaffoldStageTooShortIff(input: ScaffoldInput, projectName: string, env: Env, edgeCount: nat, total: nat)
    requires ProcessScaffoldAsWritten(input, projectName, env).Ok?
    ensures var s := ProcessScaffoldAsWritten(input, projectName, env).value;
      var r := ScaffoldStage(input, projectName, env, edgeCount, total);
      (r.Err? && IsTooShort(r.raised.error) <==> s.Sequence? && s.bases != [] && |s.bases| < 2 * total)
      && (r.Ok? <==> !(s.Sequence? && s.bases != [] && |s.bases| < 2 * total))
      && (r.Ok? ==> r.value == s)
  {
  }

  /**
   * The one kind of input on which the two resolutions part: a value that
   * validation took for an inline sequence (it does not look like a path) but
   * that names an existing file.
   */
  predicate InlineValueNamesFile(input: ScaffoldInput, env: Env)
  {
    (input.StrInput? && input.text != DefaultScaffoldKeyword && !LooksLikePath(input.text) && Exists(env, input.text))
    || (input.PathInput? && !LooksLikePath(input.path) && Exists(env, input.path))
  }

  /** Away from that kind of input, the resolution as written and the aligned one agree. */
  lemma ResolutionsAgree(input: ScaffoldInput, projectName: string, env: Env)
    requires !InlineValueNamesFile(input, env)
    ensures ProcessScaffoldAsWritten(input, projectName, env) == ProcessScaffold(input, projectName, env)
  {
  }

  /**
   * A validated scaffold that is not an inline-looking name of an existing
   * file resolves without error, and a stage that passes hands on the default
   * or a sequence of nucleotides only.
   */
  lemma ValidatedStageUsesBases(input: ScaffoldInput, projectName: string, env: Env, edgeCount: nat, total: nat)
    requires ValidateScaffold(input, env).None? && !InlineValueNamesFile(input, env)
    ensures ProcessScaffoldAsWritten(input, projectName, env).Ok?
    ensures var r := ScaffoldStage(input, projectName, env, edgeCount, total);
      r.Ok? ==> r.value.EngineDefault? || AllBases(r.value.bases)
  {
    ResolutionsAgree(input, projectName, env);
    ValidatedScaffoldResolves(input, projectName, env);
  }
}
