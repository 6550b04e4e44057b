/**
 * The boundary with the external design engine: its three calls as values,
 * their outcomes, and the translation of each engine failure into exactly one
 * error of the taxonomy, the raw engine text kept in the technical details.
 */
module Engine {
  import opened Text
  import opened Errors
  import opened Scaffold

  /** The geometry outputs the layer forwards without reading them: vertex coordinates (floats) and faces. */
  type Shape(==)

  /** `ply_to_input(geometry_file, project_dir, min_edge_len, h_form)`. */
  datatype ConvertCall = ConvertCall(geometryFile: string, projectDir: string, minEdgeLen: int, aForm: bool)

  /**
   * What a successful conversion returns and the layer uses: the forwarded
   * shape, the edges and their lengths (either may be None), the output file
   * stem and the staple name. The single-crossover flags it also returns are
   * not used: the request's flag is passed on instead.
   */
  datatype Converted = Converted(
    shape: Shape,
    edges: Option<seq<(nat, nat)>>,
    edgeLengths: Option<seq<nat>>,
    fileName: string,
    stapleName: string)

  /** An exception out of the engine: an `AssertionError`, or any other, with its text. */
  datatype EngineFailure = AssertionFailed(text: string) | OtherFailure(text: string)

  datatype ConvertOutcome = ConvertOk(converted: Converted) | ConvertFailed(failure: EngineFailure)

  /** `DX_cage_design(...)` with its keyword arguments. */
  datatype CageCall = CageCall(
    shape: Shape,
    edges: Option<seq<(nat, nat)>>,
    edgeLengths: Option<seq<nat>>,
    fileName: string,
    stapleName: string,
    singleXOs: int,
    scaffold: ResolvedScaffold,
    aForm: bool,
    resultsFolder: string,
    twist: int,
    printToConsole: bool)

  datatype CageOutcome = Designed(fullFileName: string) | CageFailed(text: string)

  /** `pdbgen(full_file_name, h_form, project_dir)`. */
  datatype PdbCall = PdbCall(fullFileName: string, aForm: bool, outputDir: string)

  datatype PdbOutcome = PdbWritten | PdbFailed(text: string)

  /** The engine, as the outcome of each call for its arguments. */
  datatype DesignEngine = DesignEngine(
    convert: ConvertCall -> ConvertOutcome,
    design: CageCall -> CageOutcome,
    pdb: PdbCall -> PdbOutcome)

  /** `len(edges) if edges is not None else 0`. */
  function EdgeCount(edges: Option<seq<(nat, nat)>>): (n: nat)
    ensures n == 0 <==> edges.None? || edges.value == []
    ensures edges.Some? ==> n == |edges.value|
  {
    if edges.Some? then |edges.value| else 0
  }

  /** `sum(edge_length_vec) if edge_length_vec is not None else 0`. */
  function TotalEdgeLength(lengths: Option<seq<nat>>): (total: nat)
    ensures lengths.None? ==> total == 0
    ensures lengths.Some? ==> total == Sum(lengths.value)
    ensures lengths.Some? ==> forall i :: 0 <= i < |lengths.value| ==> lengths.value[i] <= total
  {
    if lengths.Some? then
      assert forall i :: 0 <= i < |lengths.value| ==> lengths.value[i] <= Sum(lengths.value) by {
        forall i | 0 <= i < |lengths.value| ensures lengths.value[i] <= Sum(lengths.value) {
          SumBoundsElements(lengths.value, i);
        }
      }
      Sum(lengths.value)
    else 0
  }

  // ---------------------------------------------------------------- conversion failures

  const CompatibilityDetails := "This error often occurs "
    + "with Python 3 compatibility issues in PLY processing. "
    + "The geometry may have edges that are too short or the PLY format may have issues."

  const MalformedIssue := "PLY file format validation failed"
  const ProcessingFailedConstraint := "Geometry processing failed"
  const CorruptedPrefix := "The PLY file appears " + "to be corrupted or malformed: "
  const UnexpectedPrefix := "Unexpected error " + "during PLY processing: "

  /** The leading characters that tell the three kinds of conversion details apart. */
  lemma DetailsLeadingCharacters(text: string)
    ensures CompatibilityDetails[0] == 'T' && CompatibilityDetails[2] == 'i'
    ensures (CorruptedPrefix + text)[2] == 'e' && (UnexpectedPrefix + text)[0] == 'U'
  {
  }

  /** Strings that differ at some position are different. */
  lemma DifferAt(a: string, b: string, j: nat)
    requires j < |a| && j < |b| && a[j] != b[j]
    ensures a != b
  {
  }

  /**
   * A conversion failure as one error: an assertion failure blames the
   * geometry file; any other failure is a design-constraint error whose
   * details are a fixed compatibility note when the raw (not lower-cased)
   * text mentions both "map" and "subscriptable", and otherwise end with the text.
   */
  function ConversionError(failure: EngineFailure, geometryFile: string): (e: DomainError)
    ensures failure.AssertionFailed? <==> e.kind == GeometryFile
    ensures failure.OtherFailure? <==> e.kind == DesignConstraint
    ensures e.details == CompatibilityDetails <==>
              failure.OtherFailure? && Contains(failure.text, "map") && Contains(failure.text, "subscriptable")
    ensures e.details != CompatibilityDetails ==> EndsWith(e.details, failure.text)
    ensures failure.AssertionFailed? ==> EndsWith(e.message, "': " + MalformedIssue)
    ensures failure.OtherFailure? ==>
              StartsWith(e.message, MessagePrefix(DesignConstraint) + ProcessingFailedConstraint)
              && EndsWith(e.message, "\nGeometry: " + ("File: " + geometryFile))
    ensures failure.AssertionFailed? ==> e == GeometryFileError(geometryFile, MalformedIssue, CorruptedPrefix + failure.text)
    ensures failure.OtherFailure? ==>
              e == DesignConstraintError(ProcessingFailedConstraint, "File: " + geometryFile,
                     if Contains(failure.text, "map") && Contains(failure.text, "subscriptable")
                     then CompatibilityDetails else UnexpectedPrefix + failure.text)
  {
    match failure
    case AssertionFailed(text) =>
      EndsWithAppend(CorruptedPrefix, text);
      DetailsLeadingCharacters(text);
      DifferAt(CorruptedPrefix + text, CompatibilityDetails, 2);
      GeometryFileError(geometryFile, MalformedIssue, CorruptedPrefix + text)
    case OtherFailure(text) =>
      if Contains(text, "map") && Contains(text, "subscriptable") then
        DesignConstraintError(ProcessingFailedConstraint, "File: " + geometryFile, CompatibilityDetails)
      else
        EndsWithAppend(UnexpectedPrefix, text);
        DetailsLeadingCharacters(text);
        DifferAt(UnexpectedPrefix + text, CompatibilityDetails, 0);
        DesignConstraintError(ProcessingFailedConstraint, "File: " + geometryFile, UnexpectedPrefix + text)
  }

  /** The error for a conversion that yields no edges. */
  function NoEdgesError(geometryFile: string): (e: DomainError)
    ensures e.kind == DesignConstraint
    ensures StartsWith(e.message, MessagePrefix(DesignConstraint) + "No edges found in geometry")
    ensures EndsWith(e.message, "\nGeometry: " + ("File: " + geometryFile))
    ensures |e.message| == |MessagePrefix(DesignConstraint)| + 26 + 11 + 6 + |geometryFile|
    ensures e.details == "The PLY file must define a 3D polyhedron with edges"
  {
    DesignConstraintError("No edges found in geometry", "File: " + geometryFile,
      "The PLY file must define a 3D polyhedron with edges")
  }

  // ---------------------------------------------------------------- cage-design failures

  datatype CageFailureClass = ScaffoldTooShortInDesign | StapleFailure | RoutingFailure | AlgorithmFailure

  /**
   * The keyword rules over the lower-cased failure text, first match wins:
   * a scaffold-length problem, then staples, then routing, else a generic failure.
   */
  function ClassifyCageFailure(text: string): (c: CageFailureClass)
    ensures var l := Lower(text);
      var scaffold := Contains(l, "scaffold") && (Contains(l, "short") || Contains(l, "length"));
      var staple := Contains(l, "staple");
      var routing := Contains(l, "routing") || Contains(l, "path");
      (c == ScaffoldTooShortInDesign <==> scaffold)
      && (c == StapleFailure <==> !scaffold && staple)
      && (c == RoutingFailure <==> !scaffold && !staple && routing)
      && (c == AlgorithmFailure <==> !scaffold && !staple && !routing)
  {
    var l := Lower(text);
    if Contains(l, "scaffold") && (Contains(l, "short") || Contains(l, "length")) then ScaffoldTooShortInDesign
    else if Contains(l, "staple") then StapleFailure
    else if Contains(l, "routing") || Contains(l, "path") then RoutingFailure
    else AlgorithmFailure
  }

  /** Lower-casing after upper-casing is lower-casing. */
  lemma LowerOfUpper(s: string)
    ensures Lower(Upper(s)) == Lower(s)
  {
    assert forall i :: 0 <= i < |s| ==> ToLower(ToUpper(s[i])) == ToLower(s[i]);
  }

  /** Lower-casing twice is lower-casing once. */
  lemma LowerIdempotent(s: string)
    ensures Lower(Lower(s)) == Lower(s)
  {
    assert forall i :: 0 <= i < |s| ==> ToLower(ToLower(s[i])) == ToLower(s[i]);
  }

  /** The classification ignores letter case: the upper-cased or lower-cased text is classified alike. */
  lemma ClassificationIgnoresCase(text: string)
    ensures ClassifyCageFailure(Upper(text)) == ClassifyCageFailure(text)
    ensures ClassifyCageFailure(Lower(text)) == ClassifyCageFailure(text)
  {
    LowerOfUpper(text);
    LowerIdempotent(text);
  }

  /** "Current scaffold: N nt", with "default" when no non-empty sequence was given. */
  function CurrentScaffoldInfo(scaffold: ResolvedScaffold): (r: string)
    ensures StartsWith(r, "Current scaffold: ") && EndsWith(r, " nt") && |r| > 21
    ensures scaffold.Sequence? && scaffold.bases != [] ==>
              IsDigits(r[18..|r| - 3]) && DigitsValue(r[18..|r| - 3]) == |scaffold.bases|
    ensures !(scaffold.Sequence? && scaffold.bases != []) ==> r[18..|r| - 3] == "default"
  {
    var length := if scaffold.Sequence? && scaffold.bases != [] then NatToString(|scaffold.bases|) else "default";
    var r := "Current scaffold: " + length + " nt";
    assert r[18..|r| - 3] == length;
    NatToStringRoundTrip(if scaffold.Sequence? then |scaffold.bases| else 0);
    StartsWithAppend("Current scaffold: ", length + " nt");
    EndsWithAppend("Current scaffold: " + length, " nt");
    r
  }

  /**
   * A cage-design failure as exactly one error, chosen by the classification;
   * the raw text ends the technical details whatever the class.
   */
  function CageFailureError(text: string, scaffold: ResolvedScaffold, edgeCount: nat,
                            formName: string, projectName: string, turns: int): (e: DomainError)
    ensures ClassifyCageFailure(text) == ScaffoldTooShortInDesign <==> e.kind == ScaffoldSequence
    ensures ClassifyCageFailure(text) == StapleFailure <==> e.kind == StapleGeneration
    ensures ClassifyCageFailure(text) in {RoutingFailure, AlgorithmFailure} <==> e.kind == DesignConstraint
    ensures EndsWith(e.details, text)
    ensures ClassifyCageFailure(text) == ScaffoldTooShortInDesign ==>
              StartsWith(e.message, MessagePrefix(ScaffoldSequence) + "Scaffold too short during design")
              && EndsWith(e.message, " (" + CurrentScaffoldInfo(scaffold) + ")")
    ensures ClassifyCageFailure(text) == StapleFailure ==> EndsWith(e.message, "Staple sequence assignment")
    ensures ClassifyCageFailure(text) == RoutingFailure ==>
              StartsWith(e.message, MessagePrefix(DesignConstraint) + "Scaffold routing failed")
              && EndsWith(e.message, "\nGeometry: " + ("Edges: " + NatToString(edgeCount) + ", Form: " + formName))
    ensures ClassifyCageFailure(text) == AlgorithmFailure ==>
              StartsWith(e.message, MessagePrefix(DesignConstraint) + "Design algorithm failed")
              && EndsWith(e.message, "\nGeometry: "
                 + ("Project: " + projectName + ", Form: " + formName + ", Turns: " + IntToString(turns)))
    ensures ClassifyCageFailure(text) == ScaffoldTooShortInDesign ==>
              e == ScaffoldSequenceError("Scaffold too short during design", CurrentScaffoldInfo(scaffold),
                                         "Design algorithm error: " + text)
    ensures ClassifyCageFailure(text) == StapleFailure ==>
              e == StapleGenerationError("Staple sequence assignment", "Error during staple generation: " + text)
    ensures ClassifyCageFailure(text) == RoutingFailure ==>
              e == DesignConstraintError("Scaffold routing failed",
                     "Edges: " + NatToString(edgeCount) + ", Form: " + formName,
                     "Cannot find valid scaffold path through geometry: " + text)
    ensures ClassifyCageFailure(text) == AlgorithmFailure ==>
              e == DesignConstraintError("Design algorithm failed",
                     "Project: " + projectName + ", Form: " + formName + ", Turns: " + IntToString(turns),
                     "Unexpected error in DX_cage_design: " + text)
  {
    match ClassifyCageFailure(text)
    case ScaffoldTooShortInDesign =>
      EndsWithAppend("Design algorithm error: ", text);
      ScaffoldSequenceError("Scaffold too short during design", CurrentScaffoldInfo(scaffold),
        "Design algorithm error: " + text)
    case StapleFailure =>
      EndsWithAppend("Error during staple generation: ", text);
      StapleGenerationError("Staple sequence assignment", "Error during staple generation: " + text)
    case RoutingFailure =>
      EndsWithAppend("Cannot find valid scaffold path through geometry: ", text);
      DesignConstraintError("Scaffold routing failed",
        "Edges: " + NatToString(edgeCount) + ", Form: " + formName,
        "Cannot find valid scaffold path through geometry: " + text)
    case AlgorithmFailure =>
      EndsWithAppend("Unexpected error in DX_cage_design: ", text);
      DesignConstraintError("Design algorithm failed",
        "Project: " + projectName + ", Form: " + formName + ", Turns: " + IntToString(turns),
        "Unexpected error in DX_cage_design: " + text)
  }

  /** The message of a cage-design error tells which of the four failure classes it reports. */
  lemma CageFailureMessageDeterminesClass(text1: string, text2: string, scaffold: ResolvedScaffold, edgeCount: nat,
                                          formName: string, projectName: string, turns: int)
    requires CageFailureError(text1, scaffold, edgeCount, formName, projectName, turns).message
          == CageFailureError(text2, scaffold, edgeCount, formName, projectName, turns).message
    ensures ClassifyCageFailure(text1) == ClassifyCageFailure(text2)
  {
    var m := CageFailureError(text1, scaffold, edgeCount, formName, projectName, turns).message;
    var routing := MessagePrefix(DesignConstraint) + "Scaffold routing failed";
    var algorithm := MessagePrefix(DesignConstraint) + "Design algorithm failed";
    var k := |MessagePrefix(DesignConstraint)|;
    assert StartsWith(m, routing) ==> m[k] == 'S' by {
      if StartsWith(m, routing) {
        assert m[k] == m[..|routing|][k] == routing[k];
      }
    }
    assert StartsWith(m, algorithm) ==> m[k] == 'D' by {
      if StartsWith(m, algorithm) {
        assert m[k] == m[..|algorithm|][k] == algorithm[k];
      }
    }
  }
}
