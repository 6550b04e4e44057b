/**
 * The design result: the project name, the project directory and the stem of
 * the engine's output files, and the artifact paths derived from them.
 */
module Results {
  import opened Text
  import opened Paths

  /** The three fields set once at construction; the artifact paths are derived, never stored. */
  datatype DesignResult = DesignResult(projectName: string, outputDir: string, fullFileName: string)

  /** The staple-sequence table, `staples_<stem>.csv` in the project directory. */
  function CsvFile(r: DesignResult): (p: string)
    ensures StartsWith(p, r.outputDir + "/") && EndsWith(p, "/staples_" + r.fullFileName + ".csv")
    ensures |p| == |r.outputDir| + |r.fullFileName| + 13
  {
    EndsWithAppend(r.outputDir + "/" + "staples_" + r.fullFileName, ".csv");
    assert JoinPath(r.outputDir, "staples_" + r.fullFileName + ".csv")
        == r.outputDir + "/" + "staples_" + r.fullFileName + ".csv";
    JoinPath(r.outputDir, "staples_" + r.fullFileName + ".csv")
  }

  /** The CanDo structure file, `<stem>.cndo`. */
  function CndoFile(r: DesignResult): (p: string)
    ensures StartsWith(p, r.outputDir + "/") && EndsWith(p, "/" + r.fullFileName + ".cndo")
    ensures |p| == |r.outputDir| + |r.fullFileName| + 6
  {
    EndsWithAppend(r.outputDir + "/" + r.fullFileName, ".cndo");
    assert JoinPath(r.outputDir, r.fullFileName + ".cndo") == r.outputDir + "/" + r.fullFileName + ".cndo";
    JoinPath(r.outputDir, r.fullFileName + ".cndo")
  }

  /** The atomic model, `<stem>.pdb`. */
  function PdbFile(r: DesignResult): (p: string)
    ensures StartsWith(p, r.outputDir + "/") && EndsWith(p, "/" + r.fullFileName + ".pdb")
    ensures |p| == |r.outputDir| + |r.fullFileName| + 5
  {
    EndsWithAppend(r.outputDir + "/" + r.fullFileName, ".pdb");
    assert JoinPath(r.outputDir, r.fullFileName + ".pdb") == r.outputDir + "/" + r.fullFileName + ".pdb";
    JoinPath(r.outputDir, r.fullFileName + ".pdb")
  }

  /** The 3D plot, `<stem>.png`. */
  function PlotFile(r: DesignResult): (p: string)
    ensures StartsWith(p, r.outputDir + "/") && EndsWith(p, "/" + r.fullFileName + ".png")
    ensures |p| == |r.outputDir| + |r.fullFileName| + 5
  {
    EndsWithAppend(r.outputDir + "/" + r.fullFileName, ".png");
    assert JoinPath(r.outputDir, r.fullFileName + ".png") == r.outputDir + "/" + r.fullFileName + ".png";
    JoinPath(r.outputDir, r.fullFileName + ".png")
  }

  /** The four artifacts of one result are four different files. */
  lemma ArtifactPathsDistinct(r: DesignResult)
    ensures CsvFile(r) != CndoFile(r) && CsvFile(r) != PdbFile(r) && CsvFile(r) != PlotFile(r)
    ensures CndoFile(r) != PdbFile(r) && CndoFile(r) != PlotFile(r)
    ensures PdbFile(r) != PlotFile(r)
  {
    var pdb, png := PdbFile(r), PlotFile(r);
    assert pdb[|pdb| - 4..] == ".pdb" && png[|png| - 4..] == ".png";
    assert pdb[|pdb| - 2] == 'd' && png[|png| - 2] == 'n';
  }

  /** Within one project directory, each artifact path determines the stem it was built from. */
  lemma {:induction false} ArtifactPathsDetermineStem(r1: DesignResult, r2: DesignResult)
    requires r1.outputDir == r2.outputDir
    ensures CsvFile(r1) == CsvFile(r2) ==> r1.fullFileName == r2.fullFileName
    ensures CndoFile(r1) == CndoFile(r2) ==> r1.fullFileName == r2.fullFileName
    ensures PdbFile(r1) == PdbFile(r2) ==> r1.fullFileName == r2.fullFileName
    ensures PlotFile(r1) == PlotFile(r2) ==> r1.fullFileName == r2.fullFileName
  {
    var d, s1, s2 := r1.outputDir, r1.fullFileName, r2.fullFileName;
    if CsvFile(r1) == CsvFile(r2) {
      JoinPathCancel(d, "staples_" + s1 + ".csv", "staples_" + s2 + ".csv");
      AppendCancel("staples_", s1, s2, ".csv");
    }
    if CndoFile(r1) == CndoFile(r2) {
      JoinPathCancel(d, s1 + ".cndo", s2 + ".cndo");
      AppendCancelSuffix(s1, s2, ".cndo");
    }
    if PdbFile(r1) == PdbFile(r2) {
      JoinPathCancel(d, s1 + ".pdb", s2 + ".pdb");
      AppendCancelSuffix(s1, s2, ".pdb");
    }
    if PlotFile(r1) == PlotFile(r2) {
      JoinPathCancel(d, s1 + ".png", s2 + ".png");
      AppendCancelSuffix(s1, s2, ".png");
    }
  }
}
