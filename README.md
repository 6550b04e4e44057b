# pyDAEDALUS design front end, modelled in Dafny

pyDAEDALUS designs nucleic-acid wireframe origami from a PLY polyhedron. This project models the
Python layer in front of the design engine:

- **`design_structure`.** It validates the geometry file, the helical form and turn count, the
  scaffold input and the output directory, in that order.
- **Engine steps.** It runs the PLY conversion, checks the edge count, resolves and length-checks the
  scaffold, then runs the cage design. Each engine failure is translated into one error of the
  package's taxonomy. A failure of the atomic-model (PDB) step never reaches the caller.
- **Aliases.** `design_dna_structure` and `design_rna_structure`.
- **`DesignResult`.** Derives the artifact paths.
- **Error classes.** Each builds its message, technical details and numbered suggestions.

Modules, one per concern:

- **`Text`.** The Python string built-ins the code relies on: `upper`, `lower`, `strip`, `in` on
  strings, `sorted(set(...))` and integer formatting.
- **`Errors`.** The exception classes of `exceptions.py`.
- **`Paths`.** The file system, seen as a map from path to entry with `mkdir` and write-probe
  outcomes, plus `Path` joining, suffix and absolute path.
- **`Validation`.** The three `validate_*` functions.
- **`Helical`.** The helical forms, minimum turns and `_get_helical_config`.
- **`Scaffold`.** `_process_scaffold_sequence` and the scaffold length stage.
- **`Engine`.** The three engine entry points, modelled as functions of their arguments, and the
  error translation around each.
- **`Results`.** `DesignResult`.
- **`Pipeline`.** `design_structure` and its aliases.

Modelling choices:

- Errors are values. `Raised.Domain` carries a `DomainError` of the taxonomy. `Raised.Foreign`
  carries an exception the source lets escape untranslated.
- Operations that return or raise are modelled as `Result`/`Option` values.
- The imperative parts keep their loops as methods proved equal to the specifying function:
  - the message-building `+=` loop (`Errors.BuildFullMessage`);
  - the line-by-line scaffold file read (`Scaffold.ReadScaffoldFile`);
  - the statement-by-statement pipeline (`Pipeline.DesignStructure` and the aliases).

Where the documented behaviour and the code disagree, the model follows the code:

- A write probe that fails with an `OSError` other than `PermissionError` escapes untranslated. It is
  not reported as an `OutputDirectoryError`.
- Header errors raised while reading the geometry file are re-wrapped as "Cannot read file"
  (see Findings).
- The scaffold is read as a file whenever a file of that name exists, whatever validation took the
  value for (see Findings).
- The scaffold is resolved after validation has created the project directory, so the engine phase
  runs in that file system (`Pipeline.EngineEnv`; see Findings).

`Pipeline` runs the code as written: `Validation.ValidateGeometryAsWritten` and
`Scaffold.ProcessScaffoldAsWritten`. The corrected definitions that the findings name
(`Validation.ValidateGeometry`, `Scaffold.ProcessScaffold`) sit beside them, with lemmas saying where
the two agree and where they part.

## Model

| member | source | states |
|---|---|---|
| Text.Upper | pyDAEDALUS/exceptions.py:229 | same length, and each character is the ASCII upper-case of the input's character at that position |
| Text.Lower | pyDAEDALUS/exceptions.py:162 | same length, and each character is the ASCII lower-case of the input's character at that position |
| Text.IsSpace | pyDAEDALUS/exceptions.py:220 | the characters Python's `str.isspace()` accepts, which `strip()` removes: the ASCII controls tab to carriage return and 0x1c-0x1f, space, and the Unicode spaces and separators |
| Text.Strip | pyDAEDALUS/exceptions.py:220 | empty exactly when the input is all whitespace; otherwise neither end is whitespace |
| Text.TrimStart | pyDAEDALUS/exceptions.py:220 | a suffix of the input that is empty exactly when the input is blank and otherwise starts with a non-space |
| Text.TrimEnd | pyDAEDALUS/exceptions.py:220 | a prefix of the input that is empty exactly when the input is blank and otherwise ends with a non-space |
| Text.StripPadded | pyDAEDALUS/exceptions.py:220 | stripping removes exactly the whitespace padding around a core that neither starts nor ends with whitespace |
| Text.TrimStartAppend | pyDAEDALUS/exceptions.py:220 | leading-space trimming only affects the first non-blank part of a concatenation |
| Text.TrimEndAppend | pyDAEDALUS/exceptions.py:220 | trailing-space trimming only affects the last non-blank part of a concatenation |
| Text.NatToString | pyDAEDALUS/exceptions.py:234 | a non-empty decimal numeral without leading zero whose value is n (round trip in `Text.NatToStringRoundTrip`) |
| Text.NatToStringRoundTrip | pyDAEDALUS/exceptions.py:234 | reading the printed numeral back gives the number |
| Text.IntToString | pyDAEDALUS/exceptions.py:77-78 | Python's `str(i)`: the decimal numeral of a non-negative number, a minus sign before the numeral of its magnitude otherwise; reading the digits back gives the magnitude |
| Text.SortedDistinct | pyDAEDALUS/exceptions.py:233 | strictly increasing, with exactly the characters of the input |
| Text.Join | pyDAEDALUS/exceptions.py:233 | Python's `sep.join(parts)`: the parts in order with the separator between each two; `Validation.JoinContains` shows each part appears in it |
| Text.ContainsAt | pyDAEDALUS/exceptions.py:180 | substring containment holds exactly when the substring starts at some position |
| Paths.JoinPath | pyDAEDALUS/exceptions.py:259 | the directory, a separator, then the name; its length is the sum of the parts plus one |
| Paths.JoinPathCancel | pyDAEDALUS/exceptions.py:259 | joining to one directory is injective in the name |
| Paths.Absolute | pyDAEDALUS/exceptions.py:152 | `absolute()`: an absolute path is kept as it is, a relative one is joined under the working directory |
| Paths.BaseName | pyDAEDALUS/exceptions.py:162 | the last path component: a suffix of the path without separator that is the whole path or starts right after a separator |
| Paths.Suffix | pyDAEDALUS/exceptions.py:162 | empty, or a dot followed by at least one character, with no other dot and no separator, ending the path; empty when the path has no dot |
| Paths.SuffixIffInnerLastDot | pyDAEDALUS/exceptions.py:162 | the suffix is non-empty exactly when the name's last dot is neither its first nor its last character, and it is then the name's ending from that dot |
| Paths.WithDirectory | pyDAEDALUS/exceptions.py:262 | after a directory is made at a path, that path exists; every path that existed keeps its entry, nothing else is added, and a new entry is a directory that opening for reading refuses with `IsADirectoryError` |
| Errors.KindOfPrefixed | pyDAEDALUS/exceptions.py:32-138 | a message's leading text identifies the error class that built it, for every class |
| Errors.Compose | pyDAEDALUS/exceptions.py:19-27 | the full message is exactly: the message; then the details under their header when there are any; then the suggestions numbered from 1 under their header when there are any. Its start, its end and its length are stated, so no other text can come between the parts |
| Errors.FullMessage | pyDAEDALUS/exceptions.py:19-29 | `str(e)` of an error of the taxonomy: its composed full message, which starts with the message followed, when there are details, by the details under their header |
| Errors.BuildFullMessage | pyDAEDALUS/exceptions.py:19-27 | the appending loop yields the composed message |
| Errors.NumberedSnoc | pyDAEDALUS/exceptions.py:26-27 | one more suggestion adds exactly one numbered line at the end |
| Errors.BaseError | pyDAEDALUS/exceptions.py:13-16 | keeps message and details; missing suggestions become the empty list |
| Errors.BaseErrorBareMessage | pyDAEDALUS/exceptions.py:21-29 | the full text is the bare message exactly when there are no details and the suggestions are missing or empty |
| Errors.GeometryFileError | pyDAEDALUS/exceptions.py:32-44 | the message is exactly the class prefix, the file name, `': ` and the issue (start, end and length stated); the details are kept and the four suggestions name the file |
| Errors.ScaffoldSequenceError | pyDAEDALUS/exceptions.py:47-62 | the message is the class prefix and the issue, followed by ` (info)` exactly when the information is non-empty; its length then is the parts' lengths plus 3, so nothing else is in it |
| Errors.HelicalParameterError | pyDAEDALUS/exceptions.py:65-86 | a helical-parameter error with non-empty details and suggestions naming the form |
| Errors.HelicalDetails | pyDAEDALUS/exceptions.py:80-84 | the details open with "Helical form '<form>' requires minimum <n> helical turns. ", naming the form and the minimum |
| Errors.HelicalMessageNamesParameters | pyDAEDALUS/exceptions.py:77-78 | the message names the form, the turn count and the required minimum |
| Errors.DesignConstraintError | pyDAEDALUS/exceptions.py:89-105 | the message is the class prefix and the constraint, followed by `\nGeometry: <info>` exactly when the information is non-empty; its length then is the parts' lengths plus 11, so nothing else is in it |
| Errors.StapleGenerationError | pyDAEDALUS/exceptions.py:108-121 | the message is exactly the class prefix followed by the stage (start, end and length stated); details kept; the staple suggestions |
| Errors.OutputDirectoryError | pyDAEDALUS/exceptions.py:124-138 | the message is exactly the class prefix and the issue, and the details exactly "Cannot access or create directory: " and the directory (start, end and length stated); the suggestions name the directory |
| Errors.SuggestionList | pyDAEDALUS/exceptions.py:36-41 | each class's suggestion count (four or five), and the first suggestion naming the file, form or directory |
| Errors.GeometrySuggestionList | pyDAEDALUS/exceptions.py:36-41 | a geometry-file error has four suggestions, the first naming the file |
| Helical.ParseForm | pyDAEDALUS/pydaedalus.py:122-123 | accepts exactly the four form names and returns the form so named |
| Helical.ParseFormName | pyDAEDALUS/pydaedalus.py:122-123 | parsing a form's own name gives the form back |
| Helical.SortedFormNamesJoined | pyDAEDALUS/pydaedalus.py:125 | the listed valid forms are the sorted names joined by ", " |
| Helical.FormNamesSorted | pyDAEDALUS/pydaedalus.py:125 | the form names are listed in sorted order |
| Helical.InvalidFormError | pyDAEDALUS/pydaedalus.py:124-134 | the message is exactly "Invalid helical_form '<name>'"; an error of the base class whose details list the valid forms |
| Helical.InvalidFormSuggestions | pyDAEDALUS/pydaedalus.py:124-129 | four suggestions, the first naming the valid forms |
| Helical.MinTurns | pyDAEDALUS/pydaedalus.py:137 | three turns for B-form, four for every other form |
| Helical.CheckTurns | pyDAEDALUS/pydaedalus.py:138-139 | fails exactly below the minimum, with the helical-parameter message for that form and minimum |
| Helical.HelicalConfigFor | pyDAEDALUS/pydaedalus.py:278-303 | minimum edge length is floor(10.5 * turns) for B-form and 11 * turns otherwise; A-form flag for all but B-form; twist 1, 2, 3 for A/B, Hybrid, Twisted |
| Helical.ConfigIdentifiesForm | pyDAEDALUS/pydaedalus.py:278-303 | the A-form flag and twist together determine the form |
| Helical.MinEdgeLenMonotone | pyDAEDALUS/pydaedalus.py:278-303 | more turns never give a shorter minimum edge |
| Helical.MinimumEdgeLengths | pyDAEDALUS/exceptions.py:71-72 | an accepted turn count gives at least 31 bp (B-form) or 44 bp (other forms) |
| Validation.Head | pyDAEDALUS/exceptions.py:172 | the first min(n, length) characters |
| Validation.HeaderProblem | pyDAEDALUS/exceptions.py:173-185 | no problem exactly when the header is non-blank and contains "ply" case-insensitively; a blank header is "File is empty" |
| Validation.GeometryCheck | pyDAEDALUS/exceptions.py:141-198 | passes exactly when the file exists, has a .ply suffix in any case, is readable and has a non-blank header containing "ply" |
| Validation.ValidateGeometryAsWritten | pyDAEDALUS/exceptions.py:141-198 | the source's control flow: accepts the same files as `GeometryCheck`; a failure before the file is opened is reported as raised, and a header error raised inside the read block is re-raised as "Cannot read file" whose details are "Unexpected error: " and the header error's text |
| Validation.AsWrittenWrapsFullMessage | pyDAEDALUS/exceptions.py:193-198 | the re-raised details carry the header error's full text `str(e)`, suggestions included |
| Validation.BlankGeometryWrapped | pyDAEDALUS/exceptions.py:170-198 | as written, a readable .ply file with a blank header is reported as "Cannot read file" wrapping the "File is empty" error |
| Validation.ValidateGeometry | pyDAEDALUS/exceptions.py:141-198 | the intended check: every failure is a geometry-file error, and it passes exactly when `GeometryCheck` passes |
| Validation.MissingGeometryReportedFirst | pyDAEDALUS/exceptions.py:143-160 | a missing file is reported as "File not found" with its absolute path, by both versions |
| Validation.GeometryIssueDetermined | pyDAEDALUS/exceptions.py:43 | a geometry-file message determines its issue text |
| Validation.AsWrittenNeverReportsEmpty | pyDAEDALUS/exceptions.py:170-198 | as written, "File is empty" is never the reported error |
| Validation.BeforeReadNeverEmpty | pyDAEDALUS/exceptions.py:143-167 | no check before the file is opened reports "File is empty" |
| Validation.EmptyGeometryReported | pyDAEDALUS/exceptions.py:173-178 | corrected: an existing, readable .ply file with a blank header is reported as empty |
| Validation.NonBases | pyDAEDALUS/exceptions.py:229 | exactly the characters of the input outside A, T, G, C, U |
| Validation.InvalidBases | pyDAEDALUS/exceptions.py:228-230 | the sorted distinct invalid characters of the upper-cased input; empty exactly when all are bases |
| Validation.Singletons | pyDAEDALUS/exceptions.py:233 | one one-character string per character, in order |
| Validation.AlphabetCheck | pyDAEDALUS/exceptions.py:228-235 | passes exactly when the upper-cased sequence has only bases; otherwise a scaffold error listing the invalid characters and the length |
| Validation.ValidateScaffoldContent | pyDAEDALUS/exceptions.py:220-235 | passes exactly when the content is non-blank and its stripped, upper-cased form has only bases; blank content is "Scaffold sequence file is empty" naming the file, other content goes to the alphabet check on its stripped form |
| Validation.ValidateScaffoldFile | pyDAEDALUS/exceptions.py:211-240 | passes exactly when the file exists, is readable and its content passes; a missing file is "Scaffold sequence file not found" with its absolute path; an unreadable one is "Cannot read scaffold sequence file" on a permission error and escapes untranslated otherwise |
| Validation.ValidateScaffoldValue | pyDAEDALUS/exceptions.py:206-251 | a path-like value is checked as a file, any other value as an inline sequence |
| Validation.ValidateScaffold | pyDAEDALUS/exceptions.py:201-251 | no scaffold, "M13.txt" and non-string inputs pass; any other path or string is checked by value |
| Validation.LooksLikePath | pyDAEDALUS/exceptions.py:210 | the test that sends a value to the file branch: a `/`, a `\\` or a non-empty `Path` suffix |
| Validation.LooksLikePathIff | pyDAEDALUS/exceptions.py:210 | a value is taken for a file name exactly when it holds a `/` or `\\`, or its last component has a dot that is neither its first nor its last character |
| Validation.InlineScaffoldAcceptedIff | pyDAEDALUS/exceptions.py:241-251 | an inline sequence passes exactly when all its upper-cased characters are bases |
| Validation.InvalidReportNames | pyDAEDALUS/exceptions.py:233 | every invalid character appears in the "Found:" report |
| Validation.JoinContains | pyDAEDALUS/exceptions.py:233 | a joined list contains each of its parts |
| Validation.InlineScaffoldReportsCharacter | pyDAEDALUS/exceptions.py:241-251 | a rejected inline sequence's message names each invalid character |
| Validation.AlphabetCheckNames | pyDAEDALUS/exceptions.py:228-235 | a sequence with a non-base character fails the alphabet check with a message naming that character |
| Validation.ReportInMessage | pyDAEDALUS/exceptions.py:58-60 | the sequence information appears in the scaffold error's message |
| Validation.ValidateOutputDirectory | pyDAEDALUS/exceptions.py:254-291 | on success, the project directory under the given directory or the working directory; one outcome per failure: permission denied on mkdir, no space left, any other mkdir error with its text, a directory that is not writable, and an untranslated probe error |
| Validation.OutputDirectoryAcceptedIff | pyDAEDALUS/exceptions.py:254-291 | succeeds exactly when mkdir creates the directory and the write probe succeeds |
| Validation.AfterOutputDirectory | pyDAEDALUS/exceptions.py:254-262 | the file system once the project directory was made: the given output directory (or, with none, the bare project name) and the project directory exist; every existing path keeps its entry, and the new entries are directories |
| Validation.ScaffoldValidationKept | pyDAEDALUS/exceptions.py:201-262 | a scaffold that passed validation still passes it once the directories are made |
| Scaffold.IndexOfNewline | pyDAEDALUS/pydaedalus.py:322 | the position of the first newline, or -1 when there is none |
| Scaffold.IndexOfNewlineAt | pyDAEDALUS/pydaedalus.py:322 | a newline with none before it is the one found |
| Scaffold.FirstLine | pyDAEDALUS/pydaedalus.py:322 | a non-empty prefix ending at the first newline (included) or at the end |
| Scaffold.JoinStrippedLines | pyDAEDALUS/pydaedalus.py:322 | `''.join(line.strip() for line in f)`: each line, taken with its terminator, stripped, and the pieces concatenated; its properties are the lemmas below |
| Scaffold.ReadScaffoldFile | pyDAEDALUS/pydaedalus.py:321-322 | the line loop yields the upper-cased concatenation of the stripped lines |
| Scaffold.JoinStrippedLinesOfJoin | pyDAEDALUS/pydaedalus.py:322 | for newline-free lines joined by newlines, the result is the concatenation of each stripped line |
| Scaffold.JoinStrippedLinesHasNoNewline | pyDAEDALUS/pydaedalus.py:322 | the joined sequence never contains a newline |
| Scaffold.JoinStrippedAllSpace | pyDAEDALUS/pydaedalus.py:322 | a blank file yields the empty sequence |
| Scaffold.JoinStrippedLinesOfClean | pyDAEDALUS/pydaedalus.py:322 | content whose stripped form has no inner newline reads as its stripped form, as validation reads it |
| Scaffold.StripKeepsAbsent | pyDAEDALUS/pydaedalus.py:322 | stripping introduces no new character |
| Scaffold.NewlineBetweenNonBlank | pyDAEDALUS/exceptions.py:220 | a newline between two non-blank parts survives stripping |
| Scaffold.ProcessScaffoldAsWritten | pyDAEDALUS/pydaedalus.py:306-331 | the source's `exists()` test: defaults go to the engine default; any other string or path is read as a file exactly when a file of that name exists, and is otherwise the upper-cased value; only untranslated read errors escape |
| Scaffold.ResolveValue | pyDAEDALUS/pydaedalus.py:319-329 | a file is read line by line and upper-cased, an inline value upper-cased; an unreadable file escapes untranslated |
| Scaffold.ProcessScaffold | pyDAEDALUS/pydaedalus.py:306-331 | corrected: the defaults go to the engine default; any other string or path is read as a file exactly when it looks like a path (as validation decides) and exists, and is otherwise the upper-cased value; only untranslated read errors escape |
| Scaffold.ProcessScaffoldSequence | pyDAEDALUS/pydaedalus.py:306-331 | the method, reading the file line by line, computes `ProcessScaffoldAsWritten` |
| Scaffold.LineBreakNotBase | pyDAEDALUS/exceptions.py:228-230 | a newline is never a valid base |
| Scaffold.MultiLineFileRejected | pyDAEDALUS/exceptions.py:218-235 | a scaffold file with a line break inside its stripped content is rejected by validation |
| Scaffold.LineBreakContentRejected | pyDAEDALUS/exceptions.py:220-235 | content with an inner line break fails the alphabet check |
| Scaffold.InlineValueNamingFileSendsFile | pyDAEDALUS/pydaedalus.py:319-324 | as written, a valid inline "ACGT" naming an existing file passes validation and the file's "XYZ" is sent on |
| Scaffold.InlineValueReadsNamedFile | pyDAEDALUS/pydaedalus.py:317-329 | an inline-looking value naming an existing one-line file resolves, as written, to that file's upper-cased content, and under the corrected resolution to the value itself |
| Scaffold.ResolutionsAgree | pyDAEDALUS/pydaedalus.py:306-331 | the as-written and the corrected resolution agree on every input except an inline-looking name of an existing file |
| Scaffold.AcgtIsInlineSequence | pyDAEDALUS/exceptions.py:241-251 | "ACGT" passes scaffold validation as an inline sequence in any file system |
| Scaffold.XyzFileReadsBack | pyDAEDALUS/pydaedalus.py:322 | the one-line file "xyz" reads as "XYZ" |
| Scaffold.ValidatedScaffoldResolves | pyDAEDALUS/pydaedalus.py:306-331 | corrected: a validated scaffold resolves without error, and any sequence it yields has only bases |
| Scaffold.ValidatedFileResolves | pyDAEDALUS/pydaedalus.py:319-324 | a validated path-like value is an existing readable file, read as its stripped upper-cased content |
| Scaffold.SumAppend | pyDAEDALUS/pydaedalus.py:192 | the total edge length of a concatenation is the sum of the totals |
| Scaffold.SumBoundsElements | pyDAEDALUS/pydaedalus.py:192 | every edge length is at most the total |
| Scaffold.TooShortError | pyDAEDALUS/pydaedalus.py:203-211 | a scaffold error whose message begins "Scaffold sequence too short" and ends exactly " (Provided: L nt, Required: ≥R nt)" with the two numerals, its length the sum of these parts |
| Scaffold.TooShortInfo | pyDAEDALUS/pydaedalus.py:205 | the information "Provided: L nt, Required: ≥R nt" holds both numerals |
| Scaffold.LengthCheck | pyDAEDALUS/pydaedalus.py:202 | fails exactly for a non-empty sequence shorter than twice the total edge length |
| Scaffold.ProcessingError | pyDAEDALUS/pydaedalus.py:216-219 | the scaffold error whose message is exactly the class prefix and "Error processing scaffold sequence", with the original exception text as details; never the too-short error |
| Scaffold.ScaffoldStage | pyDAEDALUS/pydaedalus.py:196-219 | every failure of the stage is a scaffold-sequence error; a resolution failure becomes exactly the processing error carrying the failure's text |
| Scaffold.ScaffoldStageTooShortIff | pyDAEDALUS/pydaedalus.py:196-219 | once the scaffold resolved, the too-short error occurs exactly for a non-empty sequence below twice the total; otherwise the stage passes the resolved scaffold through |
| Scaffold.ValidatedStageUsesBases | pyDAEDALUS/pydaedalus.py:196-219 | a validated scaffold that is not an inline-looking name of an existing file resolves, and a passing stage hands on the default or nucleotides only |
| Engine.EdgeCount | pyDAEDALUS/pydaedalus.py:184 | zero exactly when edges are missing or empty, otherwise their number |
| Engine.TotalEdgeLength | pyDAEDALUS/pydaedalus.py:192 | zero when missing; otherwise the sum of the edge lengths, hence at least each of them |
| Engine.ConversionError | pyDAEDALUS/pydaedalus.py:160-181 | an assertion failure becomes exactly the geometry-file error "PLY file format validation failed" for the file with the corrupted-file details; any other failure becomes exactly the design-constraint error "Geometry processing failed" with "File: <file>", whose details are the compatibility note exactly for "map"/"subscriptable" failures and "Unexpected error during PLY processing: " and the text otherwise |
| Engine.NoEdgesError | pyDAEDALUS/pydaedalus.py:185-190 | the design-constraint error "No edges found in geometry" with "File: <file>": start, end and length of the message, and the details, stated |
| Engine.ClassifyCageFailure | pyDAEDALUS/pydaedalus.py:240-264 | the four categories, tested in order, on the lower-cased failure text |
| Engine.ClassificationIgnoresCase | pyDAEDALUS/pydaedalus.py:240 | the category does not depend on the failure text's case |
| Engine.CurrentScaffoldInfo | pyDAEDALUS/pydaedalus.py:245 | "Current scaffold: <n> nt", where the middle reads back as the length of a non-empty given sequence, and is "default" otherwise |
| Engine.CageFailureError | pyDAEDALUS/pydaedalus.py:238-264 | per category, exactly: the scaffold error "Scaffold too short during design" with the current-scaffold information; the staple error "Staple sequence assignment"; the design-constraint error "Scaffold routing failed" with the edge count and form; or "Design algorithm failed" with project, form and turns; each with the failure text in its details |
| Engine.CageFailureMessageDeterminesClass | pyDAEDALUS/pydaedalus.py:242-264 | two failures whose translated messages are equal fall into the same category |
| Results.CsvFile | pyDAEDALUS/pydaedalus.py:40-43 | `staples_<stem>.csv` inside the project directory: starts with the directory and a separator, ends with `/staples_<stem>.csv`, and has exactly that length |
| Results.CndoFile | pyDAEDALUS/pydaedalus.py:45-48 | `<stem>.cndo` inside the project directory: starts with the directory and a separator, ends with `/<stem>.cndo`, and has exactly that length |
| Results.PdbFile | pyDAEDALUS/pydaedalus.py:50-53 | `<stem>.pdb` inside the project directory: starts with the directory and a separator, ends with `/<stem>.pdb`, and has exactly that length |
| Results.PlotFile | pyDAEDALUS/pydaedalus.py:55-58 | `<stem>.png` inside the project directory: starts with the directory and a separator, ends with `/<stem>.png`, and has exactly that length |
| Results.ArtifactPathsDistinct | pyDAEDALUS/pydaedalus.py:40-58 | the four artifacts of one result are different files |
| Results.ArtifactPathsDetermineStem | pyDAEDALUS/pydaedalus.py:40-58 | within one directory, each artifact path determines the stem |
| Pipeline.ValidateTargets | pyDAEDALUS/pydaedalus.py:141-147 | passes exactly when the scaffold and directory checks pass, handing on the project directory |
| Pipeline.ValidateHelical | pyDAEDALUS/pydaedalus.py:122-147 | base-class error exactly for an unknown form; helical error exactly for a known form below its minimum |
| Pipeline.ValidateRequest | pyDAEDALUS/pydaedalus.py:118-147 | passes exactly when every check passes; which error class is raised follows the order of the checks |
| Pipeline.ConvertCallFor | pyDAEDALUS/pydaedalus.py:153-159 | `ply_to_input` gets the geometry file, the project directory, the form's minimum edge length (floor(10.5 * turns) for B-form, 11 * turns otherwise) and the A-form flag |
| Pipeline.CageCallFor | pyDAEDALUS/pydaedalus.py:222-237 | `DX_cage_design` gets the converted geometry, the crossover flag as 1 or 0, the resolved scaffold, the A-form flag, the project directory, the form's twist mode and the print flag |
| Pipeline.RunEngine | pyDAEDALUS/pydaedalus.py:150-275 | engine failures are always translated into the four engine-facing classes; success reports the project and its directory. Which error each failure becomes is stated by `ConversionFailureReported`, `NoEdgesReported`, `ResolutionFailureReported`, `ScaffoldLengthEnforced` and `CageFailureReported` |
| Pipeline.Design | pyDAEDALUS/pydaedalus.py:61-275 | a rejected request fails with the validation error; success implies validation passed and reports the project directory. The engine phase runs in the file system as validation left it, with the project directory created |
| Pipeline.DesignStructure | pyDAEDALUS/pydaedalus.py:61-275 | the statement-by-statement method computes `Design` |
| Pipeline.CheckRequest | pyDAEDALUS/pydaedalus.py:118-147 | the validation statements compute `ValidateRequest` |
| Pipeline.CheckHelical | pyDAEDALUS/pydaedalus.py:122-147 | the form and turn statements compute `ValidateHelical` |
| Pipeline.CheckTargets | pyDAEDALUS/pydaedalus.py:141-147 | the scaffold and directory statements compute `ValidateTargets` |
| Pipeline.RunDesignEngine | pyDAEDALUS/pydaedalus.py:149-275 | the engine statements compute `RunEngine` |
| Pipeline.DesignDnaStructure | pyDAEDALUS/pydaedalus.py:335-337 | the DNA alias is `design_structure` with B-form |
| Pipeline.DesignRnaStructure | pyDAEDALUS/pydaedalus.py:340-342 | the RNA alias is `design_structure` with A-form |
| Pipeline.GeometryErrorWins | pyDAEDALUS/pydaedalus.py:119-120 | a bad geometry file is reported before anything else |
| Pipeline.InvalidFormBeforeTurns | pyDAEDALUS/pydaedalus.py:122-134 | an unknown form is reported before the turn count is looked at |
| Pipeline.TurnsBeforeScaffoldAndDirectory | pyDAEDALUS/pydaedalus.py:137-139 | too few turns are reported before the scaffold and directory checks |
| Pipeline.ScaffoldBeforeDirectory | pyDAEDALUS/pydaedalus.py:142-147 | a bad scaffold is reported before the directory is created |
| Pipeline.RejectedRequestIgnoresEngine | pyDAEDALUS/pydaedalus.py:118-147 | a rejected request never reaches the engine |
| Pipeline.AliasesNeverRejectForm | pyDAEDALUS/pydaedalus.py:335-342 | the aliases never raise the invalid-form error |
| Pipeline.RnaMinimumTurns | pyDAEDALUS/pydaedalus.py:340-342 | once the geometry file passes the as-written check, the RNA alias raises the helical error exactly below 4 turns |
| Pipeline.DnaMinimumTurns | pyDAEDALUS/pydaedalus.py:335-337 | once the geometry file passes the as-written check, the DNA alias raises the helical error exactly below 3 turns |
| Pipeline.DefaultsPassHelicalChecks | pyDAEDALUS/pydaedalus.py:64-65 | the defaults (B-form, 4 turns) pass and configure a 42 bp minimum edge, B-form, twist 1 |
| Pipeline.NoEdgesReported | pyDAEDALUS/pydaedalus.py:184-190 | a conversion without edges fails with the no-edges error |
| Pipeline.ConversionFailureReported | pyDAEDALUS/pydaedalus.py:153-181 | a failed conversion of a validated request fails with exactly the translated conversion error for the geometry file |
| Pipeline.ResolutionFailureReported | pyDAEDALUS/pydaedalus.py:196-219 | once the geometry has edges, a scaffold that cannot be read fails with exactly the processing error carrying the read error's text |
| Pipeline.CageFailureReported | pyDAEDALUS/pydaedalus.py:221-264 | once the scaffold resolved and passed the length check, a cage-design failure fails with exactly the error its text classifies to, built from the edge count, the caller's form name, the project name and the turns |
| Pipeline.ScaffoldLengthEnforced | pyDAEDALUS/pydaedalus.py:192-211 | once the scaffold resolved as written (after the project directory was made), a non-empty sequence shorter than twice the total edge length fails with the too-short error; success implies the default scaffold or an empty or long enough sequence |
| Pipeline.ValidatedDesignUsesBases | pyDAEDALUS/pydaedalus.py:196-237 | a success whose scaffold is not an inline-looking name of an existing file used the default or nucleotides only |
| Pipeline.InlineFileNameReachesDesign | pyDAEDALUS/pydaedalus.py:317-324 | as written, an inline "ACGT" naming a readable one-line file long enough for the geometry passes validation, and the cage design receives that file's upper-cased content whatever it is |
| Pipeline.ProjectNamedScaffoldUnreadable | pyDAEDALUS/pydaedalus.py:317-324 | as written, an inline scaffold spelled like the project, with no output directory and no such path beforehand, passes validation, but the project directory made by validation is what `exists()` finds: the design fails with the processing error for `IsADirectoryError` |
| Pipeline.ProjectNamedScaffoldAligned | pyDAEDALUS/pydaedalus.py:317-324 | corrected: for the same request, the resolution aligned on validation keeps the value as the upper-cased sequence, which has only bases |
| Pipeline.EmptyScaffoldUnreadable | pyDAEDALUS/pydaedalus.py:317-324 | as written, an empty inline scaffold passes validation, but where `""` names the current directory the design fails with the processing error for `IsADirectoryError` |
| Pipeline.BlankGeometryReportedUnreadable | pyDAEDALUS/exceptions.py:170-198 | `design_structure` on a readable .ply file with a blank header fails with "Cannot read file" wrapping the "File is empty" error |
| Pipeline.PdbFailureNeverPropagates | pyDAEDALUS/pydaedalus.py:266-273 | the outcome does not depend on the PDB step |
| Pipeline.SuccessDescribesDesign | pyDAEDALUS/pydaedalus.py:153-275 | success means conversion succeeded with edges, the scaffold resolved, and the cage design returned the reported stem for the project directory and crossover choice |
| Pipeline.EngineSuccess | pyDAEDALUS/pydaedalus.py:153-264 | a successful engine run passed each engine step in turn |

## Left out

- The scan of the geometry file's directory for other `.ply` files (exceptions.py:144-154). The
  "File not found" details carry the absolute path only, because a directory listing's order is
  unspecified.
- `Path` normalisation (`.`/`..`, repeated separators, `Path(...)` round trips). Paths are compared as
  strings.
- Directories made by `validate_output_directory` are added to the file system only under their
  own spellings: the project directory, and the given output directory (or, with none, the bare
  project name). Intermediate parents inside a project name that holds separators, other spellings
  of the same directories, and the files `ply_to_input` writes are not added.
- `Path("")` is the current directory. The model sees this only when the file system has an entry
  for `""` (as in `Pipeline.EmptyScaffoldUnreadable`).
- `print` output and `print_output`. They do not affect results or errors.
- Floating point:
  - The B-form floor(turns * 10.5) is modelled exactly as (21 * turns) / 2.
  - Edge lengths are modelled as natural numbers (`Engine.Sum` over `seq<nat>`), so the too-short
    error's `.1f` total length is always printed as `N.0`. Fractional edge lengths are not modelled.
- Text.Upper and Text.Lower cover ASCII letters only, not Python's full Unicode case mapping.
- The engine internals `ply_to_input`, `DX_cage_design` and `pdbgen`. They are parameters of the
  model: functions from their call arguments to an outcome. Coordinates, faces and the remaining
  conversion outputs are opaque values passed through.
- The `singleXOs` value returned by `ply_to_input` is ignored by the source (it passes its own
  flag), and the model does the same.
- A `helical_form` keyword passed to an alias. In Python this is a `TypeError` (duplicate keyword);
  the aliases here take a request whose form is overridden.
- Validation.ValidateOutputDirectory: an `OSError` other than `PermissionError` from the write probe
  escapes as an untranslated exception (`Raised.Foreign`). Only its text is modelled.
- Pipeline.ScaffoldLengthEnforced: does not promise that a successful design used nucleotides only.
  As written, an inline-looking value that names an existing file sends that file's content unchecked
  (see Findings). The all-bases promise is made by `Pipeline.ValidatedDesignUsesBases` for every
  other scaffold.
- Scaffold.ScaffoldStageTooShortIff: for the same reason, the all-bases promise is made only by
  `Scaffold.ValidatedStageUsesBases`, away from that kind of input.
- Scaffold.ProcessScaffoldAsWritten: a non-string, non-path scaffold object (a list, say) is modelled as one
  `OtherInput` case that resolves to the engine default.
- Validation.ValidateScaffoldFile: a read error other than `PermissionError` (a decoding error, say)
  escapes as an untranslated exception carrying only its text.

## Findings

| source | as written | input that shows it | evidently intended | confidence | as-written member | corrected member |
|---|---|---|---|---|---|---|
| pyDAEDALUS/exceptions.py:170-198 | the "File is empty" and "not PLY format" errors are raised inside the `try`, so the generic `except Exception` catches them and re-raises "Cannot read file" | an existing readable `shape.ply` whose first 100 characters are blank | the blank file is reported as "File is empty" with details "PLY file contains no data" | not executed | Validation.AsWrittenNeverReportsEmpty | Validation.EmptyGeometryReported |
| pyDAEDALUS/pydaedalus.py:317-329 | the scaffold is read as a file whenever a file of that name exists, but validation (exceptions.py:210) decides file against inline by the shape of the value | inline `"ACGT"` while a readable one-line file `ACGT` of `x`s exists, at least twice as long as the total edge length: validation passes, the length check passes, and the `X`s are sent to the cage design | a value validated as an inline sequence is used as that sequence | not executed | Pipeline.InlineFileNameReachesDesign | Scaffold.ValidatedScaffoldResolves |
| pyDAEDALUS/pydaedalus.py:317-324 | validation creates the project directory (exceptions.py:259-262) before the scaffold's `exists()` test, so a value that names that directory is opened as a file | project `cat`, inline scaffold `cat`, no output directory and no `cat` beforehand: validation passes, then `open` raises `IsADirectoryError` and the design fails with "Error processing scaffold sequence"; likewise an empty scaffold `""`, since `Path("")` is the existing current directory (`Pipeline.EmptyScaffoldUnreadable`) | a value validated as an inline sequence is used as that sequence | not executed | Pipeline.ProjectNamedScaffoldUnreadable | Pipeline.ProjectNamedScaffoldAligned |
