/**
 * Helical-form resolution: the closed, case-sensitive set of form names, the
 * per-form minimum number of turns, and the engine-facing configuration
 * (minimum edge length, A-form flag, twist mode).
 */
module Helical {
  import opened Text
  import opened Errors

  datatype HelicalForm = Aform | Bform | Hybrid | Twisted

  function FormName(form: HelicalForm): string
  {
    match form
    case Aform => "Aform"
    case Bform => "Bform"
    case Hybrid => "Hybrid"
    case Twisted => "Twisted"
  }

  /** The valid form names in sorted order, as `sorted(valid_forms)` lists them. */
  const SortedFormNames: seq<string> := ["Aform", "Bform", "Hybrid", "Twisted"]

  /** Membership in the valid set; the comparison is exact, so case matters. */
  function ParseForm(name: string): (r: Option<HelicalForm>)
    ensures r.Some? ==> FormName(r.value) == name
    ensures r.None? <==> name !in SortedFormNames
  {
    if name == "Aform" then Some(Aform)
    else if name == "Bform" then Some(Bform)
    else if name == "Hybrid" then Some(Hybrid)
    else if name == "Twisted" then Some(Twisted)
    else None
  }

  /** Every form's own name is accepted and denotes that form. */
  lemma {:induction false} ParseFormName(form: HelicalForm)
    ensures ParseForm(FormName(form)) == Some(form)
  {
    match form
    case Aform =>
    case Bform =>
      assert "Bform"[0] != "Aform"[0];
    case Hybrid =>
      assert "Hybrid"[0] != "Aform"[0] && "Hybrid"[0] != "Bform"[0];
    case Twisted =>
      assert "Twisted"[0] != "Aform"[0] && "Twisted"[0] != "Bform"[0] && "Twisted"[0] != "Hybrid"[0];
  }

  /** The valid names as the error reports them. */
  const ValidFormsText := "Aform" + ", " + ("Bform" + ", " + ("Hybrid" + ", " + "Twisted"))

  /** The reported text is the sorted valid names joined with ", ". */
  lemma SortedFormNamesJoined()
    ensures Join(SortedFormNames, ", ") == ValidFormsText
  {
    var names := SortedFormNames;
    assert names[1..] == ["Bform", "Hybrid", "Twisted"];
    assert names[1..][1..] == ["Hybrid", "Twisted"];
    assert names[1..][1..][1..] == ["Twisted"];
  }

  /** The valid names are listed in Python's string order, each before the next. */
  lemma FormNamesSorted()
    ensures forall i :: 0 <= i < |SortedFormNames| - 1 ==> LexLess(SortedFormNames[i], SortedFormNames[i + 1])
  {
    assert LexLess("Aform", "Bform") by { assert "Aform"[0] < "Bform"[0]; }
    assert LexLess("Bform", "Hybrid") by { assert "Bform"[0] < "Hybrid"[0]; }
    assert LexLess("Hybrid", "Twisted") by { assert "Hybrid"[0] < "Twisted"[0]; }
  }

  /** The base error raised for a name outside the valid set; its details list the valid names sorted. */
  function InvalidFormError(name: string): (e: DomainError)
    ensures e.kind == Base && KindOfMessage(e.message) == Some(Base)
    ensures e.message == "Invalid helical_form '" + name + "'"
    ensures e.details == "Valid options are: " + ValidFormsText
    ensures e.advice == Listed(FormSuggestions)
  {
    KindOfPrefixed(Base, name + "'");
    assert MessagePrefix(Base) + (name + "'") == "Invalid helical_form '" + name + "'";
    BaseError("Invalid helical_form '" + name + "'", "Valid options are: " + ValidFormsText, Some(FormSuggestions))
  }

  /** The error suggests four remedies, the first listing the valid names. */
  lemma InvalidFormSuggestions(name: string)
    ensures var s := SuggestionList(InvalidFormError(name).advice);
      |s| == 4 && s[0] == "Use one of the valid helical forms: " + ValidFormsText
  {
  }

  /** The suggestions for an unknown form: the valid names, then which form suits which use. */
  const FormSuggestions: seq<string> := [
    "Use one of the valid helical forms: " + ValidFormsText,
    "For DNA structures, use 'Bform'",
    "For RNA structures, use 'Aform'",
    "For advanced users: 'Hybrid' and 'Twisted' are A-form variants"
  ]

  /** The minimum number of helical turns per edge. */
  function MinTurns(form: HelicalForm): (n: nat)
    ensures n == 3 <==> form == Bform
    ensures n == 4 <==> form != Bform
  {
    if form == Bform then 3 else 4
  }

  /** The turn-count check: the helical-parameter error, raised exactly when turns fall below the form's minimum. */
  function CheckTurns(form: HelicalForm, turns: int): (r: Option<DomainError>)
    ensures r.Some? <==> turns < MinTurns(form)
    ensures r.Some? ==> r.value.kind == HelicalParameter
    ensures r.Some? ==> r.value.message == HelicalMessage(FormName(form), turns, MinTurns(form))
  {
    if turns < MinTurns(form) then Some(HelicalParameterError(FormName(form), turns, MinTurns(form))) else None
  }

  datatype HelicalConfig = HelicalConfig(minEdgeLen: int, aForm: bool, twist: int)

  /**
   * The engine-facing configuration. B-form edges are floor(turns * 10.5)
   * nucleotides, written (21 * turns) / 2 with floor division; the A-form
   * variants use 11 per turn and differ only in their twist mode.
   */
  function HelicalConfigFor(form: HelicalForm, turns: int): (c: HelicalConfig)
    ensures form == Bform ==> 2 * c.minEdgeLen <= 21 * turns < 2 * c.minEdgeLen + 2
    ensures form != Bform ==> c.minEdgeLen == 11 * turns
    ensures c.aForm <==> form != Bform
    ensures c.twist == 1 <==> form == Aform || form == Bform
    ensures c.twist == 2 <==> form == Hybrid
    ensures c.twist == 3 <==> form == Twisted
  {
    match form
    case Aform => HelicalConfig(turns * 11, true, 1)
    case Bform => HelicalConfig((21 * turns) / 2, false, 1)
    case Hybrid => HelicalConfig(turns * 11, true, 2)
    case Twisted => HelicalConfig(turns * 11, true, 3)
  }

  /** The A-form flag and the twist mode together identify the form, whatever the turn counts. */
  lemma ConfigIdentifiesForm(f: HelicalForm, g: HelicalForm, t: int, u: int)
    requires HelicalConfigFor(f, t).aForm == HelicalConfigFor(g, u).aForm
    requires HelicalConfigFor(f, t).twist == HelicalConfigFor(g, u).twist
    ensures f == g
  {
  }

  /** More turns never give a shorter minimum edge. */
  lemma {:induction false} MinEdgeLenMonotone(form: HelicalForm, t: int, u: int)
    requires t <= u
    ensures HelicalConfigFor(form, t).minEdgeLen <= HelicalConfigFor(form, u).minEdgeLen
  {
    var a, b := HelicalConfigFor(form, t).minEdgeLen, HelicalConfigFor(form, u).minEdgeLen;
    if form == Bform {
      assert 2 * a <= 21 * t <= 21 * u < 2 * b + 2;
    }
  }

  /** At or above the minimum number of turns, edges are at least 31 (B-form) or 44 (A-form variants) nucleotides. */
  lemma {:induction false} MinimumEdgeLengths(form: HelicalForm, turns: int)
    requires turns >= MinTurns(form)
    ensures HelicalConfigFor(form, turns).minEdgeLen >= (if form == Bform then 31 else 44)
  {
    var c := HelicalConfigFor(form, turns);
    if form == Bform {
      assert 2 * c.minEdgeLen + 2 > 21 * turns >= 63;
    }
  }
}
