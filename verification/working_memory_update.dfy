/** The chat's working-memory tool part: a one-line summary of what was
    remembered, and which of three displays a tool state shows. */
module WorkingMemoryUpdate {
  import opened Wrappers
  import SeqUtil

  /** What the assistant remembers about the user; every field is
      optional. */
  datatype WorkingMemory = WorkingMemory(name: Option<string>, traits: Option<seq<string>>, anythingElse: Option<string>)

  const NOTHING_SPECIFIC: string := "memory updated"
  const NOTES_UPDATED: string := "notes updated"
  const SEGMENT_SEPARATOR: string := " · "
  const TRAIT_SEPARATOR: string := ", "

  /** A string field is present when it is set and non-empty. */
  predicate Filled(s: Option<string>) {
    s.Some? && s.value != ""
  }

  /** A trait list is present when it is set and non-empty. */
  predicate HasTraits(traits: Option<seq<string>>) {
    traits.Some? && |traits.value| > 0
  }

  /** The summary's segments, in the order name, traits, notes; each only
      when its field is present. */
  function Segments(m: WorkingMemory): (segs: seq<string>)
    ensures |segs| == (if Filled(m.name) then 1 else 0) + (if HasTraits(m.traits) then 1 else 0)
      + (if Filled(m.anythingElse) then 1 else 0)
    ensures Filled(m.name) ==> segs[0] == "name: " + m.name.value
    ensures HasTraits(m.traits) ==>
      segs[if Filled(m.name) then 1 else 0] == "traits: " + SeqUtil.Join(m.traits.value, TRAIT_SEPARATOR)
    ensures Filled(m.anythingElse) ==> segs[|segs| - 1] == NOTES_UPDATED
  {
    (if Filled(m.name) then ["name: " + m.name.value] else [])
      + (if HasTraits(m.traits) then ["traits: " + SeqUtil.Join(m.traits.value, TRAIT_SEPARATOR)] else [])
      + (if Filled(m.anythingElse) then [NOTES_UPDATED] else [])
  }

  /** `formatMemorySummary`: the segments joined with a middle dot, or
      "memory updated" when there are none. */
  function FormatMemorySummary(m: WorkingMemory): (s: string)
    ensures !Filled(m.name) && !HasTraits(m.traits) && !Filled(m.anythingElse) ==> s == NOTHING_SPECIFIC
    ensures Filled(m.name) ==>
      var seg := "name: " + m.name.value;
      |seg| <= |s| && s[..|seg|] == seg
    ensures Filled(m.anythingElse) ==> |NOTES_UPDATED| <= |s| && s[|s| - |NOTES_UPDATED|..] == NOTES_UPDATED
  {
    var segs := Segments(m);
    if |segs| > 0 then SeqUtil.Join(segs, SEGMENT_SEPARATOR) else NOTHING_SPECIFIC
  }

  /** The summary for every combination of present fields: each present
      field's segment, in the order name, traits, notes, with a middle dot
      between neighbours; "memory updated" when none is present. */
  lemma SummaryCases(m: WorkingMemory)
    ensures
      var name := "name: " + m.name.GetOr("");
      var traits := "traits: " + SeqUtil.Join(m.traits.GetOr([]), TRAIT_SEPARATOR);
      var s := FormatMemorySummary(m);
      var sep := SEGMENT_SEPARATOR;
      (match (Filled(m.name), HasTraits(m.traits), Filled(m.anythingElse))
        case (false, false, false) => s == NOTHING_SPECIFIC
        case (true, false, false) => s == name
        case (false, true, false) => s == traits
        case (false, false, true) => s == NOTES_UPDATED
        case (true, true, false) => s == name + sep + traits
        case (true, false, true) => s == name + sep + NOTES_UPDATED
        case (false, true, true) => s == traits + sep + NOTES_UPDATED
        case (true, true, true) => s == name + sep + traits + sep + NOTES_UPDATED)
  {
    var name := "name: " + m.name.GetOr("");
    var traits := "traits: " + SeqUtil.Join(m.traits.GetOr([]), TRAIT_SEPARATOR);
    var segs := Segments(m);
    if Filled(m.name) && HasTraits(m.traits) && Filled(m.anythingElse) {
      assert segs == [name, traits, NOTES_UPDATED];
      SeqUtil.JoinThree(name, traits, NOTES_UPDATED, SEGMENT_SEPARATOR);
    } else if |segs| == 2 {
      assert segs[0] + SEGMENT_SEPARATOR + segs[1] == FormatMemorySummary(m);
    }
  }

  /** A name alone summarises to its segment. */
  lemma NameOnlySummary(name: string)
    requires name != ""
    ensures FormatMemorySummary(WorkingMemory(Some(name), None, None)) == "name: " + name
  {
    assert Segments(WorkingMemory(Some(name), None, None)) == ["name: " + name];
  }

  /** A name and notes, with an empty trait list: two segments, the empty
      list contributing none. */
  lemma NameAndNotesSummary(name: string, notes: string)
    requires name != "" && notes != ""
    ensures FormatMemorySummary(WorkingMemory(Some(name), Some([]), Some(notes)))
      == "name: " + name + SEGMENT_SEPARATOR + NOTES_UPDATED
  {
    var segs := Segments(WorkingMemory(Some(name), Some([]), Some(notes)));
    assert segs == ["name: " + name, NOTES_UPDATED];
  }

  /** An empty name is no segment: traits alone summarise to their
      segment. */
  lemma TraitsOnlySummary(traits: seq<string>)
    requires |traits| > 0
    ensures FormatMemorySummary(WorkingMemory(Some(""), Some(traits), None))
      == "traits: " + SeqUtil.Join(traits, TRAIT_SEPARATOR)
  {
    var m := WorkingMemory(Some(""), Some(traits), None);
    assert !Filled(m.name) && HasTraits(m.traits) && !Filled(m.anythingElse);
    SummaryCases(m);
  }

  /** What the tool part shows. */
  datatype Display = Remembered(text: string) | FailedToUpdate(text: string) | Updating(text: string)

  const OUTPUT_AVAILABLE: string := "output-available"
  const OUTPUT_ERROR: string := "output-error"
  const FAILURE_TEXT: string := "Failed to update memory"
  const LOADING_TEXT: string := "Updating memory..."

  /** `WorkingMemoryUpdate`: the display for a tool state and its input, if
      any. */
  function Show(state: string, input: Option<WorkingMemory>): (d: Display)
    ensures state == OUTPUT_AVAILABLE ==> d.Remembered?
    ensures state == OUTPUT_AVAILABLE && input.None? ==> d.text == "Remembered " + NOTHING_SPECIFIC
    ensures state == OUTPUT_AVAILABLE && input.Some? ==> d.text == "Remembered " + FormatMemorySummary(input.value)
    ensures state == OUTPUT_ERROR ==> d == FailedToUpdate(FAILURE_TEXT)
    ensures state != OUTPUT_AVAILABLE && state != OUTPUT_ERROR ==> d == Updating(LOADING_TEXT)
  {
    if state == OUTPUT_AVAILABLE then
      Remembered("Remembered " + (match input case Some(m) => FormatMemorySummary(m) case None => NOTHING_SPECIFIC))
    else if state == OUTPUT_ERROR then FailedToUpdate(FAILURE_TEXT)
    else Updating(LOADING_TEXT)
  }

  /** An input with nothing in it reads the same as no input. */
  lemma EmptyInputReadsAsNone(state: string)
    ensures Show(state, Some(WorkingMemory(None, None, None))) == Show(state, None)
  {
  }
}
