/**
 * `updateUIState`: the lifecycle state names and the triple each one writes
 * into the process button (disabled flag, label, spinner display).
 */
module StatusView {
  import opened Wrappers

  const Initializing: string := "initializing"
  const Ready: string := "ready"
  const Processing: string := "processing"
  const Completed: string := "completed"

  /** `spinner.style.display` while busy and while idle. */
  const SpinnerShown: string := "inline-block"
  const SpinnerHidden: string := "none"

  const InitializingLabel: string := "Inicializando..."
  const ReadyLabel: string := "Converter para MIDI"
  const ProcessingLabel: string := "Processando..."
  const CompletedLabel: string := "Converter Novamente"

  /** The three button properties `updateUIState` writes. */
  datatype Button = Button(disabled: bool, text: string, spinnerDisplay: string)

  /** A state name one of the `switch` cases recognises. */
  predicate IsKnownState(state: string) {
    state == Initializing || state == Ready || state == Processing || state == Completed
  }

  /** A state in which a request is under way and the trigger must not fire. */
  predicate IsBusyState(state: string) {
    state == Initializing || state == Processing
  }

  /** The triple a recognised state writes; None for a state the `switch` falls through. */
  function StateButton(state: string): (r: Option<Button>)
    ensures r.Some? <==> IsKnownState(state)
    ensures r.Some? ==> (r.value.disabled <==> IsBusyState(state))
    ensures r.Some? ==> (r.value.spinnerDisplay == SpinnerShown <==> r.value.disabled)
    ensures r.Some? ==> r.value.spinnerDisplay == SpinnerShown || r.value.spinnerDisplay == SpinnerHidden
  {
    if state == Initializing then Some(Button(true, InitializingLabel, SpinnerShown))
    else if state == Ready then Some(Button(false, ReadyLabel, SpinnerHidden))
    else if state == Processing then Some(Button(true, ProcessingLabel, SpinnerShown))
    else if state == Completed then Some(Button(false, CompletedLabel, SpinnerHidden))
    else None
  }

  /** The button after `updateUIState(state)`, given the button before it. */
  function Project(before: Button, state: string): (after: Button)
    ensures !IsKnownState(state) ==> after == before
    ensures IsKnownState(state) ==> Some(after) == StateButton(state)
  {
    match StateButton(state)
    case Some(b) => b
    case None => before
  }

  /** The four rows of the table. */
  lemma StateButtonTable()
    ensures StateButton(Initializing) == Some(Button(true, "Inicializando...", "inline-block"))
    ensures StateButton(Ready) == Some(Button(false, "Converter para MIDI", "none"))
    ensures StateButton(Processing) == Some(Button(true, "Processando...", "inline-block"))
    ensures StateButton(Completed) == Some(Button(false, "Converter Novamente", "none"))
  {
  }

  /**
   * The label alone tells which recognised state the page is in: no two of
   * the four states write the same button text.
   */
  lemma StateButtonInjective(s: string, t: string)
    requires IsKnownState(s) && IsKnownState(t)
    requires StateButton(s).value.text == StateButton(t).value.text
    ensures s == t
  {
  }

  /** Writing the same state twice leaves the button as writing it once. */
  lemma ProjectIdempotent(before: Button, state: string)
    ensures Project(Project(before, state), state) == Project(before, state)
  {
  }
}
