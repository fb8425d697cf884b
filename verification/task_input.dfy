/** The new-task form (`TaskInput`): a controlled text field and a submit guard. */
module TaskInput {
  import opened Wrappers
  import opened Text

  datatype InputEvent = Change(text: string) | Submit

  /** The field's next value and the title passed to `onAdd`, if it fires. */
  datatype Step = Step(value: string, added: Option<string>)

  /** The field on mount is empty. */
  const Mounted: string := ""

  /** Typing sets the field to exactly the typed text and fires nothing. */
  function HandleChange(value: string, text: string): (r: Step)
    ensures r.value == text && r.added == None
  {
    Step(text, None)
  }

  /** A non-blank value is handed to `onAdd` untrimmed and the field is cleared;
      a blank value fires nothing and stays in the field. */
  function HandleSubmit(value: string): (r: Step)
    ensures r.added.Some? <==> !IsBlank(value)
    ensures r.added.Some? ==> r.added.value == value && r.value == ""
    ensures r.added.None? ==> r.value == value
  {
    if IsBlank(value) then Step(value, None) else Step("", Some(value))
  }

  /** The form's wiring: the field's change handler and the form's submit handler. */
  function InputStep(value: string, ev: InputEvent): (r: Step)
    ensures ev.Change? ==> r == HandleChange(value, ev.text)
    ensures ev.Submit? ==> r == HandleSubmit(value)
  {
    match ev
    case Change(text) => HandleChange(value, text)
    case Submit => HandleSubmit(value)
  }

  /** A second submit with no change in between never fires `onAdd` again. */
  lemma SubmitTwiceAddsAtMostOnce(value: string)
    ensures HandleSubmit(HandleSubmit(value).value).added == None
             || HandleSubmit(value).added == None
  {
  }

  /** The titles handed to `onAdd` by a sequence of events. */
  function Added(value: string, evs: seq<InputEvent>): seq<string>
    decreases |evs|
  {
    if evs == [] then []
    else
      var r := InputStep(value, evs[0]);
      (if r.added.Some? then [r.added.value] else []) + Added(r.value, evs[1..])
  }

  function CountChanges(evs: seq<InputEvent>): nat
  {
    if evs == [] then 0 else (if evs[0].Change? then 1 else 0) + CountChanges(evs[1..])
  }

  /** Every title handed to `onAdd` is non-blank, and there are never more of
      them than change events (plus one if the field starts non-blank). */
  lemma {:induction false} AddedAreBoundedByChanges(value: string, evs: seq<InputEvent>)
    ensures forall t :: t in Added(value, evs) ==> !IsBlank(t)
    ensures |Added(value, evs)| <= CountChanges(evs) + (if IsBlank(value) then 0 else 1)
    decreases |evs|
  {
    if evs != [] {
      var r := InputStep(value, evs[0]);
      AddedAreBoundedByChanges(r.value, evs[1..]);
    }
  }

  /** From the mounted empty field, `onAdd` fires at most once per change event. */
  lemma MountedAddsAtMostPerChange(evs: seq<InputEvent>)
    ensures |Added(Mounted, evs)| <= CountChanges(evs)
  {
    AddedAreBoundedByChanges(Mounted, evs);
  }
}
