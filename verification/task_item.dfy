/** The edit-in-place state machine of one rendered task (`TaskItem`).

    The component keeps `isEditing` and `editValue`; each handler is a pure
    step from the current state, the task it renders, and the event, to the
    next state and the callback it fires, if any. */
module TaskItem {
  import opened Wrappers
  import opened Text
  import opened Tasks

  datatype ItemState = ItemState(isEditing: bool, editValue: string)

  /** The callbacks the component fires towards the store. */
  datatype Emit = OnEdit(id: TaskId, title: string) | OnToggle(id: TaskId)

  /** The user's actions. Which controls exist depends on the mode: the title
      and the edit button only outside edit mode, the edit field (typing, its
      keys, losing focus) only inside it, the completion button in both. */
  datatype Event =
    | StartEdit            // a click on the title or on the edit button
    | Change(text: string) // typing into the edit field
    | Blur                 // the edit field loses focus, which saves
    | KeyDown(key: string) // a key pressed in the edit field
    | ToggleClick          // the completion button

  datatype Step = Step(state: ItemState, emit: Option<Emit>)

  /** The state on mount: not editing, the field holding the title. */
  function Mount(task: Task): (st: ItemState)
    ensures !st.isEditing && st.editValue == task.title
  {
    ItemState(false, task.title)
  }

  function HandleEdit(task: Task, st: ItemState): (r: Step)
    ensures r.state == ItemState(true, task.title) && r.emit == None
  {
    Step(ItemState(true, task.title), None)
  }

  /** Fires `onEdit` with the untrimmed field value only when that value is not
      blank and differs from the title; always leaves edit mode, and keeps
      the field value. */
  function HandleSave(task: Task, st: ItemState): (r: Step)
    ensures !r.state.isEditing && r.state.editValue == st.editValue
    ensures r.emit.Some? <==> !IsBlank(st.editValue) && st.editValue != task.title
    ensures r.emit.Some? ==> r.emit.value == OnEdit(task.id, st.editValue)
  {
    var emit := if !IsBlank(st.editValue) && st.editValue != task.title
                then Some(OnEdit(task.id, st.editValue)) else None;
    Step(st.(isEditing := false), emit)
  }

  function HandleCancel(task: Task, st: ItemState): (r: Step)
    ensures r.state == ItemState(false, task.title) && r.emit == None
  {
    Step(ItemState(false, task.title), None)
  }

  /** Enter saves, Escape cancels, any other key does nothing. */
  function HandleKeyDown(task: Task, st: ItemState, key: string): (r: Step)
    ensures key == "Enter" ==> r == HandleSave(task, st)
    ensures key == "Escape" ==> r == HandleCancel(task, st)
    ensures key != "Enter" && key != "Escape" ==> r == Step(st, None)
  {
    if key == "Enter" then HandleSave(task, st)
    else if key == "Escape" then HandleCancel(task, st)
    else Step(st, None)
  }

  /** One user action; an action on a control the current mode does not
      render has no effect. */
  function ItemStep(task: Task, st: ItemState, ev: Event): (r: Step)
    ensures ev.ToggleClick? ==> r == Step(st, Some(OnToggle(task.id)))
    ensures ev.StartEdit? ==> r == (if st.isEditing then Step(st, None) else HandleEdit(task, st))
    ensures ev.Change? ==>
      r == Step(if st.isEditing then st.(editValue := ev.text) else st, None)
    ensures ev.Blur? ==> r == (if st.isEditing then HandleSave(task, st) else Step(st, None))
    ensures ev.KeyDown? ==>
      r == (if st.isEditing then HandleKeyDown(task, st, ev.key) else Step(st, None))
    ensures !st.isEditing && r.emit.Some? ==> r.emit.value == OnToggle(task.id)
    ensures r.emit.Some? && r.emit.value.OnEdit? ==>
      r.emit.value.id == task.id && !IsBlank(r.emit.value.title) && r.emit.value.title != task.title
  {
    match ev
    case ToggleClick => Step(st, Some(OnToggle(task.id)))
    case StartEdit => if st.isEditing then Step(st, None) else HandleEdit(task, st)
    case Change(text) => if st.isEditing then Step(st.(editValue := text), None) else Step(st, None)
    case Blur => if st.isEditing then HandleSave(task, st) else Step(st, None)
    case KeyDown(key) => if st.isEditing then HandleKeyDown(task, st, key) else Step(st, None)
  }

  /** Entering edit mode and saving without typing never fires `onEdit`. */
  lemma EditThenSaveEmitsNothing(task: Task, st: ItemState)
    ensures HandleSave(task, HandleEdit(task, st).state).emit == None
  {
  }

  /** Escape in the edit field leaves edit mode without firing; the field is
      then gone, so losing focus fires nothing, and re-entering edit mode and
      leaving it again without typing fires nothing either. */
  lemma CancelThenSaveEmitsNothing(task: Task, st: ItemState)
    requires st.isEditing
    ensures var c := ItemStep(task, st, KeyDown("Escape"));
      && c == Step(ItemState(false, task.title), None)
      && ItemStep(task, c.state, Blur) == Step(c.state, None)
      && ItemStep(task, ItemStep(task, c.state, StartEdit).state, Blur).emit == None
  {
  }

  /** The callbacks fired by a sequence of events against an unchanging task. */
  function Emits(task: Task, st: ItemState, evs: seq<Event>): seq<Emit>
    decreases |evs|
  {
    if evs == [] then []
    else
      var r := ItemStep(task, st, evs[0]);
      (if r.emit.Some? then [r.emit.value] else []) + Emits(task, r.state, evs[1..])
  }

  /** Every `onEdit` the item fires names its own task and carries a non-blank
      title different from the current one. */
  lemma {:induction false} EmittedEditsAreGenuine(task: Task, st: ItemState, evs: seq<Event>)
    ensures forall e :: e in Emits(task, st, evs) && e.OnEdit? ==>
      e.id == task.id && !IsBlank(e.title) && e.title != task.title
    decreases |evs|
  {
    if evs != [] {
      var r := ItemStep(task, st, evs[0]);
      EmittedEditsAreGenuine(task, r.state, evs[1..]);
    }
  }
}
