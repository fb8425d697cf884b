/** The client-side task store of the `useTasks` hook.

    Each asynchronous operation is split at its network call into a begin step
    (the blank-title guard, clearing the error, raising `loading`, and the
    request it issues, if any) and a complete step that applies the call's
    outcome to the store as it is WHEN the call completes, as the functional
    updater `prevTasks => ...` does. The whole operation, with nothing
    interleaved, is the complete step applied to the begin step's state. */
module TaskStore {
  import opened Wrappers
  import opened Text
  import opened Tasks

  datatype StoreState = StoreState(tasks: seq<Task>, loading: bool, error: Option<string>)

  /** The call to the remote task service an operation issues. */
  datatype Request =
    | ListTasks
    | CreateTask(title: string)
    | UpdateTask(id: TaskId, title: string)
    | ToggleTaskComplete(id: TaskId)

  /** The store after a begin step, and the request it issued (None: the guard
      returned early and no call is made). */
  datatype Begun = Begun(state: StoreState, request: Option<Request>)

  /** The hook's state on mount. */
  function Initial(): (r: StoreState)
    ensures r.tasks == [] && !r.loading && r.error == None
  {
    StoreState([], false, None)
  }

  // ---------------------------------------------------------------- load

  function LoadBegin(s: StoreState): (b: Begun)
    ensures b.request == Some(ListTasks)
    ensures b.state.tasks == s.tasks && b.state.loading && b.state.error == None
  {
    Begun(s.(loading := true, error := None), Some(ListTasks))
  }

  function LoadComplete(s: StoreState, o: Outcome<seq<Task>>): (r: StoreState)
    ensures !r.loading
    ensures o.Ok? ==> r.tasks == o.value && r.error == s.error
    ensures o.Err? ==> r.tasks == s.tasks && r.error == Some(o.message)
  {
    match o
    case Ok(data) => s.(tasks := data, loading := false)
    case Err(m) => s.(error := Some(m), loading := false)
  }

  /** `loadTasks` with nothing interleaved. */
  function Load(s: StoreState, o: Outcome<seq<Task>>): (r: StoreState)
    ensures !r.loading
    ensures o.Ok? ==> r.tasks == o.value && r.error == None
    ensures o.Err? ==> r.tasks == s.tasks && r.error == Some(o.message)
  {
    LoadComplete(LoadBegin(s).state, o)
  }

  // ---------------------------------------------------------------- add

  function AddBegin(s: StoreState, title: string): (b: Begun)
    ensures IsBlank(title) <==> b.request == None
    ensures IsBlank(title) ==> b.state == s
    ensures !IsBlank(title) ==>
      b.request == Some(CreateTask(title)) && b.state == s.(error := None)
  {
    if IsBlank(title) then Begun(s, None)
    else Begun(s.(error := None), Some(CreateTask(title)))
  }

  function AddComplete(s: StoreState, o: Outcome<Task>): (r: StoreState)
    ensures r.loading == s.loading
    ensures o.Ok? ==> |r.tasks| == |s.tasks| + 1 && r.tasks[..|s.tasks|] == s.tasks
                      && r.tasks[|s.tasks|] == o.value && r.error == s.error
    ensures o.Err? ==> r.tasks == s.tasks && r.error == Some(o.message)
  {
    match o
    case Ok(t) => s.(tasks := s.tasks + [t])
    case Err(m) => s.(error := Some(m))
  }

  /** `addTask(title)` with nothing interleaved; the outcome is ignored when the
      guard returns early, since no call is made. */
  function Add(s: StoreState, title: string, o: Outcome<Task>): (r: StoreState)
    ensures IsBlank(title) ==> r == s
    ensures r.loading == s.loading
    ensures !IsBlank(title) && o.Ok? ==>
      |r.tasks| == |s.tasks| + 1 && r.tasks[..|s.tasks|] == s.tasks
      && r.tasks[|s.tasks|] == o.value && r.error == None
    ensures !IsBlank(title) && o.Err? ==> r.tasks == s.tasks && r.error == Some(o.message)
  {
    var b := AddBegin(s, title);
    if b.request == None then b.state else AddComplete(b.state, o)
  }

  // ---------------------------------------------------------------- edit

  function EditBegin(s: StoreState, id: TaskId, title: string): (b: Begun)
    ensures IsBlank(title) <==> b.request == None
    ensures IsBlank(title) ==> b.state == s
    ensures !IsBlank(title) ==>
      b.request == Some(UpdateTask(id, title)) && b.state == s.(error := None)
  {
    if IsBlank(title) then Begun(s, None)
    else Begun(s.(error := None), Some(UpdateTask(id, title)))
  }

  /** The reconciliation step shared by `editTask` and `toggleTask`: the
      server's answer for `id` replaces, in the CURRENT tasks, every task with
      that id; a failure records its message and leaves the tasks alone. */
  function ReconcileById(s: StoreState, id: TaskId, o: Outcome<Task>): (r: StoreState)
    ensures r.loading == s.loading && |r.tasks| == |s.tasks|
    ensures o.Ok? ==> r.error == s.error
    ensures o.Ok? ==> forall i :: 0 <= i < |s.tasks| ==>
      r.tasks[i] == (if s.tasks[i].id == id then o.value else s.tasks[i])
    ensures o.Err? ==> r.tasks == s.tasks && r.error == Some(o.message)
  {
    match o
    case Ok(t) => s.(tasks := ReplaceById(s.tasks, id, t))
    case Err(m) => s.(error := Some(m))
  }

  /** `editTask(id, title)` with nothing interleaved. */
  function Edit(s: StoreState, id: TaskId, title: string, o: Outcome<Task>): (r: StoreState)
    ensures IsBlank(title) ==> r == s
    ensures r.loading == s.loading && |r.tasks| == |s.tasks|
    ensures !IsBlank(title) && o.Ok? ==> (r.error == None
      && (forall i :: 0 <= i < |s.tasks| && s.tasks[i].id == id ==> r.tasks[i] == o.value)
      && (forall i :: 0 <= i < |s.tasks| && s.tasks[i].id != id ==> r.tasks[i] == s.tasks[i]))
    ensures !IsBlank(title) && o.Err? ==> r.tasks == s.tasks && r.error == Some(o.message)
  {
    var b := EditBegin(s, id, title);
    if b.request == None then b.state else ReconcileById(b.state, id, o)
  }

  // ---------------------------------------------------------------- toggle

  /** `toggleTask` has no guard: it always clears the error and issues the call. */
  function ToggleBegin(s: StoreState, id: TaskId): (b: Begun)
    ensures b.request == Some(ToggleTaskComplete(id))
    ensures b.state == s.(error := None)
  {
    Begun(s.(error := None), Some(ToggleTaskComplete(id)))
  }

  /** `toggleTask(id)` with nothing interleaved. */
  function Toggle(s: StoreState, id: TaskId, o: Outcome<Task>): (r: StoreState)
    ensures r.loading == s.loading && |r.tasks| == |s.tasks|
    ensures o.Ok? ==> (r.error == None
      && (forall i :: 0 <= i < |s.tasks| && s.tasks[i].id == id ==> r.tasks[i] == o.value)
      && (forall i :: 0 <= i < |s.tasks| && s.tasks[i].id != id ==> r.tasks[i] == s.tasks[i]))
    ensures o.Err? ==> r.tasks == s.tasks && r.error == Some(o.message)
  {
    ReconcileById(ToggleBegin(s, id).state, id, o)
  }

  /** A successful rename or toggle for an id the store does not hold changes no task. */
  lemma ReconcileMissingIdKeepsTasks(s: StoreState, id: TaskId, t: Task)
    requires !HasId(s.tasks, id)
    ensures ReconcileById(s, id, Ok(t)).tasks == s.tasks
  {
  }

  /** Two renames (or toggles) of the same id in flight at once, both
      successful: whichever completes last determines the whole store,
      whatever the issue order. The list-level fact is
      `Tasks.ReplaceTwiceLastWins`; this lifts it to the complete step. */
  lemma LastCompletionWins(s: StoreState, id: TaskId, first: Task, last: Task)
    requires first.id == id
    ensures ReconcileById(ReconcileById(s, id, Ok(first)), id, Ok(last))
         == ReconcileById(s, id, Ok(last))
  {
    ReplaceTwiceLastWins(s.tasks, id, first, last);
  }

  /** Two calls for the same id in flight, one succeeding and one failing: the
      failure does not undo the success. In either completion order the
      server's answer is applied and the failure's message is the error left. */
  lemma FailureDoesNotUndoSuccess(s: StoreState, id: TaskId, t: Task, m: string)
    ensures ReconcileById(ReconcileById(s, id, Ok(t)), id, Err(m))
         == ReconcileById(ReconcileById(s, id, Err(m)), id, Ok(t))
    ensures ReconcileById(ReconcileById(s, id, Ok(t)), id, Err(m))
         == s.(tasks := ReplaceById(s.tasks, id, t), error := Some(m))
  {
  }

  /** An add keeps the cached ids unique when the server assigns a new id. */
  lemma AddKeepsUniqueIds(s: StoreState, title: string, o: Outcome<Task>)
    requires UniqueIds(s.tasks)
    requires o.Ok? ==> !HasId(s.tasks, o.value.id)
    ensures UniqueIds(Add(s, title, o).tasks)
  {
    if !IsBlank(title) && o.Ok? {
      AppendFreshKeepsUniqueIds(s.tasks, o.value);
      assert Add(s, title, o).tasks == s.tasks + [o.value];
    }
  }

  /** A rename keeps the cached ids unique when the server answers with the requested id. */
  lemma EditKeepsUniqueIds(s: StoreState, id: TaskId, title: string, o: Outcome<Task>)
    requires UniqueIds(s.tasks)
    requires o.Ok? ==> o.value.id == id
    ensures UniqueIds(Edit(s, id, title, o).tasks)
  {
    if !IsBlank(title) && o.Ok? {
      ReplaceKeepsUniqueIds(s.tasks, id, o.value);
    }
  }

  /** A toggle keeps the cached ids unique when the server answers with the requested id. */
  lemma ToggleKeepsUniqueIds(s: StoreState, id: TaskId, o: Outcome<Task>)
    requires UniqueIds(s.tasks)
    requires o.Ok? ==> o.value.id == id
    ensures UniqueIds(Toggle(s, id, o).tasks)
  {
    if o.Ok? {
      ReplaceKeepsUniqueIds(s.tasks, id, o.value);
    }
  }

  // ---------------------------------------------------------------- sessions

  /** One whole operation of the hook together with the outcome of its call. */
  datatype Op =
    | LoadOp(listed: Outcome<seq<Task>>)
    | AddOp(title: string, created: Outcome<Task>)
    | EditOp(id: TaskId, title: string, updated: Outcome<Task>)
    | ToggleOp(id: TaskId, toggled: Outcome<Task>)

  /** Whether the operation gets past its guard and calls the server. */
  predicate Calls(op: Op) {
    match op
    case LoadOp(_) => true
    case AddOp(title, _) => !IsBlank(title)
    case EditOp(_, title, _) => !IsBlank(title)
    case ToggleOp(_, _) => true
  }

  /** The outcome of the operation's call, when it makes one. */
  function CallOutcome(op: Op): Outcome<()>
  {
    match op
    case LoadOp(o) => if o.Ok? then Ok(()) else Err(o.message)
    case AddOp(_, o) => if o.Ok? then Ok(()) else Err(o.message)
    case EditOp(_, _, o) => if o.Ok? then Ok(()) else Err(o.message)
    case ToggleOp(_, o) => if o.Ok? then Ok(()) else Err(o.message)
  }

  /** The tasks the server answered with in the operation's successful call. */
  function Answered(op: Op): set<Task>
  {
    if !Calls(op) then {}
    else match op
      case LoadOp(o) => if o.Ok? then set t | t in o.value else {}
      case AddOp(_, o) => if o.Ok? then {o.value} else {}
      case EditOp(_, _, o) => if o.Ok? then {o.value} else {}
      case ToggleOp(_, o) => if o.Ok? then {o.value} else {}
  }

  function Apply(s: StoreState, op: Op): (r: StoreState)
    ensures op.LoadOp? ==> !r.loading
    ensures !op.LoadOp? ==> r.loading == s.loading
    ensures !Calls(op) ==> r == s
    ensures Calls(op) && CallOutcome(op).Ok? ==> r.error == None
    ensures Calls(op) && CallOutcome(op).Err? ==> r.tasks == s.tasks && r.error == Some(CallOutcome(op).message)
  {
    match op
    case LoadOp(o) => Load(s, o)
    case AddOp(title, o) => Add(s, title, o)
    case EditOp(id, title, o) => Edit(s, id, title, o)
    case ToggleOp(id, o) => Toggle(s, id, o)
  }

  /** Confirm-then-apply for one operation: every task the store holds
      afterwards was held before or was answered by the server in this call. */
  lemma ApplyShowsOnlyConfirmed(s: StoreState, op: Op)
    ensures forall x :: x in Apply(s, op).tasks ==> x in s.tasks || x in Answered(op)
  {
  }

  /** The store after the operations, each run to completion before the next begins. */
  function Run(s: StoreState, ops: seq<Op>): StoreState
  {
    if ops == [] then s else Apply(Run(s, ops[..|ops| - 1]), ops[|ops| - 1])
  }

  function AnsweredAll(ops: seq<Op>): set<Task>
  {
    if ops == [] then {} else AnsweredAll(ops[..|ops| - 1]) + Answered(ops[|ops| - 1])
  }

  /** Confirm-then-apply over a whole session: starting from the mounted
      state, every task the store ever shows is a value the server returned. */
  lemma {:induction false} RunShowsOnlyConfirmed(ops: seq<Op>)
    ensures forall x :: x in Run(Initial(), ops).tasks ==> x in AnsweredAll(ops)
  {
    if ops != [] {
      var front := ops[..|ops| - 1];
      RunShowsOnlyConfirmed(front);
      ApplyShowsOnlyConfirmed(Run(Initial(), front), ops[|ops| - 1]);
    }
  }

  /** `loading` is raised only by a load, and a load completed lowers it: in a
      session of whole operations it is never left raised. */
  lemma {:induction false} RunNeverLeavesLoading(ops: seq<Op>)
    ensures !Run(Initial(), ops).loading
  {
    if ops != [] {
      RunNeverLeavesLoading(ops[..|ops| - 1]);
    }
  }

  /** Operations other than a load leave `loading` as they find it, however many run. */
  lemma {:induction false} RunWithoutLoadKeepsLoading(s: StoreState, ops: seq<Op>)
    requires forall i :: 0 <= i < |ops| ==> !ops[i].LoadOp?
    ensures Run(s, ops).loading == s.loading
  {
    if ops != [] {
      RunWithoutLoadKeepsLoading(s, ops[..|ops| - 1]);
    }
  }

  /** With one load in flight and adds, renames and toggles completing
      meanwhile, `loading` is raised from the load's begin step until its
      complete step and lowered by that step. */
  lemma LoadingHeldWhileLoadInFlight(s: StoreState, ops: seq<Op>, o: Outcome<seq<Task>>)
    requires forall i :: 0 <= i < |ops| ==> !ops[i].LoadOp?
    ensures Run(LoadBegin(s).state, ops).loading
    ensures !LoadComplete(Run(LoadBegin(s).state, ops), o).loading
  {
    RunWithoutLoadKeepsLoading(LoadBegin(s).state, ops);
  }
}
