/**
 * Action factories and the two kinds of action they create.  `StandardTaskAction` and its
 * subclass `IncrementalTaskAction` are one class here, told apart by `kind`; only the
 * incremental kind takes an execution context.  The thread whose context class loader an
 * action swaps is the class `TaskThread`; the reflective call into a task instance is its method
 * `Invoke`, whose effect is whatever that instance's body says.
 */
module Actions {
  import opened Wrappers
  import opened Reflection

  datatype ActionKind = Standard | Incremental

  /** The factory built for one retained action method: it remembers the runtime type,
      the class that declares the method, and the method. */
  datatype ActionFactory = ActionFactory(taskType: TaskType, declaring: ClassRef, actionMethod: MethodDecl) {

    /** The choice made by the factory: one parameter gives an incremental action. */
    function Kind(): ActionKind
    {
      if |actionMethod.params| == 1 then Incremental else Standard
    }
  }

  /** An opaque `IncrementalTaskInputs` value. */
  type InputChanges = nat

  /** The artifact state bound by `contextualise`; its input changes are opaque. */
  datatype TaskArtifactState = TaskArtifactState(inputChanges: InputChanges)

  /** One reflective call on a task instance: the method name, the input changes passed to it
      (none for a zero-argument call) and the context class loader it ran under. */
  datatype Call = Call(methodName: string, inputChanges: Option<InputChanges>, contextLoader: LoaderId)

  datatype Failure = TaskFailure(message: string) | NullArtifactState

  datatype Outcome = Completed | Threw(failure: Failure)

  /** What a call does: how it ends and the context loader it leaves installed. */
  datatype Effect = Effect(outcome: Outcome, loaderAfter: LoaderId)

  /** A task instance, reduced to how its methods behave when called reflectively. */
  datatype TaskInstance = TaskInstance(body: Call -> Effect)

  /** The executing thread: its context class loader and the calls made on it. */
  class TaskThread {
    var contextLoader: LoaderId
    var calls: seq<Call>

    constructor (loader: LoaderId)
      ensures contextLoader == loader && calls == []
    {
      contextLoader := loader;
      calls := [];
    }

    /** The reflective invocation: records the call with the loader installed at that
        moment; the body may end either way and may change the context loader. */
    method Invoke(task: TaskInstance, methodName: string, inputChanges: Option<InputChanges>) returns (outcome: Outcome)
      modifies this
      ensures calls == old(calls) + [Call(methodName, inputChanges, old(contextLoader))]
      ensures task.body(Call(methodName, inputChanges, old(contextLoader))) == Effect(outcome, contextLoader)
    {
      var call := Call(methodName, inputChanges, contextLoader);
      calls := calls + [call];
      var effect := task.body(call);
      outcome := effect.outcome;
      contextLoader := effect.loaderAfter;
    }
  }

  class TaskAction {
    const taskType: TaskType
    const declaring: ClassRef
    const actionMethod: MethodDecl
    const kind: ActionKind
    /** Set by `Contextualise`, cleared by `ReleaseContext`; always `None` for a standard action. */
    var taskArtifactState: Option<TaskArtifactState>

    constructor (taskType: TaskType, declaring: ClassRef, actionMethod: MethodDecl, kind: ActionKind)
      ensures this.taskType == taskType && this.declaring == declaring
      ensures this.actionMethod == actionMethod && this.kind == kind
      ensures taskArtifactState == None
    {
      this.taskType := taskType;
      this.declaring := declaring;
      this.actionMethod := actionMethod;
      this.kind := kind;
      taskArtifactState := None;
    }

    /** The loader of the class that declares the method, not of the runtime type. */
    function GetClassLoader(): (loader: LoaderId)
      ensures loader == declaring.loader
    {
      declaring.loader
    }

    /** The runtime type's name, even when an ancestor declares the method. */
    function GetActionClassName(): (name: string)
      ensures name == taskType.self.ref.name
    {
      taskType.Name()
    }

    function GetDisplayName(): (display: string)
      ensures display == "Execute " + actionMethod.name
      ensures |display| == 8 + |actionMethod.name| && display[8..] == actionMethod.name
    {
      "Execute " + actionMethod.name
    }

    /** Runs the action: installs the declaring class's loader as the thread's context
        loader for the call and puts the previous loader back however the call ends. */
    method Execute(thread: TaskThread, task: TaskInstance) returns (outcome: Outcome)
      modifies thread
      ensures thread.contextLoader == old(thread.contextLoader)
      ensures kind == Standard ==>
        var call := Call(actionMethod.name, None, GetClassLoader());
        thread.calls == old(thread.calls) + [call] && outcome == task.body(call).outcome
      ensures kind == Incremental && taskArtifactState.Some? ==>
        var call := Call(actionMethod.name, Some(taskArtifactState.value.inputChanges), GetClassLoader());
        thread.calls == old(thread.calls) + [call] && outcome == task.body(call).outcome
      ensures kind == Incremental && taskArtifactState.None? ==>
        thread.calls == old(thread.calls) && outcome == Threw(NullArtifactState)
    {
      var original := thread.contextLoader;
      thread.contextLoader := GetClassLoader();
      outcome := DoExecute(thread, task, actionMethod.name);
      thread.contextLoader := original;
    }

    /** Calls the named method on a task instance: without arguments for a standard action, with the
        bound input changes for an incremental one (failing, as a null dereference, when
        nothing is bound). */
    method DoExecute(thread: TaskThread, task: TaskInstance, methodName: string) returns (outcome: Outcome)
      modifies thread
      ensures kind == Standard ==>
        var call := Call(methodName, None, old(thread.contextLoader));
        thread.calls == old(thread.calls) + [call] && task.body(call) == Effect(outcome, thread.contextLoader)
      ensures kind == Incremental && taskArtifactState.Some? ==>
        var call := Call(methodName, Some(taskArtifactState.value.inputChanges), old(thread.contextLoader));
        thread.calls == old(thread.calls) + [call] && task.body(call) == Effect(outcome, thread.contextLoader)
      ensures kind == Incremental && taskArtifactState.None? ==>
        thread.calls == old(thread.calls) && thread.contextLoader == old(thread.contextLoader)
        && outcome == Threw(NullArtifactState)
    {
      match kind
      case Standard =>
        outcome := thread.Invoke(task, methodName, None);
      case Incremental =>
        match taskArtifactState
        case None =>
          outcome := Threw(NullArtifactState);
        case Some(state) =>
          outcome := thread.Invoke(task, methodName, Some(state.inputChanges));
    }

    /** Binds the artifact state of the coming execution. */
    method Contextualise(state: TaskArtifactState)
      requires kind == Incremental
      modifies this
      ensures taskArtifactState == Some(state)
    {
      taskArtifactState := Some(state);
    }

    /** Drops the bound state so that it does not outlive the execution. */
    method ReleaseContext()
      requires kind == Incremental
      modifies this
      ensures taskArtifactState == None
    {
      taskArtifactState := None;
    }
  }

  /** `Factory.create`: a fresh action of the kind the factory chose, with nothing bound. */
  method Create(f: ActionFactory) returns (a: TaskAction)
    ensures fresh(a)
    ensures a.taskType == f.taskType && a.declaring == f.declaring && a.actionMethod == f.actionMethod
    ensures a.kind == (if |f.actionMethod.params| == 1 then Incremental else Standard)
    ensures a.taskArtifactState == None
  {
    a := new TaskAction(f.taskType, f.declaring, f.actionMethod, f.Kind());
  }

  /** One execution of an incremental action as the executor drives it: bind the context,
      execute, release.  The method sees the bound input changes under its declaring class's
      loader, and afterwards neither the loader nor any bound state is left behind. */
  method ExecuteInContext(a: TaskAction, thread: TaskThread, task: TaskInstance, state: TaskArtifactState)
    returns (outcome: Outcome)
    requires a.kind == Incremental
    modifies a, thread
    ensures a.taskArtifactState == None
    ensures thread.contextLoader == old(thread.contextLoader)
    ensures var call := Call(a.actionMethod.name, Some(state.inputChanges), a.declaring.loader);
      thread.calls == old(thread.calls) + [call] && outcome == task.body(call).outcome
  {
    a.Contextualise(state);
    outcome := a.Execute(thread, task);
    a.ReleaseContext();
  }
}
