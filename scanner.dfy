/**
 * Finding a task type's action methods: walk the superclass chain from the runtime type up,
 * visit each class's own declared methods in order, validate every `@TaskAction` method,
 * keep the first method seen for each name, and note whether an incremental method was met.
 *
 * `Violation` is the validator, `AttachTaskAction` one step of the walk, `Run` the walk as a
 * fold and `Scan` its result; `FindTaskActions` is the nested loop that computes it in place.
 */
module Scanner {
  import opened Wrappers
  import opened Reflection
  import opened Actions

  /** The reasons a task type is rejected; each names the declaring class's simple name and
      the method, except the one about several incremental methods, which names neither. */
  datatype ScanError =
    | StaticActionMethod(className: string, methodName: string)
    | MultipleParameters(className: string, methodName: string)
    | InvalidParameter(className: string, methodName: string, parameter: ParamType)
    | MultipleIncrementalActions

  /** What the store caches per task type. */
  datatype TaskClassInfo = TaskClassInfo(incremental: bool, taskActions: seq<ActionFactory>)

  /** One method visited by the walk, with the class that declares it. */
  datatype Step = Step(owner: ClassRef, m: MethodDecl)

  /** The state threaded through the walk: names already taken, the factories built so far,
      and whether an incremental method has been met. */
  datatype ScanState = ScanState(processed: set<string>, actions: seq<ActionFactory>, incremental: bool)

  const Start: ScanState := ScanState({}, [], false)

  function DeclaredSteps(c: ClassDecl): seq<Step>
  {
    seq(|c.declaredMethods|, i requires 0 <= i < |c.declaredMethods| => Step(c.ref, c.declaredMethods[i]))
  }

  /** The methods the walk visits: class by class along the chain, each class's own methods in
      declared order.  Defined on the last class so that it follows the loops below. */
  function Walk(chain: seq<ClassDecl>): seq<Step>
  {
    if chain == [] then [] else Walk(chain[..|chain| - 1]) + DeclaredSteps(chain[|chain| - 1])
  }

  function Steps(t: TaskType): seq<Step>
  {
    Walk(t.Chain())
  }

  /** A marked method taking one parameter (whether or not that parameter is valid). */
  predicate MarkedOneParameter(m: MethodDecl)
  {
    m.hasTaskAction && |m.params| == 1
  }

  /** The shape an action method must have: an instance method taking nothing or one
      `IncrementalTaskInputs`. */
  predicate WellFormedAction(m: MethodDecl)
  {
    !m.isStatic && |m.params| <= 1 && (|m.params| == 1 ==> m.params[0] == IncrementalTaskInputs)
  }

  /** The validator: the rules, in the order they are applied, given whether an incremental
      method was met earlier in the walk. */
  function Violation(owner: ClassRef, m: MethodDecl, incremental: bool): (e: Option<ScanError>)
    ensures e.None? <==> !m.hasTaskAction || (WellFormedAction(m) && !(MarkedOneParameter(m) && incremental))
    ensures m.hasTaskAction && m.isStatic ==> e == Some(StaticActionMethod(owner.simpleName, m.name))
    ensures m.hasTaskAction && !m.isStatic && |m.params| > 1 ==>
      e == Some(MultipleParameters(owner.simpleName, m.name))
    ensures m.hasTaskAction && !m.isStatic && |m.params| == 1 && m.params[0] != IncrementalTaskInputs ==>
      e == Some(InvalidParameter(owner.simpleName, m.name, m.params[0]))
    ensures e == Some(MultipleIncrementalActions) <==>
      m.hasTaskAction && WellFormedAction(m) && MarkedOneParameter(m) && incremental
  {
    if !m.hasTaskAction then None
    else if m.isStatic then Some(StaticActionMethod(owner.simpleName, m.name))
    else if |m.params| > 1 then Some(MultipleParameters(owner.simpleName, m.name))
    else if |m.params| == 1 && m.params[0] != IncrementalTaskInputs then
      Some(InvalidParameter(owner.simpleName, m.name, m.params[0]))
    else if |m.params| == 1 && incremental then Some(MultipleIncrementalActions)
    else None
  }

  /** One step of the walk: validate the method, then keep it unless its name is taken.
      Validation, including the check for a second incremental method, comes before the name
      check, so an ancestor method whose name is already taken is validated too. */
  function AttachTaskAction(t: TaskType, s: Step, st: ScanState): (r: Result<ScanState, ScanError>)
    ensures !s.m.hasTaskAction ==> r == Ok(st)
    ensures r.Err? <==> Violation(s.owner, s.m, st.incremental).Some?
    ensures r.Err? ==> r.error == Violation(s.owner, s.m, st.incremental).value
    ensures r.Ok? ==> st.actions <= r.value.actions && |r.value.actions| <= |st.actions| + 1
    ensures r.Ok? ==> st.processed <= r.value.processed && (st.incremental ==> r.value.incremental)
  {
    match Violation(s.owner, s.m, st.incremental)
    case Some(e) => Err(e)
    case None =>
      if !s.m.hasTaskAction then Ok(st)
      else
        var incremental := st.incremental || |s.m.params| == 1;
        if s.m.name in st.processed then Ok(st.(incremental := incremental))
        else Ok(ScanState(st.processed + {s.m.name}, st.actions + [ActionFactory(t, s.owner, s.m)], incremental))
  }

  /** The walk over a sequence of visited methods, stopping at the first error. */
  function Run(t: TaskType, steps: seq<Step>): Result<ScanState, ScanError>
  {
    if steps == [] then Ok(Start)
    else
      match Run(t, steps[..|steps| - 1])
      case Err(e) => Err(e)
      case Ok(st) => AttachTaskAction(t, steps[|steps| - 1], st)
  }

  /** The class information of a task type, or the reason it is rejected. */
  function Scan(t: TaskType): Result<TaskClassInfo, ScanError>
  {
    match Run(t, Steps(t))
    case Err(e) => Err(e)
    case Ok(st) => Ok(TaskClassInfo(st.incremental, st.actions))
  }

  /** Once the walk has failed, the methods after the failing one are never examined: any
      continuation of the walk ends with the same error. */
  lemma {:induction false} RunFailureSticks(t: TaskType, p: seq<Step>, s: seq<Step>)
    requires Run(t, p).Err?
    ensures Run(t, p + s) == Run(t, p)
    decreases |s|
  {
    if s == [] {
      assert p + s == p;
    } else {
      var s' := s[..|s| - 1];
      RunFailureSticks(t, p, s');
      assert (p + s)[..|p + s| - 1] == p + s';
    }
  }

  /** The methods visited for a prefix of the chain come first in the whole walk. */
  lemma {:induction false} WalkPrefix(chain: seq<ClassDecl>, k: nat)
    requires k <= |chain|
    ensures Walk(chain[..k]) <= Walk(chain)
    decreases |chain|
  {
    if k == |chain| {
      assert chain[..k] == chain;
    } else {
      var init := chain[..|chain| - 1];
      assert chain[..k] == init[..k];
      WalkPrefix(init, k);
    }
  }

  /** One more visited method: the walk continues from the state reached so far. */
  lemma RunSnoc(t: TaskType, p: seq<Step>, x: Step)
    ensures Run(t, p + [x]) == if Run(t, p).Err? then Run(t, p) else AttachTaskAction(t, x, Run(t, p).value)
  {
    assert (p + [x])[..|p|] == p;
  }

  /** The walk over the first i+1 classes extends the walk over the first i by the
      methods of class i. */
  lemma WalkSnoc(chain: seq<ClassDecl>, i: nat)
    requires i < |chain|
    ensures Walk(chain[..i + 1]) == Walk(chain[..i]) + DeclaredSteps(chain[i])
  {
    assert chain[..i + 1][..i] == chain[..i];
  }

  /** Visiting one more method of a class continues the walk from the state reached so far. */
  lemma RunNextOf(t: TaskType, visited: seq<Step>, steps: seq<Step>, j: nat)
    requires j < |steps|
    ensures Run(t, visited + steps[..j + 1]) ==
      if Run(t, visited + steps[..j]).Err? then Run(t, visited + steps[..j])
      else AttachTaskAction(t, steps[j], Run(t, visited + steps[..j]).value)
  {
    assert visited + steps[..j + 1] == (visited + steps[..j]) + [steps[j]];
    RunSnoc(t, visited + steps[..j], steps[j]);
  }

  /** A failure at one method of a class is the failure of the walk through the whole class. */
  lemma RunFailsWithin(t: TaskType, visited: seq<Step>, steps: seq<Step>, j: nat)
    requires j <= |steps| && Run(t, visited + steps[..j]).Err?
    ensures Run(t, visited + steps) == Run(t, visited + steps[..j])
  {
    assert visited + steps == (visited + steps[..j]) + steps[j..];
    RunFailureSticks(t, visited + steps[..j], steps[j..]);
  }

  /** The inner loop of `findTaskActions`: the declared methods of one class, in order, each
      offered to `AttachTaskAction`, continuing the walk whose visited steps are `visited`. */
  method ScanClass(t: TaskType, c: ClassDecl, st: ScanState, ghost visited: seq<Step>)
    returns (r: Result<ScanState, ScanError>)
    requires Run(t, visited) == Ok(st)
    ensures r == Run(t, visited + DeclaredSteps(c))
  {
    ghost var steps := DeclaredSteps(c);
    var processed, actions, incremental := st.processed, st.actions, st.incremental;
    var j := 0;
    assert visited + steps[..0] == visited;
    while j < |c.declaredMethods|
      invariant 0 <= j <= |c.declaredMethods|
      invariant Run(t, visited + steps[..j]) == Ok(ScanState(processed, actions, incremental))
    {
      var next := AttachTaskAction(t, Step(c.ref, c.declaredMethods[j]), ScanState(processed, actions, incremental));
      RunNextOf(t, visited, steps, j);
      if next.Err? {
        RunFailsWithin(t, visited, steps, j + 1);
        return Err(next.error);
      }
      processed, actions, incremental := next.value.processed, next.value.actions, next.value.incremental;
      j := j + 1;
    }
    assert steps[..j] == steps;
    r := Ok(ScanState(processed, actions, incremental));
  }

  /** `findTaskActions`: the loop over the superclass chain, threading the taken names, the
      factory list and the incremental flag through each class's methods, and giving up at the
      first invalid method. */
  method FindTaskActions(t: TaskType) returns (r: Result<TaskClassInfo, ScanError>)
    ensures r == Scan(t)
  {
    var chain := t.Chain();
    var st := Start;
    var i := 0;
    assert chain[..0] == [];
    while i < |chain|
      invariant 0 <= i <= |chain|
      invariant Run(t, Walk(chain[..i])) == Ok(st)
    {
      var next := ScanClass(t, chain[i], st, Walk(chain[..i]));
      WalkSnoc(chain, i);
      if next.Err? {
        WalkPrefix(chain, i + 1);
        var rest := Walk(chain)[|Walk(chain[..i + 1])|..];
        assert Walk(chain) == Walk(chain[..i + 1]) + rest;
        RunFailureSticks(t, Walk(chain[..i + 1]), rest);
        return Err(next.error);
      }
      st := next.value;
      i := i + 1;
    }
    assert chain[..i] == chain;
    r := Ok(TaskClassInfo(st.incremental, st.actions));
  }
}
