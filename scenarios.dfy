/**
 * Concrete task types and what the scan makes of them, including the consequences of
 * validating before the name check.
 */
module Scenarios {
  import opened Wrappers
  import opened Reflection
  import opened Actions
  import opened Scanner

  const BuildClass: ClassRef := ClassRef("org.example.Build", "Build", 1)
  const BaseClass: ClassRef := ClassRef("org.example.BaseTask", "BaseTask", 2)

  function Action(name: string, params: seq<ParamType>): MethodDecl
  {
    MethodDecl(name, false, true, params)
  }

  lemma StepsOfOneClass(c: ClassDecl)
    ensures Steps(TaskType(c, [])) == DeclaredSteps(c)
  {
    var chain := TaskType(c, []).Chain();
    assert chain == [c] && chain[..0] == [];
    assert Walk(chain[..0]) == [];
    assert Walk(chain) == Walk(chain[..0]) + DeclaredSteps(c);
  }

  lemma StepsOfTwoClasses(c: ClassDecl, d: ClassDecl)
    ensures Steps(TaskType(c, [d])) == DeclaredSteps(c) + DeclaredSteps(d)
  {
    var chain := TaskType(c, [d]).Chain();
    assert chain == [c, d] && chain[..1] == [c] && chain[..1][..0] == [];
    assert Walk(chain[..1][..0]) == [];
    assert Walk(chain[..1]) == Walk(chain[..1][..0]) + DeclaredSteps(c);
    assert Walk(chain) == Walk(chain[..1]) + DeclaredSteps(d);
  }

  lemma RunTwo(t: TaskType, a: Step, b: Step)
    ensures AttachTaskAction(t, a, Start).Err? ==> Run(t, [a, b]) == AttachTaskAction(t, a, Start)
    ensures AttachTaskAction(t, a, Start).Ok? ==>
      Run(t, [a, b]) == AttachTaskAction(t, b, AttachTaskAction(t, a, Start).value)
  {
    var one, two := [a], [a, b];
    assert two[..1] == one && two[1] == b && one[..0] == [] && one[0] == a;
    assert Run(t, one[..0]) == Ok(Start);
    assert Run(t, one) == AttachTaskAction(t, a, Start);
  }

  /** `Build` with a marked `run()` and a marked `apply(IncrementalTaskInputs)`, no superclass. */
  lemma BuildHasTwoActions()
    ensures var t := TaskType(ClassDecl(BuildClass, [Action("run", []), Action("apply", [IncrementalTaskInputs])]), []);
      Scan(t) == Ok(TaskClassInfo(true, [
        ActionFactory(t, BuildClass, Action("run", [])),
        ActionFactory(t, BuildClass, Action("apply", [IncrementalTaskInputs]))]))
  {
    var t := TaskType(ClassDecl(BuildClass, [Action("run", []), Action("apply", [IncrementalTaskInputs])]), []);
    StepsOfOneClass(t.self);
    assert Steps(t) == [Step(BuildClass, Action("run", [])), Step(BuildClass, Action("apply", [IncrementalTaskInputs]))];
    RunTwo(t, Steps(t)[0], Steps(t)[1]);
    var run := ActionFactory(t, BuildClass, Action("run", []));
    var first := AttachTaskAction(t, Steps(t)[0], Start);
    assert first.Ok? && first.value.actions == [run] && !first.value.incremental;
    assert first.value.processed == {"run"};
    var apply := ActionFactory(t, BuildClass, Action("apply", [IncrementalTaskInputs]));
    var second := AttachTaskAction(t, Steps(t)[1], first.value);
    assert second.Ok? && second.value.actions == [run, apply] && second.value.incremental;
  }

  /** The subclass's `execute()` is kept and takes the name, yet a same-named marked
      `execute(String)` in the superclass, an overload, is still validated and rejects the type. */
  lemma SameNameAncestorStillValidated()
    ensures Scan(TaskType(ClassDecl(BuildClass, [Action("execute", [])]),
                          [ClassDecl(BaseClass, [Action("execute", [OtherType("java.lang.String")])])]))
            == Err(InvalidParameter("BaseTask", "execute", OtherType("java.lang.String")))
  {
    var t := TaskType(ClassDecl(BuildClass, [Action("execute", [])]),
                      [ClassDecl(BaseClass, [Action("execute", [OtherType("java.lang.String")])])]);
    StepsOfTwoClasses(t.self, t.superclasses[0]);
    assert Steps(t) == [Step(BuildClass, Action("execute", [])),
                        Step(BaseClass, Action("execute", [OtherType("java.lang.String")]))];
    RunTwo(t, Steps(t)[0], Steps(t)[1]);
  }

  /** An incremental `execute` overriding an incremental `execute` counts twice. */
  lemma SameNameIncrementalOverrideRejected()
    ensures Scan(TaskType(ClassDecl(BuildClass, [Action("execute", [IncrementalTaskInputs])]),
                          [ClassDecl(BaseClass, [Action("execute", [IncrementalTaskInputs])])]))
            == Err(MultipleIncrementalActions)
  {
    var t := TaskType(ClassDecl(BuildClass, [Action("execute", [IncrementalTaskInputs])]),
                      [ClassDecl(BaseClass, [Action("execute", [IncrementalTaskInputs])])]);
    StepsOfTwoClasses(t.self, t.superclasses[0]);
    assert Steps(t) == [Step(BuildClass, Action("execute", [IncrementalTaskInputs])),
                        Step(BaseClass, Action("execute", [IncrementalTaskInputs]))];
    RunTwo(t, Steps(t)[0], Steps(t)[1]);
  }

  /** A zero-argument `execute()` and, in the superclass, a same-named overload
      `execute(IncrementalTaskInputs)`: the name check drops the overload, so the type is reported
      incremental although its only action is a standard one. */
  lemma IncrementalFlagWithoutIncrementalAction()
    ensures var t := TaskType(ClassDecl(BuildClass, [Action("execute", [])]),
                              [ClassDecl(BaseClass, [Action("execute", [IncrementalTaskInputs])])]);
      Scan(t) == Ok(TaskClassInfo(true, [ActionFactory(t, BuildClass, Action("execute", []))]))
      && ActionFactory(t, BuildClass, Action("execute", [])).Kind() == Standard
  {
    var t := TaskType(ClassDecl(BuildClass, [Action("execute", [])]),
                      [ClassDecl(BaseClass, [Action("execute", [IncrementalTaskInputs])])]);
    StepsOfTwoClasses(t.self, t.superclasses[0]);
    assert Steps(t) == [Step(BuildClass, Action("execute", [])), Step(BaseClass, Action("execute", [IncrementalTaskInputs]))];
    RunTwo(t, Steps(t)[0], Steps(t)[1]);
    var execute := ActionFactory(t, BuildClass, Action("execute", []));
    var first := AttachTaskAction(t, Steps(t)[0], Start);
    assert first.Ok? && first.value.actions == [execute] && !first.value.incremental;
    assert first.value.processed == {"execute"};
  }

  /** The subclass's own action comes before the superclass's differently named one. */
  lemma DerivedActionsFirst()
    ensures var t := TaskType(ClassDecl(BuildClass, [Action("compile", [])]),
                              [ClassDecl(BaseClass, [Action("prepare", [])])]);
      Scan(t) == Ok(TaskClassInfo(false, [
        ActionFactory(t, BuildClass, Action("compile", [])),
        ActionFactory(t, BaseClass, Action("prepare", []))]))
  {
    var t := TaskType(ClassDecl(BuildClass, [Action("compile", [])]),
                      [ClassDecl(BaseClass, [Action("prepare", [])])]);
    StepsOfTwoClasses(t.self, t.superclasses[0]);
    assert Steps(t) == [Step(BuildClass, Action("compile", [])), Step(BaseClass, Action("prepare", []))];
    RunTwo(t, Steps(t)[0], Steps(t)[1]);
    var compile := ActionFactory(t, BuildClass, Action("compile", []));
    var first := AttachTaskAction(t, Steps(t)[0], Start);
    assert first.Ok? && first.value.actions == [compile] && !first.value.incremental;
    assert first.value.processed == {"compile"};
    var prepare := ActionFactory(t, BaseClass, Action("prepare", []));
    var second := AttachTaskAction(t, Steps(t)[1], first.value);
    assert second.Ok? && second.value.actions == [compile, prepare] && !second.value.incremental;
  }
}
