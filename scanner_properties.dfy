/**
 * What the scan promises: which task types it accepts, which error it reports, how the
 * incremental flag is set, and which factories it keeps, in which order.
 */
module ScannerProperties {
  import opened Wrappers
  import opened Reflection
  import opened Actions
  import opened Scanner

  /** How many marked one-parameter methods a walk visits. */
  function IncrementalCount(p: seq<Step>): nat
  {
    if p == [] then 0
    else IncrementalCount(p[..|p| - 1]) + (if MarkedOneParameter(p[|p| - 1].m) then 1 else 0)
  }

  /** The validator's verdict on the k-th visited method, given the methods visited before it. */
  function ViolationAt(p: seq<Step>, k: nat): Option<ScanError>
    requires k < |p|
  {
    Violation(p[k].owner, p[k].m, IncrementalCount(p[..k]) > 0)
  }

  predicate Admitted(p: seq<Step>, k: nat)
    requires k < |p|
  {
    ViolationAt(p, k).None?
  }

  predicate IsFirstViolation(p: seq<Step>, k: nat)
    requires k < |p|
  {
    !Admitted(p, k) && forall i :: 0 <= i < k ==> Admitted(p, i)
  }

  predicate AllAdmitted(p: seq<Step>)
  {
    forall i :: 0 <= i < |p| ==> Admitted(p, i)
  }

  /** Every marked method visited has the shape of an action method. */
  predicate AllWellFormed(p: seq<Step>)
  {
    forall i :: 0 <= i < |p| && p[i].m.hasTaskAction ==> WellFormedAction(p[i].m)
  }

  /** The k-th visited method is marked and no marked method visited before it has its name. */
  predicate IsFirstOfName(p: seq<Step>, k: nat)
    requires k < |p|
  {
    p[k].m.hasTaskAction && forall j :: 0 <= j < k && p[j].m.hasTaskAction ==> p[j].m.name != p[k].m.name
  }

  /** Reference definition of the retained factories: one per first marked declaration of a
      name among the first n visited methods, in the order they are visited. */
  function FirstOccurrences(t: TaskType, p: seq<Step>, n: nat): seq<ActionFactory>
    requires n <= |p|
  {
    if n == 0 then []
    else
      FirstOccurrences(t, p, n - 1)
      + (if IsFirstOfName(p, n - 1) then [ActionFactory(t, p[n - 1].owner, p[n - 1].m)] else [])
  }

  function MarkedNames(p: seq<Step>, n: nat): set<string>
    requires n <= |p|
  {
    set i | 0 <= i < n && p[i].m.hasTaskAction :: p[i].m.name
  }

  // ---------------------------------------------------------------------------------------
  // The walk

  /** The walk visits the runtime type's own methods first, then those of its superclasses. */
  lemma {:induction false} WalkOrder(chain: seq<ClassDecl>)
    requires chain != []
    ensures Walk(chain) == DeclaredSteps(chain[0]) + Walk(chain[1..])
    decreases |chain|
  {
    var init := chain[..|chain| - 1];
    var last := chain[|chain| - 1];
    if |chain| == 1 {
      assert init == [] && chain[1..] == [];
      assert Walk(init) == [];
    } else {
      WalkOrder(init);
      var tail := chain[1..];
      assert tail[..|tail| - 1] == init[1..];
      assert tail[|tail| - 1] == last;
      calc {
        Walk(chain);
        Walk(init) + DeclaredSteps(last);
        (DeclaredSteps(chain[0]) + Walk(init[1..])) + DeclaredSteps(last);
        DeclaredSteps(chain[0]) + (Walk(init[1..]) + DeclaredSteps(last));
        DeclaredSteps(chain[0]) + Walk(tail);
      }
    }
  }

  /** Every visited method is declared by a class of the chain, and the step names that class. */
  lemma {:induction false} WalkDeclared(chain: seq<ClassDecl>)
    ensures forall i :: 0 <= i < |Walk(chain)| ==>
      exists c :: c in chain && c.ref == Walk(chain)[i].owner && Walk(chain)[i].m in c.declaredMethods
    decreases |chain|
  {
    if chain == [] {
      assert Walk(chain) == [];
    } else {
      var init := chain[..|chain| - 1];
      var last := chain[|chain| - 1];
      WalkDeclared(init);
      var w := Walk(chain);
      assert w == Walk(init) + DeclaredSteps(last);
      forall i | 0 <= i < |w|
        ensures exists c :: c in chain && c.ref == w[i].owner && w[i].m in c.declaredMethods
      {
        if i < |Walk(init)| {
          var c :| c in init && c.ref == Walk(init)[i].owner && Walk(init)[i].m in c.declaredMethods;
          assert c in chain;
        } else {
          var k := i - |Walk(init)|;
          assert w[i] == DeclaredSteps(last)[k];
          assert last.declaredMethods[k] in last.declaredMethods;
        }
      }
    }
  }

  // ---------------------------------------------------------------------------------------
  // Acceptance and the error reported

  /** The walk succeeds exactly when every visited method passes the validator, and then the
      incremental flag records whether a marked one-parameter method was met. */
  lemma {:induction false} RunAdmitted(t: TaskType, p: seq<Step>)
    ensures Run(t, p).Ok? <==> AllAdmitted(p)
    ensures Run(t, p).Ok? ==> Run(t, p).value.incremental == (IncrementalCount(p) > 0)
    decreases |p|
  {
    if p != [] {
      var q := p[..|p| - 1];
      var x := p[|p| - 1];
      RunAdmitted(t, q);
      AdmittedSnoc(p);
      assert p[..|q|] == q;
      match Run(t, q)
      case Err(e) =>
      case Ok(st) =>
        assert Run(t, p) == AttachTaskAction(t, x, st);
        assert Admitted(p, |q|) <==> Violation(x.owner, x.m, st.incremental).None?;
    }
  }

  lemma AdmittedSnoc(p: seq<Step>)
    requires p != []
    ensures AllAdmitted(p) <==> AllAdmitted(p[..|p| - 1]) && Admitted(p, |p| - 1)
  {
    var q := p[..|p| - 1];
    forall i | 0 <= i < |q|
      ensures Admitted(p, i) == Admitted(q, i)
    {
      assert p[..i] == q[..i];
    }
  }

  lemma WellFormedSnoc(p: seq<Step>)
    requires p != []
    ensures AllWellFormed(p) <==>
      AllWellFormed(p[..|p| - 1]) && (p[|p| - 1].m.hasTaskAction ==> WellFormedAction(p[|p| - 1].m))
  {
    var q := p[..|p| - 1];
    assert forall i :: 0 <= i < |q| ==> q[i] == p[i];
  }

  /** The first method that breaks a rule decides the error; nothing after it matters. */
  lemma FirstViolationDecides(t: TaskType, p: seq<Step>, k: nat)
    requires k < |p| && IsFirstViolation(p, k)
    ensures Run(t, p) == Err(ViolationAt(p, k).value)
  {
    var q := p[..k];
    forall i | 0 <= i < |q|
      ensures Admitted(q, i)
    {
      assert q[..i] == p[..i];
      assert Admitted(p, i);
    }
    RunAdmitted(t, q);
    var r := p[..k + 1];
    assert r[..k] == q;
    assert r[k] == p[k];
    assert Run(t, r) == Err(ViolationAt(p, k).value);
    assert r + p[k + 1..] == p;
    RunFailureSticks(t, r, p[k + 1..]);
  }

  lemma FirstNotAdmitted(p: seq<Step>, i: nat) returns (k: nat)
    requires i < |p| && !Admitted(p, i)
    ensures k <= i && IsFirstViolation(p, k)
    decreases i
  {
    if forall j :: 0 <= j < i ==> Admitted(p, j) {
      k := i;
    } else {
      var j :| 0 <= j < i && !Admitted(p, j);
      k := FirstNotAdmitted(p, j);
    }
  }

  /** A task type is rejected exactly when some visited method breaks a rule, and the error
      is the one of the first such method in walk order. */
  lemma ScanFailsAtFirstViolation(t: TaskType)
    ensures Scan(t).Err? <==> exists k :: 0 <= k < |Steps(t)| && IsFirstViolation(Steps(t), k)
    ensures forall k :: 0 <= k < |Steps(t)| && IsFirstViolation(Steps(t), k) ==>
      Scan(t) == Err(ViolationAt(Steps(t), k).value)
  {
    var p := Steps(t);
    RunAdmitted(t, p);
    if Scan(t).Err? {
      var i :| 0 <= i < |p| && !Admitted(p, i);
      var k := FirstNotAdmitted(p, i);
    }
    forall k | 0 <= k < |p| && IsFirstViolation(p, k)
      ensures Scan(t) == Err(ViolationAt(p, k).value)
    {
      FirstViolationDecides(t, p, k);
    }
  }

  /** Passing the validator at every step is the same as: every marked method is well formed
      and at most one marked method takes a parameter. */
  lemma {:induction false} AdmittedIffWellFormed(p: seq<Step>)
    ensures AllAdmitted(p) <==> AllWellFormed(p) && IncrementalCount(p) <= 1
    decreases |p|
  {
    if p != [] {
      var q := p[..|p| - 1];
      var x := p[|p| - 1];
      AdmittedIffWellFormed(q);
      AdmittedSnoc(p);
      WellFormedSnoc(p);
      assert p[..|q|] == q;
      assert Admitted(p, |q|) <==> Violation(x.owner, x.m, IncrementalCount(q) > 0).None?;
    }
  }

  lemma {:induction false} IncrementalCountPositive(p: seq<Step>)
    ensures IncrementalCount(p) > 0 <==> exists i :: 0 <= i < |p| && MarkedOneParameter(p[i].m)
    decreases |p|
  {
    if p != [] {
      var q := p[..|p| - 1];
      IncrementalCountPositive(q);
      assert forall i :: 0 <= i < |q| ==> q[i] == p[i];
    }
  }

  lemma {:induction false} IncrementalCountPrefix(p: seq<Step>, k: nat)
    requires k <= |p|
    ensures IncrementalCount(p[..k]) <= IncrementalCount(p)
    decreases |p|
  {
    if k < |p| {
      var q := p[..|p| - 1];
      assert p[..k] == q[..k];
      IncrementalCountPrefix(q, k);
    } else {
      assert p[..k] == p;
    }
  }

  lemma IncrementalCountAtLeastTwo(p: seq<Step>, i: nat, j: nat)
    requires i < j < |p| && MarkedOneParameter(p[i].m) && MarkedOneParameter(p[j].m)
    ensures IncrementalCount(p) >= 2
  {
    var q := p[..j];
    assert q[i] == p[i];
    IncrementalCountPositive(q);
    var r := p[..j + 1];
    assert r[..j] == q;
    IncrementalCountPrefix(p, j + 1);
  }

  /** A task type is accepted exactly when all its marked methods are instance methods taking
      nothing or one `IncrementalTaskInputs`, and at most one of them takes a parameter; the
      info is then incremental exactly when such a one-parameter method exists. */
  lemma ScanSucceedsIff(t: TaskType)
    ensures Scan(t).Ok? <==> AllWellFormed(Steps(t)) && IncrementalCount(Steps(t)) <= 1
    ensures Scan(t).Ok? ==>
      (Scan(t).value.incremental <==> exists i :: 0 <= i < |Steps(t)| && MarkedOneParameter(Steps(t)[i].m))
  {
    RunAdmitted(t, Steps(t));
    AdmittedIffWellFormed(Steps(t));
    IncrementalCountPositive(Steps(t));
  }

  /** Two marked one-parameter methods anywhere in the chain reject the type; when nothing
      before the second one is wrong and it is well formed, the error is the one about several
      incremental methods, even if both have the same name. */
  lemma SecondIncrementalFails(t: TaskType, i: nat, j: nat)
    requires i < j < |Steps(t)|
    requires MarkedOneParameter(Steps(t)[i].m) && MarkedOneParameter(Steps(t)[j].m)
    ensures Scan(t).Err?
    ensures (forall k :: 0 <= k < j ==> Admitted(Steps(t), k)) && WellFormedAction(Steps(t)[j].m) ==>
      Scan(t) == Err(MultipleIncrementalActions)
  {
    var p := Steps(t);
    IncrementalCountAtLeastTwo(p, i, j);
    ScanSucceedsIff(t);
    if (forall k :: 0 <= k < j ==> Admitted(p, k)) && WellFormedAction(p[j].m) {
      assert p[..j][i] == p[i];
      IncrementalCountPositive(p[..j]);
      assert ViolationAt(p, j) == Some(MultipleIncrementalActions);
      ScanFailsAtFirstViolation(t);
    }
  }

  // ---------------------------------------------------------------------------------------
  // The factories kept

  /** The names taken and the factories kept are those of the reference definition. */
  lemma {:induction false} RunKeepsFirstOccurrences(t: TaskType, p: seq<Step>, n: nat)
    requires n <= |p|
    ensures Run(t, p[..n]).Ok? ==>
      Run(t, p[..n]).value.actions == FirstOccurrences(t, p, n)
      && Run(t, p[..n]).value.processed == MarkedNames(p, n)
  {
    if n == 0 {
      assert p[..n] == [];
    } else {
      RunKeepsFirstOccurrences(t, p, n - 1);
      var r := p[..n];
      assert r[..n - 1] == p[..n - 1];
      assert r[n - 1] == p[n - 1];
      var x := p[n - 1];
      if Run(t, r).Ok? {
        forall j | 0 <= j < n - 1 && p[j].m.hasTaskAction
          ensures p[j].m.name in MarkedNames(p, n - 1)
        {
        }
        if x.m.hasTaskAction {
          assert MarkedNames(p, n) == MarkedNames(p, n - 1) + {x.m.name};
          assert IsFirstOfName(p, n - 1) <==> x.m.name !in MarkedNames(p, n - 1);
        } else {
          assert MarkedNames(p, n) == MarkedNames(p, n - 1);
        }
      }
    }
  }

  /** The reference list is exactly the first marked declarations of each name, in walk order:
      its entries come from strictly increasing positions of the walk, each one the first
      marked method of its name, and every such first declaration is among them. */
  lemma {:induction false} FirstOccurrencesExactly(t: TaskType, p: seq<Step>, n: nat) returns (idx: seq<nat>)
    requires n <= |p|
    ensures |idx| == |FirstOccurrences(t, p, n)|
    ensures forall j :: 0 <= j < |idx| ==>
      idx[j] < n && IsFirstOfName(p, idx[j])
      && FirstOccurrences(t, p, n)[j] == ActionFactory(t, p[idx[j]].owner, p[idx[j]].m)
    ensures forall a, b :: 0 <= a < b < |idx| ==> idx[a] < idx[b]
    ensures forall i :: 0 <= i < n && IsFirstOfName(p, i) ==> i in idx
  {
    if n == 0 {
      idx := [];
    } else {
      var prev := FirstOccurrencesExactly(t, p, n - 1);
      if IsFirstOfName(p, n - 1) {
        idx := prev + [n - 1];
      } else {
        idx := prev;
      }
    }
  }

  lemma FirstOfNameExists(p: seq<Step>, i: nat) returns (i0: nat)
    requires i < |p| && p[i].m.hasTaskAction
    ensures i0 <= i && IsFirstOfName(p, i0) && p[i0].m.name == p[i].m.name
    decreases i
  {
    if IsFirstOfName(p, i) {
      i0 := i;
    } else {
      var j :| 0 <= j < i && p[j].m.hasTaskAction && p[j].m.name == p[i].m.name;
      i0 := FirstOfNameExists(p, j);
    }
  }

  /** No two factories of the reference list share a method name, and every marked name of
      the walk has one. */
  lemma FirstOccurrencesByName(t: TaskType, p: seq<Step>)
    ensures var f := FirstOccurrences(t, p, |p|);
      forall a, b :: 0 <= a < b < |f| ==> f[a].actionMethod.name != f[b].actionMethod.name
    ensures var f := FirstOccurrences(t, p, |p|);
      forall i :: 0 <= i < |p| && p[i].m.hasTaskAction ==>
        exists j :: 0 <= j < |f| && f[j].actionMethod.name == p[i].m.name
  {
    var f := FirstOccurrences(t, p, |p|);
    var idx := FirstOccurrencesExactly(t, p, |p|);
    forall a, b | 0 <= a < b < |f|
      ensures f[a].actionMethod.name != f[b].actionMethod.name
    {
      assert idx[a] < idx[b];
      assert IsFirstOfName(p, idx[b]) && p[idx[a]].m.hasTaskAction;
    }
    forall i | 0 <= i < |p| && p[i].m.hasTaskAction
      ensures exists j :: 0 <= j < |f| && f[j].actionMethod.name == p[i].m.name
    {
      var i0 := FirstOfNameExists(p, i);
      assert i0 in idx;
      var j :| 0 <= j < |idx| && idx[j] == i0;
      assert f[j].actionMethod.name == p[i].m.name;
    }
  }

  /** An accepted type keeps exactly the reference list of factories. */
  lemma ScanKeepsFirstOccurrences(t: TaskType)
    ensures Scan(t).Ok? ==> Scan(t).value.taskActions == FirstOccurrences(t, Steps(t), |Steps(t)|)
  {
    RunKeepsFirstOccurrences(t, Steps(t), |Steps(t)|);
    assert Steps(t)[..|Steps(t)|] == Steps(t);
  }

  /** An accepted type's factories have distinct method names, and every marked method name
      of the chain has one. */
  lemma ScanActionNamesDistinct(t: TaskType)
    ensures Scan(t).Ok? ==>
      var actions := Scan(t).value.taskActions;
      (forall a, b :: 0 <= a < b < |actions| ==> actions[a].actionMethod.name != actions[b].actionMethod.name)
      && (forall i :: 0 <= i < |Steps(t)| && Steps(t)[i].m.hasTaskAction ==>
            exists j :: 0 <= j < |actions| && actions[j].actionMethod.name == Steps(t)[i].m.name)
  {
    ScanKeepsFirstOccurrences(t);
    FirstOccurrencesByName(t, Steps(t));
  }

  /** Each factory of an accepted type creates an incremental action exactly when its method
      takes `IncrementalTaskInputs`, and a standard one exactly when it takes nothing. */
  lemma ScanActionKinds(t: TaskType)
    ensures Scan(t).Ok? ==>
      var actions := Scan(t).value.taskActions;
      forall j :: 0 <= j < |actions| ==>
        (actions[j].Kind() == Incremental <==> actions[j].actionMethod.params == [IncrementalTaskInputs])
        && (actions[j].Kind() == Standard <==> actions[j].actionMethod.params == [])
  {
    if Scan(t).Ok? {
      var p := Steps(t);
      var actions := Scan(t).value.taskActions;
      ScanKeepsFirstOccurrences(t);
      ScanSucceedsIff(t);
      var idx := FirstOccurrencesExactly(t, p, |p|);
      forall j | 0 <= j < |actions|
        ensures (actions[j].Kind() == Incremental <==> actions[j].actionMethod.params == [IncrementalTaskInputs])
        ensures (actions[j].Kind() == Standard <==> actions[j].actionMethod.params == [])
      {
        assert actions[j].actionMethod == p[idx[j]].m;
        assert WellFormedAction(p[idx[j]].m);
      }
    }
  }

  /** An accepted type has at most one incremental factory, and if it has one, its info is
      incremental (the converse fails: see `IncrementalFlagWithoutIncrementalAction`). */
  lemma ScanAtMostOneIncrementalAction(t: TaskType)
    ensures Scan(t).Ok? ==>
      var actions := Scan(t).value.taskActions;
      (forall a, b :: 0 <= a < b < |actions| ==> actions[a].Kind() == Standard || actions[b].Kind() == Standard)
      && ((exists j :: 0 <= j < |actions| && actions[j].Kind() == Incremental) ==> Scan(t).value.incremental)
  {
    if Scan(t).Ok? {
      var p := Steps(t);
      var actions := Scan(t).value.taskActions;
      ScanKeepsFirstOccurrences(t);
      ScanSucceedsIff(t);
      var idx := FirstOccurrencesExactly(t, p, |p|);
      forall a, b | 0 <= a < b < |actions|
        ensures actions[a].Kind() == Standard || actions[b].Kind() == Standard
      {
        if actions[a].Kind() == Incremental && actions[b].Kind() == Incremental {
          assert actions[a].actionMethod == p[idx[a]].m && actions[b].actionMethod == p[idx[b]].m;
          IncrementalCountAtLeastTwo(p, idx[a], idx[b]);
        }
      }
      if exists j :: 0 <= j < |actions| && actions[j].Kind() == Incremental {
        var j :| 0 <= j < |actions| && actions[j].Kind() == Incremental;
        assert actions[j].actionMethod == p[idx[j]].m;
        assert MarkedOneParameter(p[idx[j]].m);
      }
    }
  }

  /** Every factory of an accepted type carries the runtime type itself, so its actions report
      the runtime type's name, while the method and its declaring class come from the chain. */
  lemma ScanActionsDeclaredInChain(t: TaskType)
    ensures Scan(t).Ok? ==>
      forall f :: f in Scan(t).value.taskActions ==>
        f.taskType == t
        && exists c :: c in t.Chain() && c.ref == f.declaring && f.actionMethod in c.declaredMethods
  {
    if Scan(t).Ok? {
      var p := Steps(t);
      var actions := Scan(t).value.taskActions;
      ScanKeepsFirstOccurrences(t);
      var idx := FirstOccurrencesExactly(t, p, |p|);
      WalkDeclared(t.Chain());
      forall f | f in actions
        ensures f.taskType == t
        ensures exists c :: c in t.Chain() && c.ref == f.declaring && f.actionMethod in c.declaredMethods
      {
        var j :| 0 <= j < |actions| && actions[j] == f;
        assert f == ActionFactory(t, p[idx[j]].owner, p[idx[j]].m);
      }
    }
  }

  /** A type none of whose classes declares a marked method is accepted, not incremental, and
      has no actions. */
  lemma ScanWithoutMarkedMethods(t: TaskType)
    requires forall i :: 0 <= i < |Steps(t)| ==> !Steps(t)[i].m.hasTaskAction
    ensures Scan(t) == Ok(TaskClassInfo(false, []))
  {
    var p := Steps(t);
    ScanSucceedsIff(t);
    IncrementalCountPositive(p);
    assert IncrementalCount(p) == 0;
    ScanKeepsFirstOccurrences(t);
    FirstOccurrencesOfUnmarked(t, p, |p|);
  }

  lemma {:induction false} FirstOccurrencesOfUnmarked(t: TaskType, p: seq<Step>, n: nat)
    requires n <= |p|
    requires forall i :: 0 <= i < n ==> !p[i].m.hasTaskAction
    ensures FirstOccurrences(t, p, n) == []
  {
    if n > 0 {
      FirstOccurrencesOfUnmarked(t, p, n - 1);
    }
  }
}
