# Task action discovery and execution, modelled in Dafny

This project models `DefaultTaskClassInfoStore` from Gradle's task factory. The store answers one
question for the build: given a task's runtime type, which of its methods are task actions? It
walks the superclass chain from the runtime type up to the root. In each class it visits the
methods that class declares itself, in the order reflection lists them, and validates every method
marked `@TaskAction`. A static method, one with more than one parameter, one whose only parameter
is not `IncrementalTaskInputs`, and a second incremental method each reject the type. For each
method name the first marked method seen is kept. The result is a `TaskClassInfo`: an
"incremental" flag and an ordered list of action factories. It is memoised per type.

Each factory creates either a standard action or an incremental action. A standard action installs
its declaring class's loader as the thread's context class loader, calls the method on a task instance,
and restores the previous loader however the call ends. An incremental action also holds the
artifact state bound by `contextualise` and cleared by `releaseContext`. It passes that state's
input changes to the method.

Modules:
- `Wrappers`: `Option` and `Result`.
- `Reflection`: classes, methods and task types as plain data. The superclass chain is a
  sequence, most-derived class first.
- `Actions`: the factory value; the action class, with a `kind` field for the two variants; the
  thread, with its context loader and a log of the reflective calls made on it.
- `Scanner`: the validator `Violation` and one walk step `AttachTaskAction`. `Run` is the walk as
  a fold and `Scan` is its result. The nested loop `FindTaskActions` is proved to compute `Scan`.
- `ScannerProperties`: what a scan accepts, which error it reports, how the flag is set, and which
  factories it keeps, in which order. `FirstOccurrences` is an independent reference definition
  of the kept factories.
- `Store`: the memoising store as a class over a map.
- `Scenarios`: worked task types, including the ordering quirks.

Two consequences of validating each method before the name check:
- An ancestor method whose name a subclass method has already taken is still validated. A marked
  `execute(String)` in a superclass rejects the type even though the subclass's `execute()` is the
  action kept (`Scenarios.SameNameAncestorStillValidated`). An incremental method overriding an
  incremental one fails as a second incremental method
  (`Scenarios.SameNameIncrementalOverrideRejected`).
- The flag is true iff some valid marked one-parameter method was met anywhere in the walk. This
  includes one that the name check then drops. A subclass's `execute()` and a superclass's
  overload `execute(IncrementalTaskInputs)` give a flag of true with only a standard action kept
  (`Scenarios.IncrementalFlagWithoutIncrementalAction`).

## Model

| member | source | states |
|---|---|---|
| Reflection.TaskType.Chain | subprojects/core/src/main/java/org/gradle/api/internal/project/taskfactory/DefaultTaskClassInfoStore.java:64 | the chain starts at the runtime type and holds one class per superclass |
| Scanner.Violation | subprojects/core/src/main/java/org/gradle/api/internal/project/taskfactory/DefaultTaskClassInfoStore.java:73-97 | no violation iff the method is unmarked, or well formed and not a second incremental method; static, then more than one parameter, then a wrong parameter type are reported in that order, with the simple class name and method name; "multiple incremental" iff a well-formed incremental method is met after another |
| Scanner.AttachTaskAction | subprojects/core/src/main/java/org/gradle/api/internal/project/taskfactory/DefaultTaskClassInfoStore.java:72-103 | an unmarked method leaves the state unchanged; the step fails iff the validator reports a violation, and with that violation; otherwise the names and factories only grow, by at most one factory, and the flag never goes back to false |
| Scanner.RunFailureSticks | subprojects/core/src/main/java/org/gradle/api/internal/project/taskfactory/DefaultTaskClassInfoStore.java:64-69 | once the walk has failed, no later method changes the result |
| Scanner.WalkPrefix | subprojects/core/src/main/java/org/gradle/api/internal/project/taskfactory/DefaultTaskClassInfoStore.java:64-65 | the methods of the first k classes of the chain come first in the walk |
| Scanner.ScanClass | subprojects/core/src/main/java/org/gradle/api/internal/project/taskfactory/DefaultTaskClassInfoStore.java:65-67 | the inner loop over one class's declared methods gives the walk's result after that class, or its first error |
| Scanner.FindTaskActions | subprojects/core/src/main/java/org/gradle/api/internal/project/taskfactory/DefaultTaskClassInfoStore.java:60-70 | the nested loop returns exactly the scan result, an error or the flag with the factory list |
| ScannerProperties.WalkOrder | subprojects/core/src/main/java/org/gradle/api/internal/project/taskfactory/DefaultTaskClassInfoStore.java:64-65 | the walk visits the runtime type's own methods first, then those of the superclasses |
| ScannerProperties.WalkDeclared | subprojects/core/src/main/java/org/gradle/api/internal/project/taskfactory/DefaultTaskClassInfoStore.java:64-65 | every visited method is declared by a class of the chain, and the step names that class |
| ScannerProperties.RunAdmitted | subprojects/core/src/main/java/org/gradle/api/internal/project/taskfactory/DefaultTaskClassInfoStore.java:63-103 | the walk succeeds iff every visited method passes the validator, given whether a marked one-parameter method came before it; on success the flag is true iff some marked one-parameter method was visited |
| ScannerProperties.FirstViolationDecides | subprojects/core/src/main/java/org/gradle/api/internal/project/taskfactory/DefaultTaskClassInfoStore.java:64-95 | the walk fails with the validator's verdict on the first rejected method |
| ScannerProperties.ScanFailsAtFirstViolation | subprojects/core/src/main/java/org/gradle/api/internal/project/taskfactory/DefaultTaskClassInfoStore.java:64-95 | a scan fails iff some visited method is rejected, and then with the error of the first rejected one |
| ScannerProperties.AdmittedIffWellFormed | subprojects/core/src/main/java/org/gradle/api/internal/project/taskfactory/DefaultTaskClassInfoStore.java:76-97 | all methods pass iff every marked method is well formed and at most one marked one-parameter method is visited |
| ScannerProperties.IncrementalCountPositive | subprojects/core/src/main/java/org/gradle/api/internal/project/taskfactory/DefaultTaskClassInfoStore.java:87-96 | the count of marked one-parameter methods is positive iff one is visited |
| ScannerProperties.ScanSucceedsIff | subprojects/core/src/main/java/org/gradle/api/internal/project/taskfactory/DefaultTaskClassInfoStore.java:63-97 | a scan succeeds iff every marked method is well formed and at most one takes a parameter; on success the flag is true iff a marked one-parameter method was visited |
| ScannerProperties.SecondIncrementalFails | subprojects/core/src/main/java/org/gradle/api/internal/project/taskfactory/DefaultTaskClassInfoStore.java:93-98 | two incremental methods anywhere in the chain, even with the same name, fail the scan; with the multiple-incremental error if nothing earlier failed and the second is well formed |
| ScannerProperties.RunKeepsFirstOccurrences | subprojects/core/src/main/java/org/gradle/api/internal/project/taskfactory/DefaultTaskClassInfoStore.java:61-101 | after n steps the kept factories are the reference first-occurrence list and the taken names are the marked names seen so far |
| ScannerProperties.FirstOccurrencesExactly | subprojects/core/src/main/java/org/gradle/api/internal/project/taskfactory/DefaultTaskClassInfoStore.java:98-101 | the reference list holds one factory per first marked method of its name, in walk order, and nothing else |
| ScannerProperties.FirstOccurrencesByName | subprojects/core/src/main/java/org/gradle/api/internal/project/taskfactory/DefaultTaskClassInfoStore.java:98-101 | the reference list has no two factories with the same method name, and every marked name visited appears in it |
| ScannerProperties.ScanKeepsFirstOccurrences | subprojects/core/src/main/java/org/gradle/api/internal/project/taskfactory/DefaultTaskClassInfoStore.java:61-101 | a successful scan's factory list is the reference first-occurrence list of the walk |
| ScannerProperties.ScanActionNamesDistinct | subprojects/core/src/main/java/org/gradle/api/internal/project/taskfactory/DefaultTaskClassInfoStore.java:98-101 | no two kept factories share a method name, and every marked method name in the chain is kept |
| ScannerProperties.ScanActionKinds | subprojects/core/src/main/java/org/gradle/api/internal/project/taskfactory/DefaultTaskClassInfoStore.java:105-114 | each kept factory creates an incremental action iff its method takes one IncrementalTaskInputs, and a standard one iff it takes none |
| ScannerProperties.ScanAtMostOneIncrementalAction | subprojects/core/src/main/java/org/gradle/api/internal/project/taskfactory/DefaultTaskClassInfoStore.java:93-114 | a successful scan keeps at most one incremental factory, and if it keeps one the flag is true |
| ScannerProperties.ScanActionsDeclaredInChain | subprojects/core/src/main/java/org/gradle/api/internal/project/taskfactory/DefaultTaskClassInfoStore.java:99-114 | every kept factory carries the runtime type, and a method declared by a class of the chain together with that class |
| ScannerProperties.ScanWithoutMarkedMethods | subprojects/core/src/main/java/org/gradle/api/internal/project/taskfactory/DefaultTaskClassInfoStore.java:60-75 | a type with no marked method in its chain yields a non-incremental info with no factories |
| Actions.TaskThread.Invoke | subprojects/core/src/main/java/org/gradle/api/internal/project/taskfactory/DefaultTaskClassInfoStore.java:137 | the call is logged with the loader installed when it starts; outcome and loader afterwards are those the instance's body gives |
| Actions.TaskAction.constructor | subprojects/core/src/main/java/org/gradle/api/internal/project/taskfactory/DefaultTaskClassInfoStore.java:121-124 | the action keeps the runtime type, the declaring class and the method, and has nothing bound |
| Actions.TaskAction.GetClassLoader | subprojects/core/src/main/java/org/gradle/api/internal/project/taskfactory/DefaultTaskClassInfoStore.java:140-143 | the loader of the declaring class |
| Actions.TaskAction.GetActionClassName | subprojects/core/src/main/java/org/gradle/api/internal/project/taskfactory/DefaultTaskClassInfoStore.java:145-148 | the runtime type's name, not the declaring class's |
| Actions.TaskAction.GetDisplayName | subprojects/core/src/main/java/org/gradle/api/internal/project/taskfactory/DefaultTaskClassInfoStore.java:150-153 | "Execute " followed by the method name |
| Actions.TaskAction.Execute | subprojects/core/src/main/java/org/gradle/api/internal/project/taskfactory/DefaultTaskClassInfoStore.java:126-134 | the method is called under the declaring class's loader, and the thread's previous loader is back afterwards whether the call completes or throws; a standard action calls it without arguments; an incremental one passes the bound input changes, or fails without calling when nothing is bound |
| Actions.TaskAction.DoExecute | subprojects/core/src/main/java/org/gradle/api/internal/project/taskfactory/DefaultTaskClassInfoStore.java:136-175 | a standard action invokes the named method with no argument; an incremental one with the bound state's input changes, or fails on a missing state without calling |
| Actions.TaskAction.Contextualise | subprojects/core/src/main/java/org/gradle/api/internal/project/taskfactory/DefaultTaskClassInfoStore.java:164-166 | the given artifact state is bound |
| Actions.TaskAction.ReleaseContext | subprojects/core/src/main/java/org/gradle/api/internal/project/taskfactory/DefaultTaskClassInfoStore.java:168-171 | the bound state is cleared |
| Actions.Create | subprojects/core/src/main/java/org/gradle/api/internal/project/taskfactory/DefaultTaskClassInfoStore.java:105-114 | a fresh action of the kind that `ActionFactory.Kind` chooses: incremental iff the method has one parameter, with nothing bound |
| Actions.ExecuteInContext | subprojects/core/src/main/java/org/gradle/api/internal/project/taskfactory/DefaultTaskClassInfoStore.java:126-175 | contextualise, execute and release: the method gets the bound input changes under the declaring loader; afterwards neither the loader nor the state is left behind |
| Store.DefaultTaskClassInfoStore.constructor | subprojects/core/src/main/java/org/gradle/api/internal/project/taskfactory/DefaultTaskClassInfoStore.java:46-53 | the store starts empty |
| Store.DefaultTaskClassInfoStore.Load | subprojects/core/src/main/java/org/gradle/api/internal/project/taskfactory/DefaultTaskClassInfoStore.java:48-52 | the cache loader scans the type |
| Store.DefaultTaskClassInfoStore.GetTaskClassInfo | subprojects/core/src/main/java/org/gradle/api/internal/project/taskfactory/DefaultTaskClassInfoStore.java:55-58 | the answer is the scan result; a cached type is answered from the cache with no scan; otherwise the type is scanned once and only a success is cached; every cached entry stays the scan result of its type |
| Store.RepeatedLookup | subprojects/core/src/main/java/org/gradle/api/internal/project/taskfactory/DefaultTaskClassInfoStore.java:46-58 | two requests for a type give the same answer; an accepted type is scanned at most once and a rejected one is not cached |
| Scenarios.BuildHasTwoActions | subprojects/core/src/main/java/org/gradle/api/internal/project/taskfactory/DefaultTaskClassInfoStore.java:60-114 | a type with `run()` and `apply(IncrementalTaskInputs)` is incremental, with both factories in declared order |
| Scenarios.SameNameAncestorStillValidated | subprojects/core/src/main/java/org/gradle/api/internal/project/taskfactory/DefaultTaskClassInfoStore.java:87-98 | a same-named marked ancestor overload with a wrong parameter type rejects the type, although its name is already taken |
| Scenarios.SameNameIncrementalOverrideRejected | subprojects/core/src/main/java/org/gradle/api/internal/project/taskfactory/DefaultTaskClassInfoStore.java:93-98 | an incremental override of an incremental method fails as a second incremental method |
| Scenarios.IncrementalFlagWithoutIncrementalAction | subprojects/core/src/main/java/org/gradle/api/internal/project/taskfactory/DefaultTaskClassInfoStore.java:93-111 | a zero-parameter method and a same-named incremental overload in the superclass give a flag of true with only a standard factory kept |
| Scenarios.DerivedActionsFirst | subprojects/core/src/main/java/org/gradle/api/internal/project/taskfactory/DefaultTaskClassInfoStore.java:64-101 | the subclass's action comes before the superclass's differently named one |

## Left out

- Java reflection (`getDeclaredMethods`, `getAnnotation`, `Modifier.isStatic`, `getSuperclass`) is not modelled: classes and methods are given as data, and the superclass chain is a finite sequence.
- The order of `getDeclaredMethods` is unspecified by the JVM: the model takes it as the given sequence.
- `JavaReflectionUtil.method(...).invoke` is a task instance's body, a function from the call to its outcome and the loader it leaves installed. The method lookup by name and its failure modes are part of that body.
- Guava's weak keys, thread safety and at-most-once loading under concurrency are left out: the memo is a sequential map, and garbage collection and threads are outside the model.
- The exception wrapping by `getUnchecked` is not modelled: a failed scan is an `Err` result returned to the caller.
- Error message strings are left out: errors are tags carrying the simple class name, the method name and the parameter type. The text of `Class.toString()` is not modelled.
- `TaskExecutionContext` is reduced to the artifact state that `Contextualise` receives. `getInputChanges` yields an opaque value.
- `StandardTaskAction` and `IncrementalTaskAction` are one class with a `kind` field, since the model has no subclassing: `Contextualise` and `ReleaseContext` require the incremental kind.
- The null dereference of an unbound artifact state in the incremental `doExecute` is an outcome `Threw(NullArtifactState)`, and exceptions in a task body are a `Threw` outcome rather than a propagated exception.
- Actions.TaskAction.GetClassLoader, Actions.TaskAction.GetActionClassName and Actions.TaskAction.GetDisplayName state their value directly: the source promises nothing more of them.
- The remote HTTP build-cache store is not part of this model: it is I/O outside this class.
- Running all of a type's actions in list order is the caller's job, not this class's: only one action's execution is modelled.
