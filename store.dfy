/**
 * The store that hands out class information: a memo from task type to its scan result.
 * A failed scan is not remembered, so the next request scans again.
 */
module Store {
  import opened Wrappers
  import opened Reflection
  import opened Scanner

  class DefaultTaskClassInfoStore {
    var classInfos: map<TaskType, TaskClassInfo>
    /** The types the loader has scanned, in request order. */
    ghost var loads: seq<TaskType>

    /** Every cached entry is the scan result of its type. */
    ghost predicate Valid()
      reads this
    {
      forall t :: t in classInfos ==> Scan(t) == Ok(classInfos[t])
    }

    constructor ()
      ensures Valid() && classInfos == map[] && loads == []
    {
      classInfos := map[];
      loads := [];
    }

    /** The cache loader: scans the type. */
    method Load(t: TaskType) returns (r: Result<TaskClassInfo, ScanError>)
      modifies this`loads
      ensures r == Scan(t) && loads == old(loads) + [t]
    {
      loads := loads + [t];
      r := FindTaskActions(t);
    }

    /** The scan result of a type, from the cache when present; a successful scan is cached. */
    method GetTaskClassInfo(t: TaskType) returns (r: Result<TaskClassInfo, ScanError>)
      requires Valid()
      modifies this
      ensures Valid()
      ensures r == Scan(t)
      ensures t in old(classInfos) ==>
        r == Ok(old(classInfos)[t]) && classInfos == old(classInfos) && loads == old(loads)
      ensures t !in old(classInfos) ==>
        loads == old(loads) + [t]
        && classInfos == (if r.Ok? then old(classInfos)[t := r.value] else old(classInfos))
    {
      if t in classInfos {
        r := Ok(classInfos[t]);
      } else {
        r := Load(t);
        if r.Ok? {
          classInfos := classInfos[t := r.value];
        }
      }
    }
  }

  /** Two requests for the same type give the same answer, and an accepted type is scanned at
      most once. */
  method RepeatedLookup(store: DefaultTaskClassInfoStore, t: TaskType)
    returns (first: Result<TaskClassInfo, ScanError>, second: Result<TaskClassInfo, ScanError>)
    requires store.Valid()
    modifies store
    ensures store.Valid()
    ensures first == second == Scan(t)
    ensures t in old(store.classInfos) ==> store.loads == old(store.loads)
    ensures t !in old(store.classInfos) && first.Ok? ==> store.loads == old(store.loads) + [t]
    ensures first.Err? ==> t !in store.classInfos
  {
    first := store.GetTaskClassInfo(t);
    second := store.GetTaskClassInfo(t);
  }
}
