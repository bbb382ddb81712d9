/**
 * The reflective view of a task type that the action store consumes: each class of the
 * superclass chain with the methods it declares itself, described as plain data.
 * Class loaders are opaque identifiers.
 */
module Reflection {

  /** An opaque class-loader identity. */
  type LoaderId = nat

  /** A parameter type of a declared method; only `IncrementalTaskInputs` is told apart. */
  datatype ParamType = IncrementalTaskInputs | OtherType(name: string)

  /** What a `Method` object reveals of its declaring class. */
  datatype ClassRef = ClassRef(name: string, simpleName: string, loader: LoaderId)

  /** A method as `getDeclaredMethods` reports it: its name, whether it is static,
      whether it carries `@TaskAction`, and its parameter types. */
  datatype MethodDecl = MethodDecl(name: string, isStatic: bool, hasTaskAction: bool, params: seq<ParamType>)

  /** A class with the methods it declares directly, in the order reflection lists them. */
  datatype ClassDecl = ClassDecl(ref: ClassRef, declaredMethods: seq<MethodDecl>)

  /** A task's runtime type: the class itself and its superclasses, nearest first, up to the root. */
  datatype TaskType = TaskType(self: ClassDecl, superclasses: seq<ClassDecl>) {

    /** The classes visited by following `getSuperclass` until it yields null. */
    function Chain(): (chain: seq<ClassDecl>)
      ensures |chain| == |superclasses| + 1 && chain[0] == self
    {
      [self] + superclasses
    }

    /** `Class.getName` of the runtime type. */
    function Name(): string
    {
      self.ref.name
    }
  }
}
