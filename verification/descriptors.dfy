/**
 The reflective metadata the container reads from classes, given as plain data:
 the declared methods of the configuration class, the declared constructors of a
 target class, and whether a public no-argument constructor exists.
 */
module Descriptors {
  import opened Wrappers

  /** A class, named by its fully qualified name. */
  type TypeId = string

  /** What a factory method does when invoked: build a new object, or return null. */
  datatype FactoryBody = NewObject | ReturnsNull

  /** A declared method: its name, its declared return type, whether it carries @Bean. */
  datatype MethodDecl = MethodDecl(name: string, returnType: TypeId, isBean: bool, body: FactoryBody)

  /** A declared constructor: its parameter types in order, whether it carries @Autowired. */
  datatype Ctor = Ctor(params: seq<TypeId>, autowired: bool)

  /**
   A loaded class. `methods` and `ctors` are in the order reflection reports them,
   which the JVM leaves unspecified, so that order is an input of the model.
   */
  datatype ClassDesc = ClassDesc(
    name: TypeId,
    methods: seq<MethodDecl>,
    ctors: seq<Ctor>,
    hasPublicNoArgCtor: bool)

  /** The position of the first constructor marked @Autowired, if any. */
  function FirstAutowired(ctors: seq<Ctor>): (r: Option<nat>)
    ensures r.Some? ==> r.value < |ctors| && ctors[r.value].autowired
    ensures r.Some? ==> forall j :: 0 <= j < r.value ==> !ctors[j].autowired
    ensures r.None? <==> forall j :: 0 <= j < |ctors| ==> !ctors[j].autowired
  {
    if |ctors| == 0 then None
    else if ctors[0].autowired then Some(0)
    else match FirstAutowired(ctors[1..])
      case None => None
      case Some(k) => Some(k + 1)
  }
}
