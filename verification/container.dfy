/**
 The container's state and its three operations, `init`, the singleton lookup
 (`getServiceInstanceByClass`) and constructor autowiring (`createInstance`).
 Each operation takes a state and returns its result together with the state it
 leaves behind; a thrown exception is a `Failure` result whose `after` state
 keeps every change made before the throw.
 */
module Container {
  import opened Wrappers
  import opened Descriptors
  import opened Beans

  /** The configuration class is located by this fixed name. */
  const ConfigClassName: TypeId := "com.gtan.config.Config"

  /** Object identity: objects are numbered by a fresh-id counter. */
  type ObjId = nat

  /** A Java reference: null, or an object. */
  datatype Ref = Null | Obj(id: ObjId)

  /** How an object came to exist: built by a constructor, or produced by a factory method. */
  datatype Origin = Built(cls: TypeId, args: seq<Ref>) | Produced(factory: MethodDecl)

  /** The exceptions the container lets escape, collapsed to their kind. */
  datatype Error =
    | ClassNotFound   // the configuration class cannot be loaded
    | NoSuchMethod    // no public no-argument constructor
    | NullPointer     // an instance factory method invoked on a null configuration instance

  /**
   The container's fields plus the object heap. `started` records that `init`
   has allocated the two maps (before that they are null in the source).
   */
  datatype State = State(
    started: bool,
    methods: map<TypeId, MethodDecl>,
    config: Ref,
    services: map<TypeId, Ref>,
    heap: map<ObjId, Origin>,
    next: ObjId)

  /** An operation's result and the state after it. */
  datatype Step<+T> = Step(result: Result<T, Error>, after: State)

  /**
   `new Container()`: its maps are not yet allocated, so no lookup may run; nothing
   is registered or cached and no object exists. It satisfies the state invariant.
   */
  function New(): (c: State)
    ensures !c.started && c.config == Null
    ensures c.methods == map[] && c.services == map[] && c.heap == map[]
    ensures Valid(c)
  {
    State(false, map[], Null, map[], map[], 0)
  }

  /** The cached entry for `t` is what the registered factory for `t` produces. */
  ghost predicate CachedByFactory(c: State, t: TypeId)
    requires t in c.services && t in c.methods
  {
    match c.services[t]
    case Null => c.methods[t].body == ReturnsNull
    case Obj(id) => id in c.heap && c.heap[id] == Produced(c.methods[t])
  }

  /**
   The state invariant: every cached type is registered and its cached entry came
   from its factory; the configuration instance is a built configuration object;
   every object id was handed out by the counter.
   */
  ghost predicate Valid(c: State) {
    && (forall id :: id in c.heap ==> id < c.next)
    && (c.config.Obj? ==> c.config.id in c.heap && c.heap[c.config.id] == Built(ConfigClassName, []))
    && (forall t :: t in c.services ==> t in c.methods && CachedByFactory(c, t))
  }

  /** Objects are never freed or changed, and the counter never goes back. */
  ghost predicate HeapGrows(c: State, d: State) {
    && c.next <= d.next
    && forall id :: id in c.heap ==> id in d.heap && d.heap[id] == c.heap[id]
  }

  /** Cache entries, once written, are never replaced, and only registered types gain one. */
  ghost predicate CacheKept(c: State, d: State) {
    && (forall t :: t in c.services ==> t in d.services && d.services[t] == c.services[t])
    && (forall t :: t in d.services ==> t in c.services || t in c.methods)
  }

  /** Neither the registrations nor the configuration instance changed. */
  ghost predicate SameSetup(c: State, d: State) {
    d.started == c.started && d.methods == c.methods && d.config == c.config
  }

  /** Allocate a new object with the given origin. */
  function Alloc(c: State, o: Origin): (Ref, State) {
    (Obj(c.next), c.(heap := c.heap[c.next := o], next := c.next + 1))
  }

  /**
   `init`: empty both maps, load the configuration class, register its @Bean
   methods by return type, then build one configuration instance with its public
   no-argument constructor.
   */
  function Init(c: State, classes: map<TypeId, ClassDesc>): (r: Step<()>)
    ensures r.after.started && r.after.services == map[]
    ensures r.result.Success? <==> ConfigClassName in classes && classes[ConfigClassName].hasPublicNoArgCtor
    ensures ConfigClassName !in classes ==>
      r.result == Failure(ClassNotFound) && r.after.methods == map[] && r.after.config == c.config
    ensures ConfigClassName in classes ==>
      r.after.methods.Keys == BeanTypes(classes[ConfigClassName].methods)
    ensures ConfigClassName in classes && !classes[ConfigClassName].hasPublicNoArgCtor ==>
      r.result == Failure(NoSuchMethod) && r.after.config == c.config
    ensures r.result.Success? ==>
      r.after.config == Obj(c.next) && r.after.heap == c.heap[c.next := Built(ConfigClassName, [])]
    ensures Valid(c) ==> Valid(r.after) && HeapGrows(c, r.after)
  {
    var cleared := c.(started := true, methods := map[], services := map[]);
    if ConfigClassName !in classes then
      Step(Failure(ClassNotFound), cleared)
    else
      var cls := classes[ConfigClassName];
      var scanned := cleared.(methods := Register(cls.methods));
      if !cls.hasPublicNoArgCtor then
        Step(Failure(NoSuchMethod), scanned)
      else
        var (obj, built) := Alloc(scanned, Built(ConfigClassName, []));
        Step(Success(()), built.(config := obj))
  }

  /** One invocation of `factory`: its result, and the single object it allocates (if any). */
  ghost predicate InvokedOnce(c: State, d: State, factory: MethodDecl, v: Ref) {
    match factory.body
    case NewObject =>
      v == Obj(c.next) && d.heap == c.heap[c.next := Produced(factory)] && d.next == c.next + 1
    case ReturnsNull =>
      v == Null && d.heap == c.heap && d.next == c.next
  }

  /**
   A successful lookup of `t` agrees with the cache it leaves: the result is the
   entry for `t`, or null when `t` has none, and `t` has an entry afterwards
   exactly when it had one before or is registered.
   */
  ghost predicate LookupAgrees(c: State, d: State, t: TypeId, v: Ref) {
    && (t in d.services ==> v == d.services[t])
    && (t !in d.services ==> v == Null)
    && d.services.Keys == c.services.Keys + (if t in c.methods then {t} else {})
  }

  /**
   `getServiceInstanceByClass`: a cache hit returns the stored entry; otherwise a
   registered type's factory is invoked on the configuration instance and its
   result cached; a type neither cached nor registered yields null.
   */
  function GetBean(c: State, t: TypeId): (r: Step<Ref>)
    requires c.started
    ensures t in c.services ==> r == Step(Success(c.services[t]), c)
    ensures t !in c.services && t !in c.methods ==> r == Step(Success(Null), c)
    ensures t !in c.services && t in c.methods && c.config.Null? ==> r == Step(Failure(NullPointer), c)
    ensures t !in c.services && t in c.methods && c.config.Obj? ==>
      && r.result.Success?
      && r.after.services == c.services[t := r.result.value]
      && SameSetup(c, r.after)
      && InvokedOnce(c, r.after, c.methods[t], r.result.value)
    ensures r.result.Success? ==> LookupAgrees(c, r.after, t, r.result.value)
    ensures c.next <= r.after.next
    ensures Valid(c) ==> Valid(r.after) && HeapGrows(c, r.after)
  {
    if t in c.services then
      Step(Success(c.services[t]), c)
    else if t in c.methods then
      if c.config.Null? then
        Step(Failure(NullPointer), c)
      else
        var factory := c.methods[t];
        var (obj, d) := match factory.body
          case NewObject => Alloc(c, Produced(factory))
          case ReturnsNull => (Null, c);
        Step(Success(obj), d.(services := d.services[t := obj]))
    else
      Step(Success(Null), c)
  }

  /**
   `args` are the arguments wired for `params` in state `d`: each argument is the
   cache entry for its parameter type, or null when the type has no entry.
   */
  ghost predicate Wired(d: State, params: seq<TypeId>, args: seq<Ref>) {
    && |args| == |params|
    && (forall i :: 0 <= i < |params| && params[i] in d.services ==> args[i] == d.services[params[i]])
    && (forall i :: 0 <= i < |params| && params[i] !in d.services ==> args[i] == Null)
  }

  /** The registered parameter types. */
  ghost function RegisteredParams(c: State, params: seq<TypeId>): set<TypeId> {
    set i | 0 <= i < |params| && params[i] in c.methods :: params[i]
  }

  /** Some registered parameter type has no cache entry yet. */
  ghost predicate SomeUncached(c: State, params: seq<TypeId>) {
    exists i :: 0 <= i < |params| && params[i] in c.methods && params[i] !in c.services
  }

  /** The argument loop of `createInstance`: look up each parameter type in order. */
  function ResolveArgs(c: State, params: seq<TypeId>): (r: Step<seq<Ref>>)
    requires c.started || params == []
    ensures SameSetup(c, r.after) && CacheKept(c, r.after) && c.next <= r.after.next
    ensures r.result.Success? ==> |r.result.value| == |params|
    decreases |params|
  {
    if params == [] then
      Step(Success([]), c)
    else
      var first := GetBean(c, params[0]);
      match first.result
      case Failure(e) => Step(Failure(e), first.after)
      case Success(arg) =>
        var rest := ResolveArgs(first.after, params[1..]);
        match rest.result
        case Failure(e) => Step(Failure(e), rest.after)
        case Success(args) => Step(Success([arg] + args), rest.after)
  }

  /**
   After a successful resolution every argument is the cache entry for its
   parameter type, or null for a type with none.
   */
  lemma {:induction false} ResolveArgsWires(c: State, params: seq<TypeId>)
    requires c.started || params == []
    ensures var r := ResolveArgs(c, params);
      r.result.Success? ==> Wired(r.after, params, r.result.value)
    decreases |params|
  {
    var r := ResolveArgs(c, params);
    if params != [] && r.result.Success? {
      var first := GetBean(c, params[0]);
      var rest := ResolveArgs(first.after, params[1..]);
      ResolveArgsWires(first.after, params[1..]);
      var args := r.result.value;
      assert args == [first.result.value] + rest.result.value;
      forall i | 0 <= i < |params|
        ensures params[i] in r.after.services ==> args[i] == r.after.services[params[i]]
        ensures params[i] !in r.after.services ==> args[i] == Null
      {
        if i == 0 {
          ResolveArgsCaches(first.after, params[1..]);
          assert params[0] in first.after.services ==> params[0] in rest.after.services;
          assert params[0] !in first.after.services ==> params[0] !in RegisteredParams(first.after, params[1..]);
        } else {
          assert params[i] == params[1..][i - 1] && args[i] == rest.result.value[i - 1];
        }
      }
    }
  }

  /** A successful resolution gives cache entries to exactly the registered parameter types. */
  lemma {:induction false} ResolveArgsCaches(c: State, params: seq<TypeId>)
    requires c.started || params == []
    ensures var r := ResolveArgs(c, params);
      r.result.Success? ==> r.after.services.Keys == c.services.Keys + RegisteredParams(c, params)
    decreases |params|
  {
    var r := ResolveArgs(c, params);
    if params != [] && r.result.Success? {
      var first := GetBean(c, params[0]);
      ResolveArgsCaches(first.after, params[1..]);
      assert RegisteredParams(c, params) == RegisteredParams(first.after, params[1..])
        + (if params[0] in c.methods then {params[0]} else {}) by {
        forall t | t in RegisteredParams(c, params)
          ensures t in RegisteredParams(first.after, params[1..]) || t == params[0]
        {
          var i :| 0 <= i < |params| && params[i] in c.methods && params[i] == t;
          if i > 0 {
            assert params[1..][i - 1] == t;
          }
        }
        forall t | t in RegisteredParams(first.after, params[1..])
          ensures t in RegisteredParams(c, params)
        {
          var i :| 0 <= i < |params[1..]| && params[1..][i] in first.after.methods && params[1..][i] == t;
          assert params[i + 1] == t;
        }
      }
    }
  }

  /** Resolution throws exactly when a registered, uncached type meets a null configuration. */
  lemma {:induction false} ResolveArgsFails(c: State, params: seq<TypeId>)
    requires c.started || params == []
    ensures var r := ResolveArgs(c, params);
      && (r.result.Failure? <==> c.config.Null? && SomeUncached(c, params))
      && (r.result.Failure? ==> r.result.error == NullPointer)
    decreases |params|
  {
    if params != [] {
      var first := GetBean(c, params[0]);
      if first.result.Success? {
        ResolveArgsFails(first.after, params[1..]);
        if c.config.Null? {
          assert first.after == c;
        }
        if SomeUncached(first.after, params[1..]) {
          var i :| 0 <= i < |params[1..]| && params[1..][i] in first.after.methods && params[1..][i] !in first.after.services;
          assert params[i + 1] == params[1..][i];
        }
        if c.config.Null? && SomeUncached(c, params) {
          var i :| 0 <= i < |params| && params[i] in c.methods && params[i] !in c.services;
          assert i > 0;
          assert params[1..][i - 1] == params[i];
        }
      }
    }
  }

  /** Resolution keeps the state invariant and only adds objects. */
  lemma {:induction false} ResolveArgsValid(c: State, params: seq<TypeId>)
    requires c.started || params == []
    ensures Valid(c) ==> Valid(ResolveArgs(c, params).after) && HeapGrows(c, ResolveArgs(c, params).after)
    decreases |params|
  {
    if params != [] && Valid(c) {
      var first := GetBean(c, params[0]);
      if first.result.Success? {
        ResolveArgsValid(first.after, params[1..]);
      }
    }
  }

  /** Building `cls` has to look a parameter up: its selected constructor takes parameters. */
  predicate NeedsLookup(cls: ClassDesc) {
    match FirstAutowired(cls.ctors)
    case Some(k) => |cls.ctors[k].params| > 0
    case None => false
  }

  /**
   The @Autowired branch of `createInstance`: resolve `params` in order, then call
   the constructor of `name` with the resolved arguments.
   */
  function Autowire(c: State, name: TypeId, params: seq<TypeId>): (r: Step<Ref>)
    requires c.started || params == []
    ensures SameSetup(c, r.after) && CacheKept(c, r.after)
    ensures r.result.Failure? <==> c.config.Null? && SomeUncached(c, params)
    ensures r.result.Failure? ==> r.result.error == NullPointer
    ensures r.result.Success? ==>
      && r.result.value.Obj? && c.next <= r.result.value.id && r.after.next == r.result.value.id + 1
      && r.result.value.id in r.after.heap
      && r.after.heap[r.result.value.id].Built?
      && r.after.heap[r.result.value.id].cls == name
      && Wired(r.after, params, r.after.heap[r.result.value.id].args)
      && r.after.services.Keys == c.services.Keys + RegisteredParams(c, params)
    ensures Valid(c) ==> Valid(r.after) && HeapGrows(c, r.after)
  {
    var wired := ResolveArgs(c, params);
    ResolveArgsWires(c, params);
    ResolveArgsCaches(c, params);
    ResolveArgsFails(c, params);
    ResolveArgsValid(c, params);
    match wired.result
    case Failure(e) => Step(Failure(e), wired.after)
    case Success(args) =>
      var (obj, d) := Alloc(wired.after, Built(name, args));
      Step(Success(obj), d)
  }

  /**
   `createInstance`: call the first @Autowired constructor with its parameters
   looked up by type, or else the public no-argument constructor, which fails if
   there is none. The new object is never cached.
   */
  function CreateInstance(c: State, cls: ClassDesc): (r: Step<Ref>)
    requires c.started || !NeedsLookup(cls)
    ensures FirstAutowired(cls.ctors).Some? ==>
      r == Autowire(c, cls.name, cls.ctors[FirstAutowired(cls.ctors).value].params)
    ensures FirstAutowired(cls.ctors).None? && !cls.hasPublicNoArgCtor ==> r == Step(Failure(NoSuchMethod), c)
    ensures FirstAutowired(cls.ctors).None? && cls.hasPublicNoArgCtor ==>
      && r.result == Success(Obj(c.next))
      && r.after == c.(heap := c.heap[c.next := Built(cls.name, [])], next := c.next + 1)
    ensures SameSetup(c, r.after) && CacheKept(c, r.after)
    ensures r.result.Success? ==> r.result.value.Obj? && c.next <= r.result.value.id && r.after.next == r.result.value.id + 1
    ensures Valid(c) ==> Valid(r.after) && HeapGrows(c, r.after)
  {
    match FirstAutowired(cls.ctors)
    case Some(k) => Autowire(c, cls.name, cls.ctors[k].params)
    case None =>
      if cls.hasPublicNoArgCtor then
        var (obj, d) := Alloc(c, Built(cls.name, []));
        Step(Success(obj), d)
      else
        Step(Failure(NoSuchMethod), c)
  }
}
