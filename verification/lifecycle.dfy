/**
 Properties of the container across several calls: the state invariant holds in
 every reachable state, a cached singleton survives every later lookup and
 creation, created objects are transient, and `init` starts from scratch.
 */
module Lifecycle {
  import opened Wrappers
  import opened Descriptors
  import opened Beans
  import opened Container

  /** A call a client can make on the container. */
  datatype Op =
    | Initialise(classes: map<TypeId, ClassDesc>)
    | Lookup(t: TypeId)
    | Create(cls: ClassDesc)

  /**
   The state after one call. A lookup on a container whose maps do not exist yet
   throws before touching anything, so it leaves the state as it was.
   */
  function Apply(c: State, op: Op): (d: State)
    ensures op.Lookup? && !c.started ==> d == c
    ensures op.Create? && !c.started && NeedsLookup(op.cls) ==> d == c
    ensures op.Initialise? ==> d.started && d.services == map[]
    ensures !op.Initialise? ==> CacheKept(c, d) && d.methods == c.methods && d.started == c.started
    ensures Valid(c) ==> Valid(d)
  {
    match op
    case Initialise(classes) => Init(c, classes).after
    case Lookup(t) => if c.started then GetBean(c, t).after else c
    case Create(cls) => if c.started || !NeedsLookup(cls) then CreateInstance(c, cls).after else c
  }

  /** The state after a sequence of calls. */
  function Run(c: State, ops: seq<Op>): State
    decreases |ops|
  {
    if ops == [] then c else Run(Apply(c, ops[0]), ops[1..])
  }

  /** No call in `ops` re-runs `init`. */
  predicate NoInit(ops: seq<Op>) {
    forall i :: 0 <= i < |ops| ==> !ops[i].Initialise?
  }

  /** Every call keeps the invariant, so every state reached by calls keeps it. */
  lemma {:induction false} RunKeepsValid(c: State, ops: seq<Op>)
    requires Valid(c)
    ensures Valid(Run(c, ops))
    decreases |ops|
  {
    if ops != [] {
      RunKeepsValid(Apply(c, ops[0]), ops[1..]);
    }
  }

  /**
   In every state reachable from a fresh container, every cached type is a
   registered type whose cached entry its own factory produced.
   */
  lemma CacheOnlyRegistered(ops: seq<Op>, t: TypeId)
    requires t in Run(New(), ops).services
    ensures t in Run(New(), ops).methods
    ensures CachedByFactory(Run(New(), ops), t)
  {
    RunKeepsValid(New(), ops);
  }

  /** Without a re-`init`, no lookup or creation ever replaces a cache entry. */
  lemma {:induction false} RunKeepsCache(c: State, ops: seq<Op>)
    requires NoInit(ops)
    ensures CacheKept(c, Run(c, ops)) && Run(c, ops).methods == c.methods && Run(c, ops).started == c.started
    decreases |ops|
  {
    if ops != [] {
      assert NoInit(ops[1..]) by {
        forall i | 0 <= i < |ops[1..]|
          ensures !ops[1..][i].Initialise?
        {
          assert ops[1..][i] == ops[i + 1];
        }
      }
      RunKeepsCache(Apply(c, ops[0]), ops[1..]);
    }
  }

  /**
   The singleton property: once a lookup of `t` succeeds, any number of further
   lookups and creations later a lookup of `t` returns the identical reference
   and changes nothing, so the factory is not invoked again.
   */
  lemma SingletonIdentity(c: State, t: TypeId, ops: seq<Op>)
    requires c.started
    requires GetBean(c, t).result.Success?
    requires NoInit(ops)
    ensures var first := GetBean(c, t);
      var later := Run(first.after, ops);
      later.started && GetBean(later, t) == Step(first.result, later)
  {
    var first := GetBean(c, t);
    var later := Run(first.after, ops);
    RunKeepsCache(first.after, ops);
    if t !in first.after.services {
      assert t !in c.methods;
    }
  }

  /** An object built by a constructor is never a cached singleton. */
  lemma BuiltNeverCached(d: State, id: ObjId)
    requires Valid(d)
    requires id in d.heap && d.heap[id].Built?
    ensures Obj(id) !in d.services.Values
  {
  }

  /**
   Transience: two creations of the same class give two distinct new objects,
   neither of them cached, with the same constructor and the same arguments, so
   their dependencies are the same singletons.
   */
  lemma CreateTwice(c: State, cls: ClassDesc)
    requires Valid(c)
    requires c.started || !NeedsLookup(cls)
    requires CreateInstance(c, cls).result.Success?
    ensures var r1 := CreateInstance(c, cls);
      var r2 := CreateInstance(r1.after, cls);
      && r2.result.Success?
      && r1.result.value != r2.result.value
      && r1.result.value !in r2.after.services.Values
      && r2.result.value !in r2.after.services.Values
      && r2.after.heap[r1.result.value.id] == r2.after.heap[r2.result.value.id]
  {
    var r1 := CreateInstance(c, cls);
    var r2 := CreateInstance(r1.after, cls);
    var id1 := r1.result.value.id;
    match FirstAutowired(cls.ctors)
    case Some(k) =>
      var params := cls.ctors[k].params;
      assert !SomeUncached(r1.after, params);
      var id2 := r2.result.value.id;
      var a1, a2 := r1.after.heap[id1].args, r2.after.heap[id2].args;
      assert r2.after.services.Keys == r1.after.services.Keys by {
        assert RegisteredParams(r1.after, params) <= r1.after.services.Keys;
      }
      forall i | 0 <= i < |params|
        ensures a1[i] == a2[i]
      {
      }
      assert a1 == a2;
      BuiltNeverCached(r2.after, id1);
      BuiltNeverCached(r2.after, id2);
    case None =>
      BuiltNeverCached(r2.after, id1);
      BuiltNeverCached(r2.after, r2.result.value.id);
  }

  /**
   `init` forgets the container's history: from any two states it leaves the same
   outcome, the same registrations and an empty cache, so re-running it never
   accumulates registrations or keeps old singletons.
   */
  lemma InitDiscardsHistory(c1: State, c2: State, classes: map<TypeId, ClassDesc>)
    ensures Init(c1, classes).result == Init(c2, classes).result
    ensures Init(c1, classes).after.methods == Init(c2, classes).after.methods
    ensures Init(c1, classes).after.services == Init(c2, classes).after.services == map[]
  {
  }

  /**
   After `init` has located the configuration class, the registrations are its
   @Bean methods keyed by return type, each type mapped to the last such method
   scanned.
   */
  lemma InitRegistersBeans(c: State, classes: map<TypeId, ClassDesc>, t: TypeId)
    requires ConfigClassName in classes
    ensures var decls := classes[ConfigClassName].methods;
      var m := Init(c, classes).after.methods;
      && (t in m <==> exists i :: 0 <= i < |decls| && decls[i].isBean && decls[i].returnType == t)
      && (forall i :: LastBeanAt(decls, t, i) ==> t in m && m[t] == decls[i])
  {
    var decls := classes[ConfigClassName].methods;
    forall i | LastBeanAt(decls, t, i)
      ensures t in Init(c, classes).after.methods && Init(c, classes).after.methods[t] == decls[i]
    {
      RegisterLastWins(decls, t, i);
    }
  }
}
