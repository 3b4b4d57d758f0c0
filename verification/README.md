# A minimal IoC container, modelled in Dafny

The repository's `Container` class is a small inversion-of-control container.
`init` loads the configuration class `com.gtan.config.Config` and registers each
`@Bean`-marked method under its declared return type. It then builds one
configuration instance. `getServiceInstanceByClass` serves one singleton per
registered type. It calls the type's factory method on the first lookup and
answers from a cache after that. `createInstance` builds an object of any class.
It uses the first `@Autowired` constructor and fills each parameter with a
singleton lookup, or it falls back to the public no-argument constructor.

The model is a state-passing one:

- `Descriptors`: what reflection would report, given as plain data. A class
  has declared methods (return type, `@Bean` flag, factory body), declared
  constructors (parameter types, `@Autowired` flag) and a flag for a public
  no-argument constructor. `FirstAutowired` selects the constructor.
- `Beans`: the bean table `init` builds. `Register` is the reference
  definition. `ScanBeans` is the scan loop, proved equal to it.
- `Container`: the container's fields `methods`, `config` and `services`, plus
  an object heap with a fresh-id counter. The heap makes "same instance" and
  "new instance" checkable, and each built object records its constructor
  arguments. `Init`, `GetBean` and `CreateInstance` return a result and the
  state after the call. A thrown exception is a `Failure` result, and the
  `after` state keeps every change made before the throw.
- `Lifecycle`: properties across several calls. These are the cache invariant
  in every reachable state, singleton identity, transience of created objects,
  and `init` forgetting earlier state.
- `Fixture`: the repository's own configuration (`customer()`, `address()`,
  and the unmarked `message()`) and its `Order` class.

Three behaviours of the code that are easy to misread:

- The constructor chosen is the first `@Autowired` one in reflection order,
  even when several are marked.
- When the configuration class has no public no-argument constructor, `init`
  fails after the bean table has already been filled from the scan. Only a
  configuration class that cannot be found leaves the table empty.
- A lookup of an unregistered type and a lookup of a type whose factory
  returned null both give the caller `null`. They differ only in the cache: the
  second writes a `null` entry that later lookups hit.

## Model

| member | source | states |
|---|---|---|
| `Descriptors.FirstAutowired` | src/main/java/com/gtan/service/Container.java:107-109 | returns the position of an `@Autowired` constructor with no marked constructor before it, and nothing exactly when no constructor is marked |
| `Beans.Register` | src/main/java/com/gtan/service/Container.java:57-62 | the bean table's keys are exactly the return types of the `@Bean` methods, and each type maps to a `@Bean` method that returns it |
| `Beans.RegisterLastWins` | src/main/java/com/gtan/service/Container.java:57-62 | when two `@Bean` methods return the same type, the table holds the one scanned last |
| `Beans.UnmarkedNotRegistered` | src/main/java/com/gtan/service/Container.java:58-60 | a type returned only by unmarked methods is never registered |
| `Beans.BeanTypesSameElements` | src/main/java/com/gtan/service/Container.java:56-58 | two listings of the same methods, in any order, have the same bean types |
| `Beans.ScanOrderIrrelevant` | src/main/java/com/gtan/service/Container.java:56-62 | when no two `@Bean` methods share a return type, the table is the same for every reflection order |
| `Beans.ScanBeans` | src/main/java/com/gtan/service/Container.java:56-62 | the scan loop, which puts each marked method in turn, builds exactly the reference table |
| `Container.Init` | src/main/java/com/gtan/service/Container.java:50-65 | always leaves an empty cache. Fails with ClassNotFound, leaving no registrations, when the configuration class is missing. Otherwise registers exactly its bean types. Fails with NoSuchMethod, keeping the old configuration instance, when there is no public no-argument constructor. Succeeds exactly when both checks pass, with a new configuration object. Keeps the state invariant |
| `Container.GetBean` | src/main/java/com/gtan/service/Container.java:77-90 | a cache hit returns the stored entry and changes nothing. A miss on an unregistered type returns null and changes nothing. A miss on a registered type invokes its factory once, caches the result under that type and returns it, and changes nothing else. With a null configuration instance, invoking an instance factory method throws. Keeps the state invariant |
| `Container.ResolveArgs` | src/main/java/com/gtan/service/Container.java:110-115 | resolving the parameters never changes registrations or the configuration, never replaces a cache entry, and yields one argument per parameter |
| `Container.ResolveArgsWires` | src/main/java/com/gtan/service/Container.java:111-114 | every resolved argument is the singleton cached for its parameter type, or null when that type has no bean |
| `Container.ResolveArgsCaches` | src/main/java/com/gtan/service/Container.java:113-114 | after resolution, exactly the registered parameter types have gained cache entries |
| `Container.ResolveArgsFails` | src/main/java/com/gtan/service/Container.java:113-114 | resolution throws exactly when the configuration instance is null and some registered parameter type is not yet cached |
| `Container.ResolveArgsValid` | src/main/java/com/gtan/service/Container.java:113-115 | resolution keeps the state invariant and only adds objects |
| `Container.Autowire` | src/main/java/com/gtan/service/Container.java:109-117 | the `@Autowired` path yields a new object of the class, built from arguments wired from the cache. It caches exactly the registered parameter types, and fails exactly when a needed factory meets a null configuration |
| `Container.CreateInstance` | src/main/java/com/gtan/service/Container.java:105-122 | uses the first `@Autowired` constructor when there is one. Otherwise it builds a zero-argument object without consulting the registry, or fails with NoSuchMethod when there is no public no-argument constructor. The result is always a new object id, and no cache entry is replaced |
| `Container.New` | src/main/java/com/gtan/service/Container.java:26-36 | a new container has no maps yet, so lookups are not allowed. It has no registrations, no cache entries, no configuration instance and no objects, and it satisfies the state invariant |
| `Lifecycle.Apply` | src/main/java/com/gtan/service/Container.java:78 | on a container where `init` never ran, a lookup, or a creation whose constructor has parameters, throws before changing anything. `init` always ends with an empty cache. A lookup or creation never replaces a cache entry or changes the registrations. Every call keeps the state invariant |
| `Lifecycle.RunKeepsValid` | src/main/java/com/gtan/service/Container.java:52-53 | every sequence of init, lookup and create calls keeps the state invariant |
| `Lifecycle.CacheOnlyRegistered` | src/main/java/com/gtan/service/Container.java:81-85 | in every state reachable from a new container, a cached type is registered and its entry was produced by its own factory |
| `Lifecycle.RunKeepsCache` | src/main/java/com/gtan/service/Container.java:78-86 | without a new `init`, lookups and creations never replace a cache entry, and only registered types gain one |
| `Lifecycle.SingletonIdentity` | src/main/java/com/gtan/service/Container.java:78-86 | after one successful lookup of a type, a later lookup of it returns the identical reference and changes nothing, whatever lookups and creations happen in between |
| `Lifecycle.BuiltNeverCached` | src/main/java/com/gtan/service/Container.java:117-121 | an object built by a constructor is never a cached singleton |
| `Lifecycle.CreateTwice` | src/main/java/com/gtan/service/Container.java:107-121 | two creations of one class give two distinct objects, neither of them cached, built from the same arguments (the same singletons) |
| `Lifecycle.InitDiscardsHistory` | src/main/java/com/gtan/service/Container.java:52-53 | `init` gives the same outcome, the same registrations and an empty cache from any earlier state |
| `Lifecycle.InitRegistersBeans` | src/main/java/com/gtan/service/Container.java:56-62 | once the configuration class is found, a type is registered iff some `@Bean` method returns it, and it maps to the last such method |
| `Fixture.ConfigRegistrations` | src/main/java/com/gtan/config/Config.java:10-22 | the configuration registers `customer()` and `address()` under Customer and Address, and `message()` not at all |
| `Fixture.FixtureInit` | src/main/java/com/gtan/config/Config.java:8-22 | `init` on a new container succeeds for every reflection order of the configuration methods and leaves that registry, an empty cache and configuration object 0 |
| `Fixture.FixtureWiring` | src/main/java/com/gtan/entity/Order.java:24-31 | a Message lookup gives null, and creating an Order gives a new object built from the Customer and Address singletons, which stay cached |

## Left out

- Reflection itself (`Class.forName`, `getDeclaredMethods`, `getDeclaredConstructors`, `getConstructor`, `invoke`, `newInstance`). Class metadata is input data, and reflection order is an input sequence.
- The distinct checked exception types. Each is one `Error` kind: ClassNotFound, NoSuchMethod, or NullPointer for a factory invoked on a null configuration instance.
- User code inside factories and constructors. A factory either allocates one new object or returns null, and a constructor always returns its new object. The model has no user code that throws, so `InvocationTargetException` is not modelled.
- Container.GetBean: the factory call `method.invoke(this.config)` has three outcomes the model does not cover, because a method is described only by its name, return type, `@Bean` flag and body. A non-public `@Bean` method throws `IllegalAccessException`, since the container lives in another package. A `@Bean` method that takes parameters throws `IllegalArgumentException`. A static `@Bean` method ignores the null receiver and succeeds, where the model returns `NullPointer`. `Container.ResolveArgsFails` and `Container.Autowire` inherit these gaps through their lookups.
- Container.CreateInstance: for an abstract class, `Constructor.newInstance` throws `InstantiationException` whatever the constructor does, but the model always builds a new object. `Container.Init` has the same gap for an abstract configuration class. Descriptors do not record whether a class is abstract.
- Accessibility and argument checks by `Constructor.newInstance`: a private `@Autowired` constructor, or a null argument for a primitive parameter, would throw in the source.
- The field values of created objects, such as the Customer's name and e-mail. Objects are identities with an origin (factory, or constructor plus arguments), not field records.
- Container.GetBean: requires that `init` has been entered. Before that the source's maps are null and a lookup throws `NullPointerException`. `Container.CreateInstance` carries the same requirement only when its selected constructor has parameters.
- Concurrency: the source is single-threaded and unsynchronised.
- The reflection demonstration tests, `User`, the print and `toString` methods of the entities, and the `@Printable` invocation loop in the tests. They exercise `java.lang.reflect` and print output; they are not container behaviour.
