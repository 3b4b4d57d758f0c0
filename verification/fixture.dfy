/**
 The repository's own wiring: a configuration class with @Bean factories for
 Customer and Address and an unmarked `message()` method, and an Order class
 with an @Autowired (Customer, Address) constructor next to a no-argument one.
 */
module Fixture {
  import opened Wrappers
  import opened Descriptors
  import opened Beans
  import opened Container

  const CustomerType: TypeId := "com.gtan.entity.Customer"
  const AddressType: TypeId := "com.gtan.entity.Address"
  const MessageType: TypeId := "com.gtan.entity.Message"
  const OrderType: TypeId := "com.gtan.entity.Order"

  const CustomerFactory := MethodDecl("customer", CustomerType, true, NewObject)
  const AddressFactory := MethodDecl("address", AddressType, true, NewObject)
  const MessageMethod := MethodDecl("message", MessageType, false, NewObject)

  const ConfigMethods := [CustomerFactory, AddressFactory, MessageMethod]

  /** The configuration class, its methods listed in the given reflection order. */
  function ConfigClass(methods: seq<MethodDecl>): ClassDesc {
    ClassDesc(ConfigClassName, methods, [Ctor([], false)], true)
  }

  const OrderClass := ClassDesc(OrderType, [], [Ctor([CustomerType, AddressType], true), Ctor([], false)], true)

  /** The registrations the configuration class yields. */
  const Registrations := map[CustomerType := CustomerFactory, AddressType := AddressFactory]

  /** The container right after a successful `init` on a fresh container. */
  const Ready := State(true, Registrations, Obj(0), map[], map[0 := Built(ConfigClassName, [])], 1)

  lemma TypeIdsDistinct()
    ensures CustomerType != AddressType && CustomerType != MessageType && AddressType != MessageType
  {
    assert CustomerType[16] != AddressType[16];
    assert CustomerType[16] != MessageType[16];
    assert AddressType[16] != MessageType[16];
  }

  /** The two factories are registered; `message()` is not. */
  lemma ConfigRegistrations()
    ensures Register(ConfigMethods) == Registrations
  {
    TypeIdsDistinct();
    assert [CustomerFactory][..0] == [];
    assert Register([CustomerFactory]) == map[CustomerType := CustomerFactory];
    assert ConfigMethods[..2] == [CustomerFactory, AddressFactory];
    assert [CustomerFactory, AddressFactory][..1] == [CustomerFactory];
    assert Register(ConfigMethods[..2]) == Registrations;
  }

  /**
   Whatever order reflection lists the configuration methods in, `init` on a
   fresh container succeeds, registers Customer and Address only, and builds the
   configuration instance as object 0.
   */
  lemma FixtureInit(methods: seq<MethodDecl>)
    requires forall x :: x in methods <==> x in ConfigMethods
    ensures Init(New(), map[ConfigClassName := ConfigClass(methods)]) == Step(Success(()), Ready)
  {
    ConfigRegistrations();
    TypeIdsDistinct();
    assert DistinctBeanTypes(ConfigMethods);
    ScanOrderIrrelevant(ConfigMethods, methods);
  }

  /**
   Creating an Order autowires the Customer and Address singletons (objects 1
   and 2, made by their factories) into a new object 3; a Message lookup yields
   null and changes nothing.
   */
  lemma FixtureWiring()
    ensures GetBean(Ready, MessageType) == Step(Success(Null), Ready)
    ensures CreateInstance(Ready, OrderClass) == Step(Success(Obj(3)), Ready.(
      services := map[CustomerType := Obj(1), AddressType := Obj(2)],
      heap := Ready.heap[1 := Produced(CustomerFactory)][2 := Produced(AddressFactory)][3 := Built(OrderType, [Obj(1), Obj(2)])],
      next := 4))
  {
    TypeIdsDistinct();
    assert FirstAutowired(OrderClass.ctors) == Some(0);
    var b1 := GetBean(Ready, CustomerType);
    assert b1 == Step(Success(Obj(1)), Ready.(services := map[CustomerType := Obj(1)], heap := Ready.heap[1 := Produced(CustomerFactory)], next := 2));
    var b2 := GetBean(b1.after, AddressType);
    assert b2.result == Success(Obj(2));
    assert [CustomerType, AddressType][1..] == [AddressType];
    assert [AddressType][1..] == [];
    assert ResolveArgs(b2.after, []) == Step(Success([]), b2.after);
    assert [Obj(2)] + [] == [Obj(2)];
    assert ResolveArgs(b1.after, [AddressType]) == Step(Success([Obj(2)]), b2.after);
    assert [Obj(1)] + [Obj(2)] == [Obj(1), Obj(2)];
    assert [CustomerType, AddressType][0] == CustomerType;
    assert ResolveArgs(Ready, [CustomerType, AddressType]) == Step(Success([Obj(1), Obj(2)]), b2.after);
  }
}
