/**
 The bean table built by `init`: every @Bean-marked method of the configuration
 class, keyed by its declared return type. Methods are visited in reflection
 order and each one is put into the table, so a later method with the same
 return type replaces an earlier one.
 */
module Beans {
  import opened Descriptors

  /** The return types of the @Bean-marked declarations. */
  ghost function BeanTypes(decls: seq<MethodDecl>): set<TypeId> {
    set i | 0 <= i < |decls| && decls[i].isBean :: decls[i].returnType
  }

  /** Declaration `i` is the last @Bean-marked one whose return type is `t`. */
  ghost predicate LastBeanAt(decls: seq<MethodDecl>, t: TypeId, i: int) {
    && 0 <= i < |decls|
    && decls[i].isBean && decls[i].returnType == t
    && forall j :: i < j < |decls| ==> !(decls[j].isBean && decls[j].returnType == t)
  }

  /** Among the @Bean-marked declarations, at most one returns each type. */
  ghost predicate DistinctBeanTypes(decls: seq<MethodDecl>) {
    forall x, y :: x in decls && y in decls && x.isBean && y.isBean && x.returnType == y.returnType ==> x == y
  }

  /** The table the scan leaves behind, as a reference definition. */
  function Register(decls: seq<MethodDecl>): (m: map<TypeId, MethodDecl>)
    ensures m.Keys == BeanTypes(decls)
    ensures forall t :: t in m ==> m[t] in decls && m[t].isBean && m[t].returnType == t
  {
    if |decls| == 0 then map[]
    else
      var m := Register(decls[..|decls| - 1]);
      var d := decls[|decls| - 1];
      assert BeanTypes(decls) == BeanTypes(decls[..|decls| - 1]) + (if d.isBean then {d.returnType} else {}) by {
        var prefix := decls[..|decls| - 1];
        forall t | t in BeanTypes(decls)
          ensures t in BeanTypes(prefix) + (if d.isBean then {d.returnType} else {})
        {
          var i :| 0 <= i < |decls| && decls[i].isBean && decls[i].returnType == t;
          if i < |decls| - 1 {
            assert prefix[i] == decls[i];
          }
        }
        forall t | t in BeanTypes(prefix)
          ensures t in BeanTypes(decls)
        {
          var i :| 0 <= i < |prefix| && prefix[i].isBean && prefix[i].returnType == t;
          assert decls[i] == prefix[i];
        }
      }
      if d.isBean then m[d.returnType := d] else m
  }

  /** Last write wins: the table holds the last-scanned @Bean method of each type. */
  lemma {:induction false} RegisterLastWins(decls: seq<MethodDecl>, t: TypeId, i: int)
    requires LastBeanAt(decls, t, i)
    ensures t in Register(decls) && Register(decls)[t] == decls[i]
    decreases |decls|
  {
    var prefix := decls[..|decls| - 1];
    if i < |decls| - 1 {
      assert LastBeanAt(prefix, t, i) by {
        forall j | i < j < |prefix|
          ensures !(prefix[j].isBean && prefix[j].returnType == t)
        {
          assert prefix[j] == decls[j];
        }
      }
      RegisterLastWins(prefix, t, i);
    }
  }

  /** A method without @Bean is registered only if some @Bean method shares its return type. */
  lemma UnmarkedNotRegistered(decls: seq<MethodDecl>, t: TypeId)
    requires forall i :: 0 <= i < |decls| && decls[i].returnType == t ==> !decls[i].isBean
    ensures t !in Register(decls)
  {
  }

  /** Two scans over the same declarations, in whatever order, see the same bean types. */
  lemma BeanTypesSameElements(d1: seq<MethodDecl>, d2: seq<MethodDecl>)
    requires forall x :: x in d1 <==> x in d2
    ensures BeanTypes(d1) == BeanTypes(d2)
  {
    forall t | t in BeanTypes(d1)
      ensures t in BeanTypes(d2)
    {
      var i :| 0 <= i < |d1| && d1[i].isBean && d1[i].returnType == t;
      assert d1[i] in d2;
      var j :| 0 <= j < |d2| && d2[j] == d1[i];
    }
    forall t | t in BeanTypes(d2)
      ensures t in BeanTypes(d1)
    {
      var j :| 0 <= j < |d2| && d2[j].isBean && d2[j].returnType == t;
      assert d2[j] in d1;
      var i :| 0 <= i < |d1| && d1[i] == d2[j];
    }
  }

  /**
   When no two @Bean methods share a return type, the table does not depend on
   the (unspecified) order in which reflection lists the methods.
   */
  lemma ScanOrderIrrelevant(d1: seq<MethodDecl>, d2: seq<MethodDecl>)
    requires forall x :: x in d1 <==> x in d2
    requires DistinctBeanTypes(d1)
    ensures Register(d1) == Register(d2)
  {
    var m1, m2 := Register(d1), Register(d2);
    BeanTypesSameElements(d1, d2);
    assert m1.Keys == m2.Keys;
    forall t | t in m1
      ensures m2[t] == m1[t]
    {
      var x, y := m1[t], m2[t];
      assert x in d1 && y in d1;
    }
  }

  /** The scan loop of `init`, proved to build exactly the reference table. */
  method ScanBeans(decls: seq<MethodDecl>) returns (m: map<TypeId, MethodDecl>)
    ensures m == Register(decls)
  {
    m := map[];
    var i := 0;
    while i < |decls|
      invariant 0 <= i <= |decls|
      invariant m == Register(decls[..i])
    {
      var d := decls[i];
      if d.isBean {
        m := m[d.returnType := d];
      }
      assert decls[..i + 1][..i] == decls[..i];
      i := i + 1;
    }
    assert decls[..i] == decls;
  }
}
