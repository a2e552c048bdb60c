/**
 * The program's own scenario: classes Human, Man extends Human and
 * Student extends Man, one method per prototype, and the instance john
 * built by `new Student(...)`, with the heap around them that the lookup
 * touches (Object, Function and their prototypes).
 */
module Scenario {
  import opened Prototypes
  import opened Hierarchy
  import opened Ownership

  const John: Ref := 0
  const StudentProto: Ref := 1
  const ManProto: Ref := 2
  const HumanProto: Ref := 3
  const StudentFn: Ref := 4
  const ManFn: Ref := 5
  const HumanFn: Ref := 6
  const ObjectFn: Ref := 7
  const FunctionFn: Ref := 8
  const FunctionProto: Ref := 9
  const ObjectProto: Ref := 10

  /** The own names of a class constructor function. */
  const ClassFnNames: set<string> := {"length", "name", "prototype"}

  /** The heap after the class definitions and `new Student(...)`. */
  const Fixture: Store := [
    // john: each constructor level assigned one field
    Obj({"name", "age", "subject"}, Some(StudentProto), Some(StudentFn), "", None),
    Obj({"constructor", "getSubject"}, Some(ManProto), Some(StudentFn), "", None),
    Obj({"constructor", "getAge"}, Some(HumanProto), Some(ManFn), "", None),
    Obj({"constructor", "getName"}, Some(ObjectProto), Some(HumanFn), "", None),
    // class constructors: `extends` links each to its base class
    Obj(ClassFnNames, Some(ManFn), Some(FunctionFn), "Student", Some(StudentProto)),
    Obj(ClassFnNames, Some(HumanFn), Some(FunctionFn), "Man", Some(ManProto)),
    Obj(ClassFnNames, Some(FunctionProto), Some(FunctionFn), "Human", Some(HumanProto)),
    // built-ins
    Obj({"length", "name", "prototype", "assign", "create", "defineProperty", "entries",
         "freeze", "getOwnPropertyNames", "getPrototypeOf", "is", "keys", "values"},
        Some(FunctionProto), Some(FunctionFn), "Object", Some(ObjectProto)),
    Obj({"length", "name", "prototype"}, Some(FunctionProto), Some(FunctionFn), "Function", Some(FunctionProto)),
    Obj({"length", "name", "arguments", "caller", "constructor", "apply", "bind", "call", "toString"},
        Some(ObjectProto), Some(FunctionFn), "", None),
    Obj({"constructor", "__proto__", "hasOwnProperty", "isPrototypeOf", "propertyIsEnumerable",
         "toLocaleString", "toString", "valueOf", "__defineGetter__", "__defineSetter__",
         "__lookupGetter__", "__lookupSetter__"},
        None, Some(ObjectFn), "", None)
  ]

  /** The fixture is a well-formed store and john's chain is linked. */
  lemma FixtureLinked()
    ensures Valid(Fixture)
    ensures Linked(Fixture, John)
  {
    assert forall o :: 0 <= o < |Fixture| ==> ObjValid(Fixture, o);
    assert Linked(Fixture, ObjectProto);
    assert Linked(Fixture, HumanProto);
    assert Linked(Fixture, ManProto);
    assert Linked(Fixture, StudentProto);
  }

  /** The lookup from john visits john and the three class prototypes, then Object.prototype. */
  lemma JohnLevels()
    ensures Valid(Fixture)
    ensures Levels(Fixture, John) == [John, StudentProto, ManProto, HumanProto, ObjectProto]
  {
    FixtureLinked();
    assert Levels(Fixture, ObjectProto) == [ObjectProto];
    assert Levels(Fixture, HumanProto) == [HumanProto, ObjectProto];
    assert Levels(Fixture, ManProto) == [ManProto, HumanProto, ObjectProto];
    assert Levels(Fixture, StudentProto) == [StudentProto, ManProto, HumanProto, ObjectProto];
  }

  /** john's hierarchy is Student, Man, Human, Object; Object.prototype's is empty. */
  lemma JohnHierarchy()
    ensures Valid(Fixture)
    ensures ClassHierarchy(Fixture, Some(John)) == [StudentFn, ManFn, HumanFn, ObjectFn]
    ensures ClassHierarchy(Fixture, Some(ObjectProto)) == []
  {
    FixtureLinked();
    assert ClassHierarchy(Fixture, Some(ObjectProto)) == [];
    assert ClassHierarchy(Fixture, Some(HumanProto)) == [ObjectFn];
    assert ClassHierarchy(Fixture, Some(ManProto)) == [HumanFn, ObjectFn];
    assert ClassHierarchy(Fixture, Some(StudentProto)) == [ManFn, HumanFn, ObjectFn];
  }

  /** 'age', assigned by Man's constructor, is an own field of john and so is owned by Student. */
  lemma AgeOwnedByStudent()
    ensures Valid(Fixture)
    ensures PropertyOwner(Fixture, Some(John), "age") == Label("Student")
  {
    FixtureLinked();
    OwnNameWins(Fixture, John, "age");
  }

  /** 'getSubject' is declared on Student.prototype, level 1. */
  lemma GetSubjectOwnedByStudent()
    ensures Valid(Fixture)
    ensures PropertyOwner(Fixture, Some(John), "getSubject") == Label("Student")
  {
    JohnLevels();
    DeclaredAtLevel(Fixture, John, "getSubject", 1);
  }

  /** 'getAge' is declared on Man.prototype, level 2. */
  lemma GetAgeOwnedByMan()
    ensures Valid(Fixture)
    ensures PropertyOwner(Fixture, Some(John), "getAge") == Label("Man")
  {
    JohnLevels();
    DeclaredAtLevel(Fixture, John, "getAge", 2);
  }

  /** 'getName' is declared on Human.prototype, level 3. */
  lemma GetNameOwnedByHuman()
    ensures Valid(Fixture)
    ensures PropertyOwner(Fixture, Some(John), "getName") == Label("Human")
  {
    JohnLevels();
    DeclaredAtLevel(Fixture, John, "getName", 3);
  }

  /** 'toString' is declared by no class, only by Object.prototype, level 4. */
  lemma ToStringOwnedByObject()
    ensures Valid(Fixture)
    ensures PropertyOwner(Fixture, Some(John), "toString") == Label("Object")
  {
    JohnLevels();
    DeclaredAtLevel(Fixture, John, "toString", 4);
  }

  /**
   * 'prototype' is an own name of the Student function, so its owner is
   * that function's constructor, Function, not Student.
   */
  lemma PrototypeOwnedByFunction()
    ensures Valid(Fixture)
    ensures PropertyOwner(Fixture, Some(John), "prototype") == Label("Function")
  {
    JohnLevels();
    DeclaredOnConstructor(Fixture, John, "prototype", 1);
  }

  /** The walk from john, run through the accumulator walk `GetClassHierarchy`, read back as class names. */
  method JohnClassNames() returns (names: seq<string>)
    ensures names == ["Student", "Man", "Human", "Object"]
  {
    FixtureLinked();
    JohnHierarchy();
    var list := GetClassHierarchy(Fixture, Some(John), null);
    names := [];
    var i := 0;
    while i < |list.items|
      invariant 0 <= i <= |list.items|
      invariant list.items == [StudentFn, ManFn, HumanFn, ObjectFn]
      invariant |names| == i
      invariant forall k :: 0 <= k < i ==> names[k] == Fixture[list.items[k]].name
    {
      names := names + [Fixture[list.items[i]].name];
      i := i + 1;
    }
  }

  /** The program's five calls, run through the program's lookup `GetPropertyOwner`. */
  method LookUpJohn() returns (ageOwner: Owner, getSubjectOwner: Owner, getAgeOwner: Owner,
                               getNameOwner: Owner, toStringOwner: Owner)
    ensures ageOwner == Label("Student")
    ensures getSubjectOwner == Label("Student")
    ensures getAgeOwner == Label("Man")
    ensures getNameOwner == Label("Human")
    ensures toStringOwner == Label("Object")
  {
    FixtureLinked();
    AgeOwnedByStudent();
    GetSubjectOwnedByStudent();
    GetAgeOwnedByMan();
    GetNameOwnedByHuman();
    ToStringOwnedByObject();
    ageOwner := GetPropertyOwner(Fixture, Some(John), "age");
    getSubjectOwner := GetPropertyOwner(Fixture, Some(John), "getSubject");
    getAgeOwner := GetPropertyOwner(Fixture, Some(John), "getAge");
    getNameOwner := GetPropertyOwner(Fixture, Some(John), "getName");
    toStringOwner := GetPropertyOwner(Fixture, Some(John), "toString");
  }
}
