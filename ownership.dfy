/**
 * `getPropertyOwner`: which level of an object's prototype chain first
 * declares a given name, reported as the `name` of that level's
 * constructor.
 */
module Ownership {
  import opened Prototypes
  import opened Hierarchy

  /**
   * What the lookup answers: `null` for a null object, a label (a
   * constructor's `name`, or the literal 'Object'), or the TypeError that
   * reading `.name` of a null constructor throws.
   */
  datatype Owner = NullInput | Label(text: string) | TypeError

  /** Reading `x.name` where `x` is a constructor reference or null. */
  function NameOf(st: Store, x: Option<Ref>): Owner
    requires x.Some? ==> x.value < |st|
  {
    match x
    case None => TypeError
    case Some(c) => Label(st[c].name)
  }

  /**
   * The answer the lookup gives, defined along `__proto__` links: a name of
   * the object's own is owned by `obj.constructor`; a name of the
   * constructor C of `obj.__proto__` (the function object itself) is owned
   * by `C.constructor`; otherwise the lookup continues at `obj.__proto__`.
   * A chain that ends (null `__proto__`, or a `__proto__` with a null
   * constructor) answers 'Object'.
   */
  ghost function PropertyOwner(st: Store, obj: Option<Ref>, prop: string): (r: Owner)
    requires Valid(st) && (obj.Some? ==> obj.value < |st|)
    ensures r.NullInput? <==> obj.None?
    ensures r.Label? ==> r.text == "Object" || exists k :: 0 <= k < |st| && st[k].name == r.text
    decreases match obj case None => 0 case Some(o) => |st| - o
  {
    match obj
    case None => NullInput
    case Some(o) =>
      assert ObjValid(st, o);
      if prop in st[o].own then NameOf(st, st[o].ctor)
      else
        match st[o].proto
        case None => Label("Object")
        case Some(p) =>
          assert ObjValid(st, p);
          match st[p].ctor
          case None => Label("Object")
          case Some(c) =>
            assert ObjValid(st, c);
            if prop in st[c].own then NameOf(st, st[c].ctor)
            else PropertyOwner(st, Some(p), prop)
  }

  /**
   * The selection loop: `objClass` becomes the first entry of `h` that `o`
   * is an instance of, or the last entry when there is none; it stays null
   * only when `h` is empty.
   */
  method SelectClass(st: Store, o: Ref, h: seq<Ref>) returns (objClass: Option<Ref>)
    requires Valid(st) && o < |st|
    requires forall k :: 0 <= k < |h| ==> h[k] < |st|
    ensures objClass.None? <==> |h| == 0
    ensures objClass.Some? ==>
              exists i :: 0 <= i < |h| && objClass.value == h[i]
                && (InstanceOf(st, o, h[i]) || i == |h| - 1)
                && forall j :: 0 <= j < i ==> !InstanceOf(st, o, h[j])
  {
    objClass := None;
    var i := 0;
    while i < |h|
      invariant 0 <= i <= |h|
      invariant objClass.None? <==> i == 0
      invariant i > 0 ==> objClass == Some(h[i - 1])
      invariant forall j :: 0 <= j < i ==> !InstanceOf(st, o, h[j])
    {
      objClass := Some(h[i]);
      if InstanceOf(st, o, h[i]) {
        break;
      }
      i := i + 1;
    }
  }

  /**
   * In a linked chain, the first hierarchy entry's `prototype` is
   * `o.__proto__`, so `o` is an instance of it and the selection loop stops
   * at entry 0.
   */
  lemma SelectsFirstEntry(st: Store, o: Ref)
    requires Valid(st) && o < |st| && Linked(st, o)
    requires ClassHierarchy(st, Some(o)) != []
    ensures st[o].proto.Some?
    ensures st[ClassHierarchy(st, Some(o))[0]].prototype == st[o].proto
    ensures InstanceOf(st, o, ClassHierarchy(st, Some(o))[0])
  {
    assert ObjValid(st, o);
  }

  /**
   * The program's lookup, step by step: a null object answers null; otherwise it builds the
   * hierarchy, answers `obj.constructor.name` for an own name, selects
   * `objClass` with the loop, answers 'Object' when there is none, answers
   * `objClass.constructor.name` when the constructor function itself has
   * the name, and otherwise recurses on `objClass.prototype`.  Its answer is
   * `PropertyOwner`.
   */
  method GetPropertyOwner(st: Store, obj: Option<Ref>, prop: string) returns (r: Owner)
    requires Valid(st) && (obj.Some? ==> obj.value < |st| && Linked(st, obj.value))
    ensures r == PropertyOwner(st, obj, prop)
    decreases match obj case None => 0 case Some(o) => |st| - o
  {
    if obj.None? {
      return NullInput;
    }
    var o := obj.value;
    assert ObjValid(st, o);
    var list := GetClassHierarchy(st, obj, null);
    var classHierarchy := list.items;
    if prop in st[o].own {
      return NameOf(st, st[o].ctor);
    }
    var objClass := SelectClass(st, o, classHierarchy);
    if objClass.None? {
      return Label("Object");
    }
    SelectsFirstEntry(st, o);
    var c := objClass.value;
    assert c == classHierarchy[0];
    assert ObjValid(st, c);
    if prop in st[c].own {
      return NameOf(st, st[c].ctor);
    }
    r := GetPropertyOwner(st, st[c].prototype, prop);
  }

  /** `getPropertyOwner(null, prop)` is null, whatever `prop` is. */
  lemma NullInputHasNoOwner(st: Store, prop: string)
    requires Valid(st)
    ensures PropertyOwner(st, None, prop) == NullInput
  {
  }

  /**
   * An own name is owned by `obj.constructor`, whatever any level above
   * declares.
   */
  lemma OwnNameWins(st: Store, o: Ref, prop: string)
    requires Valid(st) && o < |st| && prop in st[o].own
    ensures ObjValid(st, o)
    ensures PropertyOwner(st, Some(o), prop) == NameOf(st, st[o].ctor)
  {
    assert ObjValid(st, o);
  }

  /**
   * When level k is the first level with `prop` among its own names and no
   * constructor function of levels 1..k has it, the owner is the
   * constructor of level k.
   */
  lemma {:induction false} DeclaredAtLevel(st: Store, o: Ref, prop: string, k: nat)
    requires Valid(st) && o < |st|
    requires k < |Levels(st, o)|
    requires prop in st[Levels(st, o)[k]].own
    requires forall j :: 0 <= j < k ==> prop !in st[Levels(st, o)[j]].own
    requires forall j :: 1 <= j <= k ==> !CtorDeclares(st, Levels(st, o)[j], prop)
    ensures ObjValid(st, Levels(st, o)[k])
    ensures PropertyOwner(st, Some(o), prop) == NameOf(st, st[Levels(st, o)[k]].ctor)
    decreases k
  {
    var ls := Levels(st, o);
    assert ObjValid(st, ls[k]);
    if k > 0 {
      assert ObjValid(st, o);
      var p := st[o].proto.value;
      assert ObjValid(st, p);
      assert Levels(st, p) == ls[1..];
      assert prop !in st[ls[0]].own;
      assert !CtorDeclares(st, ls[1], prop);
      DeclaredAtLevel(st, p, prop, k - 1);
    }
  }

  /**
   * When the constructor function of level k (k >= 1) is the first place
   * the walk finds `prop`, the owner is that function's own constructor,
   * not the function itself.
   */
  lemma {:induction false} DeclaredOnConstructor(st: Store, o: Ref, prop: string, k: nat)
    requires Valid(st) && o < |st|
    requires 1 <= k < |Levels(st, o)|
    requires CtorDeclares(st, Levels(st, o)[k], prop)
    requires forall j :: 0 <= j < k ==> prop !in st[Levels(st, o)[j]].own
    requires forall j :: 1 <= j < k ==> !CtorDeclares(st, Levels(st, o)[j], prop)
    ensures ObjValid(st, Levels(st, o)[k]) && ObjValid(st, st[Levels(st, o)[k]].ctor.value)
    ensures PropertyOwner(st, Some(o), prop) == NameOf(st, st[st[Levels(st, o)[k]].ctor.value].ctor)
    decreases k
  {
    var ls := Levels(st, o);
    assert ObjValid(st, ls[k]);
    assert ObjValid(st, st[ls[k]].ctor.value);
    assert ObjValid(st, o);
    var p := st[o].proto.value;
    assert ObjValid(st, p);
    assert Levels(st, p) == ls[1..];
    assert prop !in st[ls[0]].own;
    if k > 1 {
      assert !CtorDeclares(st, ls[1], prop);
      DeclaredOnConstructor(st, p, prop, k - 1);
    }
  }

  /**
   * A name that no visited level and no constructor function of levels
   * 1.. declares is reported as owned by 'Object'.
   */
  lemma {:induction false} DeclaredNowhere(st: Store, o: Ref, prop: string)
    requires Valid(st) && o < |st|
    requires forall j :: 0 <= j < |Levels(st, o)| ==> prop !in st[Levels(st, o)[j]].own
    requires forall j :: 1 <= j < |Levels(st, o)| ==> !CtorDeclares(st, Levels(st, o)[j], prop)
    ensures PropertyOwner(st, Some(o), prop) == Label("Object")
    decreases |st| - o
  {
    var ls := Levels(st, o);
    assert ObjValid(st, o);
    assert prop !in st[ls[0]].own;
    match st[o].proto
    case None =>
    case Some(p) =>
      assert ObjValid(st, p);
      match st[p].ctor
      case None =>
      case Some(c) =>
        assert Levels(st, p) == ls[1..];
        assert !CtorDeclares(st, ls[1], prop);
        DeclaredNowhere(st, p, prop);
  }
}
