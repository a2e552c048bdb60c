/**
 * `getClassHierarchy`: the list of constructors of an object's prototype
 * levels, most-derived first, built by pushing onto an accumulator array
 * that the recursive calls share.
 */
module Hierarchy {
  import opened Prototypes

  /** The JavaScript array the walk pushes constructors onto. */
  class ClassList {
    var items: seq<Ref>

    constructor ()
      ensures items == []
    {
      items := [];
    }

    /** `Array.prototype.push` of one element. */
    method Push(c: Ref)
      modifies this
      ensures items == old(items) + [c]
    {
      items := items + [c];
    }
  }

  /**
   * The constructors the walk from `obj` collects: the constructor of
   * `obj.__proto__`, then that of the next level up, and so on, until a
   * level's `__proto__` is null or has a null constructor.  Defined along
   * `__proto__` links, independently of the `prototype` links the
   * JavaScript `getClassHierarchy` follows.
   */
  ghost function ClassHierarchy(st: Store, obj: Option<Ref>): (h: seq<Ref>)
    requires Valid(st) && (obj.Some? ==> obj.value < |st|)
    ensures forall k :: 0 <= k < |h| ==> h[k] < |st|
    decreases match obj case None => 0 case Some(o) => |st| - o
  {
    match obj
    case None => []
    case Some(o) =>
      assert ObjValid(st, o);
      match st[o].proto
      case None => []
      case Some(p) =>
        assert ObjValid(st, p);
        match st[p].ctor
        case None => []
        case Some(c) => [c] + ClassHierarchy(st, Some(p))
  }

  /**
   * The JavaScript `getClassHierarchy`, step by step.  A null `hierarchy` starts a fresh list.  The walk
   * stops at a null object, a null `__proto__` or a null constructor;
   * otherwise it pushes the constructor C of `obj.__proto__` and, when
   * `C.prototype` is set, continues from `C.prototype`.  The list that comes
   * back is the one passed in (or the fresh one), extended by exactly the
   * constructors of `ClassHierarchy`.
   */
  method GetClassHierarchy(st: Store, obj: Option<Ref>, hierarchy: ClassList?) returns (r: ClassList)
    requires Valid(st) && (obj.Some? ==> obj.value < |st| && Linked(st, obj.value))
    modifies hierarchy
    ensures hierarchy != null ==> r == hierarchy
    ensures hierarchy == null ==> fresh(r)
    ensures r.items == (if hierarchy == null then [] else old(hierarchy.items)) + ClassHierarchy(st, obj)
    decreases match obj case None => 0 case Some(o) => |st| - o
  {
    if hierarchy == null {
      r := new ClassList();
    } else {
      r := hierarchy;
    }
    if obj.None? {
      return;
    }
    var o := obj.value;
    assert ObjValid(st, o);
    if st[o].proto.None? || st[st[o].proto.value].ctor.None? {
      return;
    }
    var p := st[o].proto.value;
    assert ObjValid(st, p);
    var c := st[p].ctor.value;
    r.Push(c);
    assert ObjValid(st, c);
    if st[c].prototype.Some? {
      var _ := GetClassHierarchy(st, st[c].prototype, r);
    }
  }

  /**
   * The walk adds nothing exactly when it stops at once: a null object, or
   * an object at the top of its chain (null `__proto__`, or a `__proto__`
   * with a null constructor).
   */
  lemma HierarchyEmptyAtTop(st: Store, obj: Option<Ref>)
    requires Valid(st) && (obj.Some? ==> obj.value < |st|)
    ensures ClassHierarchy(st, obj) == [] <==> obj.None? || AtTop(st, obj.value)
  {
  }

  /**
   * Entry k of the hierarchy is the constructor of level k + 1 of the
   * lookup, so the hierarchy has one entry fewer than there are levels.
   */
  lemma {:induction false} HierarchyFollowsLevels(st: Store, o: Ref)
    requires Valid(st) && o < |st|
    ensures |ClassHierarchy(st, Some(o))| == |Levels(st, o)| - 1
    ensures forall k :: 0 <= k < |ClassHierarchy(st, Some(o))| ==>
              st[Levels(st, o)[k + 1]].ctor == Some(ClassHierarchy(st, Some(o))[k])
    decreases |st| - o
  {
    assert ObjValid(st, o);
    match st[o].proto
    case None =>
    case Some(p) =>
      assert ObjValid(st, p);
      match st[p].ctor
      case None =>
      case Some(c) =>
        HierarchyFollowsLevels(st, p);
        assert Levels(st, o) == [o] + Levels(st, p);
        assert ClassHierarchy(st, Some(o)) == [c] + ClassHierarchy(st, Some(p));
  }

  /**
   * In a linked chain, the `prototype` of hierarchy entry k is level
   * k + 1 itself: following `C.prototype`, as `getClassHierarchy` does, visits the
   * same levels as following `__proto__`.
   */
  lemma {:induction false} HierarchyLinksBack(st: Store, o: Ref)
    requires Valid(st) && o < |st| && Linked(st, o)
    ensures |ClassHierarchy(st, Some(o))| == |Levels(st, o)| - 1
    ensures forall k :: 0 <= k < |ClassHierarchy(st, Some(o))| ==>
              st[ClassHierarchy(st, Some(o))[k]].prototype == Some(Levels(st, o)[k + 1])
    decreases |st| - o
  {
    HierarchyFollowsLevels(st, o);
    assert ObjValid(st, o);
    match st[o].proto
    case None =>
    case Some(p) =>
      assert ObjValid(st, p);
      match st[p].ctor
      case None =>
      case Some(c) =>
        HierarchyLinksBack(st, p);
        assert Levels(st, o) == [o] + Levels(st, p);
        assert ClassHierarchy(st, Some(o)) == [c] + ClassHierarchy(st, Some(p));
  }
}
