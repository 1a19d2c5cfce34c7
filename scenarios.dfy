/**
 * Concrete uses of the decorator: a `User` class extended with a method that
 * replaces one of its own, with a property, and built-in types that refuse
 * to be extended.
 */
module Scenarios {
  import opened PyRuntime
  import opened ExtensionDecorator

  /** `object`, reduced to a few of its entries: methods, and a docstring that is plain data. */
  function ObjectClass(): PyClass
  {
    PyClass(0, map["__init__" := Function(1), "__repr__" := Function(2), "__eq__" := Function(3),
                   "__doc__" := Other(0, false, {})], [])
  }

  /** `User(name, age)` with `years_until_death` returning `100 - age`. */
  function UserMembers(): map<string, Value>
  {
    map["__init__" := Function(20), "years_until_death" := Function(21)]
  }

  /**
   * The `__weakref__` entry Python puts in the table of every class statement
   * without `__slots__`: a getset descriptor, not callable, with all three hooks.
   */
  function WeakrefDescriptor(obj: nat): (v: Value)
    ensures Qualifies(v) && !Callable(v)
  {
    Other(obj, false, {Get, Set, Delete})
  }

  /**
   * `object` has no `__weakref__`, so a class statement without `__slots__`
   * whose only base is `object` gets its own `__weakref__` and selects it:
   * decorating with such a class assigns at least that name on the target.
   */
  lemma WeakrefAlwaysSelected(c: PyClass, obj: nat)
    requires c.bases == [ObjectClass()]
    requires "__weakref__" in c.members && c.members["__weakref__"] == WeakrefDescriptor(obj)
    ensures "__weakref__" in NonInheritedMethodNames(c)
  {
  }

  /**
   * An extension of `User` that redefines `years_until_death` (as `200 - age`)
   * and `__repr__`; the latter also exists on `object` and is therefore not
   * copied. Attribute access on `User` then finds the new method.
   */
  method OverridingOriginalMethod() returns (outcome: Outcome, replaced: Option<Value>, reprInstalled: bool)
    ensures outcome == Returned
    ensures replaced == Some(Function(30))
    ensures !reprInstalled
  {
    var user := new TypeObject(10, [ObjectClass()], UserMembers(), false);
    var ext := PyClass(11, map["years_until_death" := Function(30), "__repr__" := Function(31),
                               "__module__" := Other(1, false, {}), "__weakref__" := WeakrefDescriptor(2)],
                       [ObjectClass()]);
    ghost var before := user.members;
    NonInheritedIsOwnQualifying(ext, "years_until_death");
    assert "__repr__" in QualifyingNames(ObjectClass());
    RedeclaredBaseNameExcluded(ext, ObjectClass(), "__repr__");
    outcome := ExtensionOn(user, ext);
    InstalledVisibleOnTarget(user, before, ext, "years_until_death");
    replaced := GetAttr(user.AsClass(), "years_until_death");
    reprInstalled := "__repr__" in user.members;
  }

  /** An extension declaring the read-only property `is_adult`; `User` gains the property object itself. */
  method PropertyGetter() returns (outcome: Outcome, installed: Option<Value>)
    ensures outcome == Returned
    ensures installed == Some(Property(40, None))
  {
    var user := new TypeObject(10, [ObjectClass()], UserMembers(), false);
    var ext := PyClass(12, map["is_adult" := Property(40, None), "__weakref__" := WeakrefDescriptor(3)],
                       [ObjectClass()]);
    NonInheritedIsOwnQualifying(ext, "is_adult");
    outcome := ExtensionOn(user, ext);
    installed := if "is_adult" in user.members then Some(user.members["is_adult"]) else None;
  }

  /** Extending a built-in type such as `int` with `dummy_method` raises TypeError and changes nothing. */
  method ExtendBuiltin() returns (outcome: Outcome, untouched: bool)
    ensures outcome == Raised(TypeError)
    ensures untouched
  {
    var intMembers := map["__add__" := Function(60), "__repr__" := Function(61)];
    var builtin := new TypeObject(5, [ObjectClass()], intMembers, true);
    var ext := PyClass(13, map["dummy_method" := Function(50), "__weakref__" := WeakrefDescriptor(4)],
                       [ObjectClass()]);
    NonInheritedIsOwnQualifying(ext, "dummy_method");
    outcome := ExtensionOn(builtin, ext);
    untouched := builtin.members == intMembers;
  }

  /**
   * A class statement deriving from `object` alone with an empty body (`pass`)
   * still selects `__weakref__`, so extending a built-in type with it raises
   * TypeError too.
   */
  method ExtendBuiltinWithEmptyBody() returns (outcome: Outcome)
    ensures outcome == Raised(TypeError)
  {
    var builtin := new TypeObject(5, [ObjectClass()], map["__add__" := Function(60)], true);
    var ext := PyClass(14, map["__module__" := Other(1, false, {}), "__doc__" := Other(0, false, {}),
                               "__weakref__" := WeakrefDescriptor(5)], [ObjectClass()]);
    WeakrefAlwaysSelected(ext, 5);
    outcome := ExtensionOn(builtin, ext);
  }

  /**
   * An extension declared with `__slots__ = ()` has no `__weakref__`. When its
   * only method redeclares one of `object`'s it selects no name, assigns
   * nothing, and so raises no TypeError even on a built-in type.
   */
  method ExtendBuiltinWithNothing() returns (outcome: Outcome)
    ensures outcome == Returned
  {
    var builtin := new TypeObject(5, [ObjectClass()], map["__add__" := Function(60)], true);
    var ext := PyClass(15, map["__repr__" := Function(70), "__module__" := Other(1, false, {}),
                               "__slots__" := Other(6, false, {})], [ObjectClass()]);
    assert "__repr__" in QualifyingNames(ObjectClass());
    RedeclaredBaseNameExcluded(ext, ObjectClass(), "__repr__");
    QualifiesExactly(Other(1, false, {}));
    QualifiesExactly(Other(6, false, {}));
    assert NonInheritedMethodNames(ext) == {};
    outcome := ExtensionOn(builtin, ext);
  }

  /**
   * An extension whose base is a user-defined mixin inherits `__weakref__`
   * from it and gets no entry of its own. With an empty body it selects no
   * name, assigns nothing, and so returns normally even on a built-in type.
   */
  method ExtendBuiltinThroughMixin() returns (outcome: Outcome)
    ensures outcome == Returned
  {
    var builtin := new TypeObject(5, [ObjectClass()], map["__add__" := Function(60)], true);
    var mixin := PyClass(18, map["__module__" := Other(1, false, {}), "__weakref__" := WeakrefDescriptor(7)],
                         [ObjectClass()]);
    var ext := PyClass(19, map["__module__" := Other(1, false, {}), "__doc__" := Other(0, false, {})], [mixin]);
    QualifiesExactly(Other(1, false, {}));
    QualifiesExactly(Other(0, false, {}));
    assert NonInheritedMethodNames(ext) == {};
    outcome := ExtensionOn(builtin, ext);
  }

  /**
   * `__repr__` redeclared by an extension of a mixin that derives from
   * `object` is excluded: the mixin inherits a qualifying `__repr__`.
   */
  lemma RedeclaredThroughMixinExcluded()
    ensures "__repr__" !in NonInheritedMethodNames(
      PyClass(17, map["__repr__" := Function(90)], [PyClass(16, map["helper" := Function(80)], [ObjectClass()])]))
  {
    var mixin := PyClass(16, map["helper" := Function(80)], [ObjectClass()]);
    var ext := PyClass(17, map["__repr__" := Function(90)], [mixin]);
    assert Lookup(mixin, "__repr__") == Some(Function(2));
    DirResolves(mixin, "__repr__");
    assert "__repr__" in QualifyingNames(mixin);
    RedeclaredBaseNameExcluded(ext, mixin, "__repr__");
  }
}
