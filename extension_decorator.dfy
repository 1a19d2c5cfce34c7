/**
 * The `extension_on` decorator: it copies the members an extension class
 * declares itself (and does not inherit) into the member table of a target
 * class, under the same names.
 */
module ExtensionDecorator {
  import opened PyRuntime

  /**
   * `_is_descriptor`: the object has `__get__`, `__set__` or `__delete__`.
   * Every function, property, classmethod, staticmethod and bound method is
   * one; any other object is one exactly when its type defines a hook.
   */
  predicate IsDescriptor(v: Value)
    ensures IsDescriptor(v) <==> !v.Other? || v.hooks != {}
  {
    HookIsOneOfThree(Hooks(v));
    Get in Hooks(v) || Set in Hooks(v) || Delete in Hooks(v)
  }

  /** The test both comprehensions apply to what `getattr` returns for a name. */
  predicate Qualifies(v: Value)
  {
    Callable(v) || IsDescriptor(v)
  }

  /**
   * Exactly the values that are neither callable nor carry any descriptor hook
   * fail the test; every function, property, classmethod, staticmethod and
   * bound method passes it.
   */
  lemma QualifiesExactly(v: Value)
    ensures Qualifies(v) <==> !(v.Other? && !v.isCallable && v.hooks == {})
  {
  }

  /** A non-empty set of hooks holds `Get`, `Set` or `Delete`. */
  lemma HookIsOneOfThree(hs: set<Hook>)
    ensures hs != {} <==> Get in hs || Set in hs || Delete in hs
  {
    if hs != {} {
      var h :| h in hs;
      match h
      case Get =>
      case Set =>
      case Delete =>
    }
  }

  /** Whether `getattr` yields a qualifying value does not depend on the class the lookup started from. */
  lemma QualifiesIgnoresReceiver(v: Value, a: ClassId, b: ClassId)
    ensures Qualifies(Bind(v, a)) == Qualifies(Bind(v, b))
  {
  }

  /**
   * The names `dir(cls)` lists whose `getattr(cls, name)` is callable or a
   * descriptor: exactly the names attribute lookup resolves on the class to an
   * entry that, bound to the class, qualifies.
   */
  function QualifyingNames(c: PyClass): (r: set<string>)
    ensures forall name :: name in r <==> Lookup(c, name).Some? && Qualifies(Bind(Lookup(c, name).value, c.id))
  {
    forall name ensures name in Dir(c) <==> Lookup(c, name).Some? {
      DirResolves(c, name);
    }
    set name | name in Dir(c) && Qualifies(GetAttr(c, name).value)
  }

  /**
   * `parent_classes_method_names`: the union of `QualifyingNames` over the
   * direct bases. Each such name is one `dir(cls)` lists through a base.
   */
  function InheritedQualifyingNames(c: PyClass): (r: set<string>)
    ensures r <= DirFrom(c, 0)
    ensures forall b, name :: b in c.bases && name in QualifyingNames(b) ==> name in r
  {
    forall j | 0 <= j < |c.bases| ensures Dir(c.bases[j]) <= DirFrom(c, 0) {
      DirFromCovers(c, 0, j);
    }
    set b, name | b in c.bases && name in QualifyingNames(b) :: name
  }

  /** `dir` collects every name of each base from `c.bases[i..]` onwards. */
  lemma {:induction false} DirFromCovers(c: PyClass, i: nat, j: nat)
    requires i <= j < |c.bases|
    ensures Dir(c.bases[j]) <= DirFrom(c, i)
    decreases j - i
  {
    if i < j {
      DirFromCovers(c, i + 1, j);
    }
  }

  /**
   * A qualifying name that the class does not hold in its own member table
   * is found through a base, where it qualifies too: the difference taken by
   * `_non_inherited_methods_names` only ever keeps the class's own entries.
   */
  lemma InheritedUnlessOwn(c: PyClass, name: string)
    requires name in QualifyingNames(c) && name !in c.members
    ensures name in InheritedQualifyingNames(c)
  {
    var v := Lookup(c, name).value;
    assert Lookup(c, name) == LookupFrom(c, 0, name);
    LookupFromFindsBase(c, 0, name);
    var j :| 0 <= j < |c.bases| && Lookup(c.bases[j], name) == Some(v);
    var b := c.bases[j];
    DirResolves(b, name);
    assert GetAttr(b, name) == Some(Bind(v, b.id));
    QualifiesIgnoresReceiver(v, c.id, b.id);
    assert name in QualifyingNames(b);
  }

  /**
   * `_non_inherited_methods_names`: the qualifying names of the extension
   * class minus the qualifying names of each of its direct bases. Every name
   * in it is declared in the class's own member table, qualifies there, and
   * qualifies on no direct base.
   */
  function NonInheritedMethodNames(c: PyClass): (r: set<string>)
    ensures r <= c.members.Keys
    ensures forall name :: name in r ==> Qualifies(Bind(c.members[name], c.id))
    ensures forall b, name :: b in c.bases && name in QualifyingNames(b) ==> name !in r
  {
    var own := QualifyingNames(c);
    var inherited := InheritedQualifyingNames(c);
    forall name | name in own - inherited ensures name in c.members {
      if name !in c.members {
        InheritedUnlessOwn(c, name);
      }
    }
    own - inherited
  }

  /**
   * The set computed by `_non_inherited_methods_names`, described from the
   * class's own declarations alone: an own entry is kept when its bound value
   * qualifies and no direct base exposes a qualifying value under that name,
   * whatever value the class gave it.
   */
  lemma NonInheritedIsOwnQualifying(c: PyClass, name: string)
    ensures name in NonInheritedMethodNames(c) <==>
      && name in c.members
      && Qualifies(Bind(c.members[name], c.id))
      && forall b :: b in c.bases ==> name !in QualifyingNames(b)
  {
  }

  /**
   * A name the extension class redeclares (`__init__`, `__repr__`, ...) is
   * never selected when a direct base has a qualifying value for it, whether
   * the base declares the name itself or inherits it.
   */
  lemma RedeclaredBaseNameExcluded(c: PyClass, b: PyClass, name: string)
    requires b in c.bases && name in QualifyingNames(b)
    requires name in c.members
    ensures name !in NonInheritedMethodNames(c)
  {
  }

  /** The entries the decorator writes: each selected name and the value `getattr` returns for it. */
  function InstallTable(ext: PyClass): (t: map<string, Value>)
    ensures t.Keys == NonInheritedMethodNames(ext)
    ensures forall name :: name in t ==> t[name] == Bind(ext.members[name], ext.id) && Qualifies(t[name])
  {
    map name | name in NonInheritedMethodNames(ext) :: GetAttr(ext, name).value
  }

  /**
   * The target's member table after `extension_on(target)(ext)` has run to
   * the end: every selected name holds the extension's value, every other
   * entry of the table is kept, and no other name appears.
   */
  function Installed(table: map<string, Value>, ext: PyClass): (r: map<string, Value>)
    ensures r.Keys == table.Keys + NonInheritedMethodNames(ext)
    ensures forall name :: name in NonInheritedMethodNames(ext) ==> r[name] == GetAttr(ext, name).value
    ensures forall name :: name in table && name !in NonInheritedMethodNames(ext) ==> r[name] == table[name]
  {
    table + InstallTable(ext)
  }

  /**
   * `extension_on(target)` applied to `ext`. The names are visited in an
   * arbitrary order; each one is read from the extension class and assigned on
   * the target. A target that refuses assignment raises TypeError at the first
   * assignment, so the table is then left as it was; when the extension
   * selects no name nothing is assigned and the call returns even on such a
   * target. A call that returns has installed every selected entry.
   */
  method ExtensionOn(target: TypeObject, ext: PyClass) returns (outcome: Outcome)
    modifies target
    ensures outcome == if target.refusesAssignment && NonInheritedMethodNames(ext) != {} then Raised(TypeError) else Returned
    ensures target.members == if outcome.Raised? then old(target.members) else Installed(old(target.members), ext)
  {
    var pending := NonInheritedMethodNames(ext);
    ghost var table := InstallTable(ext);
    ghost var done: set<string> := {};
    assert Restrict(table, done) == map[];
    while pending != {}
      invariant pending !! done && pending + done == table.Keys
      invariant target.refusesAssignment ==> done == {}
      invariant target.members == old(target.members) + Restrict(table, done)
      decreases pending
    {
      var name :| name in pending;
      var attr := GetAttr(ext, name).value;
      outcome := target.SetAttr(name, attr);
      if outcome.Raised? {
        return;
      }
      InstallOneMore(old(target.members), table, done, name);
      pending := pending - {name};
      done := done + {name};
    }
    assert Restrict(table, done) == table;
    outcome := Returned;
  }

  /** The entries of `table` whose names are in `names`. */
  function Restrict(table: map<string, Value>, names: set<string>): map<string, Value>
  {
    map name | name in names && name in table :: table[name]
  }

  /** One more assignment of the install loop extends the installed part by one entry. */
  lemma InstallOneMore(base: map<string, Value>, table: map<string, Value>, done: set<string>, name: string)
    requires name in table
    ensures (base + Restrict(table, done))[name := table[name]] == base + Restrict(table, done + {name})
  {
  }

  /** Applying the same extension a second time leaves the target's table as one application left it. */
  lemma InstallIdempotent(table: map<string, Value>, ext: PyClass)
    ensures Installed(Installed(table, ext), ext) == Installed(table, ext)
  {
  }

  /**
   * Two extensions applied in turn: a name the second one selects holds the
   * second one's value; a name only the first selects keeps the first's value.
   */
  lemma LastWriteWins(table: map<string, Value>, first: PyClass, second: PyClass, name: string)
    requires name in NonInheritedMethodNames(first) + NonInheritedMethodNames(second)
    ensures name in NonInheritedMethodNames(second) ==>
      Installed(Installed(table, first), second)[name] == GetAttr(second, name).value
    ensures name !in NonInheritedMethodNames(second) ==>
      Installed(Installed(table, first), second)[name] == GetAttr(first, name).value
  {
  }

  /** Extensions that select disjoint names can be applied in either order. */
  lemma DisjointExtensionsCommute(table: map<string, Value>, first: PyClass, second: PyClass)
    requires NonInheritedMethodNames(first) !! NonInheritedMethodNames(second)
    ensures Installed(Installed(table, first), second) == Installed(Installed(table, second), first)
  {
  }

  /**
   * After installation (the table `ExtensionOn` leaves when it returns),
   * attribute access on the target finds an installed entry as its own:
   * `getattr(target, name)` gives the installed value bound to the target.
   */
  lemma InstalledVisibleOnTarget(target: TypeObject, before: map<string, Value>, ext: PyClass, name: string)
    requires target.members == Installed(before, ext)
    requires name in NonInheritedMethodNames(ext)
    ensures GetAttr(target.AsClass(), name) == Some(Bind(Bind(ext.members[name], ext.id), target.id))
  {
  }

  /**
   * The decorator does no rebinding of its own: a `@classmethod` of the
   * extension reaches the target as a method bound to the extension class,
   * and a `@staticmethod` as its bare function, which the target then binds
   * like any plain method.
   */
  lemma ClassAndStaticMethodsAsInstalled(target: PyClass, ext: PyClass, name: string, f: CodeId)
    requires name in NonInheritedMethodNames(ext)
    requires ext.members[name] == ClassMethod(f) || ext.members[name] == StaticMethod(f)
    ensures ext.members[name].ClassMethod? ==>
      Installed(target.members, ext)[name] == BoundMethod(f, ext.id)
    ensures ext.members[name].StaticMethod? ==>
      Installed(target.members, ext)[name] == Function(f)
  {
  }
}
