/**
 * The slice of Python's class machinery that the extension decorator relies on:
 * the values a class body can hold, `dir` and `getattr` on a class, and a class
 * object whose member table `setattr` updates in place.
 */
module PyRuntime {

  datatype Option<+T> = None | Some(value: T)

  /** Identity of a class object. */
  type ClassId = nat

  /** Identity of a function's code; two entries with the same id run the same code. */
  type CodeId = nat

  /** The three descriptor hooks: `__get__`, `__set__` and `__delete__`. */
  datatype Hook = Get | Set | Delete

  /**
   * A value stored in a class's member table, or returned by `getattr` on a class.
   * `Other` is any further object (a number, a string, a nested class, an
   * instance of a user type); whether it is callable and which descriptor hooks
   * its type defines are recorded on it.
   */
  datatype Value =
    | Function(code: CodeId)                                   // a plain `def`
    | Property(fget: CodeId, fset: Option<CodeId>)             // `@property`, optional `.setter`
    | ClassMethod(code: CodeId)                                // `@classmethod`, as stored
    | StaticMethod(code: CodeId)                               // `@staticmethod`, as stored
    | BoundMethod(code: CodeId, receiver: ClassId)             // a method bound to a class
    | Other(obj: nat, isCallable: bool, hooks: set<Hook>)

  /** Python's `callable(v)`: its type defines `__call__` (staticmethod objects are callable since 3.10). */
  predicate Callable(v: Value)
  {
    match v
    case Function(_) => true
    case Property(_, _) => false
    case ClassMethod(_) => false
    case StaticMethod(_) => true
    case BoundMethod(_, _) => true
    case Other(_, c, _) => c
  }

  /** The descriptor hooks `hasattr(v, ...)` finds on the value. */
  function Hooks(v: Value): set<Hook>
  {
    match v
    case Function(_) => {Get}
    case Property(_, _) => {Get, Set, Delete}
    case ClassMethod(_) => {Get}
    case StaticMethod(_) => {Get}
    case BoundMethod(_, _) => {Get}
    case Other(_, _, hs) => hs
  }

  /**
   * What `getattr(cls, name)` makes of the member table entry `v` found for
   * `name`: the entry's `__get__(None, cls)`. A classmethod is bound to `cls`,
   * the class the lookup started from; a staticmethod yields its bare function;
   * functions, properties and bound methods come back as they are. The
   * `__get__` of an `Other` object is foreign code and is taken to return the
   * object itself.
   */
  function Bind(v: Value, cls: ClassId): (r: Value)
    ensures Hooks(r) == Hooks(v)
    ensures Callable(r) <==> Callable(v) || v.ClassMethod?
    ensures r.BoundMethod? && r.receiver == cls <==> v.ClassMethod? || (v.BoundMethod? && v.receiver == cls)
    ensures !r.ClassMethod? && !r.StaticMethod?
  {
    match v
    case ClassMethod(f) => BoundMethod(f, cls)
    case StaticMethod(f) => Function(f)
    case _ => v
  }

  /**
   * A class as a value: its identity, its own member table (`cls.__dict__`)
   * and its direct bases (`cls.__bases__`). Extension classes and their bases
   * are never changed by the decorator, so they are modelled this way.
   */
  datatype PyClass = PyClass(id: ClassId, members: map<string, Value>, bases: seq<PyClass>)

  /**
   * The member table entry attribute lookup finds for `name` on `c`: the
   * class's own entry, else the first base (depth first, in declaration
   * order) that has one.
   */
  function Lookup(c: PyClass, name: string): Option<Value>
    decreases c, 1
  {
    if name in c.members then Some(c.members[name]) else LookupFrom(c, 0, name)
  }

  /** Lookup through the bases `c.bases[i..]`, in order. */
  function LookupFrom(c: PyClass, i: nat, name: string): Option<Value>
    decreases c, 0, |c.bases| - i
  {
    if i >= |c.bases| then None
    else match Lookup(c.bases[i], name)
      case Some(v) => Some(v)
      case None => LookupFrom(c, i + 1, name)
  }

  /** `dir(cls)` as a set: the class's own names and, recursively, those of all its bases. */
  function Dir(c: PyClass): set<string>
    decreases c, 1
  {
    c.members.Keys + DirFrom(c, 0)
  }

  /** The names `dir` collects from the bases `c.bases[i..]`. */
  function DirFrom(c: PyClass, i: nat): set<string>
    decreases c, 0, |c.bases| - i
  {
    if i >= |c.bases| then {} else Dir(c.bases[i]) + DirFrom(c, i + 1)
  }

  /** Every name `dir` lists can be looked up, and no other name can. */
  lemma {:induction false} DirResolves(c: PyClass, name: string)
    ensures name in Dir(c) <==> Lookup(c, name).Some?
    decreases c, 1
  {
    if name !in c.members {
      DirFromResolves(c, 0, name);
    }
  }

  lemma {:induction false} DirFromResolves(c: PyClass, i: nat, name: string)
    ensures name in DirFrom(c, i) <==> LookupFrom(c, i, name).Some?
    decreases c, 0, |c.bases| - i
  {
    if i < |c.bases| {
      DirResolves(c.bases[i], name);
      DirFromResolves(c, i + 1, name);
    }
  }

  /** A name the class itself does not hold is found, if at all, as the entry of one of its direct bases. */
  lemma {:induction false} LookupFromFindsBase(c: PyClass, i: nat, name: string)
    requires LookupFrom(c, i, name).Some?
    ensures exists j :: i <= j < |c.bases| && Lookup(c.bases[j], name) == LookupFrom(c, i, name)
    decreases |c.bases| - i
  {
    if Lookup(c.bases[i], name).None? {
      LookupFromFindsBase(c, i + 1, name);
    }
  }

  /**
   * `getattr(cls, name)` on a class: the looked-up entry, bound to `cls`;
   * `None` stands for the AttributeError raised when nothing is found.
   */
  function GetAttr(c: PyClass, name: string): (r: Option<Value>)
    ensures r.Some? <==> name in Dir(c)
    ensures name in c.members ==> r == Some(Bind(c.members[name], c.id))
  {
    DirResolves(c, name);
    match Lookup(c, name)
    case Some(v) => Some(Bind(v, c.id))
    case None => None
  }

  /** The exceptions the modelled code can raise. */
  datatype Exception = TypeError

  /** How a call ends: it returns (`None`, the decorator has no other result) or it raises. */
  datatype Outcome = Returned | Raised(error: Exception)

  /**
   * A class object that code can assign attributes on. Built-in types (`int`,
   * `str`, `list`, ...) refuse every assignment; every other class stores the
   * value in its own member table.
   */
  class TypeObject {
    const id: ClassId
    const bases: seq<PyClass>
    const refusesAssignment: bool
    var members: map<string, Value>

    constructor (id: ClassId, bases: seq<PyClass>, members: map<string, Value>, refusesAssignment: bool)
      ensures this.id == id && this.bases == bases && this.refusesAssignment == refusesAssignment
      ensures this.members == members
    {
      this.id := id;
      this.bases := bases;
      this.refusesAssignment := refusesAssignment;
      this.members := members;
    }

    /** The class as it stands now, for `dir` and `getattr`. */
    function AsClass(): (c: PyClass)
      reads this
      ensures c.id == id && c.bases == bases
      ensures forall name :: name in members ==> GetAttr(c, name) == Some(Bind(members[name], id))
    {
      PyClass(id, members, bases)
    }

    /** `setattr(cls, name, v)`: a TypeError on a built-in type, else the entry `name` becomes `v`. */
    method SetAttr(name: string, v: Value) returns (outcome: Outcome)
      modifies this
      ensures refusesAssignment ==> outcome == Raised(TypeError) && members == old(members)
      ensures !refusesAssignment ==> outcome == Returned && members == old(members)[name := v]
    {
      if refusesAssignment {
        outcome := Raised(TypeError);
      } else {
        members := members[name := v];
        outcome := Returned;
      }
    }
  }
}
