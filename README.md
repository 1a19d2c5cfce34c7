# extension_on — a Dafny model

`extension_on(target)` returns a class decorator. Applied to an extension class,
the decorator works out which callable or descriptor members the extension class
declares itself. These are the names it does not inherit from its direct bases.
It copies each of them, as `getattr` returns it, into `target` under the same
name. The target class is changed in place and the decorator returns `None`.
The repository ships the decorator twice: `extensified/_extension_decorator.py`
and `extendme/_extension_decorator.py`. The two are identical except for the
import shown in the docstring (line 19), so one model serves both. The rows
below cite one copy or the other, and each row holds at the same lines of the
other copy.

The project has three modules:

- `PyRuntime` (`py_runtime.dfy`) covers the Python class machinery the decorator
  uses. `Value` is a closed set of class-table entries: function, property with
  an optional setter, classmethod, staticmethod, bound method, and any other
  object with its callability and descriptor hooks recorded. `PyClass` is a
  class as a value: its identity, its own member table and its direct bases.
  `Dir` and `Lookup` follow the bases depth first. `GetAttr` is `getattr` on a
  class, including the descriptor binding that turns a classmethod into a method
  bound to the class and a staticmethod into its bare function. `TypeObject` is
  a class object whose member table `SetAttr` updates in place. A built-in type
  refuses the update with a TypeError.
- `ExtensionDecorator` (`extension_decorator.dfy`) holds the decorator itself.
  It has `_is_descriptor` (`IsDescriptor`), the qualifying test (`Qualifies`)
  and `_non_inherited_methods_names` (`NonInheritedMethodNames`).
  `ExtensionOn` is the install loop. It picks names in an arbitrary order and is
  proved against the function `Installed`, which states the resulting table. The module also holds
  lemmas for idempotence, last-write-wins, visibility on the target, and the
  fact that only the extension's own entries are ever copied.
- `Scenarios` (`scenarios.dfy`) holds concrete cases taken from the test suite.

The docstring says that the target must be a user-defined class (built-in
types are not supported) and that a TypeError is raised when a built-in type is
extended (extensified/_extension_decorator.py:9-10 and 15-16). The code has no
check of its own: the TypeError comes from the first `setattr` (line 49). A
class statement without `__slots__` whose only base is `object` gets its own
`__weakref__` descriptor, which `object` lacks. It therefore selects at least
that name, and for such classes the promise holds
(`Scenarios.ExtendBuiltinWithEmptyBody`). An extension can still select no
name. It may be declared with `__slots__ = ()`
(`Scenarios.ExtendBuiltinWithNothing`). Or it may inherit `__weakref__` from a
user-defined base, so that the difference removes it
(`Scenarios.ExtendBuiltinThroughMixin`). In both cases nothing is assigned, and
the decorator returns normally even on a built-in type.

The decorator also does no rebinding by member kind. It copies whatever
`getattr` on the extension class returns (`ClassAndStaticMethodsAsInstalled`).
A `@classmethod` therefore stays bound to the extension class, as the docstring
warns at line 40. A `@staticmethod` arrives as a plain function, which the
target then binds like an ordinary method. The tests at
tests/test_extension_classes.py:77-102 expect the classmethod to build a target
instance and the staticmethod to be called without `self`. Under this code
neither expectation can be met.

## Model

| member | source | states |
|---|---|---|
| `PyRuntime.Bind` | extensified/_extension_decorator.py:48 | What `getattr` on a class yields for an entry. It keeps the entry's descriptor hooks, and only a classmethod becomes callable. The result is bound to the looked-up class exactly when the entry is a classmethod or was already bound to that class. It is never a raw classmethod or staticmethod wrapper. |
| `PyRuntime.DirResolves` | extensified/_extension_decorator.py:57-58 | A name is listed by `dir(cls)` exactly when attribute lookup on `cls` finds an entry for it, so `getattr` in the comprehension never fails. |
| `PyRuntime.GetAttr` | extendme/_extension_decorator.py:48 | `getattr(cls, name)` succeeds exactly for the names `dir(cls)` lists. A name in the class's own table resolves to that entry, bound to the class, before any base is consulted. |
| `PyRuntime.TypeObject.SetAttr` | extensified/_extension_decorator.py:49 | `setattr` on a built-in type raises TypeError and leaves its table as it was. On any other class, only the entry `name` changes, to the given value. |
| `PyRuntime.TypeObject.AsClass` | extensified/_extension_decorator.py:49 | The target class as attribute lookup sees it now: every entry of its own table is what `getattr` on it finds, bound to the target. |
| `ExtensionDecorator.IsDescriptor` | extensified/_extension_decorator.py:69-70 | `_is_descriptor` holds for every function, property, classmethod, staticmethod and bound method. Any other object is a descriptor exactly when its type defines `__get__`, `__set__` or `__delete__`. |
| `ExtensionDecorator.InheritedQualifyingNames` | extensified/_extension_decorator.py:60-65 | `parent_classes_method_names` contains every qualifying name of every direct base. All of them are names that `dir(cls)` lists through the bases. |
| `ExtensionDecorator.QualifiesExactly` | extendme/_extension_decorator.py:69-70 | A value qualifies (callable, or has `__get__`, `__set__` or `__delete__`) exactly when it is not a non-callable object without any descriptor hook. Every function, property, classmethod, staticmethod and bound method qualifies. |
| `ExtensionDecorator.QualifiesIgnoresReceiver` | extensified/_extension_decorator.py:58-64 | Whether the looked-up value qualifies does not depend on which class `getattr` was called on. |
| `ExtensionDecorator.QualifyingNames` | extensified/_extension_decorator.py:55-59 | Both directions: a name is in the comprehension exactly when attribute lookup on the class finds an entry for it (in the class or any base) whose value, bound to the class, is callable or a descriptor. |
| `ExtensionDecorator.InheritedUnlessOwn` | extendme/_extension_decorator.py:54-66 | A qualifying name that the class does not hold in its own table qualifies on one of its direct bases, so the set difference removes it. |
| `ExtensionDecorator.NonInheritedMethodNames` | extendme/_extension_decorator.py:54-66 | The result is a subset of the extension class's own member table. Each name's own entry qualifies, and no name qualifies on any direct base. |
| `ExtensionDecorator.NonInheritedIsOwnQualifying` | extensified/_extension_decorator.py:54-66 | Both directions: a name is selected if and only if the class declares it, its bound value qualifies, and no direct base has a qualifying value under that name. |
| `ExtensionDecorator.RedeclaredBaseNameExcluded` | extendme/_extension_decorator.py:60-66 | A name the extension redeclares, whatever its new value, is never selected when a direct base has a qualifying value for it. The base may declare the name itself (such as `object` with `__init__` or `__repr__`) or inherit it through `dir(base)`. |
| `ExtensionDecorator.InstallTable` | extensified/_extension_decorator.py:47-48 | The entries written are keyed by exactly the selected names. Each value is the extension's own declaration, bound to the extension class, and it qualifies. |
| `ExtensionDecorator.Installed` | extendme/_extension_decorator.py:46-49 | After decoration, the target's names are its old names plus the selected ones. Each selected name maps to `getattr(extension_class, name)`, and every other entry keeps its old value. |
| `ExtensionDecorator.ExtensionOn` | extensified/_extension_decorator.py:46-51 | The decorator returns (`None`) unless the target refuses assignment and some name is selected; in that case TypeError is raised. After a return the target's table is `Installed(old table, ext)`. After the TypeError the table is unchanged. This holds whatever order the names are visited in. |
| `ExtensionDecorator.InstallIdempotent` | extendme/_extension_decorator.py:46-49 | Applying the same extension twice leaves the target's table equal to applying it once. |
| `ExtensionDecorator.LastWriteWins` | extensified/_extension_decorator.py:46-49 | With two extensions applied in turn, a name the second selects holds the second's value. A name only the first selects holds the first's value. |
| `ExtensionDecorator.DisjointExtensionsCommute` | extendme/_extension_decorator.py:47-49 | Extensions whose selected names are disjoint give the same table in either order. |
| `ExtensionDecorator.InstalledVisibleOnTarget` | extensified/_extension_decorator.py:46-49 | When the target object's table is the one `ExtensionOn` leaves, `getattr` on the target (`target.AsClass()`) finds each selected name as the target's own entry: the extension's value, bound again through the target. |
| `ExtensionDecorator.ClassAndStaticMethodsAsInstalled` | extensified/_extension_decorator.py:40-49 | No rebinding happens. A `@classmethod` arrives on the target as a method bound to the extension class, not the target. A `@staticmethod` arrives as its bare function. |
| `Scenarios.WeakrefAlwaysSelected` | extendme/_extension_decorator.py:54-66 | A class whose only base is `object` and whose own table holds a `__weakref__` descriptor selects `__weakref__`. |
| `Scenarios.OverridingOriginalMethod` | tests/test_extension_classes.py:105-113 | An extension redefining `years_until_death` replaces `User`'s own method, and `getattr` on `User` finds the new one. Its `__repr__`, which `object` also has, is not copied. |
| `Scenarios.PropertyGetter` | tests/test_extension_classes.py:38-52 | A `@property` of the extension is installed on `User` as the same property object. |
| `Scenarios.ExtendBuiltin` | tests/test_extension_classes.py:116-122 | Extending a built-in type with a method raises TypeError and leaves the type's table unchanged. |
| `Scenarios.ExtendBuiltinWithEmptyBody` | extensified/_extension_decorator.py:15-16 | Extending a built-in type with a class whose only base is `object` and whose body is empty still raises TypeError, because its own `__weakref__` is selected. |
| `Scenarios.ExtendBuiltinThroughMixin` | extendme/_extension_decorator.py:46-51 | An empty extension whose base is a user-defined mixin holding `__weakref__` selects no name, so extending a built-in type with it returns without raising. |
| `Scenarios.ExtendBuiltinWithNothing` | extendme/_extension_decorator.py:46-51 | On a built-in type, an extension declared with `__slots__ = ()` that selects no name makes no assignment, so the decorator returns without raising. |
| `Scenarios.RedeclaredThroughMixinExcluded` | extensified/_extension_decorator.py:60-66 | `__repr__` redeclared by an extension of a mixin is excluded, because the mixin inherits `object`'s `__repr__`. |

## Left out

- Attribute lookup is modelled as depth-first over `__bases__`. It agrees with Python's C3 method resolution order for single inheritance. With several bases it can differ, because every base shares `object`. Depth-first lookup reaches `object` through the first base before it reaches a later base's override, for example the `__hash__ = None` Python sets on a class that defines `__eq__`.
- The metaclass is not modelled. In Python, data descriptors on `type` take precedence in `getattr(cls, name)` (for example `__dict__`, which yields a mapping proxy). Entries Python adds to a class implicitly (`__module__` and `__doc__` always, `__dict__` and `__weakref__` when no base provides them already) are present only when a model class lists them.
- `__weakref__` is not handled specially. A class statement without `__slots__` whose only base is `object` selects its own `__weakref__` descriptor, so decorating with it also overwrites the target's `__weakref__` entry with the extension's. The model shows this only where a class lists the entry (`Scenarios.WeakrefAlwaysSelected`). An extension that inherits `__weakref__` from a user-defined base has no entry of its own and does not select the name (`Scenarios.ExtendBuiltinThroughMixin`).
- The `__get__` of an arbitrary object (`Other`) is foreign code. It is taken to return the object itself.
- Iteration order over the name set and the sorted list `dir` returns are not modelled. Names are visited by an arbitrary choice, and the postcondition shows that the order cannot change the result.
- Why built-in types refuse `setattr` is not modelled. It is a fixed flag on the class object.
- `extension_on(target)` returning the inner `decorator` closure is flattened into a single method `ExtensionOn(target, ext)`. The target is a mutable class object. The extension class and its bases are values that the decorator does not change. The case where the target is itself a base of the extension class (aliasing) is not covered.
- The bodies of the installed methods, and what happens when they are later called on instances (binding `self`, running getters and setters), are not modelled. Entries carry a code identity only.
- Concurrent registration is not modelled, because the code does nothing about it.
