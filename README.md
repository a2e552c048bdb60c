# where-property-from, modelled in Dafny

The program answers the question "which class of this object's inheritance
chain declares this property?". It does so with two JavaScript functions:

- `getClassHierarchy(obj, hierarchy)` lists the constructors of the
  object's prototype levels, from the most-derived one to the root. It does
  this by pushing onto an accumulator array that its recursive calls share.
- `getPropertyOwner(obj, propertyName)` answers `null` for a null object.
  For an own property name it answers `obj.constructor.name`. Otherwise it
  picks the first hierarchy entry the object is an instance of, which is
  `objClass`, or the last entry when there is none. It answers `'Object'`
  when the hierarchy is empty, and `objClass.constructor.name` when the
  constructor function has the name as one of its own. In every other case it recurses on `objClass.prototype`.

The model replaces JavaScript's live heap with a fixed store of objects
(module `Prototypes`). An object is an index into a sequence. Each object
records four things:

- its own property names;
- its `__proto__` link;
- the value that `obj.constructor` reads;
- for a constructor function, its `name` and `prototype`.

`instanceof` is "the constructor's `prototype` lies strictly above the
object on its `__proto__` chain".

Two assumptions stand in for a sane heap:

- `Valid`: every link points into the store, and `__proto__` always points
  to a larger index, so chains are acyclic.
- `Linked(st, o)`: going up from `o`, every prototype level P whose
  constructor C is not null has `C.prototype == P`. The condition stops at
  the first level whose constructor is null, which is also where the walk
  stops; nothing above it is constrained. This holds per object, not for
  the whole heap. In JavaScript `Student.__proto__` is the function `Man`, and
  `Man.constructor.prototype` is `Function.prototype`, not `Man`.

Module `Hierarchy` holds `getClassHierarchy`. The method `GetClassHierarchy`
follows the JavaScript function step by step: it pushes onto a
`ClassList` object and continues from `C.prototype`. It is proved against `ClassHierarchy`, a function that
follows `__proto__` links instead.

Module `Ownership` holds `getPropertyOwner`. The method `GetPropertyOwner`
follows the JavaScript function step by step: it builds the hierarchy,
runs the selection loop (`SelectClass`) and recurses on
`objClass.prototype`. It is proved equal to
`PropertyOwner`, a reference definition along `__proto__` links. Lemmas
about `PropertyOwner` characterise the answer by the first level that
declares the name.

The result type `Owner` has three cases:

- `NullInput` is the `null` of line 64.
- `Label(s)` is a constructor's name, or the literal `'Object'`.
- `TypeError` is what JavaScript throws when the code reads `.name` of a
  null `constructor`.

`NameOf` is the definition of reading `.name` at lines 73 and 90: a
constructor reference gives `Label` of that constructor's name, and a null
one gives `TypeError`.

Module `Scenario` encodes the program's classes, prototypes and instance
`john` as a fixed store. It proves the program's five expected answers.

Three behaviours of the code are easy to misread:

- Besides the object's own names, the code checks the constructor
  function's own names (lines 88-90). That case answers the constructor's
  constructor (`Function`), not the class.
- `'toString'` is answered `'Object'` because `Object.prototype` has
  `toString` as an own name. The empty-hierarchy fallback is not what
  produces it.
- The selection loop falls back to the last entry when the object is an
  instance of no entry. `'Object'` comes only from an empty hierarchy.

## Model

| member | source | states |
|---|---|---|
| `Prototypes.Levels` | where-property-from.js:46-53 | the levels the lookup visits start at the object; each next one is the previous level's `__proto__` and has a non-null constructor; the last one has a null `__proto__` or a `__proto__` with a null constructor |
| `Hierarchy.ClassList.Push` | where-property-from.js:50 | `push` appends exactly one constructor to the accumulator |
| `Hierarchy.GetClassHierarchy` | where-property-from.js:42-56 | a null accumulator is replaced by a fresh list and a given one is returned itself; the result is the incoming contents followed by the constructors of the successive `__proto__` levels, so the incoming contents are a prefix and nothing else is added |
| `Hierarchy.HierarchyEmptyAtTop` | where-property-from.js:46-48 | the walk adds nothing if and only if the object is null, its `__proto__` is null, or that prototype's constructor is null |
| `Hierarchy.HierarchyFollowsLevels` | where-property-from.js:50-53 | the hierarchy has one entry fewer than there are levels, and entry k is the constructor of level k + 1, most-derived first |
| `Hierarchy.HierarchyLinksBack` | where-property-from.js:51-53 | in a linked chain, entry k's `prototype` is level k + 1, so following `C.prototype` visits the same levels as following `__proto__` |
| `Prototypes.InstanceOf` | where-property-from.js:80 | `obj instanceof objClass`: `objClass.prototype` lies strictly above the object on its `__proto__` chain; when it holds, that prototype is an object other than `obj`, higher in the store |
| `Hierarchy.ClassHierarchy` | where-property-from.js:42-56 | the reference definition of the walk's result: the constructor of `obj.__proto__`, then of each next level up, until a null `__proto__` or a null constructor; every entry is an object of the store |
| `Ownership.PropertyOwner` | where-property-from.js:61-96 | the reference definition of the answer along `__proto__` links; it is null exactly for a null object, and a label is always `'Object'` or the name of some object of the store |
| `Ownership.SelectClass` | where-property-from.js:77-83 | `objClass` is the first entry the object is an instance of, or the last entry when none is; it stays null if and only if the hierarchy is empty |
| `Ownership.SelectsFirstEntry` | where-property-from.js:78-81 | in a linked chain the object is an instance of the first hierarchy entry, whose `prototype` is the object's `__proto__`, so the loop stops at entry 0 |
| `Ownership.GetPropertyOwner` | where-property-from.js:61-96 | the program's lookup (null check, own names, selection loop, `'Object'` fallback, constructor-function names, recursion on `objClass.prototype`) answers exactly `PropertyOwner` |
| `Ownership.NullInputHasNoOwner` | where-property-from.js:63-65 | a null object answers null for every name |
| `Ownership.OwnNameWins` | where-property-from.js:71-73 | an own name answers `obj.constructor.name`, whatever any level above declares |
| `Ownership.DeclaredAtLevel` | where-property-from.js:88-94 | when level k is the first level with the name as an own name, and no constructor function of levels 1..k has it, the answer is the name of level k's constructor |
| `Ownership.DeclaredOnConstructor` | where-property-from.js:88-90 | when the constructor function of level k is the first place the name is found, the answer is that function's own constructor's name, not the function's name |
| `Ownership.DeclaredNowhere` | where-property-from.js:84-86 | a name no visited level and no visited constructor function declares answers `'Object'` |
| `Scenario.FixtureLinked` | where-property-from.js:5-36 | the store built from the three classes, their prototype methods and `john` is well formed, and john's chain is linked |
| `Scenario.JohnLevels` | where-property-from.js:100 | the lookup from john visits john, `Student.prototype`, `Man.prototype`, `Human.prototype` and `Object.prototype` |
| `Scenario.JohnHierarchy` | where-property-from.js:42-56 | john's hierarchy is Student, Man, Human, Object; the hierarchy of `Object.prototype` is empty |
| `Scenario.JohnClassNames` | where-property-from.js:68 | the accumulator walk from john, read back as names, gives "Student", "Man", "Human", "Object" |
| `Scenario.AgeOwnedByStudent` | where-property-from.js:106 | `age`, assigned in Man's constructor, is owned by Student |
| `Scenario.GetSubjectOwnedByStudent` | where-property-from.js:107 | `getSubject` is owned by Student |
| `Scenario.GetAgeOwnedByMan` | where-property-from.js:108 | `getAge` is owned by Man |
| `Scenario.GetNameOwnedByHuman` | where-property-from.js:109 | `getName` is owned by Human |
| `Scenario.ToStringOwnedByObject` | where-property-from.js:110 | `toString` is owned by Object, through `Object.prototype`'s own names |
| `Scenario.PrototypeOwnedByFunction` | where-property-from.js:88-90 | `prototype`, an own name of the Student function, is owned by Function |
| `Scenario.LookUpJohn` | where-property-from.js:106-110 | the program's lookup gives Student, Student, Man, Human, Object for the program's five calls |

## Left out

- Console output and the greeting strings (where-property-from.js:102-104, 112-121) are display only.
- Real reflection is not modelled. `Object.getOwnPropertyNames`, the `__proto__` accessor and property lookup of `constructor` are replaced by fields of the store, and each object's `constructor` value is stored already resolved.
- The own-name sets of the built-ins `Object`, `Function`, `Object.prototype` and `Function.prototype` in the fixture are abbreviated. They hold the names the scenario needs and a representative few more.
- An `undefined` constructor is not modelled. Reading `.prototype` of it would throw. A constructor in the model is either an object or `null`.
- `instanceof` against a constructor whose `prototype` is not an object, or one with a custom `Symbol.hasInstance`, is not modelled. JavaScript throws or defers in those cases; the model answers false. Under `Linked`, every entry the lookup tests has an object `prototype`.
- `hierarchy || []` treats every falsy value as absent. The model has only `null` for that.
- Objects with a null `__proto__` other than `Object.prototype` (for instance `Object.create(null)`) are not modelled faithfully. Such an object does not inherit the `__proto__` accessor, so `obj.__proto__` is `undefined` and line 46 throws a TypeError when it reads `.constructor`. The model stores it with a null `__proto__` and answers `'Object'`.
- Non-callable constructors are not modelled. A `constructor` value that is not a function makes `instanceof` throw at line 80; the store has no notion of being callable, and every `constructor` it records is treated as a function.
- Non-termination of the program is not modelled. On an acyclic heap that is not linked (`a.__proto__ == p`, `p.constructor == F`, `F.prototype == a`) line 53 re-enters `getClassHierarchy(a)` and recurses forever. Acyclic `__proto__` links alone do not make the program terminate; `Linked` does, and the methods require it. Cyclic chains are excluded by `Valid`.
- Objects mutated or given new names after setup are not modelled. The store is fixed.
