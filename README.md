# openscope route segments and event observers in Dafny

This project models two small parts of the openscope air-traffic-control
simulator and proves properties of them.

- **RouteModel**: one procedure route segment `ENTRY.PROCEDURE.EXIT`, for example
  `BETHL.GRNPA1.KLAS`. The constructor checks that its string is a procedure route
  string. A bad string raises an error. A good string is split on `.` and its three
  pieces are stored upper-cased as `entry`, `procedure` and `exit`. Two more pieces
  belong to it: the `routeCode` getter, which rebuilds the canonical string, and
  `reset`, which clears the three names. Two static predicates classify route
  strings. `isProcedureRouteString` needs exactly three pieces with a non-empty middle
  one; an empty middle piece (`A..B`) marks a direct route instead. `isHoldRouteString`
  asks whether the hold symbol `@` occurs anywhere.
- **EventModel**: a named subject holding an ordered list of observers, with add,
  remove and a membership test. The list never holds an observer twice.

Files:

- `wrappers.dfy` (module `Wrappers`): `Option`, which stands for JavaScript's
  `undefined`, and `Result`, which stands for an exception.
- `seqs.dfy` (module `Seqs`): `indexOf` on arrays and strings, `splice(i, 1)` on arrays, the
  no-duplicates property, and the lemmas the observer list needs.
- `strings.dfy` (module `Strings`): `String.prototype.split` with a one-character
  separator, its inverse `Join`, and ASCII `toUpperCase`, with the lemmas linking them.
- `route.dfy` (module `Route`): the `RouteModel` class, its static predicates and the
  lemmas about route strings.
- `events.dfy` (module `Events`): the `EventModel` class.

Both source classes update fields in place, so both are Dafny classes. Their methods
have `modifies` clauses and state the whole new state. The string and array operations
are pure functions, and the properties are proved about them. The JavaScript
constructor of `RouteModel` can throw. Dafny constructors cannot fail, so it becomes
the static method `RouteModel.New`, which returns a `Result`: on failure no object
exists, and on success it returns a fresh object. The anonymous Dafny constructor
models only the field defaults the source assigns before `_init`.

The doc comment of `HOLD_SEGMENT_SYMBOL` (RouteModel.js:3-5) says the symbol prepends
a fix name, but `isHoldRouteString` (RouteModel.js:193) accepts `@` at any position; the
model follows the code. The constructor throws a `TypeError` (RouteModel.js:63); the
model's error is `InvalidRouteCode(routeCode)`.

## Model

| member | source | states |
|---|---|---|
| `Strings.Split` | src/assets/scripts/client/navigationLibrary/Route/RouteModel.js:174 | `split('.')` gives one more piece than the string has separators. No piece contains the separator. |
| `Strings.JoinSplit` | src/assets/scripts/client/navigationLibrary/Route/RouteModel.js:138 | Joining the pieces of a split with the separator gives the original string back. |
| `Strings.SplitJoin` | src/assets/scripts/client/navigationLibrary/Route/RouteModel.js:138 | Separator-free pieces joined by the separator split back into exactly those pieces. |
| `Strings.ToUpper` | src/assets/scripts/client/navigationLibrary/Route/RouteModel.js:111-113 | `toUpperCase` (ASCII) keeps the length. It leaves no lower-case letter. Each lower-case letter becomes its upper-case form and every other character is kept. |
| `Strings.ToUpperIdempotent` | src/assets/scripts/client/navigationLibrary/Route/RouteModel.js:111-113 | Upper-casing twice is the same as upper-casing once. |
| `Strings.SplitToUpper` | src/assets/scripts/client/navigationLibrary/Route/RouteModel.js:108-116 | Splitting the upper-cased string on `.` gives the upper-cased pieces of the original split. |
| `Seqs.IndexOf` | src/assets/scripts/client/lib/EventModel.js:80 | `indexOf` is -1 exactly when the element is absent. Otherwise it is an in-range index holding the element, with no earlier occurrence. |
| `Seqs.RemoveAt` | src/assets/scripts/client/lib/EventModel.js:68 | `splice(i, 1)` deletes exactly the element at i. The length drops by one, the multiset loses that one element, and the elements before and after keep their positions and order. |
| `Seqs.RemoveFirstIsWithout` | src/assets/scripts/client/lib/EventModel.js:67-68 | In a duplicate-free list, deleting at the first index of x equals the reference filter that drops every x and keeps the rest in order. |
| `Seqs.RemoveFirstKeepsNoDuplicates` | src/assets/scripts/client/lib/EventModel.js:62-69 | Removing from a duplicate-free list keeps it duplicate-free, and the removed element is then absent. |
| `Seqs.AppendKeepsNoDuplicates` | src/assets/scripts/client/lib/EventModel.js:47-53 | Appending an absent element to a duplicate-free list keeps it duplicate-free. |
| `Seqs.WithoutAbsent` | src/assets/scripts/client/lib/EventModel.js:62-65 | Filtering out an absent element leaves the list unchanged. |
| `Seqs.RemoveUndoesAppend` | src/assets/scripts/client/lib/EventModel.js:47-69 | The first index of a just-appended absent element is the old length, and splicing it out gives the old list back. |
| `Route.ExtractSegmentNames` | src/assets/scripts/client/navigationLibrary/Route/RouteModel.js:137-145 | The entry piece is always defined. The base is defined iff the code holds a `.`, and the exit iff it holds at least two. No defined piece contains `.`. |
| `Route.RouteModel.constructor` | src/assets/scripts/client/navigationLibrary/Route/RouteModel.js:66-85 | The three names default to the empty string, which is a valid state. |
| `Route.RouteModel.New` | src/assets/scripts/client/navigationLibrary/Route/RouteModel.js:52-88 | It fails with `InvalidRouteCode`, creating no object, iff the string is not a procedure route string. On success it returns a fresh valid model. Its entry, procedure and exit are the upper-cased pieces 0, 1 and 2, its procedure is non-empty, and its route code equals the upper-cased input. |
| `Route.RouteModel.Init` | src/assets/scripts/client/navigationLibrary/Route/RouteModel.js:108-116 | It stores the upper-cased pieces 0, 1 and 2 as entry, procedure and exit, and leaves the model valid: the names are upper-case and `.`-free. |
| `Route.RouteModel.Reset` | src/assets/scripts/client/navigationLibrary/Route/RouteModel.js:124-128 | All three names become empty, the model stays valid, and the route code becomes `..`. |
| `Route.RouteModel.RouteCode` | src/assets/scripts/client/navigationLibrary/Route/RouteModel.js:96-98 | On a valid model the route code splits on `.` back into exactly `[entry, procedure, exit]`. |
| `Route.RouteModel.IsProcedureRouteString` | src/assets/scripts/client/navigationLibrary/Route/RouteModel.js:173-179 | True iff the string holds exactly two `.` separators (so it splits into exactly three pieces) and the middle piece is non-empty. An empty entry or exit piece is accepted, and `A..B` is rejected. `ProcedureRouteStringShape` and `ProcedureRouteStringOfPieces` characterise it in both directions. |
| `Route.RouteModel.IsHoldRouteString` | src/assets/scripts/client/navigationLibrary/Route/RouteModel.js:193 | It is true iff `@` occurs anywhere in the string, not only first. |
| `Route.ProcedureRouteStringShape` | src/assets/scripts/client/navigationLibrary/Route/RouteModel.js:173-179 | A procedure route string has exactly two separators and a non-empty middle piece. It is its three pieces joined by `.`. |
| `Route.ProcedureRouteStringOfPieces` | src/assets/scripts/client/navigationLibrary/Route/RouteModel.js:173-179 | Conversely, any three `.`-free pieces with a non-empty middle, joined by `.`, form a procedure route string that splits back into those pieces. Empty entry or exit pieces are accepted (`.X.`). |
| `Route.DirectRouteStringIsNotProcedure` | src/assets/scripts/client/navigationLibrary/Route/RouteModel.js:176-178 | A direct route string `A..B`, with an empty middle piece, is not a procedure route string. |
| `Route.WrongSeparatorCountIsNotProcedure` | src/assets/scripts/client/navigationLibrary/Route/RouteModel.js:174-175 | A string without exactly two separators is not a procedure route string. |
| `Route.UpperRouteCode` | src/assets/scripts/client/navigationLibrary/Route/RouteModel.js:108-116 | For a procedure route string, the route code of its upper-cased pieces equals the upper-cased string. |
| `Route.RouteCodeReparses` | src/assets/scripts/client/navigationLibrary/Route/RouteModel.js:96-98 | Round trip: the route code of upper-case `.`-free names with a non-empty procedure is a procedure route string. Extracting and upper-casing its pieces again gives the same entry, procedure and exit. |
| `Events.EventModel.constructor` | src/assets/scripts/client/lib/EventModel.js:12-28 | The name is the given name and the observer list starts empty, so it has no duplicates. |
| `Events.EventModel.Init` | src/assets/scripts/client/lib/EventModel.js:36-38 | It sets the name and leaves the observers unchanged. |
| `Events.EventModel.HasObserver` | src/assets/scripts/client/lib/EventModel.js:79-81 | It is true iff the observer is an element of the list. |
| `Events.EventModel.AddObserver` | src/assets/scripts/client/lib/EventModel.js:47-53 | A present observer leaves the list unchanged. An absent one is appended at the end. Either way the observer is then present, the name is unchanged, and the no-duplicates invariant is kept. |
| `Events.EventModel.RemoveObserver` | src/assets/scripts/client/lib/EventModel.js:62-69 | An absent observer is a no-op. Otherwise exactly the element at its first index is spliced out and the name is unchanged. On a duplicate-free list, the result stays duplicate-free, lacks the observer, and equals the old list with it filtered out. |
| `Events.AddObserverIdempotent` | src/assets/scripts/client/lib/EventModel.js:47-53 | Adding the same observer twice leaves the same list as adding it once. |
| `Events.RemoveUndoesAdd` | src/assets/scripts/client/lib/EventModel.js:47-69 | Removing an observer just added to a list that lacked it restores the list and the name. |

## Left out

- The non-string guard of the `RouteModel` constructor (RouteModel.js:55-59) is left out. It logs to the console and returns a half-built object. With a `string` parameter that case cannot arise.
- `BaseModel`, the superclass of `RouteModel`, is not part of this model. It is treated as an empty base.
- Multi-segment route expansion is left out. It appears only in a to-do comment (RouteModel.js:43-46) and is not implemented.
- `_isValidRouteCode` (RouteModel.js:156-158) only forwards to `isProcedureRouteString`, so `New` calls `IsProcedureRouteString` directly.
- `Route.RouteModel.Init`: requires that the split has at least three pieces. In the source, `_init` calls `toUpperCase` on a missing piece and throws. Its only caller validates the string first, so the model does not cover that path.
- `Strings.ToUpper`: upper-cases ASCII letters only. The full Unicode case mapping of JavaScript `toUpperCase` is not modelled.
- `Route.RouteModel.New`: does not return the object identity the JavaScript `return this._init(...)` passes along. It returns the new model inside a `Result` instead.
- Observer callbacks are never invoked by `EventModel`. They are opaque values compared by identity (Dafny `==` on a type parameter).
- The aircraft behaviour exercised in test/aircraft/AircraftModel.spec.js is not part of this model: approach guidance, glidepath checks, `cancelLanding`, `updateTarget`, `taxiToRunway` and `matchCallsign`. Its implementation is not among the files modelled. It rests on floating-point geodesy and on global UI and game singletons.
