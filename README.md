# Crayon router bootstrap, static mount and retirement calculator: a Dafny model

This project models three small parts of the repository.

- **The retirement drawdown calculator** (`src/retirement/index.tsx`):
  - `calculate` builds the year-by-year schedule of a fund. Each year pays out an inflation-indexed withdrawal, the remainder grows at a fixed rate, and a year that would end below zero is replaced by a zeroed row.
  - `calculateEndBalance` tries withdrawals 0, 500, 1000, … and keeps the last schedule whose final year still ends above zero. It stops at a circuit breaker of 4 000 000 steps.
  - `range` lists the integers between two bounds, inclusive.
  - `parseNumber` coerces a form field to a number: 0 for a falsy value, a number unchanged, and otherwise `parseInt(text, 10)`.
- **The router factory** (`src/platform/crayon/lib/create.ts`):
  - `create` resolves the shared state in three tiers: the explicit argument, then the slot on the window, then a new History wrapped in a new SharedState.
  - It then builds a router that borrows the shared History and event stream, and registers the router.
  - `onRouterDestroy` unregisters the router once a `Destroyed` event carrying its id goes by.
- **The static mount transition** (`src/platform/crayon/platform/mount/mount-static.ts`):
  - Push the incoming view, then read the leaving and entering targets.
  - Mark the entering target with the route's class name.
  - On first load (no leaving target), also mark it "enter done". Otherwise hand over to the mounter's `shift`.

How the model represents things:

- Money is `real`, so it is exact. Ages and step counts are `int`.
- `calculate`, `calculateEndBalance` and `range` are loops. They are modelled as methods and proved against specification functions:
  - `Schedule` and the predicate `IsSchedule`;
  - `FirstExhaustingStep` and `EndBalanceResult`.
- The factory is a set of classes:
  - `Window` has a shared-state slot.
  - `SharedState` has a registry of router ids and the set of destroy watchers still waiting.
  - Event delivery is specified by the functions `Deliver` and `DeliverAll`.
- The DOM of the mount is a map from element to its set of class names.
- The mounter keeps a log of the views pushed to it and a count of its shifts.

## Model

| member | source | states |
|---|---|---|
| Retirement.YearRow | src/retirement/index.tsx:250-280 | a year's row has the given age, ends the year at or above zero, and has balance, growth, end balance and gross consistent with its capital and withdrawal; it keeps the opening capital and withdrawal exactly when the end-of-year balance is not negative, and is the all-zero row otherwise |
| Retirement.Schedule | src/retirement/index.tsx:246-281 | the schedule has one row per age from start to end (none when start > end); the first row follows from the fund size and requested withdrawal, and every later row from the row before it |
| Retirement.ScheduleIsUnique | src/retirement/index.tsx:246-281 | two row sequences that both satisfy the recurrence and have the same length are equal, so the options determine the schedule |
| Retirement.ScheduleRowsAreSound | src/retirement/index.tsx:250-280 | every row of a schedule has age start + k, a non-negative end balance, and consistent derived fields |
| Retirement.ScheduleRecurrence | src/retirement/index.tsx:248-255 | a kept row opens with the fund size and requested withdrawal in year 0, and afterwards with last year's end balance and last year's withdrawal raised by inflation; a row whose end balance would be negative is the zeroed row for its age |
| Retirement.ZeroRowIsAbsorbing | src/retirement/index.tsx:268-280 | once a row is zeroed, every later row is zeroed too |
| Retirement.NextRow | src/retirement/index.tsx:247-280 | the row assembled field by field, zeroed when its end balance is negative, is the row the recurrence prescribes after the previous row |
| Retirement.Calculate | src/retirement/index.tsx:234-287 | returns exactly the schedule: endAge - startingAge + 1 rows, none when start > end, row k at age start + k with a non-negative end balance |
| Retirement.FirstExhaustingStep | src/retirement/index.tsx:298-307 | the first step at or after `from` whose final-year balance is not positive (or the circuit breaker), with every earlier step positive |
| Retirement.FirstExhaustingStepIsUnique | src/retirement/index.tsx:298-307 | a step with every earlier step positive and itself exhausting (or at the circuit breaker) is the first exhausting step |
| Retirement.EndBalanceResult | src/retirement/index.tsx:289-311 | the result is an error exactly when the age range is empty (the last row is undefined); otherwise it is empty exactly when a zero withdrawal already exhausts the fund, and else a full schedule whose final year ends above zero |
| Retirement.EndBalanceIsLastSustainableStep | src/retirement/index.tsx:298-306 | when steps 0 to s all keep the final year above zero and step s + 1 does not (or is the circuit breaker), the result is the schedule of step s, i.e. of the largest sustainable withdrawal |
| Retirement.EndBalanceIgnoresTarget | src/retirement/index.tsx:289-292 | the result does not depend on `endBalance` |
| Retirement.ZeroedYearExhausts | src/retirement/index.tsx:268-280 | a withdrawal that zeroes any year leaves a final balance that is not positive, so such a step stops the search |
| Retirement.CalculateEndBalance | src/retirement/index.tsx:289-311 | the loop returns exactly `EndBalanceResult` |
| Retirement.Range | src/retirement/index.tsx:353-359 | no numbers when a bound is missing; otherwise to - from + 1 numbers (none when from > to), the k-th being from + k |
| NumberInput.TrimStart | src/retirement/index.tsx:221 | the result is a suffix of the input, everything dropped is white space, and the result does not start with white space |
| NumberInput.DigitRun | src/retirement/index.tsx:221 | the run covers only digits and stops at the first non-digit |
| NumberInput.ParseNumber | src/retirement/index.tsx:214-222 | a falsy input (empty text, 0, NaN) gives 0; a number input gives a finite number, itself when finite; non-empty text gives `parseInt` of it |
| NumberInput.Digits | src/retirement/index.tsx:221 | the decimal text of a natural number is non-empty and all digits |
| NumberInput.DecimalValueOfDigits | src/retirement/index.tsx:221 | reading the digits of n gives n |
| NumberInput.ParseIntOfDecimal | src/retirement/index.tsx:221 | `parseInt` reads back any integer written in decimal, whatever non-digit text follows it |
| NumberInput.ParseIntSkipsWhiteSpace | src/retirement/index.tsx:221 | leading white space does not change what `parseInt` reads |
| NumberInput.ParseNumberOfDecimal | src/retirement/index.tsx:214-222 | a field holding the decimal text of an integer coerces to that integer |
| RouterFactory.Deliver | src/platform/crayon/lib/create.ts:47-56 | an event other than `Destroyed` changes nothing; a `Destroyed` event for a waiting watcher's id removes that router and that watcher and nothing else; registered routers stay covered by watchers |
| RouterFactory.DeliverAllKeepsCover | src/platform/crayon/lib/create.ts:41-42 | along any event sequence, every registered router still has its watcher, and the registry only shrinks |
| RouterFactory.RegisteredUntilDestroyed | src/platform/crayon/lib/create.ts:47-56 | a router is still registered after a sequence of events exactly when it was registered and no `Destroyed` event with its id was among them |
| RouterFactory.DestroyRemovesOnlyItsRouter | src/platform/crayon/lib/create.ts:51-55 | destroying one router removes it and leaves another registered router in place |
| RouterFactory.SharedState.AddRouter | src/platform/crayon/lib/create.ts:41 | the registry gains the router's id |
| RouterFactory.SharedState.Dispatch | src/platform/crayon/lib/create.ts:51-55 | the new registry state is `Deliver` of the old one, and a registry whose routers all have watchers keeps that property |
| RouterFactory.SharedState.DispatchAll | src/platform/crayon/lib/create.ts:51-55 | the new registry state is `DeliverAll` of the old one, and a registry whose routers all have watchers keeps that property |
| RouterFactory.OnRouterDestroy | src/platform/crayon/lib/create.ts:47-56 | arms a watcher for the router's id and leaves the registry alone |
| RouterFactory.Create | src/platform/crayon/lib/create.ts:13-45 | three-tier resolution of the shared state (explicit, then the window's slot, then a new History for `_window` in a new state stored on the global window); the router has the given id, a Location on `_window`, the shared History and event stream, and is registered with its watcher armed; an explicit state leaves the state stored on `_window` alone, and the registry keeps every router covered by its watcher |
| RouterFactory.ForeignWindowBuildsTwoHistories | src/platform/crayon/lib/create.ts:22-29 | with a `_window` other than the global one, two calls to `create` build two different Histories and event streams |
| RouterFactory.CreateOnOwnWindow | src/platform/crayon/lib/create.ts:22-29 | `create` with the new state stored on `_window`: the window's slot then holds the state the router was attached to |
| RouterFactory.CreateAll | src/platform/crayon/lib/create.ts:13-45 | routers created on the window the new state is stored on (the global window as written, or any window with the corrected store) share one History, one event stream and one registry |
| RouterFactory.DestroyOneOfTwo | src/platform/crayon/lib/create.ts:47-56 | with the corrected store, two routers on one window: an event of another type leaves both registered and watched, and destroying one then leaves exactly the other registered and watched |
| MountStatic.Dom.AddClassNames | src/platform/crayon/platform/mount/mount-static.ts:16 | the element's class names grow by the given names; no other element changes |
| MountStatic.MountedClassesChangeOnlyEntering | src/platform/crayon/platform/mount/mount-static.ts:15-23 | only the entering target's classes change: by the route's name, and also by `enterDone` on first load |
| MountStatic.EnterDoneOnlyOnFirstLoad | src/platform/crayon/platform/mount/mount-static.ts:19-23 | the entering target gains `enterDone` exactly when there is no leaving target |
| MountStatic.StaticMount | src/platform/crayon/platform/mount/mount-static.ts:6-26 | the incoming view is pushed before the targets are read; the DOM changes only as `MountedClasses` says; there is no shift on first load and exactly one shift otherwise |

## Left out

- The calculator's UI (form state, charts, rendering) and `onNumberInput` are not modelled.
- Floating point is not modelled:
  - money is exact `real`;
  - rounding, overflow to Infinity and NaN arising from arithmetic are absent.
- Retirement.Calculate: the `try`/`catch` returning `[]` is not modelled, because nothing in the loop can throw. `superBalance` is carried but never read, as in the source.
- `calculateEndBalance` on an empty age range: the source throws a TypeError when reading the last row's end balance. The model returns `Err`.
- NumberInput.ParseNumber: a `Number` input that is `Infinity` is not modelled, because `JsNumber` is finite or NaN.
- `parseInt`:
  - is modelled for radix 10 over integers only;
  - stops at the first non-digit, so the model has no fractional or exponent parts.
- `genString.ofLength(10)`, the default id, is left out. The id is a parameter.
- The default `_window = window` is left out. The global window is the parameter `ambient`.
- The internals of History, Location, RouteMap and Router are not part of this model. They are opaque objects that record what they were built with.
- The shared-state module is not part of this model: whether a second attachment to the same slot fails is unknown, so `setSharedState` is modelled as overwriting the slot.
- The event stream's subscription machinery is left out:
  - asynchronous delivery is modelled as events delivered one at a time, in order, to the watchers armed before them;
  - `await` points become sequential steps.
- The mounter's own effect on the page (`push`, `shift`) is not part of this model; only the order of calls is recorded.
- `getRouteTargets` is not part of this model. It is a parameter: a function of the selector and of the views pushed so far.
- `element.waitForElements` is started and not awaited, so it is left out.
- `ClassNameStates` is reduced to its `enterDone` field.
- `entering` is a single element.
- `src/platform/crayon/lib/group.ts`, `src/platform/crayon/platform/sleep/sleep.ts` and `build.ts` are outside the modelled core.

## Findings

| source | as written | input that shows it | evidently intended | confidence | as-written member | corrected member |
|---|---|---|---|---|---|---|
| src/platform/crayon/lib/create.ts:28 | `setSharedState(sharedState)` stores the new state on the global window, while the lookup at line 23 reads `_window` | two `create` calls with the same `_window` other than the global window: each finds the slot empty and builds its own History and event stream | store the new state on `_window`, so that routers on one window share one History and event stream | medium, not executed | RouterFactory.ForeignWindowBuildsTwoHistories | RouterFactory.CreateOnOwnWindow |
