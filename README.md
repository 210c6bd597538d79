# Observer pattern: subject, subscriptions and notification

This project models the conceptual Observer pattern demonstration in
`Program.cs`. A `Subject` holds an integer `State` and an ordered list of
attached observers. Its methods are:

- `Attach` appends an observer to the list.
- `Detach` removes the first entry that is the same object, using `List<T>.Remove`.
- `Notify` calls `Update` on every entry, in list order.
- `SomeBusinessLogic` draws a new state in [0, 10) and then notifies.

There are two concrete observers:

- `ConcreteObserverA` reacts when the state is below 3.
- `ConcreteObserverB` reacts when the state is 0 or at least 2.

The Dafny model is split into three modules:

- `ListOps` gives the .NET `List<T>.Remove` behaviour the subject depends on: remove the first match, found by a linear `IndexOf` search. `List<T>.Add` is plain sequence append, written `+ [o]` in `Subject.Attach`.
- `Observers` holds the two reaction rules. It also has an `Observer` class whose `kind` says which concrete observer class an object belongs to.
- `Subjects` holds the `Subject` class, the `Trace` function, and the client scenario of `Program.Main`. `Trace` states what a notification produces.

Each observer is a Dafny object. The reference equality that `List<T>.Remove` uses is therefore Dafny's `==` on objects. Two observer objects of the same kind are distinct entries. When an observer is attached more than once, `Detach` removes only its first entry, not every entry, because that is what `List<T>.Remove` does.

The observers write to the console. In the model, that output becomes a returned trace: one `Reaction(observer, reacted)` per `Update` call.

## Model

| member | source | states |
|---|---|---|
| `ListOps.RemoveFirst` | tpmod13_1302213131/tpmod13_1302213131/Program.cs:46 | removing from a list shortens it by exactly one when the element is present and leaves the length alone otherwise |
| `ListOps.IndexOf` | tpmod13_1302213131/tpmod13_1302213131/Program.cs:46 | the search returns -1 exactly when the element is absent, and otherwise the position of its first occurrence (no earlier position holds it) |
| `ListOps.RemoveFirstAbsent` | tpmod13_1302213131/tpmod13_1302213131/Program.cs:46 | removing an element that is not in the list leaves the list unchanged (no error) |
| `ListOps.RemoveFirstAt` | tpmod13_1302213131/tpmod13_1302213131/Program.cs:44-48 | when position i is the first occurrence, removal yields the entries before i followed by those after i, so every other entry keeps its relative order |
| `ListOps.RemoveFirstMultiset` | tpmod13_1302213131/tpmod13_1302213131/Program.cs:46 | removal takes exactly one copy of the element away from the list's multiset of entries, when there is one, and nothing else |
| `ListOps.RemoveFirstAfterAppend` | tpmod13_1302213131/tpmod13_1302213131/Program.cs:38-48 | attach followed by detach of the same observer restores the list when it was not attached before; when it was, the earlier copy is removed and the new one stays at the end |
| `Observers.Observer.constructor` | tpmod13_1302213131/tpmod13_1302213131/Program.cs:79-99 | a new observer object has the reaction rule of its class |
| `Observers.ReactsA` | tpmod13_1302213131/tpmod13_1302213131/Program.cs:83 | observer A's condition: of the states the business logic can draw, A reacts to exactly 0, 1 and 2, and it reacts to every negative state |
| `Observers.ReactsB` | tpmod13_1302213131/tpmod13_1302213131/Program.cs:94 | observer B's condition: of the states the business logic can draw, B reacts to every one except 1, and it never reacts to a negative state |
| `Observers.Observer.Reacts` | tpmod13_1302213131/tpmod13_1302213131/Program.cs:81-98 | an observer's Update decision by its class, read by state: every observer reacts at 0 and 2, only A observers at 1 and below 0, only B observers from 3 upward |
| `Observers.ReactionRegions` | tpmod13_1302213131/tpmod13_1302213131/Program.cs:81-98 | both observers react exactly at states 0 and 2; only A reacts exactly at state 1 and at negative states; only B reacts exactly from state 3 upward |
| `Subjects.Update` | tpmod13_1302213131/tpmod13_1302213131/Program.cs:57 | one `observer.Update(this)` call: the reaction belongs to the observer called, and it is positive exactly when the state is below 3 for an A observer, and when it is 0 or at least 2 for a B observer |
| `Subjects.Trace` | tpmod13_1302213131/tpmod13_1302213131/Program.cs:51-59 | a notification produces exactly one reaction per list entry |
| `Subjects.TraceAt` | tpmod13_1302213131/tpmod13_1302213131/Program.cs:55-58 | the i-th reaction of a notification is the i-th entry's Update against the current state, so entries are called in list order |
| `Subjects.TraceConcat` | tpmod13_1302213131/tpmod13_1302213131/Program.cs:55-58 | notifying a list made of two parts gives the first part's reactions followed by the second part's |
| `Subjects.TraceAfterDetach` | tpmod13_1302213131/tpmod13_1302213131/Program.cs:44-59 | after detaching an observer whose first entry is at position i, a notification gives the previous reactions with only the i-th one taken out |
| `Subjects.DetachedIsNotNotified` | tpmod13_1302213131/tpmod13_1302213131/Program.cs:44-59 | an observer attached once and then detached does not appear in any later notification |
| `Subjects.AttachTwiceNotifiesTwice` | tpmod13_1302213131/tpmod13_1302213131/Program.cs:38-59 | attaching an already attached observer makes a notification call it again: once at its earlier entry and once at the new last entry |
| `Subjects.DemoScenarios` | tpmod13_1302213131/tpmod13_1302213131/Program.cs:79-98 | with observers [A, B]: both react at state 2 and at state 0, only B reacts at state 5, and after detaching B only A reacts at state 0 |
| `Subjects.Subject.constructor` | tpmod13_1302213131/tpmod13_1302213131/Program.cs:31-35 | a new subject has state 0 and no attached observers |
| `Subjects.Subject.Attach` | tpmod13_1302213131/tpmod13_1302213131/Program.cs:38-42 | the list becomes the old list with the observer appended (a duplicate if it was already there); the state is unchanged |
| `Subjects.Subject.Detach` | tpmod13_1302213131/tpmod13_1302213131/Program.cs:44-48 | the list becomes the old list with the first entry that is this object removed, or unchanged when the object is absent; the state is unchanged |
| `Subjects.Subject.Notify` | tpmod13_1302213131/tpmod13_1302213131/Program.cs:51-59 | the returned reactions are one per entry, in list order, each evaluated against the current state; neither the state nor the list changes |
| `Subjects.Subject.SomeBusinessLogic` | tpmod13_1302213131/tpmod13_1302213131/Program.cs:65-74 | the state becomes the drawn value in [0, 10), the list is unchanged, and one notification runs in which every reaction is evaluated against the new state |
| `Subjects.RunClient` | tpmod13_1302213131/tpmod13_1302213131/Program.cs:103-119 | the client scenario: A and B both see the first two state changes, in that order; after B is detached, only A sees the third change, and A reacts exactly when that state is below 3 |

## Left out

- Console output at every `Console.WriteLine` is not modelled. Each `Update` call is instead recorded as a `Reaction` in the trace that `Notify` returns.
- `new Random().Next(0, 10)` is not modelled. `SomeBusinessLogic` takes the drawn value as a parameter `v`, which must satisfy `0 <= v < 10`.
- `Thread.Sleep(15)` is left out because it has no logical effect.
- The `as Subject` casts in the observers are left out, and observers read the subject's state directly. A cast that fails would give a null reference, but the program only ever passes a `Subject`.
- The `IObserver` and `ISubject` interfaces are not separate types. The two observer classes become one `Observer` class with a `kind`.
- Attaching or detaching from inside `Notify` is not modelled. In C#, that would make the list enumerator throw, but no code path does it. `Notify` therefore changes nothing.
- The subject's lists are unbounded sequences. The capacity growth of `List<T>` has no observable effect here.
- `Subjects.Subject.Attach` and `Subjects.Subject.Detach` take non-null observers. In C#, `Attach(null)` is accepted, and a later `Notify` then throws `NullReferenceException` when it calls `Update` on the null entry. No caller passes null, so that exception is not modelled.
