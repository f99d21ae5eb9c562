# Atomic change engine — a Dafny model

This project models a small all-or-nothing update engine for an in-memory object,
instantiated at the example `Record` type the program uses.

- A **change** is one deferred operation with a captured argument. Applying it to an object returns a bool. There are three variants:
  - a field assignment, which always succeeds;
  - a call to a `bool` member function, which reports that function's result;
  - a call to a `void` member function, which fails exactly when the function throws.
- The **builders** (`FieldProxy`, `BoolMethodProxy`, `VoidMethodProxy`) are each bound to one member of `Record`. `proxy = value` builds a change from them.
- An **update set** is an ordered list of changes. It can only grow at the end.
- A **transaction** copies the caller's object when it is created. `execute` applies the changes to the copy in insertion order. It stops at the first failure and leaves the original untouched. When every change succeeds, it overwrites the original with the copy.
- `atomic_change_to(obj)(c1, ..., cn)` puts `c1, ..., cn` into a fresh set in argument order and runs one transaction over `obj`.

Files:

- `records.dfy` (module `Records`): the `Record` value and its member functions `setName` and `age`. The C++ `int` is the newtype `int32`. An exception is the explicit outcome `Threw`.
- `changes.dfy` (module `Changes`): the three change variants, `Apply`, and the three builders. C++ member pointers become small selector datatypes, one constructor per member of `Record` the source can select: `position`, `setName` and `age`.
- `transactions.dfy` (module `Transactions`): the meaning of a batch as pure functions, the lemmas about it, and the imperative engine.
  - The pure functions are `Run`, a front-to-back run that stops at the first failure, and `FoldSteps`, a plain left fold whose step skips every change after a failure.
  - The engine is made of the classes `UpdateSet`, `AtomicTransaction` and `AtomicChangeProxy`, plus `AtomicChangeTo`.
  - The caller's `Record&` is the class `RecordVar`. The transaction holds a reference to it and writes it only at commit.

The central result has two parts. First, `AtomicTransaction.Execute` is proved against `Run`:
- the result is `Run(changes, copy).ok`;
- the copy ends up as `Run(changes, copy).obj`;
- the original becomes the copy when the result is true and is untouched otherwise;
- a ghost log of the changes applied to the copy is exactly the prefix that `Attempted` counts.

Second, lemmas state what `Run` means:
- it equals the left fold with short-circuit (`RunIsShortCircuitFold`);
- running `a + b` runs `b` only when all of `a` succeeded (`RunAppend`);
- the applied prefix ends at the first failing change, and later changes never reach the copy (`RunStopsAtFirstFailure`).
- every field of the result is the starting value or a value some change of the batch captured (`RunFieldsComeFromBatch`).

## Model

| member | source | states |
|---|---|---|
| Records.SetName | src/atomic_change.cpp:167-171 | returns true exactly when the string is non-empty; then the name is that string, otherwise the name is unchanged; age and position never change |
| Records.Age | src/atomic_change.cpp:173-176 | throws exactly when the value is negative and then leaves `_age` unchanged; otherwise `_age` becomes the value; name and position never change |
| Changes.Put | src/atomic_change.cpp:25-28 | writing through a field selector makes that field equal the value and leaves the other fields alone |
| Changes.Invoke | src/atomic_change.cpp:42 | calling the selected bool member, `setName`, returns true exactly for a non-empty argument, which it stores as the name; on false the object is unchanged |
| Changes.InvokeVoid | src/atomic_change.cpp:58 | calling the selected void member, `age`, throws exactly on a negative argument and then leaves the object unchanged; otherwise the age becomes the argument |
| Changes.Apply | src/atomic_change.cpp:25-63 | a field assignment always returns true, stores the captured value and changes no other field; a bool method change returns exactly the method's result and keeps its effect; a void method change returns false exactly when the method throws and keeps whatever the method left; for Record's methods, the name change fails exactly on "", the age change fails exactly on a negative value, and a failing change leaves the object as it was |
| Changes.FieldProxy.Assign | src/atomic_change.cpp:67-77 | the built change, applied to any object, succeeds, sets the proxy's field to the value and leaves the other fields alone |
| Changes.BoolMethodProxy.Assign | src/atomic_change.cpp:80-90 | the built change, applied to any object, returns the bound method's result on the captured argument and leaves the object as that method left it |
| Changes.VoidMethodProxy.Assign | src/atomic_change.cpp:93-103 | the built change, applied to any object, succeeds exactly when the bound method returns normally and leaves the object as that method left it |
| Transactions.UpdateSet.constructor | src/atomic_change.cpp:106-108 | a new set holds no changes |
| Transactions.UpdateSet.Add | src/atomic_change.cpp:111-113 | the new sequence is the old one with the change appended; earlier entries keep their positions |
| Transactions.UpdateSet.Get | src/atomic_change.cpp:115-117 | returns the changes in insertion order without changing the set |
| Transactions.Run | src/atomic_change.cpp:131-133 | the reference meaning of the `execute` loop: an empty batch succeeds and leaves the object as it was, and only a non-empty batch can fail; the lemmas RunIsShortCircuitFold, RunAppend, RunStopsAtFirstFailure and RunFieldsComeFromBatch state the rest of what it means |
| Transactions.RunFieldsComeFromBatch | src/atomic_change.cpp:131-133 | after a run, each of name, age and position is either the starting value or the value captured by a change of the batch that writes that field |
| Transactions.Attempted | src/atomic_change.cpp:131-133 | the number of changes the loop applies before it stops is at most the batch length, and at least one for a non-empty batch |
| Transactions.FoldAfterFailure | src/atomic_change.cpp:131-133 | once a change has failed, every later change in the batch is skipped |
| Transactions.RunIsShortCircuitFold | src/atomic_change.cpp:130-137 | the recursive `Run` equals the pure left fold whose step skips every change after a failure, for every batch and starting object; `AtomicTransaction.Execute`'s ensures tie the loop with early return to `Run`, so the loop computes this fold too |
| Transactions.RunAppend | src/atomic_change.cpp:131-133 | running `a + b` gives the result of `a` when `a` fails, and otherwise the result of running `b` on what `a` produced: `b` is never observed after a failure in `a` |
| Transactions.RunStopsAtFirstFailure | src/atomic_change.cpp:131-133 | a successful run applies every change; a failed run applies a non-empty prefix whose last change is the first one that failed; the result depends only on that prefix |
| Transactions.AtomicTransaction.constructor | src/atomic_change.cpp:127-128 | the transaction refers to the caller's object and its working copy equals that object's current value |
| Transactions.AtomicTransaction.Execute | src/atomic_change.cpp:130-137 | returns whether every change succeeded on the copy, in insertion order; the copy ends as the short-circuit run leaves it; the original becomes the copy on success and is untouched on failure; the changes applied to the copy are exactly the prefix up to and including the first failure |
| Transactions.AtomicChangeProxy.constructor | src/atomic_change.cpp:147 | the proxy refers to the caller's object |
| Transactions.AtomicChangeProxy.Call | src/atomic_change.cpp:149-156 | with the changes added in argument order and a copy taken from the object just before, the result is whether all of them succeed; on success the object becomes the result of applying them in order, on failure it keeps its value; an empty call returns true and changes nothing |
| Transactions.AtomicChangeTo | src/atomic_change.cpp:159-162 | returns a new proxy bound to the given object |
| Transactions.Demo | src/atomic_change.cpp:192-203 | the demonstration's batch (empty name, age 22, a position) on a default Record fails and leaves the record at its default value |

## Left out

- `Record::dump` and the printing in `main`: console output only. `Demo` returns the success flag and the record that `main` would print.
- C++ exceptions (`throw`, `try`/`catch (...)`): the one thrown by `Record::age` becomes the explicit outcome `Records.VoidCall.Threw`, which the void-method variant turns into `false`.
- Allocation failure (`std::bad_alloc`) while copying strings is not modelled. In C++ it can happen when `FieldAssignmentChange::apply` assigns the captured string, when `BoolMethodChange::apply` copies its argument into `setName`'s by-value parameter, and when `AtomicTransaction` copies the object. Only `VoidMethodChange::apply` catches it. Elsewhere it escapes `apply`, `execute` and `operator()`: the original stays untouched, but the caller receives an exception instead of `false`. In the model, `Changes.Apply` and every operation above it always return a bool.
- Templates, pointer-to-member selectors and variadic fold expressions: the engine is instantiated at `Record`, the only type the program uses. Member pointers are the selector datatypes of `Changes`. A variadic argument list is a `seq<Change>`, added in order.
- `std::unique_ptr` ownership, `std::move` and `std::forward`: these have no behaviour beyond value transfer. Changes are immutable datatype values.
- Transactions.AtomicTransaction.Execute: after a commit, the model leaves the working copy holding the committed value. In C++, `original = std::move(copy)` leaves `copy` in a moved-from, unspecified state, and only a second `execute` on the same transaction could observe it.
- Thread safety: the code is single-threaded and makes no claim about concurrent use.
