# commando: reversible commands and a linear undo history

This project models the core of `commando`, a Rust implementation of the
Command pattern with linear undo, and proves properties of that model.

- A **command** is a reversible mutation of a context: `execute` applies it,
  `undo` reverses it. The crate's test commands are used:
  - `Translate(n)` adds with `i32` saturation and subtracts to undo.
  - `Scale(k, prev)` saves the current value in `prev`, then multiplies with
    saturation. Its undo restores the saved value and empties the slot; with
    nothing saved it does nothing.
- A **commander** is a context that runs commands on itself. For a bare
  context `undo` is a no-op.
- The **time machine** owns a context (`machine`) and a LIFO `history`.
  `execute` runs a command and pushes it, carrying what it captured.
  `undo` pops the newest entry, if there is one, and undoes it.

Files:

- `saturating.dfy` (module `Saturating`): the `i32` range and clamping.
- `commando.dfy` (module `Commando`): the commands, the bare `State`
  context, and the `can_execute` and `can_undo` tests.
- `time_machine.dfy` (module `TimeMachine`): the `TimeMachine` class, its
  replay and LIFO lemmas, and the `can_time_travel` test.

Rust's open `Command<T>` trait is a closed datatype `Cmd` here. Its
`execute` and `undo` are pure member functions. Each returns the new context
value and the command's new state, since the Rust method mutates both. The
classes `State` and `TimeMachine` hold the state the source updates in
place.

The class `TimeMachine` keeps a ghost stack `pre`, one entry per history
entry: the value the context had just before that entry's `execute`.
`InSync()` says that each entry, executed on its `pre` value, gives the next
entry's `pre` value, and the newest gives the current context. This is
equivalent to the context-reconstruction invariant: replaying the history
from the initial context gives the current context, and each prefix gives the
matching `pre` entry. `execute` always preserves it. `undo` preserves it, and
restores the pre-execute value, when the popped entry is invertible. Every
stored `Scale` is invertible. A `Translate` is invertible when its sum did not
clamp. A clamped `Translate` undoes to a different value; `Commando.RoundTrip`
proves this in both directions. So the rule "undo exactly restores the
previous context" holds for the code only under the no-clamping condition.
The model follows the code here.

## Model

| member | source | states |
|---|---|---|
| `Saturating.Clamp` | src/lib.rs:72-94 | the saturating result is the input when it fits in `i32`, and otherwise the `i32` value nearest to it; `SatAdd`, `SatSub` and `SatMul` (`saturating_add` at line 73, `saturating_sub` at line 77, `saturating_mul` at line 93) are `Clamp` of the exact sum, difference and product |
| `Commando.Cmd.Execute` | src/lib.rs:71-94 | `Translate` gives the sum, exact when in range and pinned to the bound it overshoots otherwise; `Scale` gives the product when in range and pinned to the bound it overshoots otherwise; `Translate` is unchanged, `Scale` now holds the prior value |
| `Commando.Cmd.Undo` | src/lib.rs:76-100 | `Translate` gives the saturating difference and is unchanged; `Scale` with a saved value restores it and empties its slot; `Scale` with an empty slot changes neither context nor command |
| `Commando.ScaleFrom` | src/lib.rs:84-88 | `Scale::from(k)` has factor `k` and an empty slot |
| `Commando.RoundTrip` | src/lib.rs:71-100 | undo right after execute gives back the original value if and only if the command did not clamp a `Translate` |
| `Commando.TranslateRoundTrip` | src/lib.rs:72-78 | an unclamped `Translate` executed then undone restores the value and is left unchanged |
| `Commando.TranslateClampsAtMax` | src/lib.rs:72-78 | at `i32::MAX`, `Translate(1)` leaves the value at `MAX`, and undoing it from there gives `MAX - 1` |
| `Commando.ScaleRoundTrip` | src/lib.rs:91-100 | `Scale` executed then undone restores the value exactly, even when the product saturated, and leaves the slot empty |
| `Commando.ScaleSaturates` | src/lib.rs:91-94 | a product above or below the `i32` range gives `MAX` or `MIN` |
| `Commando.ScaleByZero` | src/lib.rs:91-94 | `Scale(0)` gives 0 and captures the prior value |
| `Commando.UndoWithoutExecute` | src/lib.rs:96-100 | undo of a `Scale` that captured nothing changes neither the value nor the command |
| `Commando.State.Default` | src/lib.rs:59-60 | the default context holds 0 |
| `Commando.State.constructor` | src/lib.rs:117 | `State(v)` holds `v` |
| `Commando.State.Execute` | stratagem-macros/src/lib.rs:20-24 | the derived `execute` sets the context to the command's execute result; the caller's command is not updated |
| `Commando.State.Undo` | src/lib.rs:51 | the default `undo` leaves the context unchanged |
| `Commando.State.RunCommand` | src/lib.rs:19 | a held command's `execute` updates both the context and the command to the execute result |
| `Commando.State.UndoCommand` | src/lib.rs:28 | a held command's `undo` updates both the context and the command to the undo result |
| `Commando.CanExecute` | src/lib.rs:104-113 | from the default context, `Translate(7)` gives 7 and `Scale::from(2)` then gives 14 |
| `Commando.CanUndo` | src/lib.rs:116-143 | the model drops the test's assertions and records each `value()`: 0, 5, 15, 0, then 0 (undo of the caller's uncaptured `Scale` copy), -10, -15, -15; under the code's semantics the assertion at line 133 cannot hold, so if the test runs, lines 135-142 are never reached |
| `Commando.CanUndoRetained` | src/lib.rs:116-143 | if the caller keeps the executed commands, the undos give 15, 5, 0, and the bare `undo` keeps 0 |
| `TimeMachine.SyncedReplays` | src/time_machine.rs:99-114 | a synced history replayed from the initial context gives the current context, and each prefix gives the matching pre-execute value |
| `TimeMachine.ReplaysSynced` | src/time_machine.rs:99-114 | conversely, a history whose replay gives the context and whose prefixes give the pre-execute values is synced |
| `TimeMachine.ExecuteKeepsSync` | src/time_machine.rs:99-102 | executing a command and pushing what it left keeps the history replaying to the context, with the old context as the new entry's pre-execute value |
| `TimeMachine.UndoRestores` | src/time_machine.rs:110-114 | undoing an invertible newest entry restores the value from before its execute, and the shortened history is in sync again |
| `TimeMachine.UnwindIsLifo` | src/time_machine.rs:104-114 | with no clamped `Translate`, successive undos restore the pre-execute values newest first, and undoing everything restores the initial context |
| `TimeMachine.TimeMachine.constructor` | src/time_machine.rs:59-64 | `from(m)` keeps `m` as the context and starts with an empty, in-sync history |
| `TimeMachine.TimeMachine.Default` | src/time_machine.rs:78-83 | `default()` holds the default context 0 as context and origin, with an empty, in-sync history |
| `TimeMachine.TimeMachine.History` | src/time_machine.rs:40-42 | returns the current history and changes nothing |
| `TimeMachine.TimeMachine.Execute` | src/time_machine.rs:99-102 | the context becomes the execute result; the history grows by exactly that executed command, earlier entries kept; sync is preserved, and so is the absence of clamped entries when the new command does not clamp |
| `TimeMachine.TimeMachine.Undo` | src/time_machine.rs:110-114 | an empty history changes nothing; otherwise exactly the last entry is popped and its undo applied; an invertible entry restores the pre-execute value and keeps sync |
| `TimeMachine.CanTimeTravel` | src/time_machine.rs:165-191 | 0, 5, 15, 0, then undos give 15, 5, 0; two more undos keep 0 and leave an empty history |
| `TimeMachine.UndoOrder` | src/time_machine.rs:99-114 | three executes then three undos reverse the third, second and first command in that order, when no `Translate` clamps |

## Left out

- The context type is fixed to the test `State(i32)`. `TimeMachine` is not generic over a `Commander` type `T`.
- Only the two test commands exist. `Box<dyn Command<T>>` and the `'static` and `impl Trait` bounds are replaced by the closed datatype `Cmd`.
- The derive macro in stratagem-macros/src/lib.rs is modelled only by its effect: `State.Execute` calls the command's `execute` on the state. Token generation with `syn` and `quote` is foreign code.
- `State::value()` is a field read in the model.
- The demo programs `examples/state_with_undo` and `examples/state_machine` are not modelled. Their commands duplicate the ones in src/lib.rs.
- The `no_std` setup, the `time-machine` feature gate and the crate naming are build configuration with no behaviour.
- Ownership and moves are modelled by value. A command passed to `State.Execute` or `TimeMachine.Execute` is a copy, so the caller's value never changes. This matches the `Copy` commands in src/lib.rs and the moved commands in src/time_machine.rs.
- The replay invariant breaks when a clamped `Translate` is undone: storing it keeps the invariant, but its undo gives a different value than the one before its execute, which is the code's behaviour.

## Findings

| source | as written | input that shows it | evidently intended | confidence | as-written member | corrected member |
|---|---|---|---|---|---|---|
| src/lib.rs:129-133 | `state.execute(cmds.2)` runs a copy of the `Copy` value `Scale(0, None)`; the caller's `cmds.2` still has `prev == None`, so `cmds.2.undo` at line 132 leaves 0, yet line 133 expects 15 | the test's own commands `(Translate(5), Translate(10), Scale::from(0))` from `State(0)` | the undo should act on the command that captured 15, restoring 15, then 5, then 0 | not executed | `Commando.CanUndo` | `Commando.CanUndoRetained` |
