/** The `Command` and `Commander` capabilities of src/lib.rs, instantiated
    with the crate's own test context `State(i32)` and its two test commands.

    Rust's open `Command<T>` trait becomes the closed datatype `Cmd`; its
    `execute(&mut self, ctx)` and `undo(&mut self, ctx)` become the member
    functions `Execute(v)` and `Undo(v)`, which return the new context value
    together with the command as `&mut self` leaves it. */
module Commando {
  import opened Saturating

  datatype Option<T> = None | Some(value: T)

  /** The two test commands. `Scale`'s `prev` is the scratch slot in which
      `execute` saves the value it overwrites and from which `undo` takes it. */
  datatype Cmd = Translate(n: I32) | Scale(k: I32, prev: Option<I32>)
  {
    /** `Command::execute`: the new context and the command as it is after
        the call. */
    function Execute(v: I32): (r: Step)
      ensures Translate? ==> r.cmd == this
      ensures Scale? ==> r.cmd == Scale(k, Some(v))
      ensures Translate? && InRange(v + n) ==> r.ctx == v + n
      ensures Translate? && v + n > MAX ==> r.ctx == MAX
      ensures Translate? && v + n < MIN ==> r.ctx == MIN
      ensures Scale? && InRange(v * k) ==> r.ctx == v * k
      ensures Scale? && v * k > MAX ==> r.ctx == MAX
      ensures Scale? && v * k < MIN ==> r.ctx == MIN
    {
      match this
      case Translate(n) => Step(SatAdd(v, n), this)
      case Scale(k, _) => Step(SatMul(v, k), Scale(k, Some(v)))
    }

    /** `Command::undo`: the new context and the command as it is after the
        call. A `Scale` with an empty slot leaves both untouched. */
    function Undo(v: I32): (r: Step)
      ensures Translate? ==> r.cmd == this
      ensures Translate? && InRange(v - n) ==> r.ctx == v - n
      ensures Translate? && v - n > MAX ==> r.ctx == MAX
      ensures Translate? && v - n < MIN ==> r.ctx == MIN
      ensures Scale? ==> r.cmd == Scale(k, None)
      ensures Scale? && prev.Some? ==> r.ctx == prev.value
      ensures Scale? && prev.None? ==> r.ctx == v && r.cmd == this
    {
      match this
      case Translate(n) => Step(SatSub(v, n), this)
      case Scale(k, p) =>
        match p
        case Some(saved) => Step(saved, Scale(k, None))
        case None => Step(v, this)
    }

    /** Executing this command on `v` can be reversed by its own undo: a
        `Translate` must not clamp; a `Scale` saves `v` and always can. */
    predicate Invertible(v: I32) {
      Translate? ==> InRange(v + n)
    }
  }

  /** What one `execute` or `undo` leaves behind: the context value and the
      command's own new state. */
  datatype Step = Step(ctx: I32, cmd: Cmd)

  /** `Scale::from(k)`: a scale with an empty slot. */
  function ScaleFrom(k: I32): (c: Cmd)
    ensures c.Scale? && c.k == k && c.prev == None
  {
    Scale(k, None)
  }

  /** The default context `State::default()`. */
  const DefaultValue: I32 := 0

  /** Undo right after execute restores the context exactly when the command
      is invertible there: a `Translate` whose sum clamped gets back a
      different value. */
  lemma RoundTrip(c: Cmd, v: I32)
    ensures var s := c.Execute(v); s.cmd.Undo(s.ctx).ctx == v <==> c.Invertible(v)
  {
    var s := c.Execute(v);
    if c.Translate? && !InRange(v + c.n) {
      if v + c.n > MAX {
        assert s.ctx == MAX;
        assert s.cmd.Undo(s.ctx).ctx == MAX - c.n;
      } else {
        assert s.ctx == MIN;
        assert s.cmd.Undo(s.ctx).ctx == MIN - c.n;
      }
    }
  }

  /** An unclamped `Translate` is left as it was, so it can be executed
      and undone again. */
  lemma TranslateRoundTrip(n: I32, v: I32)
    requires InRange(v + n)
    ensures var s := Translate(n).Execute(v); s.cmd.Undo(s.ctx) == Step(v, Translate(n))
  {
  }

  /** At the maximum, `Translate(1)` is clamped: the value stays put, and
      undoing it then lands one below the maximum. */
  lemma TranslateClampsAtMax()
    ensures Translate(1).Execute(MAX as I32).ctx == MAX
    ensures Translate(1).Undo(MAX as I32).ctx == MAX - 1
  {
  }

  /** `Scale` restores the value it captured even when the product clamped,
      and leaves its slot empty again. */
  lemma ScaleRoundTrip(k: I32, p: Option<I32>, v: I32)
    ensures var s := Scale(k, p).Execute(v); s.cmd.Undo(s.ctx) == Step(v, Scale(k, None))
  {
  }

  /** A product out of range saturates at the bound it overshoots. */
  lemma ScaleSaturates(k: I32, p: Option<I32>, v: I32)
    ensures v * k > MAX ==> Scale(k, p).Execute(v).ctx == MAX
    ensures v * k < MIN ==> Scale(k, p).Execute(v).ctx == MIN
  {
  }

  /** Scaling by zero gives zero whatever the value; only the captured
      value can bring it back. */
  lemma ScaleByZero(p: Option<I32>, v: I32)
    ensures Scale(0, p).Execute(v) == Step(0, Scale(0, Some(v)))
  {
  }

  /** An undo with nothing captured is a no-op on context and command. */
  lemma UndoWithoutExecute(k: I32, v: I32)
    ensures Scale(k, None).Undo(v) == Step(v, Scale(k, None))
  {
  }

  /** The crate's test context `State(i32)`, with the `Commander`
      implementation that `#[derive(Commander)]` generates. */
  class State {
    var value: I32

    /** `State::default()`. */
    constructor Default()
      ensures value == DefaultValue
    {
      value := DefaultValue;
    }

    /** `State(v)`. */
    constructor (v: I32)
      ensures value == v
    {
      value := v;
    }

    /** `Commander::execute` as derived: run `cmd.execute(self)`. The command
        is moved in and dropped, so what it captured is lost to the caller. */
    method Execute(cmd: Cmd)
      modifies this
      ensures value == cmd.Execute(old(value)).ctx
    {
      value := cmd.Execute(value).ctx;
    }

    /** The default `Commander::undo`: a bare context keeps no history, so
        there is nothing to undo. */
    method Undo()
      ensures value == old(value)
    {
    }

    /** `cmd.execute(&mut state)` by a caller that keeps `cmd`: returns the
        command with what it captured. */
    method RunCommand(cmd: Cmd) returns (after: Cmd)
      modifies this
      ensures value == cmd.Execute(old(value)).ctx
      ensures after == cmd.Execute(old(value)).cmd
    {
      var s := cmd.Execute(value);
      value, after := s.ctx, s.cmd;
    }

    /** `cmd.undo(&mut state)` on a command the caller holds. */
    method UndoCommand(cmd: Cmd) returns (after: Cmd)
      modifies this
      ensures value == cmd.Undo(old(value)).ctx
      ensures after == cmd.Undo(old(value)).cmd
    {
      var s := cmd.Undo(value);
      value, after := s.ctx, s.cmd;
    }
  }

  /** The `can_execute` test: 0, then `Translate(7)` gives 7, then
      `Scale::from(2)` gives 14. */
  method CanExecute() returns (seen: seq<int>)
    ensures seen == [0, 7, 14]
  {
    var state := new State.Default();
    seen := [state.value];
    state.Execute(Translate(7));
    seen := seen + [state.value];
    state.Execute(ScaleFrom(2));
    seen := seen + [state.value];
  }

  /** The `can_undo` test as the code behaves. The commands are `Copy`, so
      `state.execute(cmds.2)` runs a copy; the caller's `cmds.2` captured
      nothing and its undo leaves 0 where the test expects 15. Under these
      semantics the assertion at line 133 cannot hold, so if the test runs it
      never reaches lines 135-142. The model drops the assertions and records
      each value: the two translations are then undone from 0, and the bare
      `undo` does nothing. */
  method CanUndo() returns (seen: seq<int>)
    ensures seen == [0, 5, 15, 0, 0, -10, -15, -15]
  {
    var state := new State(0);
    var c0, c1, c2 := Translate(5), Translate(10), ScaleFrom(0);
    seen := [state.value];
    state.Execute(c0);
    seen := seen + [state.value];
    state.Execute(c1);
    seen := seen + [state.value];
    state.Execute(c2);
    seen := seen + [state.value];
    c2 := state.UndoCommand(c2);
    seen := seen + [state.value];
    c1 := state.UndoCommand(c1);
    seen := seen + [state.value];
    c0 := state.UndoCommand(c0);
    seen := seen + [state.value];
    state.Undo();
    seen := seen + [state.value];
  }

  /** The `can_undo` test as intended: the caller executes each command on
      the state itself and keeps it, so `Scale` holds the 15 it overwrote and
      every undo walks one step back to 0. */
  method CanUndoRetained() returns (seen: seq<int>)
    ensures seen == [0, 5, 15, 0, 15, 5, 0, 0]
  {
    var state := new State(0);
    var c0, c1, c2 := Translate(5), Translate(10), ScaleFrom(0);
    seen := [state.value];
    c0 := state.RunCommand(c0);
    seen := seen + [state.value];
    c1 := state.RunCommand(c1);
    seen := seen + [state.value];
    c2 := state.RunCommand(c2);
    seen := seen + [state.value];
    c2 := state.UndoCommand(c2);
    seen := seen + [state.value];
    c1 := state.UndoCommand(c1);
    seen := seen + [state.value];
    c0 := state.UndoCommand(c0);
    seen := seen + [state.value];
    state.Undo();
    seen := seen + [state.value];
  }
}
