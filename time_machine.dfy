/** The history engine of src/time_machine.rs: a context (`machine`) plus a
    last-in-first-out history of the commands executed on it, each stored as
    its `execute` left it. */
module TimeMachine {
  import opened Saturating
  import opened Commando

  /** The context reached by executing the entries of `h`, oldest first,
      from `origin`. Stored entries replay to the same values as the
      commands they were recorded from, since `execute` ignores `Scale`'s
      slot. */
  function Replay(origin: I32, h: seq<Cmd>): I32
    decreases |h|
  {
    if h == [] then origin else h[|h| - 1].Execute(Replay(origin, h[..|h| - 1])).ctx
  }

  /** Every stored `Scale` holds the value it overwrote, which is the
      corresponding entry of `pre`. */
  ghost predicate Recorded(pre: seq<I32>, h: seq<Cmd>) {
    |pre| == |h| &&
    forall i :: 0 <= i < |h| ==> h[i].Scale? ==> h[i].prev == Some(pre[i])
  }

  /** The history is in sync with the context: read from the newest entry
      back, each entry executed on its pre-execute value gives the next
      value (the current context for the newest), and the oldest entry's
      pre-execute value is `origin`. */
  ghost predicate Synced(origin: I32, pre: seq<I32>, h: seq<Cmd>, m: I32)
    decreases |h|
  {
    |pre| == |h| &&
    if h == [] then m == origin
    else
      var n := |h|;
      m == h[n - 1].Execute(pre[n - 1]).ctx &&
      Synced(origin, pre[..n - 1], h[..n - 1], pre[n - 1])
  }

  /** No stored `Translate` was clamped when it was executed. */
  ghost predicate NoneClamped(pre: seq<I32>, h: seq<Cmd>)
    requires |pre| == |h|
  {
    forall i :: 0 <= i < |h| ==> h[i].Invertible(pre[i])
  }

  /** The context-reconstruction invariant: a synced history, replayed from
      `origin`, gives the current context, and each of its prefixes gives
      the value the context had just before the next entry was executed. */
  lemma {:induction false} SyncedReplays(origin: I32, pre: seq<I32>, h: seq<Cmd>, m: I32)
    requires Synced(origin, pre, h, m)
    ensures m == Replay(origin, h)
    ensures forall i :: 0 <= i < |h| ==> pre[i] == Replay(origin, h[..i])
    decreases |h|
  {
    if h != [] {
      var n := |h|;
      var pre', h' := pre[..n - 1], h[..n - 1];
      SyncedReplays(origin, pre', h', pre[n - 1]);
      forall i | 0 <= i < n
        ensures pre[i] == Replay(origin, h[..i])
      {
        if i < n - 1 {
          assert pre'[i] == pre[i] && h'[..i] == h[..i];
        }
      }
    }
  }

  /** Conversely, a history whose prefixes replay to the pre-execute values
      and which replays to the context is synced. */
  lemma {:induction false} ReplaysSynced(origin: I32, pre: seq<I32>, h: seq<Cmd>, m: I32)
    requires |pre| == |h| && m == Replay(origin, h)
    requires forall i :: 0 <= i < |h| ==> pre[i] == Replay(origin, h[..i])
    ensures Synced(origin, pre, h, m)
    decreases |h|
  {
    if h != [] {
      var n := |h|;
      var pre', h' := pre[..n - 1], h[..n - 1];
      assert pre[n - 1] == Replay(origin, h');
      forall i | 0 <= i < n - 1
        ensures pre'[i] == Replay(origin, h'[..i])
      {
        assert h'[..i] == h[..i];
      }
      ReplaysSynced(origin, pre', h', pre[n - 1]);
    }
  }

  /** Executing one more command on a synced history and pushing what it
      left keeps the history synced, with the old context as the new entry's
      pre-execute value. */
  lemma ExecuteKeepsSync(origin: I32, pre: seq<I32>, h: seq<Cmd>, m: I32, c: Cmd)
    requires Synced(origin, pre, h, m)
    ensures Synced(origin, pre + [m], h + [c.Execute(m).cmd], c.Execute(m).ctx)
  {
    assert (pre + [m])[..|h|] == pre;
    assert (h + [c.Execute(m).cmd])[..|h|] == h;
  }

  /** Undoing the newest entry of a synced history whose execute did not
      clamp brings the context back to the value it had before that
      execute, and the remaining history is synced. */
  lemma UndoRestores(origin: I32, pre: seq<I32>, h: seq<Cmd>, m: I32)
    requires Synced(origin, pre, h, m) && Recorded(pre, h)
    requires |h| > 0 && h[|h| - 1].Invertible(pre[|h| - 1])
    ensures h[|h| - 1].Undo(m).ctx == pre[|h| - 1]
    ensures Synced(origin, pre[..|h| - 1], h[..|h| - 1], pre[|h| - 1])
  {
    RoundTrip(h[|h| - 1], pre[|h| - 1]);
  }

  /** The contexts seen after each of `|h|` successive undos starting from
      context `m`, newest entry first. */
  function Unwind(m: I32, h: seq<Cmd>): seq<I32>
    decreases |h|
  {
    if h == [] then []
    else
      var v := h[|h| - 1].Undo(m).ctx;
      [v] + Unwind(v, h[..|h| - 1])
  }

  /** Strict LIFO order: when no stored `Translate` clamped, the i-th undo
      restores the value from before the i-th newest execute, and undoing
      everything restores the origin. */
  lemma {:induction false} UnwindIsLifo(origin: I32, pre: seq<I32>, h: seq<Cmd>, m: I32)
    requires Synced(origin, pre, h, m) && Recorded(pre, h) && NoneClamped(pre, h)
    ensures |Unwind(m, h)| == |h|
    ensures forall i :: 0 <= i < |h| ==> Unwind(m, h)[i] == pre[|h| - 1 - i]
    ensures |h| > 0 ==> Unwind(m, h)[|h| - 1] == origin
    decreases |h|
  {
    if h != [] {
      var n := |h|;
      UndoRestores(origin, pre, h, m);
      var v := h[n - 1].Undo(m).ctx;
      var pre', h' := pre[..n - 1], h[..n - 1];
      assert Recorded(pre', h');
      assert NoneClamped(pre', h') by {
        forall i | 0 <= i < n - 1 ensures h'[i].Invertible(pre'[i]) {
          assert h[i].Invertible(pre[i]);
        }
      }
      UnwindIsLifo(origin, pre', h', v);
      assert Unwind(m, h) == [v] + Unwind(v, h');
      assert h[..0] == [];
    }
  }

  /** `TimeMachine<State>`. The ghost stack `pre` holds, for every history
      entry, the context value just before it was executed; `origin` is the
      context the machine was built with. */
  class TimeMachine {
    var machine: I32
    var history: seq<Cmd>
    ghost var pre: seq<I32>
    ghost const origin: I32

    ghost predicate Valid()
      reads this
    {
      Recorded(pre, history)
    }

    /** The history, replayed from the origin, explains the context
        (see SyncedReplays). */
    ghost predicate InSync()
      reads this
    {
      Synced(origin, pre, history, machine)
    }

    /** Every `Translate` in the history was executed without clamping. */
    ghost predicate Unclamped()
      reads this
      requires Valid()
    {
      NoneClamped(pre, history)
    }

    /** `TimeMachine::from(machine)`. */
    constructor (m: I32)
      ensures Valid() && InSync() && Unclamped()
      ensures machine == m && history == [] && pre == [] && origin == m
    {
      machine, history := m, [];
      pre, origin := [], m;
    }

    /** `TimeMachine::default()`: the default `State`, an empty history. */
    constructor Default()
      ensures Valid() && InSync() && Unclamped()
      ensures machine == DefaultValue && history == [] && pre == [] && origin == DefaultValue
    {
      machine, history := DefaultValue, [];
      pre, origin := [], DefaultValue;
    }

    /** `history()`: the recorded commands, oldest first. */
    method History() returns (h: seq<Cmd>)
      ensures h == history
    {
      h := history;
    }

    /** `Commander::execute`: run the command on the machine, then push it,
        with whatever it captured, onto the history. */
    method Execute(cmd: Cmd)
      requires Valid()
      modifies this
      ensures Valid()
      ensures machine == cmd.Execute(old(machine)).ctx
      ensures history == old(history) + [cmd.Execute(old(machine)).cmd]
      ensures pre == old(pre) + [old(machine)]
      ensures old(InSync()) ==> InSync()
      ensures old(Unclamped()) && cmd.Invertible(old(machine)) ==> Unclamped()
    {
      ghost var before := machine;
      if InSync() {
        ExecuteKeepsSync(origin, pre, history, machine, cmd);
      }
      var s := cmd.Execute(machine);
      machine := s.ctx;
      history := history + [s.cmd];
      pre := pre + [before];
    }

    /** `Commander::undo`: pop the newest entry, if any, and undo it on the
        machine. On an empty history nothing changes. */
    method Undo()
      requires Valid()
      modifies this
      ensures Valid()
      ensures old(history) == [] ==> machine == old(machine) && history == [] && pre == old(pre)
      ensures old(history) != [] ==>
                var n := |old(history)|;
                history == old(history)[..n - 1] && pre == old(pre)[..n - 1] &&
                machine == old(history)[n - 1].Undo(old(machine)).ctx
      ensures old(InSync()) && old(history) != [] &&
              old(history[|history| - 1].Invertible(pre[|history| - 1])) ==>
                machine == old(pre[|history| - 1]) && InSync()
      ensures old(InSync()) && old(history) == [] ==> InSync()
      ensures old(Unclamped()) ==> Unclamped()
    {
      if history != [] {
        var n := |history|;
        if InSync() && history[n - 1].Invertible(pre[n - 1]) {
          UndoRestores(origin, pre, history, machine);
        }
        var cmd := history[n - 1];
        history := history[..n - 1];
        pre := pre[..n - 1];
        machine := cmd.Undo(machine).ctx;
      }
    }
  }

  /** The `can_time_travel` test: 0, 5, 15, 0, then undos give 15, 5, 0,
      and two more undos leave 0 with an empty history. */
  method CanTimeTravel() returns (seen: seq<int>, depth: nat)
    ensures seen == [0, 5, 15, 0, 15, 5, 0, 0] && depth == 0
  {
    var tm := new TimeMachine.Default();
    seen := [tm.machine];
    tm.Execute(Translate(5));
    assert tm.machine == 5 && tm.history == [Translate(5)];
    seen := seen + [tm.machine];
    tm.Execute(Translate(10));
    assert tm.machine == 15 && tm.history == [Translate(5), Translate(10)];
    seen := seen + [tm.machine];
    tm.Execute(ScaleFrom(0));
    assert tm.machine == 0 && tm.history == [Translate(5), Translate(10), Scale(0, Some(15))];
    seen := seen + [tm.machine];
    tm.Undo();
    assert tm.machine == 15 && tm.history == [Translate(5), Translate(10)];
    seen := seen + [tm.machine];
    tm.Undo();
    assert tm.machine == 5 && tm.history == [Translate(5)];
    seen := seen + [tm.machine];
    tm.Undo();
    assert tm.machine == 0 && tm.history == [];
    seen := seen + [tm.machine];
    tm.Undo();
    tm.Undo();
    seen := seen + [tm.machine];
    var h := tm.History();
    depth := |h|;
  }

  /** Three executes followed by three undos on a time machine built from
      `v`: the undos reverse the third, second and first command in that
      order, provided no `Translate` among them clamps. */
  method UndoOrder(v: I32, a: Cmd, b: Cmd, c: Cmd) returns (undone: seq<I32>)
    requires a.Invertible(v)
    requires b.Invertible(a.Execute(v).ctx)
    requires c.Invertible(b.Execute(a.Execute(v).ctx).ctx)
    ensures var va := a.Execute(v).ctx; var vb := b.Execute(va).ctx;
            undone == [vb, va, v]
  {
    var tm := new TimeMachine(v);
    tm.Execute(a);
    tm.Execute(b);
    tm.Execute(c);
    tm.Undo();
    undone := [tm.machine];
    tm.Undo();
    undone := undone + [tm.machine];
    tm.Undo();
    undone := undone + [tm.machine];
  }
}
