/** Sequences of actions of the job runtime, and runs made of them. */
module RuntimeSteps {
  import opened Basics
  import opened JobEvents
  import opened HistoryTable
  import opened RuntimeModel

  /** Where the actions lead from s; None if one of them is not enabled when its turn comes. */
  ghost function After(s: State, actions: seq<Action>): Option<State>
    decreases |actions|
  {
    if actions == [] then Some(s)
    else if Enabled(s, actions[0]) then After(Apply(s, actions[0]), actions[1..])
    else None
  }

  lemma {:induction false} AfterAppend(s: State, a: seq<Action>, b: seq<Action>)
    ensures After(s, a + b) == match After(s, a) case None => None case Some(m) => After(m, b)
    decreases |a|
  {
    hide Enabled, Apply;
    if a == [] {
      assert a + b == b;
    } else {
      assert (a + b)[1..] == a[1..] + b;
      if Enabled(s, a[0]) { AfterAppend(Apply(s, a[0]), a[1..], b); }
    }
  }

  lemma AfterFirst(s: State, a: Action, rest: seq<Action>)
    requires Enabled(s, a)
    ensures After(s, [a] + rest) == After(Apply(s, a), rest)
  {
    hide Enabled, Apply;
    assert ([a] + rest)[1..] == rest;
  }

  lemma AfterOne(s: State, a: Action)
    requires Enabled(s, a)
    ensures After(s, [a]) == Some(Apply(s, a))
  {
    hide Enabled, Apply;
    assert [a][1..] == [];
  }

  /** All states on the way. */
  ghost function StatesOf(s: State, actions: seq<Action>): (r: seq<State>)
    ensures r != [] && r[0] == s
    decreases |actions|
  {
    if actions == [] || !Enabled(s, actions[0]) then [s]
    else [s] + StatesOf(Apply(s, actions[0]), actions[1..])
  }

  ghost predicate Follow(states: seq<State>, actions: seq<Action>) {
    && |states| == |actions| + 1
    && forall i :: 0 <= i < |actions| ==> Enabled(states[i], actions[i]) && states[i + 1] == Apply(states[i], actions[i])
  }

  lemma {:induction false} StatesFollow(s: State, actions: seq<Action>)
    requires After(s, actions).Some?
    ensures Follow(StatesOf(s, actions), actions)
    ensures StatesOf(s, actions)[|actions|] == After(s, actions).value
    decreases |actions|
  {
    hide Enabled, Apply;
    if actions != [] {
      var next := Apply(s, actions[0]);
      StatesFollow(next, actions[1..]);
      var states, tail := StatesOf(s, actions), StatesOf(next, actions[1..]);
      forall i | 0 <= i < |actions|
        ensures Enabled(states[i], actions[i]) && states[i + 1] == Apply(states[i], actions[i])
      {
        if i > 0 { assert states[i] == tail[i - 1] && actions[i] == actions[1..][i - 1]; }
      }
    }
  }

  /** Actions that are enabled one after the other from an idle runtime make a run. */
  lemma RunOf(s: State, actions: seq<Action>) returns (r: Run)
    requires Initial(s) && After(s, actions).Some?
    ensures ValidRun(r) && r.actions == actions && r.states[0] == s && r.states[|actions|] == After(s, actions).value
  {
    hide Initial, Enabled, Apply;
    StatesFollow(s, actions);
    r := Run(StatesOf(s, actions), actions);
    forall i | 0 <= i < |actions| ensures StepAt(r, i) {
    }
  }

  // ----- the calls of one client, while nobody else acts -----

  /** The state with thread t, job j and the jobs lock as given. */
  function Placed(s: State, t: ThreadId, j: JobId, pc: Pc, c: Cell, lock: Option<ThreadId>): State {
    s.(threads := s.threads[t := Thread(pc, NoCall)], cells := s.cells[j := c], jobsLock := lock)
  }

  function ToggleActions(t: ThreadId, k: ToggleKind, j: JobId): seq<Action> {
    [CallToggle(t, k, j)] + ([AcquireJobs(t)] + ([Own(t, NoChoice)] + ([Own(t, NoChoice)]
    + ([AcquireJobs(t)] + ([Own(t, NoChoice)] + ([Own(t, NoChoice)] + [Own(t, NoChoice)]))))))
  }

  lemma CallStep(s: State, t: ThreadId, j: JobId, k: ToggleKind, c: Cell)
    requires c.log != []
    ensures var here := Placed(s, t, j, Client, c, None);
      && Enabled(here, CallToggle(t, k, j))
      && Apply(here, CallToggle(t, k, j)) == Placed(s, t, j, Toggling(j, k, Lookup), c, None)
  {
    var here := Placed(s, t, j, Client, c, None);
    assert here.threads[t := Thread(Toggling(j, k, Lookup), NoCall)] == s.threads[t := Thread(Toggling(j, k, Lookup), NoCall)];
  }

  lemma AcquireStep(s: State, t: ThreadId, j: JobId, pc: Pc, c: Cell)
    requires NeedsJobs(Thread(pc, NoCall))
    ensures var here := Placed(s, t, j, pc, c, None);
      Enabled(here, AcquireJobs(t)) && Apply(here, AcquireJobs(t)) == Placed(s, t, j, pc, c, Some(t))
  {
  }

  lemma OwnStepPlaced(s: State, t: ThreadId, j: JobId, pc: Pc, c: Cell, lock: Option<ThreadId>)
    requires HasJob(pc) && pc.j == j && OwnEnabled(t, pc, c, lock, NoChoice) && (lock.None? || lock == Some(t))
    ensures var here, l := Placed(s, t, j, pc, c, lock), OwnStep(t, pc, c, s.now, NoChoice);
      Enabled(here, Own(t, NoChoice)) && Apply(here, Own(t, NoChoice)) == Placed(s, t, j, l.pc, l.cell, None)
  {
    hide OwnStep, OwnEnabled;
    var here, l := Placed(s, t, j, pc, c, lock), OwnStep(t, pc, c, s.now, NoChoice);
    assert here.threads[t := Thread(l.pc, NoCall)] == s.threads[t := Thread(l.pc, NoCall)];
    assert here.cells[j := l.cell] == s.cells[j := l.cell];
  }

  /** A client's pause or resumption of a job that is in the right status, from call to return. */
  lemma ToggleRound(s: State, t: ThreadId, j: JobId, k: ToggleKind, c: Cell)
    requires c.log != [] && c.registered && c.status == ToggleSource(k) && c.gate.None? && !c.stage.Finished?
    ensures After(Placed(s, t, j, Client, c, None), ToggleActions(t, k, j))
      == Some(Placed(s, t, j, Client, Toggled(c, k, s.now).(log := c.log + [ToggleEvent(k)]), None))
  {
    hide Enabled, Apply, After, Placed;
    var held := c.(gate := Some(t));
    var done := Toggled(held, k, s.now);
    var told := done.(log := c.log + [ToggleEvent(k)]);
    CallStep(s, t, j, k, c);
    AcquireStep(s, t, j, Toggling(j, k, Lookup), c);
    OwnStepPlaced(s, t, j, Toggling(j, k, Lookup), c, Some(t));
    OwnStepPlaced(s, t, j, Toggling(j, k, GateWait), c, None);
    AcquireStep(s, t, j, Toggling(j, k, Check), held);
    OwnStepPlaced(s, t, j, Toggling(j, k, Check), held, Some(t));
    OwnStepPlaced(s, t, j, Toggling(j, k, Emit(true)), done, None);
    OwnStepPlaced(s, t, j, Toggling(j, k, EmitInSink), told, None);
    var o, q := Own(t, NoChoice), AcquireJobs(t);
    AfterOne(Placed(s, t, j, Toggling(j, k, EmitInSink), told, None), o);
    AfterFirst(Placed(s, t, j, Toggling(j, k, Emit(true)), done, None), o, [o]);
    AfterFirst(Placed(s, t, j, Toggling(j, k, Check), held, Some(t)), o, [o] + [o]);
    AfterFirst(Placed(s, t, j, Toggling(j, k, Check), held, None), q, [o] + ([o] + [o]));
    AfterFirst(Placed(s, t, j, Toggling(j, k, GateWait), c, None), o, [q] + ([o] + ([o] + [o])));
    AfterFirst(Placed(s, t, j, Toggling(j, k, Lookup), c, Some(t)), o, [o] + ([q] + ([o] + ([o] + [o]))));
    AfterFirst(Placed(s, t, j, Toggling(j, k, Lookup), c, None), q, [o] + ([o] + ([q] + ([o] + ([o] + [o])))));
    AfterFirst(Placed(s, t, j, Client, c, None), CallToggle(t, k, j), [q] + ([o] + ([o] + ([q] + ([o] + ([o] + [o]))))));
  }
}
