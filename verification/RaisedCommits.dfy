/** A write of `commit` that raises instead of stopping the process. `execute` commits a
    retirement or a recovery inside its try block (ops/managed_installer.py:955-961), so its
    handler answers the exception as it answers any other, with a second commit. A deploy, a
    replay and the handler's own receipt are committed outside: there a raising write only
    ends the process, which `Protocol` already has. This module adds the one missing step. */
module RaisedCommits {
  import opened Wrappers
  import opened DeploymentContracts
  import opened Ledger
  import opened Protocol

  /** `trying` is what `execute` has at hand while it commits inside its try block. */
  datatype Watched = Watched(sys: System, trying: Option<Run>)

  datatype Event = Does(step: Step) | WriteRaises

  predicate CommitsInside(step: Step) {
    step.ByRoot? && (step.root.DoFinishRetire? || step.root.DoFinishRecover?)
  }

  function TryingAfter(x: Watched, step: Step): Option<Run> {
    if !Apply(x.sys, step).run.Committing? then None
    else if x.sys.run.Executing? then if CommitsInside(step) then Some(x.sys.run) else None
    else if x.sys.run.Committing? then x.trying
    else None
  }

  /** The except block: `Raise` from where the receipt had been decided, with the writes
      done so far in place. */
  function Answering(s: System, trying: Run): System {
    s.(run := Raise(s.(run := trying)).run)
  }

  function Act(x: Watched, e: Event): Watched {
    match e
    case Does(step) => Watched(Apply(x.sys, step), TryingAfter(x, step))
    case WriteRaises =>
      if x.trying.Some? && x.sys.run.Committing? then Watched(Answering(x.sys, x.trying.value), None) else x
  }

  /** Every state the steps of the protocol and raising writes reach together. */
  function History(x: Watched, events: seq<Event>): Watched {
    if events == [] then x else Act(History(x, events[..|events| - 1]), events[|events| - 1])
  }

  function Begun(registration: Registration): Watched { Watched(Start(registration), None) }

  function Plainly(steps: seq<Step>): seq<Event> { seq(|steps|, i requires 0 <= i < |steps| => Does(steps[i])) }

  lemma {:induction false} HistoryAppends(x: Watched, events: seq<Event>, more: seq<Event>)
    ensures History(History(x, events), more) == History(x, events + more)
    decreases |more|
  {
    hide Act;
    if more == [] {
      assert events + more == events;
    } else {
      var k := |more| - 1;
      HistoryAppends(x, events, more[..k]);
      assert (events + more)[..|events + more| - 1] == events + more[..k];
    }
  }

  /** Without a raising write nothing is added: the same states, step by step. */
  lemma {:induction false} PlainHistory(x: Watched, steps: seq<Step>)
    ensures History(x, Plainly(steps)).sys == Execution(x.sys, steps)
    decreases |steps|
  {
    hide Apply, TryingAfter;
    if steps != [] {
      var k := |steps| - 1;
      PlainHistory(x, steps[..k]);
      assert Plainly(steps)[..k] == Plainly(steps[..k]);
    }
  }
}
