/** `BaseAgent.execute` (autodocai/agents/base.py): every stage is wrapped
    the same way. An INFO message goes first, then the stage's own logic
    runs on the same state object; on a normal return a SUCCESS message is
    added, and if the logic raised, an ERROR message and one `errors` entry
    are added instead. The state the logic left behind is kept either way:
    nothing is rolled back. */
module Base {
  import opened Wrappers
  import opened Schemas
  import opened States

  /** How a stage's `_execute` ended. */
  datatype Outcome = Returned | Raised(error: string)

  /** The state a stage's logic leaves behind (at its return, or at the
      point where it raised) and how it ended. */
  datatype Step = Step(state: State, outcome: Outcome)

  function StartedText(name: string): string { name + " started processing" }
  function CompletedText(name: string): string { name + " completed successfully" }
  function FailedText(name: string, e: string): string { "Error in " + name + ": " + e }
  function ErrorEntry(name: string, e: string): string { name + ": " + e }

  /** The state the logic is handed: the INFO message added. */
  function Entered(s: State, name: string, clock: nat -> string): State
  {
    Added(s, name, Info, StartedText(name), clock)
  }

  /** What `execute` adds once the logic has ended. */
  function Finished(name: string, step: Step, clock: nat -> string): State
  {
    match step.outcome
    case Returned => Added(step.state, name, Success, CompletedText(name), clock)
    case Raised(e) => ErrorLogged(Added(step.state, name, Error, FailedText(name, e), clock), ErrorEntry(name, e))
  }

  /** `m` begins with the messages `a`. */
  predicate Extends(a: seq<AgentMessage>, m: seq<AgentMessage>)
  {
    |a| <= |m| && m[..|a|] == a
  }

  /** The logic added to `before` only messages signed `name`, kept the
      earlier ones and left `errors` alone. */
  predicate AppendsOnly(before: State, after: State, name: string)
  {
    && Extends(Msgs(before), Msgs(after))
    && (forall i :: |Msgs(before)| <= i < |Msgs(after)| ==> Msgs(after)[i].agent_name == name)
    && after.errors == before.errors
  }

  /** Adding a message signed `name` keeps `AppendsOnly`. */
  lemma AddedAppends(s: State, t: State, name: string, kind: MessageType, content: string, clock: nat -> string)
    requires AppendsOnly(s, t, name)
    ensures AppendsOnly(s, Added(t, name, kind, content, clock), name)
  {
    var r := Added(t, name, kind, content, clock);
    assert Msgs(r)[..|Msgs(s)|] == Msgs(r)[..|Msgs(t)|][..|Msgs(s)|];
  }

  /** Writing a field keeps `AppendsOnly`. */
  lemma PutAppends(s: State, t: State, name: string, k: string, v: Value)
    requires AppendsOnly(s, t, name)
    ensures AppendsOnly(s, Put(t, k, v), name)
  {
  }

  lemma AppendsTrans(s: State, t: State, u: State, name: string)
    requires AppendsOnly(s, t, name) && AppendsOnly(t, u, name)
    ensures AppendsOnly(s, u, name)
  {
    assert Msgs(u)[..|Msgs(s)|] == Msgs(u)[..|Msgs(t)|][..|Msgs(s)|];
  }

  /** `execute` for an agent called `name` whose `_execute` maps the state
      it is handed to `logic`'s step. */
  function Envelope(name: string, s: State, logic: State -> Step, clock: nat -> string): (r: State)
    // The INFO message comes before anything the logic adds.
    ensures AppendsOnly(Entered(s, name, clock), logic(Entered(s, name, clock)).state, name) ==>
      && Extends(Msgs(s), Msgs(r)) && |Msgs(s)| < |Msgs(r)|
      && Msgs(r)[|Msgs(s)|] == AgentMessage(name, Info, StartedText(name), clock(|Msgs(s)|))
      && (forall i :: |Msgs(s)| <= i < |Msgs(r)| ==> Msgs(r)[i].agent_name == name)
    // Whatever the logic wrote stays, whether it returned or raised.
    ensures r.fields == logic(Entered(s, name, clock)).state.fields
    // A normal return: SUCCESS last, no error recorded.
    ensures var step := logic(Entered(s, name, clock));
      step.outcome.Returned? ==>
        && Msgs(r) == Msgs(step.state) + [AgentMessage(name, Success, CompletedText(name), clock(|Msgs(step.state)|))]
        && r.errors == step.state.errors
    // A raise: exactly one ERROR message and exactly one errors entry, no SUCCESS.
    ensures var step := logic(Entered(s, name, clock));
      step.outcome.Raised? ==>
        && Msgs(r) == Msgs(step.state) + [AgentMessage(name, Error, FailedText(name, step.outcome.error), clock(|Msgs(step.state)|))]
        && Errs(r) == Errs(step.state) + [ErrorEntry(name, step.outcome.error)]
  {
    Finished(name, logic(Entered(s, name, clock)), clock)
  }

  /** The errors list only grows, and by one exactly when the logic raised. */
  lemma EnvelopeErrors(name: string, s: State, logic: State -> Step, clock: nat -> string)
    requires AppendsOnly(Entered(s, name, clock), logic(Entered(s, name, clock)).state, name)
    ensures var r := Envelope(name, s, logic, clock);
      && |Errs(r)| == |Errs(s)| + (if logic(Entered(s, name, clock)).outcome.Raised? then 1 else 0)
      && Errs(r)[..|Errs(s)|] == Errs(s)
  {
    var step := logic(Entered(s, name, clock));
    assert Errs(step.state) == Errs(s);
    if step.outcome.Raised? {
      assert Errs(Envelope(name, s, logic, clock)) == Errs(s) + [ErrorEntry(name, step.outcome.error)];
    }
  }

  /** `r` is `s` after one `execute` of `name`: the earlier messages kept, the
      INFO message first among two or more new ones, the earlier errors kept
      and at most one added. */
  predicate Grows(s: State, r: State, name: string, clock: nat -> string)
  {
    && Extends(Msgs(s), Msgs(r)) && |Msgs(r)| >= |Msgs(s)| + 2
    && Msgs(r)[|Msgs(s)|] == AgentMessage(name, Info, StartedText(name), clock(|Msgs(s)|))
    && |Errs(s)| <= |Errs(r)| <= |Errs(s)| + 1 && Errs(r)[..|Errs(s)|] == Errs(s)
  }

  /** The envelope keeps the messages it was handed, starts its own with
      the INFO message, adds at least that and a closing message, and adds
      at most one error. */
  lemma EnvelopeGrows(name: string, s: State, logic: State -> Step, clock: nat -> string)
    requires AppendsOnly(Entered(s, name, clock), logic(Entered(s, name, clock)).state, name)
    ensures Grows(s, Envelope(name, s, logic, clock), name, clock)
  {
    EnvelopeErrors(name, s, logic, clock);
    var e := Entered(s, name, clock);
    assert |Msgs(e)| == |Msgs(s)| + 1;
    assert |Msgs(logic(e).state)| >= |Msgs(e)|;
  }

  /** `execute`'s first half: the INFO message. */
  method Enter(st: WorkflowState, name: string, clock: nat -> string)
    modifies st
    ensures st.Snapshot() == Entered(old(st.Snapshot()), name, clock)
  {
    st.AddMessage(name, Info, StartedText(name), clock);
  }

  /** `execute`'s second half, once `_execute` returned or raised. */
  method Leave(st: WorkflowState, name: string, o: Outcome, clock: nat -> string)
    modifies st
    ensures st.Snapshot() == Finished(name, Step(old(st.Snapshot()), o), clock)
  {
    match o {
      case Returned =>
        st.AddMessage(name, Success, CompletedText(name), clock);
      case Raised(e) =>
        st.AddMessage(name, Error, FailedText(name, e), clock);
        st.AddError(ErrorEntry(name, e));
    }
  }
}
