/**
  The two-stage interview: self_intro, then past_experience, which is terminal.
  Unlike the three-stage variant nothing publishes the stage, and the
  past-experience agent's entry leaves the shared record alone.
*/
module TwoStageInterview {
  import opened Wrappers
  import opened EffectLog
  import opened InterviewState

  /** The conversational agents; the framework runs one of them at a time. */
  datatype Agent = SelfIntroAgent | PastExperienceAgent

  /** What an operation asks of the outside world, in order. */
  datatype Effect =
    | RequestReply(instructions: string)                // the model is asked to reply
    | ToolReturned(next: Option<Agent>, message: string) // a tool's (next agent, message) pair

  /** The record after an agent hook, with the effects the hook requested. */
  datatype Reaction = Reaction(data: InterviewData, effects: seq<Effect>)

  /** The record after a tool call and its return value. */
  datatype ToolReply = ToolReply(data: InterviewData, next: Option<Agent>, message: string)

  /**
    Entry of the Stage-1 agent: stage reset to self_intro, a fresh 60-second
    deadline, and the greeting requested.
  */
  function SelfIntroOnEnter(d: InterviewData, now: real): (r: Reaction)
    ensures r.data == EnterSelfIntro(d, now)
    ensures r.effects == [RequestReply(GreetingInstructions)]
  {
    Reaction(EnterSelfIntro(d, now), [RequestReply(GreetingInstructions)])
  }

  /**
    A waking deadline fallback: the record is never changed; the model is asked
    to call the handoff tool exactly when the handoff is still open.
  */
  function DeadlineFallback(d: InterviewData): (r: Reaction)
    ensures r.data == d
    ensures |r.effects| <= 1
    ensures r.effects != [] <==> FallbackArmed(d)
    ensures forall i :: 0 <= i < |r.effects| ==> r.effects[i] == RequestReply(FallbackInstructions)
  {
    match FallbackRequest(d)
    case None => Reaction(d, [])
    case Some(instructions) => Reaction(d, [RequestReply(instructions)])
  }

  /**
    The Stage-1 handoff tool. While the latch is open it commits the handoff and
    returns the past-experience agent with the bridge message; once the latch is
    closed it returns no agent and leaves the record untouched.
  */
  function SelfIntroComplete(d: InterviewData, name: Option<string>, currentRole: Option<string>,
                             introSummary: Option<string>): (r: ToolReply)
    ensures d.handoffDone ==> r == ToolReply(d, None, ContinuingMessage)
    ensures !d.handoffDone ==>
      && r.data == CommitHandoff(d, name, currentRole, introSummary)
      && r.next == Some(PastExperienceAgent)
      && r.message == BridgeMessage
    ensures r.data.handoffDone && KeepsCollected(d, r.data)
  {
    if d.handoffDone then ToolReply(d, None, ContinuingMessage)
    else ToolReply(CommitHandoff(d, name, currentRole, introSummary), Some(PastExperienceAgent), BridgeMessage)
  }

  /** Entry of the past-experience agent: only the first question is requested. */
  function PastExperienceOnEnter(d: InterviewData): (r: Reaction)
    ensures r.data == d
    ensures r.effects == [RequestReply(PastProjectInstructions)]
  {
    Reaction(d, [RequestReply(PastProjectInstructions)])
  }

  // ---------------------------------------------------------------------------
  // The session as the agent framework drives it
  // ---------------------------------------------------------------------------

  /** The stage each agent stands for. */
  function AgentStage(a: Agent): Stage
  {
    match a
    case SelfIntroAgent => SelfIntro
    case PastExperienceAgent => PastExperience
  }

  /** The shared record together with the agent the framework is running (none before start). */
  datatype Runtime = Runtime(data: InterviewData, active: Option<Agent>)

  /** A session that has been created but not started. */
  function Boot(): Runtime
  {
    Runtime(Initial(), None)
  }

  /** The events the framework, the model and the deadline timer can deliver. */
  datatype Event =
    | Start(now: real)  // the session starts with the Stage-1 agent
    | FallbackWakes     // the Stage-1 deadline fallback finishes its wait
    | CallSelfIntroComplete(name: Option<string>, currentRole: Option<string>, introSummary: Option<string>)

  /**
    When an event can occur. The Stage-1 tool and its fallback may arrive at
    any time after start, which covers duplicate tool calls in one model reply
    and a fallback whose cancellation came too late.
  */
  predicate Enabled(rt: Runtime, e: Event)
  {
    match e
    case Start(_) => rt.active.None?
    case FallbackWakes => rt.active.Some?
    case CallSelfIntroComplete(_, _, _) => rt.active.Some?
  }

  /**
    The invariant of every reachable session: the stage is that of the running
    agent, and the Stage-1 latch is closed exactly when Stage 1 has been left.
  */
  predicate Inv(rt: Runtime)
  {
    match rt.active
    case None => rt.data.stage == SelfIntro && !rt.data.handoffDone
    case Some(a) => rt.data.stage == AgentStage(a) && (rt.data.handoffDone <==> a == PastExperienceAgent)
  }

  /** A tool return that hands Stage 1 over to the past-experience agent. */
  predicate IsHandoff(e: Effect)
  {
    e.ToolReturned? && e.next == Some(PastExperienceAgent)
  }

  /** The number of Stage-1 handoffs in a log. */
  function HandoffCount(log: seq<Effect>): nat
  {
    Count(log, IsHandoff)
  }

  /** The runtime after one event, with everything the event caused, in order. */
  datatype Outcome = Outcome(runtime: Runtime, log: seq<Effect>)

  /**
    One event. When the tool returns the past-experience agent the framework
    switches to it and runs its entry hook. The fallback never changes the
    session; the latch only ever closes, a set field is never cleared, and in an
    invariant state the stage never becomes done and never leaves past_experience.
  */
  function Step(rt: Runtime, e: Event): (o: Outcome)
    requires Enabled(rt, e)
    ensures Inv(rt) ==> Inv(o.runtime)
    ensures Inv(rt) ==> o.runtime.data.stage != Done
    ensures Inv(rt) && rt.data.stage == PastExperience ==> o.runtime.data.stage == PastExperience
    ensures rt.data.handoffDone ==> o.runtime.data.handoffDone && SameCollected(rt.data, o.runtime.data)
    ensures KeepsCollected(rt.data, o.runtime.data)
    ensures e.FallbackWakes? ==> o.runtime == rt
    ensures e.FallbackWakes? ==> (o.log != [] <==> FallbackArmed(rt.data))
    ensures HandoffCount(o.log) == if !rt.data.handoffDone && o.runtime.data.handoffDone then 1 else 0
  {
    match e
    case Start(now) =>
      var r := SelfIntroOnEnter(rt.data, now);
      Outcome(Runtime(r.data, Some(SelfIntroAgent)), r.effects)
    case FallbackWakes =>
      var r := DeadlineFallback(rt.data);
      Outcome(Runtime(r.data, rt.active), r.effects)
    case CallSelfIntroComplete(name, currentRole, introSummary) =>
      var t := SelfIntroComplete(rt.data, name, currentRole, introSummary);
      var returned := [ToolReturned(t.next, t.message)];
      if t.next == Some(PastExperienceAgent) then
        var r := PastExperienceOnEnter(t.data);
        CountAppend(returned, r.effects, IsHandoff);
        Outcome(Runtime(r.data, t.next), returned + r.effects)
      else
        Outcome(Runtime(t.data, rt.active), returned)
  }

  /** Replays events in order; `None` when one of them cannot occur where it arrives. */
  function Run(rt: Runtime, events: seq<Event>): Option<Outcome>
    decreases |events|
  {
    if events == [] then Some(Outcome(rt, []))
    else if !Enabled(rt, events[0]) then None
    else
      var first := Step(rt, events[0]);
      match Run(first.runtime, events[1..])
      case None => None
      case Some(rest) => Some(Outcome(rest.runtime, first.log + rest.log))
  }

  /**
    Along any trace from an invariant state: the invariant holds at the end, the
    stage never became done, past_experience was never left once reached, the
    latch stayed closed once closed with the collected fields frozen from then
    on, no set field was cleared, and the log holds one handoff exactly when the
    latch closed along the way.
  */
  lemma {:induction false} RunPreserves(rt: Runtime, events: seq<Event>)
    requires Inv(rt)
    requires Run(rt, events).Some?
    ensures var o := Run(rt, events).value;
      && Inv(o.runtime)
      && o.runtime.data.stage != Done
      && (rt.data.stage == PastExperience ==> o.runtime.data.stage == PastExperience)
      && (rt.data.handoffDone ==> o.runtime.data.handoffDone && SameCollected(rt.data, o.runtime.data))
      && KeepsCollected(rt.data, o.runtime.data)
      && HandoffCount(o.log) + (if rt.data.handoffDone then 1 else 0)
         == (if o.runtime.data.handoffDone then 1 else 0)
    decreases |events|
  {
    if events != [] {
      var first := Step(rt, events[0]);
      RunPreserves(first.runtime, events[1..]);
      var rest := Run(first.runtime, events[1..]).value;
      CountAppend(first.log, rest.log, IsHandoff);
    }
  }

  /**
    Exactly once: in every session the handoff happens at most once, and it has
    happened exactly when the latch is closed, whatever mix of tool calls and
    fallback wake-ups arrived.
  */
  lemma ExactlyOnceHandoff(events: seq<Event>)
    requires Run(Boot(), events).Some?
    ensures var o := Run(Boot(), events).value;
      && HandoffCount(o.log) <= 1
      && (HandoffCount(o.log) == 1 <==> o.runtime.data.handoffDone)
  {
    RunPreserves(Boot(), events);
  }

  /**
    In every reachable session the stage is self_intro or past_experience, an
    open latch means Stage 1 is still running, and past_experience is never left
    whatever events follow.
  */
  lemma ReachableStates(events: seq<Event>, more: seq<Event>)
    requires Run(Boot(), events).Some?
    requires Run(Run(Boot(), events).value.runtime, more).Some?
    ensures var rt := Run(Boot(), events).value.runtime;
      var d' := Run(rt, more).value.runtime.data;
      && rt.data.stage != Done
      && (!rt.data.handoffDone <==> rt.data.stage == SelfIntro)
      && (rt.data.stage == PastExperience ==> d'.stage == PastExperience)
  {
    RunPreserves(Boot(), events);
    RunPreserves(Run(Boot(), events).value.runtime, more);
  }
}
