/**
  The three-stage interview: self_intro, then past_experience, then done.
  Each agent's entry and tools act on the shared record and publish the stage;
  a runtime replays the agent framework's events so that properties of every
  reachable session can be stated over whole event traces.
*/
module BackendInterview {
  import opened Wrappers
  import opened EffectLog
  import opened InterviewState

  /** The conversational agents; the framework runs one of them at a time. */
  datatype Agent = SelfIntroAgent | PastExperienceAgent | DoneAgent

  /** What an operation asks of the outside world, in order. */
  datatype Effect =
    | Broadcast(payload: string)                        // broadcast_stage called with this payload
    | RequestReply(instructions: string)                // the model is asked to reply
    | ToolReturned(next: Option<Agent>, message: string) // a tool's (next agent, message) pair

  /** The record after an agent hook, with the effects the hook requested. */
  datatype Reaction = Reaction(data: InterviewData, effects: seq<Effect>)

  /** The record after a tool call, the effects before it returned, and its return value. */
  datatype ToolReply = ToolReply(data: InterviewData, effects: seq<Effect>, next: Option<Agent>, message: string)

  const PayloadPrefix: string := "{\"stage\": \""
  const PayloadSuffix: string := "\"}"

  /** Reads a published payload back; only payloads of a stage are accepted. */
  function PayloadStage(p: string): (r: Option<Stage>)
    ensures r.Some? ==> p == PayloadPrefix + StageName(r.value) + PayloadSuffix
  {
    if |p| >= |PayloadPrefix| + |PayloadSuffix|
       && p[..|PayloadPrefix|] == PayloadPrefix
       && p[|p| - |PayloadSuffix|..] == PayloadSuffix
    then
      var r := ParseStage(p[|PayloadPrefix|..|p| - |PayloadSuffix|]);
      assert r.Some? ==> p == p[..|PayloadPrefix|] + p[|PayloadPrefix|..|p| - |PayloadSuffix|] + p[|p| - |PayloadSuffix|..];
      r
    else None
  }

  /**
    The data-channel payload `{"stage": "<stage>"}` that `broadcast_stage`
    publishes; reading it back yields the stage it was made from, so distinct
    stages are published as distinct payloads.
  */
  function StagePayload(s: Stage): (p: string)
    ensures PayloadStage(p) == Some(s)
  {
    var p := PayloadPrefix + StageName(s) + PayloadSuffix;
    assert p[..|PayloadPrefix|] == PayloadPrefix;
    assert p[|p| - |PayloadSuffix|..] == PayloadSuffix;
    assert p[|PayloadPrefix|..|p| - |PayloadSuffix|] == StageName(s);
    ParseStageName(s);
    p
  }

  /** Closing message of the past-experience tool. */
  const ClosingMessage: string :=
    "Thank you for sharing! That concludes our mock interview. "
    + "You did great discussing your background and project experience."

  /**
    Entry of the Stage-1 agent: stage reset to self_intro, a fresh 60-second
    deadline, the stage published, and the greeting requested.
  */
  function SelfIntroOnEnter(d: InterviewData, now: real): (r: Reaction)
    ensures r.data == EnterSelfIntro(d, now)
    ensures r.effects == [Broadcast(StagePayload(SelfIntro)), RequestReply(GreetingInstructions)]
  {
    var e := EnterSelfIntro(d, now);
    Reaction(e, [Broadcast(StagePayload(e.stage)), RequestReply(GreetingInstructions)])
  }

  /**
    A waking deadline fallback: the record is never changed; the model is asked
    to call the handoff tool exactly when the handoff is still open.
  */
  function DeadlineFallback(d: InterviewData): (r: Reaction)
    ensures r.data == d
    ensures |r.effects| <= 1
    ensures r.effects != [] <==> FallbackArmed(d)
    ensures forall i :: 0 <= i < |r.effects| ==> r.effects[i] == RequestReply(FallbackInstructions)
  {
    match FallbackRequest(d)
    case None => Reaction(d, [])
    case Some(instructions) => Reaction(d, [RequestReply(instructions)])
  }

  /**
    The Stage-1 handoff tool. While the latch is open it commits the handoff,
    publishes the new stage and returns the past-experience agent with the
    bridge message; once the latch is closed it returns no agent and leaves the
    record untouched.
  */
  function SelfIntroComplete(d: InterviewData, name: Option<string>, currentRole: Option<string>,
                             introSummary: Option<string>): (r: ToolReply)
    ensures d.handoffDone ==> r == ToolReply(d, [], None, ContinuingMessage)
    ensures !d.handoffDone ==>
      && r.data == CommitHandoff(d, name, currentRole, introSummary)
      && r.effects == [Broadcast(StagePayload(PastExperience))]
      && r.next == Some(PastExperienceAgent)
      && r.message == BridgeMessage
    ensures r.data.handoffDone && KeepsCollected(d, r.data)
  {
    if d.handoffDone then ToolReply(d, [], None, ContinuingMessage)
    else
      var c := CommitHandoff(d, name, currentRole, introSummary);
      ToolReply(c, [Broadcast(StagePayload(c.stage))], Some(PastExperienceAgent), BridgeMessage)
  }

  /** Entry of the past-experience agent: stage past_experience, published, and the first question requested. */
  function PastExperienceOnEnter(d: InterviewData): (r: Reaction)
    ensures r.data == d.(stage := PastExperience)
    ensures r.effects == [Broadcast(StagePayload(PastExperience)), RequestReply(PastProjectInstructions)]
  {
    var e := d.(stage := PastExperience);
    Reaction(e, [Broadcast(StagePayload(e.stage)), RequestReply(PastProjectInstructions)])
  }

  /**
    The Stage-2 tool: the stage becomes done and the done agent is returned with
    the closing message. It has no latch, and the project summary it is given
    is not stored.
  */
  function PastExperienceComplete(d: InterviewData, projectSummary: Option<string>): (r: ToolReply)
    ensures r.data.stage == Done
    ensures r.data.handoffDone == d.handoffDone && SameCollected(d, r.data)
    ensures r.data.selfIntroDeadlineAt == d.selfIntroDeadlineAt
    ensures r.effects == [Broadcast(StagePayload(Done))]
    ensures r.next == Some(DoneAgent) && r.message == ClosingMessage
  {
    var e := d.(stage := Done);
    ToolReply(e, [Broadcast(StagePayload(e.stage))], Some(DoneAgent), ClosingMessage)
  }

  /** Calling the Stage-2 tool again changes nothing more in the record. */
  lemma PastExperienceCompleteIdempotent(d: InterviewData, s1: Option<string>, s2: Option<string>)
    ensures PastExperienceComplete(PastExperienceComplete(d, s1).data, s2).data
         == PastExperienceComplete(d, s1).data
  {
  }

  /** Entry of the done agent: stage done, published. */
  function DoneOnEnter(d: InterviewData): (r: Reaction)
    ensures r.data == d.(stage := Done)
    ensures r.effects == [Broadcast(StagePayload(Done))]
  {
    var e := d.(stage := Done);
    Reaction(e, [Broadcast(StagePayload(e.stage))])
  }

  // ---------------------------------------------------------------------------
  // The session as the agent framework drives it
  // ---------------------------------------------------------------------------

  /** The stage each agent stands for. */
  function AgentStage(a: Agent): Stage
  {
    match a
    case SelfIntroAgent => SelfIntro
    case PastExperienceAgent => PastExperience
    case DoneAgent => Done
  }

  /** The shared record together with the agent the framework is running (none before start). */
  datatype Runtime = Runtime(data: InterviewData, active: Option<Agent>)

  /** A session that has been created but not started. */
  function Boot(): Runtime
  {
    Runtime(Initial(), None)
  }

  /** The events the framework, the model and the deadline timer can deliver. */
  datatype Event =
    | Start(now: real)  // the session starts with the Stage-1 agent
    | FallbackWakes     // the Stage-1 deadline fallback finishes its wait
    | CallSelfIntroComplete(name: Option<string>, currentRole: Option<string>, introSummary: Option<string>)
    | CallPastExperienceComplete(projectSummary: Option<string>)

  /**
    When an event can occur. The Stage-1 tool and its fallback may arrive at
    any time after start, which covers duplicate tool calls in one model reply
    and a fallback whose cancellation came too late; the Stage-2 tool needs
    the past-experience agent to have been entered.
  */
  predicate Enabled(rt: Runtime, e: Event)
  {
    match e
    case Start(_) => rt.active.None?
    case FallbackWakes => rt.active.Some?
    case CallSelfIntroComplete(_, _, _) => rt.active.Some?
    case CallPastExperienceComplete(_) =>
      rt.active == Some(PastExperienceAgent) || rt.active == Some(DoneAgent)
  }

  /**
    The invariant of every reachable session: the stage is that of the running
    agent, and the Stage-1 latch is closed exactly when Stage 1 has been left.
  */
  predicate Inv(rt: Runtime)
  {
    match rt.active
    case None => rt.data.stage == SelfIntro && !rt.data.handoffDone
    case Some(a) => rt.data.stage == AgentStage(a) && (rt.data.handoffDone <==> a != SelfIntroAgent)
  }

  /** A tool return that hands Stage 1 over to the past-experience agent. */
  predicate IsHandoff(e: Effect)
  {
    e.ToolReturned? && e.next == Some(PastExperienceAgent)
  }

  /** The number of Stage-1 handoffs in a log. */
  function HandoffCount(log: seq<Effect>): nat
  {
    Count(log, IsHandoff)
  }

  /** The runtime after one event, with everything the event caused, in order. */
  datatype Outcome = Outcome(runtime: Runtime, log: seq<Effect>)

  /**
    One event. A tool that returns an agent makes the framework switch to it and
    run its entry hook. The fallback never changes the session; the latch only
    ever closes, a set field is never cleared, and in an invariant state the
    stage never moves backwards and the invariant is kept.
  */
  function Step(rt: Runtime, e: Event): (o: Outcome)
    requires Enabled(rt, e)
    ensures Inv(rt) ==> Inv(o.runtime)
    ensures Inv(rt) ==> StageRank(rt.data.stage) <= StageRank(o.runtime.data.stage)
    ensures rt.data.handoffDone ==> o.runtime.data.handoffDone && SameCollected(rt.data, o.runtime.data)
    ensures KeepsCollected(rt.data, o.runtime.data)
    ensures e.FallbackWakes? ==> o.runtime == rt
    ensures e.FallbackWakes? ==> (o.log != [] <==> FallbackArmed(rt.data))
    ensures HandoffCount(o.log) == if !rt.data.handoffDone && o.runtime.data.handoffDone then 1 else 0
  {
    match e
    case Start(now) =>
      var r := SelfIntroOnEnter(rt.data, now);
      Outcome(Runtime(r.data, Some(SelfIntroAgent)), r.effects)
    case FallbackWakes =>
      var r := DeadlineFallback(rt.data);
      Outcome(Runtime(r.data, rt.active), r.effects)
    case CallSelfIntroComplete(name, currentRole, introSummary) =>
      var t := SelfIntroComplete(rt.data, name, currentRole, introSummary);
      var returned := [ToolReturned(t.next, t.message)];
      if t.next == Some(PastExperienceAgent) then
        var r := PastExperienceOnEnter(t.data);
        CountAppend(t.effects + returned, r.effects, IsHandoff);
        CountAppend(t.effects, returned, IsHandoff);
        Outcome(Runtime(r.data, t.next), t.effects + returned + r.effects)
      else
        Outcome(Runtime(t.data, rt.active), t.effects + returned)
    case CallPastExperienceComplete(projectSummary) =>
      var t := PastExperienceComplete(rt.data, projectSummary);
      var r := DoneOnEnter(t.data);
      Outcome(Runtime(r.data, t.next), t.effects + [ToolReturned(t.next, t.message)] + r.effects)
  }

  /** Replays events in order; `None` when one of them cannot occur where it arrives. */
  function Run(rt: Runtime, events: seq<Event>): Option<Outcome>
    decreases |events|
  {
    if events == [] then Some(Outcome(rt, []))
    else if !Enabled(rt, events[0]) then None
    else
      var first := Step(rt, events[0]);
      match Run(first.runtime, events[1..])
      case None => None
      case Some(rest) => Some(Outcome(rest.runtime, first.log + rest.log))
  }

  /**
    Along any trace from an invariant state: the invariant holds at the end, the
    stage only moved forward, the latch stayed closed once closed with the
    collected fields frozen from then on, no set field was cleared, and the log
    holds one handoff exactly when the latch closed along the way.
  */
  lemma {:induction false} RunPreserves(rt: Runtime, events: seq<Event>)
    requires Inv(rt)
    requires Run(rt, events).Some?
    ensures var o := Run(rt, events).value;
      && Inv(o.runtime)
      && StageRank(rt.data.stage) <= StageRank(o.runtime.data.stage)
      && (rt.data.handoffDone ==> o.runtime.data.handoffDone && SameCollected(rt.data, o.runtime.data))
      && KeepsCollected(rt.data, o.runtime.data)
      && HandoffCount(o.log) + (if rt.data.handoffDone then 1 else 0)
         == (if o.runtime.data.handoffDone then 1 else 0)
    decreases |events|
  {
    if events != [] {
      var first := Step(rt, events[0]);
      RunPreserves(first.runtime, events[1..]);
      var rest := Run(first.runtime, events[1..]).value;
      CountAppend(first.log, rest.log, IsHandoff);
    }
  }

  /**
    Exactly once: in every session the Stage-1 handoff happens at most once, and
    it has happened exactly when the latch is closed, whatever mix of tool calls
    and fallback wake-ups arrived.
  */
  lemma ExactlyOnceHandoff(events: seq<Event>)
    requires Run(Boot(), events).Some?
    ensures var o := Run(Boot(), events).value;
      && HandoffCount(o.log) <= 1
      && (HandoffCount(o.log) == 1 <==> o.runtime.data.handoffDone)
  {
    RunPreserves(Boot(), events);
  }

  /**
    In every reachable session an open latch means Stage 1 is still running,
    and a session past Stage 1 has closed the latch.
  */
  lemma ReachableStates(events: seq<Event>)
    requires Run(Boot(), events).Some?
    ensures var d := Run(Boot(), events).value.runtime.data;
      !d.handoffDone <==> d.stage == SelfIntro
  {
    RunPreserves(Boot(), events);
  }

  /** From a reachable session the stage only moves forward, whatever events follow. */
  lemma StageMovesForward(events: seq<Event>, more: seq<Event>)
    requires Run(Boot(), events).Some?
    requires Run(Run(Boot(), events).value.runtime, more).Some?
    ensures var rt := Run(Boot(), events).value.runtime;
      StageRank(rt.data.stage) <= StageRank(Run(rt, more).value.runtime.data.stage)
  {
    RunPreserves(Boot(), events);
    RunPreserves(Run(Boot(), events).value.runtime, more);
  }

  /**
    If publishing the new stage raises inside the Stage-1 tool, the latch and
    stage are already committed but no agent is returned, so the framework keeps
    the Stage-1 agent. That session breaks the invariant and is stuck: every
    later tool call answers "Continuing.", every fallback wake-up does nothing,
    and no handoff ever happens.
  */
  lemma FailedPublishStrandsStageOne(rt: Runtime, name: Option<string>, currentRole: Option<string>,
                                     introSummary: Option<string>, events: seq<Event>)
    requires Inv(rt) && rt.active == Some(SelfIntroAgent)
    ensures var stranded := Runtime(CommitHandoff(rt.data, name, currentRole, introSummary), rt.active);
      && !Inv(stranded)
      && stranded.data.stage == PastExperience
      && (Run(stranded, events).Some? ==>
            Run(stranded, events).value.runtime == stranded
            && HandoffCount(Run(stranded, events).value.log) == 0)
  {
    var stranded := Runtime(CommitHandoff(rt.data, name, currentRole, introSummary), rt.active);
    if Run(stranded, events).Some? {
      StrandedStaysStranded(stranded, events);
    }
  }

  /** A Stage-1 agent whose latch is already closed never leaves its session state. */
  lemma {:induction false} StrandedStaysStranded(rt: Runtime, events: seq<Event>)
    requires rt.active == Some(SelfIntroAgent) && rt.data.handoffDone
    requires Run(rt, events).Some?
    ensures Run(rt, events).value.runtime == rt
    ensures HandoffCount(Run(rt, events).value.log) == 0
    decreases |events|
  {
    if events != [] {
      var first := Step(rt, events[0]);
      assert first.runtime == rt;
      StrandedStaysStranded(rt, events[1..]);
      CountAppend(first.log, Run(rt, events[1..]).value.log, IsHandoff);
    }
  }

  /**
    The code publishes each new stage twice per handoff: once from the tool and
    once from the entered agent's hook.
  */
  lemma HandoffPublishesTwice(rt: Runtime, name: Option<string>, currentRole: Option<string>,
                              introSummary: Option<string>)
    requires Inv(rt) && rt.active == Some(SelfIntroAgent)
    ensures var o := Step(rt, CallSelfIntroComplete(name, currentRole, introSummary));
      Count(o.log, (e: Effect) => e == Broadcast(StagePayload(PastExperience))) == 2
  {
    var marks := (e: Effect) => e == Broadcast(StagePayload(PastExperience));
    var o := Step(rt, CallSelfIntroComplete(name, currentRole, introSummary));
    assert Count(o.log[3..], marks) == 0;
    assert Count(o.log[2..], marks) == 1;
    assert Count(o.log[1..], marks) == 1;
  }

  /**
    The Stage-2 tool has no latch: a duplicate call returns the done agent and
    the closing message a second time, with the record unchanged by it.
  */
  lemma RepeatedClosingHandoff(rt: Runtime, s1: Option<string>, s2: Option<string>)
    requires Inv(rt) && rt.active == Some(PastExperienceAgent)
    ensures var o1 := Step(rt, CallPastExperienceComplete(s1));
      && Enabled(o1.runtime, CallPastExperienceComplete(s2))
      && var o2 := Step(o1.runtime, CallPastExperienceComplete(s2));
      && o2.runtime == o1.runtime
      && ToolReturned(Some(DoneAgent), ClosingMessage) in o2.log
  {
  }
}
