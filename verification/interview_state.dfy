/**
  The session record that every agent of one interview shares (`InterviewData`),
  Python's `supplied or previous` field merge, and the Stage-1 logic that the
  two-stage and the three-stage variants of the interview have in common.
*/
module InterviewState {
  import opened Wrappers

  /** The `stage` string. The code only ever writes these three values. */
  datatype Stage = SelfIntro | PastExperience | Done

  /** The string the code stores for a stage. */
  function StageName(s: Stage): string
  {
    match s
    case SelfIntro => "self_intro"
    case PastExperience => "past_experience"
    case Done => "done"
  }

  /** Reads a stage string back; any other string names no stage. */
  function ParseStage(name: string): (r: Option<Stage>)
    ensures r.Some? <==> name in {"self_intro", "past_experience", "done"}
    ensures r.Some? ==> StageName(r.value) == name
  {
    if name == "self_intro" then Some(SelfIntro)
    else if name == "past_experience" then Some(PastExperience)
    else if name == "done" then Some(Done)
    else None
  }

  /** Stage names are distinct, so comparing the string compares the stage. */
  lemma ParseStageName(s: Stage)
    ensures ParseStage(StageName(s)) == Some(s)
  {
  }

  /** Position of a stage in the interview: self_intro, then past_experience, then done. */
  function StageRank(s: Stage): nat
  {
    match s
    case SelfIntro => 0
    case PastExperience => 1
    case Done => 2
  }

  /** How long Stage 1 may last before the deadline fallback fires, in seconds. */
  const SelfIntroMaxSeconds: real := 60.0

  /** The shared session record. Timestamps are seconds as reals. */
  datatype InterviewData = InterviewData(
    stage: Stage,
    handoffDone: bool,
    name: Option<string>,
    currentRole: Option<string>,
    introSummary: Option<string>,
    selfIntroDeadlineAt: real)

  /** The record as the session creates it: the dataclass defaults. */
  function Initial(): (d: InterviewData)
    ensures d.stage == SelfIntro && !d.handoffDone
    ensures d.name == None && d.currentRole == None && d.introSummary == None
    ensures d.selfIntroDeadlineAt == 0.0
  {
    InterviewData(SelfIntro, false, None, None, None, 0.0)
  }

  /** Python truthiness of an `Optional[str]`: both `None` and `""` are false. */
  predicate Truthy(v: Option<string>)
  {
    v.Some? && v.value != ""
  }

  /**
    `supplied or previous`: a supplied value replaces the previous one only when
    it is truthy, so an absent or empty value never clears a collected field.
  */
  function MergeField(supplied: Option<string>, previous: Option<string>): (r: Option<string>)
    ensures r == supplied || r == previous
    ensures Truthy(supplied) ==> r == supplied
    ensures !Truthy(supplied) ==> r == previous
    ensures Truthy(r) <==> Truthy(supplied) || Truthy(previous)
  {
    if Truthy(supplied) then supplied else previous
  }

  /** Every collected field that is set in `a` is still set in `b`. */
  predicate KeepsCollected(a: InterviewData, b: InterviewData)
  {
    && (Truthy(a.name) ==> Truthy(b.name))
    && (Truthy(a.currentRole) ==> Truthy(b.currentRole))
    && (Truthy(a.introSummary) ==> Truthy(b.introSummary))
  }

  /** The collected fields of `a` and `b` are identical. */
  predicate SameCollected(a: InterviewData, b: InterviewData)
  {
    a.name == b.name && a.currentRole == b.currentRole && a.introSummary == b.introSummary
  }

  /**
    The wait of the deadline fallback, `max(0, deadline - now)`: never negative,
    and the fallback wakes at the deadline, or at once when it has passed.
  */
  function FallbackDelay(deadlineAt: real, now: real): (delay: real)
    ensures delay >= 0.0
    ensures now + delay >= deadlineAt
    ensures delay == 0.0 || now + delay == deadlineAt
    ensures deadlineAt > now ==> delay > 0.0
  {
    if deadlineAt - now > 0.0 then deadlineAt - now else 0.0
  }

  /**
    The record updates of the Stage-1 agent's entry: the stage is reset to
    self_intro and the deadline is set a full Stage-1 budget after `now`.
  */
  function EnterSelfIntro(d: InterviewData, now: real): (r: InterviewData)
    ensures r.stage == SelfIntro
    ensures FallbackDelay(r.selfIntroDeadlineAt, now) == SelfIntroMaxSeconds
    ensures r.handoffDone == d.handoffDone && SameCollected(d, r)
  {
    d.(stage := SelfIntro, selfIntroDeadlineAt := now + SelfIntroMaxSeconds)
  }

  /** Whether a waking deadline fallback still has work to do. */
  predicate FallbackArmed(d: InterviewData)
  {
    !d.handoffDone && d.stage == SelfIntro
  }

  /**
    What a waking deadline fallback asks of the model: the instruction to call
    the handoff tool, or nothing once the handoff happened or Stage 1 is left.
    It returns no record, so it never changes the session.
  */
  function FallbackRequest(d: InterviewData): (request: Option<string>)
    ensures request.Some? <==> FallbackArmed(d)
    ensures request.Some? ==> request.value == FallbackInstructions
  {
    if d.handoffDone || d.stage != SelfIntro then None else Some(FallbackInstructions)
  }

  /**
    The record updates of a Stage-1 handoff that wins the latch: the latch
    closes, the stage moves to past_experience and each collected field takes
    the supplied value only when it is truthy.
  */
  function CommitHandoff(d: InterviewData, name: Option<string>, currentRole: Option<string>,
                         introSummary: Option<string>): (r: InterviewData)
    requires !d.handoffDone
    ensures r.handoffDone && r.stage == PastExperience
    ensures r.name == MergeField(name, d.name)
    ensures r.currentRole == MergeField(currentRole, d.currentRole)
    ensures r.introSummary == MergeField(introSummary, d.introSummary)
    ensures KeepsCollected(d, r)
    ensures r.selfIntroDeadlineAt == d.selfIntroDeadlineAt
  {
    d.(handoffDone := true,
       stage := PastExperience,
       name := MergeField(name, d.name),
       currentRole := MergeField(currentRole, d.currentRole),
       introSummary := MergeField(introSummary, d.introSummary))
  }

  /** Instruction of the Stage-1 agent's opening reply. */
  const GreetingInstructions: string :=
    "Greet the user and ask them to introduce themselves."

  /** Instruction a waking deadline fallback gives the model. */
  const FallbackInstructions: string :=
    "We need to keep the interview moving. Summarize the self-introduction "
    + "based on what's available, then call self_intro_complete with best-effort "
    + "values (use null if unknown)."

  /** Message the Stage-1 tool returns with the past-experience agent. */
  const BridgeMessage: string :=
    "Thanks. Now let\U{2019}s switch to past experience: tell me about one project "
    + "you\U{2019}re proud of, what you did, and what impact it had."

  /** Message the Stage-1 tool returns when the handoff already happened. */
  const ContinuingMessage: string := "Continuing."

  /** Instruction of the past-experience agent's opening reply. */
  const PastProjectInstructions: string :=
    "Ask the user to describe a past project they significantly contributed to."
}
