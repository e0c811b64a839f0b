# Interview handoff state machine

A Dafny model of the stage controller of a voice/text mock-interview agent. One
shared session record, `InterviewData`, holds the interview stage, a
`handoff_done` latch, the collected Stage-1 fields (`name`, `current_role`,
`intro_summary`) and the Stage-1 deadline. The agents act on that record: a
self-introduction agent, a past-experience agent and, in the three-stage
variant, a done agent. Stage 1 ends in one of two ways. Either the model calls
the `self_intro_complete` handoff tool, or a deadline fallback wakes after 60
seconds and asks the model to call that tool. Only the tool commits the
transition, and its `handoff_done` latch makes the transition happen exactly
once.

The repository holds two near-identical variants, and each has its own module:

- `BackendInterview` models `backend/main.py`. It has three stages
  (`self_intro` → `past_experience` → `done`), and every stage change is
  published as a `{"stage": "<stage>"}` payload.
- `TwoStageInterview` models `main.py`. It has two stages, and
  `past_experience` is terminal: entering it leaves the record unchanged.

Shared pieces live in `InterviewState`:

- the record and its defaults;
- Python's `supplied or previous` field merge (`MergeField`), where both
  `None` and `""` count as absent;
- the fallback's wait `max(0, deadline - now)`;
- the fallback's guard;
- the record update of a winning handoff.

Each agent hook and tool is a pure function. It maps the record to the new
record plus the effects it requests, in order: a stage broadcast, a request
for a model reply, or a tool's `(next agent, message)` return.

A `Runtime` adds the agent that the agent framework is currently running. Its
`Step` function applies one event: session start, a fallback waking up, or a
tool call. When a tool returns an agent, `Step` also switches to that agent
and runs its entry hook, as the framework does. `Run` replays an event
sequence. The lemmas quantify over all such sequences:

- the invariant of reachable sessions;
- exactly-once handoff;
- stage monotonicity;
- the latch;
- fields that are never cleared.

Events are allowed more freely than the framework would deliver them, so the
results cover the races the code has to survive. A second
`self_intro_complete` may arrive at any time after the start (a duplicate
tool call in one model reply). A fallback may wake at any time after the start
(one whose cancellation came too late).

Timestamps are reals. The fallback's guard does not read the clock, so the
wake-up event carries no time. `FallbackDelay` models the wait that comes
before it.

## Model

| member | source | states |
|---|---|---|
| InterviewState.Initial | backend/main.py:33-42 | A new record is at stage self_intro with the latch open, no name, role or summary, and deadline 0; main.py:50-59 has the same defaults |
| InterviewState.ParseStage | backend/main.py:94 | A string names a stage exactly when it is one of the three stage strings, and the name of the stage it yields is that string, so the code's string comparisons on `stage` are comparisons of stages |
| InterviewState.ParseStageName | backend/main.py:94 | Reading a stage's name back yields that stage, so different stages have different names |
| InterviewState.MergeField | backend/main.py:125-127 | The merged field is either the supplied value or the previous one; a truthy supplied value wins; `None` or `""` keeps the previous value; the result is set iff either input is set, so a set field is never cleared (main.py:131-133 is identical) |
| InterviewState.FallbackDelay | backend/main.py:88 | The fallback's wait is never negative, never ends before the deadline, and either is 0 or ends exactly at the deadline; it is positive while the deadline lies ahead (main.py:94 is identical) |
| InterviewState.EnterSelfIntro | backend/main.py:69-72 | Entering Stage 1 sets stage self_intro and a deadline such that a fallback starting now waits exactly the 60-second budget of line 30; latch and collected fields are untouched |
| InterviewState.FallbackRequest | backend/main.py:94-104 | A waking fallback asks the model to call the handoff tool iff the latch is open and the stage is self_intro, and asks nothing otherwise; it yields no record, so it cannot change the session |
| InterviewState.CommitHandoff | backend/main.py:123-127 | A winning handoff closes the latch, moves to past_experience, merges each field with the keep-unless-truthy rule, keeps every set field set and leaves the deadline alone |
| BackendInterview.PayloadStage | backend/main.py:46-51 | A payload read as a stage is exactly the payload published for that stage |
| BackendInterview.StagePayload | backend/main.py:49 | The payload `broadcast_stage` builds for a stage reads back as that stage, so distinct stages are published as distinct payloads |
| BackendInterview.SelfIntroOnEnter | backend/main.py:69-80 | Stage-1 entry applies the Stage-1 entry update, publishes self_intro, then requests the greeting |
| BackendInterview.DeadlineFallback | backend/main.py:86-104 | The fallback never changes the record and requests at most one reply, the tool-call instruction, exactly when the handoff is still open |
| BackendInterview.SelfIntroComplete | backend/main.py:106-136 | With the latch closed the tool returns no agent and "Continuing." and leaves the record untouched; with it open it commits the handoff, publishes past_experience and returns the past-experience agent with the bridge message; afterwards the latch is closed and no set field was cleared |
| BackendInterview.PastExperienceOnEnter | backend/main.py:154-163 | Stage-2 entry sets stage past_experience only, publishes it, then requests the first project question |
| BackendInterview.PastExperienceComplete | backend/main.py:165-185 | The Stage-2 tool sets stage done, leaves latch, fields and deadline unchanged, ignores the project summary, publishes done and returns the done agent with the closing message |
| BackendInterview.PastExperienceCompleteIdempotent | backend/main.py:175-176 | Calling the Stage-2 tool again leaves the record as the first call left it |
| BackendInterview.DoneOnEnter | backend/main.py:197-200 | Entering the done agent sets stage done only and publishes it |
| BackendInterview.Step | backend/main.py:69-200 | One event keeps the reachable-state invariant and never moves the stage backwards; the latch never reopens and the fields are frozen once it is closed; no set field is cleared; a fallback wake-up leaves the session unchanged and requests a reply iff the handoff is open; the step logs one handoff iff it closed the latch |
| BackendInterview.RunPreserves | backend/main.py:120-136 | Over any event sequence from an invariant state, all the one-step facts hold end to end, and the handoff count plus the initial latch equals the final latch |
| BackendInterview.ExactlyOnceHandoff | backend/main.py:120-124 | In every session the Stage-1 handoff is returned at most once, and once exactly when the latch is closed, whatever tool calls and fallback wake-ups interleave |
| BackendInterview.ReachableStates | backend/main.py:120-124 | In every reachable session the latch is open iff the stage is self_intro: only the winning handoff leaves Stage 1, and it closes the latch |
| BackendInterview.StageMovesForward | backend/main.py:69-200 | From every reachable session the stage only moves forward self_intro → past_experience → done, along any continuation |
| BackendInterview.HandoffPublishesTwice | backend/main.py:123-157 | A handoff calls `broadcast_stage` with the past_experience payload twice, from the tool (line 128) and from the entered agent (line 157) |
| BackendInterview.FailedPublishStrandsStageOne | backend/main.py:120-128 | If `broadcast_stage` raises at line 128 after lines 123-124 closed the latch, the Stage-1 agent stays active with stage past_experience; that session violates the invariant, and no later tool call or fallback wake-up changes it or hands off |
| BackendInterview.StrandedStaysStranded | backend/main.py:94-121 | A Stage-1 agent whose latch is closed is unchanged by any sequence of events and produces no handoff: the tool answers "Continuing." (120-121) and the fallback returns early (94-95) |
| BackendInterview.RepeatedClosingHandoff | backend/main.py:165-185 | A duplicate Stage-2 tool call is accepted, returns the done agent and closing message again, and leaves the session as it was |
| TwoStageInterview.SelfIntroOnEnter | main.py:76-86 | Stage-1 entry applies the Stage-1 entry update and requests the greeting; nothing is published |
| TwoStageInterview.DeadlineFallback | main.py:92-110 | The fallback never changes the record and requests at most one reply, the tool-call instruction, exactly when the handoff is still open |
| TwoStageInterview.SelfIntroComplete | main.py:112-141 | With the latch closed the tool returns no agent and "Continuing." and leaves the record untouched; with it open it commits the handoff and returns the past-experience agent with the bridge message |
| TwoStageInterview.PastExperienceOnEnter | main.py:156-161 | Stage-2 entry leaves the record unchanged and only requests the first project question |
| TwoStageInterview.Step | main.py:76-161 | One event keeps the invariant, never reaches done and never leaves past_experience; the latch never reopens and the fields are frozen once it is closed; no set field is cleared; a fallback wake-up leaves the session unchanged; the step logs one handoff iff it closed the latch |
| TwoStageInterview.RunPreserves | main.py:126-133 | Over any event sequence from an invariant state, all the one-step facts hold end to end, and the handoff count plus the initial latch equals the final latch |
| TwoStageInterview.ExactlyOnceHandoff | main.py:126-130 | In every session the handoff is returned at most once, and once exactly when the latch is closed |
| TwoStageInterview.ReachableStates | main.py:144-161 | Every reachable session is at self_intro or past_experience, never done; its latch is open iff it is at self_intro; past_experience is terminal along any continuation |

## Notes on the code's behaviour

- `handoff_done` is set once, at backend/main.py:123 (main.py:129), and never
  reset. It latches the Stage-1 boundary only.
- The deadline fallback never commits a transition. It only asks the model to
  call the tool (backend/main.py:94-104). The tool's latch is the only
  exactly-once guard.
- There is no confidence flag on collected fields. A truthy supplied value
  always wins (backend/main.py:125-127).
- The three-stage code calls `broadcast_stage` twice for each new stage: at
  lines 128 and 157 for past_experience, and at 177 and 200 for done
  (`HandoffPublishesTwice`).
- `past_experience_complete` has no guard (backend/main.py:175-185). A
  duplicate call returns the done agent again and leaves the record unchanged
  (`RepeatedClosingHandoff`).
- `broadcast_stage` is awaited after the latch closes (backend/main.py:123-128).
  If it raises, the session is stuck in Stage 1 with the latch closed
  (`FailedPublishStrandsStageOne`).

## Left out

- The LiveKit agent server and session setup (`entrypoint`, `prewarm`,
  `AgentSession` options, `cli.run_app`) are left out. They are library
  wiring with no state effect.
- The model, speech and turn-detection plugins are left out. The model's
  replies are modelled only as the instruction strings passed to
  `generate_reply`.
- `broadcast_stage`'s check that the room is connected (backend/main.py:48),
  and the publish itself, are left out because they are network I/O. A
  `Broadcast` effect records only that `broadcast_stage` was called with that
  payload. Nothing is sent when the room is not connected.
- BackendInterview.ExactlyOnceHandoff: assumes `broadcast_stage` returns
  normally. If it raises inside a tool, no agent is returned, so the latch is
  closed without a handoff. `FailedPublishStrandsStageOne` states that
  stranded session separately.
- BackendInterview.Step: its events model `broadcast_stage` as never raising.
  So the invariant, and "one handoff exactly when the latch closes", hold only
  for sessions in which it does not raise. At line 177 a raise leaves stage
  done while the past-experience agent stays active; a later call retries.
- BackendInterview.ReachableStates: reachability is over sessions in which
  `broadcast_stage` never raises, for the same reason.
- Task creation and cancellation in `on_exit` are left out because they are
  asyncio concurrency. Instead, a fallback may wake at any time after the
  start, which includes a wake-up after a cancellation that came too late.
- `time.time()` float arithmetic is left out. Timestamps are reals, with no
  rounding.
- Logging calls are left out.
- Liveness is left out. Whether the model actually calls the tool after the
  fallback's request depends on the external model.
- The `room` field of the record and the unused `_followup_count` counter are
  left out.
- `backend/tokengen.py` is not part of this model. It only mints an access
  token from environment variables.
- Idle-escalation timers, prompt ledgers, output sequencing and
  confidence-tagged merging are left out because the code does not implement
  them.
