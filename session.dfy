/**
 * The session loop of the rewind client: the session state object, one run
 * of the loop (truncation on resume, command dispatch, the `/rewind` menu
 * and the per-prompt response reading), and the outer loop that restarts a
 * run at the checkpoint a rewind returned.
 */
module Session {
  import opened Wrappers
  import opened History
  import opened Commands
  import opened Capture

  /** The state kept across runs: the session id once known, and the history. */
  class SessionState {
    var sessionId: Option<string>
    var history: seq<Entry>

    constructor ()
      ensures sessionId == None && history == []
    {
      sessionId := None;
      history := [];
    }

    /** Appends one entry; nothing else changes. */
    method AddMessage(userUuid: string, assistantUuid: string, content: string)
      modifies this
      ensures history == old(history) + [Entry(userUuid, assistantUuid, content)]
      ensures |history| == |old(history)| + 1 && history[..|old(history)|] == old(history)
      ensures sessionId == old(sessionId)
    {
      history := history + [Entry(userUuid, assistantUuid, content)];
    }
  }

  /**
   * Cuts the history back for a run resumed at `rewindTo`, scanning for the
   * first entry that ends at it. Returns the id when no entry does (the
   * ValueError), leaving the history as it was.
   */
  method TruncateHistory(state: SessionState, rewindTo: Option<string>) returns (missing: Option<string>)
    modifies state
    ensures state.sessionId == old(state.sessionId)
    ensures match Truncate(old(state.history), rewindTo)
      case Success(h) => missing == None && state.history == h
      case Failure(id) => missing == Some(id) && state.history == old(state.history)
  {
    missing := None;
    if Truthy(rewindTo) {
      var id := rewindTo.value;
      var i := 0;
      while i < |state.history|
        invariant i <= |state.history| && state.history == old(state.history)
        invariant forall j :: 0 <= j < i ==> state.history[j].assistantUuid != id
      {
        if state.history[i].assistantUuid == id {
          state.history := state.history[..i + 1];
          return;
        }
        i := i + 1;
      }
      missing := Some(id);
    }
  }

  /**
   * Reads one prompt's response stream up to and including the first
   * `result` event, and records the turn if both checkpoints were captured.
   */
  method ReceiveResponse(state: SessionState, prompt: string, events: seq<RawEvent>) returns (consumed: nat)
    modifies state
    ensures Turn(state.sessionId, state.history, consumed) ==
      ReceiveTurn(old(state.sessionId), old(state.history), prompt, events)
  {
    var userUuid: Option<string> := None;
    var assistantUuid: Option<string> := None;
    consumed := 0;
    while consumed < |events|
      invariant consumed <= |events|
      invariant Checkpoints(userUuid, assistantUuid) == Fold(events[..consumed])
      invariant forall j :: 0 <= j < consumed ==> !events[j].ResultEvent?
      invariant state.sessionId == old(state.sessionId) && state.history == old(state.history)
    {
      assert events[..consumed + 1][..consumed] == events[..consumed];
      match events[consumed] {
        case UserEvent(u, content) =>
          if userUuid.None? && content.Text? {
            userUuid := u;
          }
        case AssistantEvent(u) =>
          assistantUuid := u;
        case ResultEvent(sid) =>
          if state.sessionId.None? {
            state.sessionId := sid;
          }
          if Truthy(userUuid) && Truthy(assistantUuid) {
            state.AddMessage(userUuid.value, assistantUuid.value, prompt);
          }
          assert ResultIndex(events) == Some(consumed);
          consumed := consumed + 1;
          return;
        case OtherEvent =>
      }
      consumed := consumed + 1;
    }
  }

  /** One line typed at the prompt, with what the environment answers after it:
      the integer typed in the rewind menu (None when not an integer or input
      ended) and the response stream of a prompt. */
  datatype Input = Input(line: string, choice: Option<int>, events: seq<RawEvent>)

  /** How a run ends: None returned, a resume checkpoint returned after files
      were restored to `restoredTo`, or the ValueError for a missing target. */
  datatype Outcome = Exited | Resume(resumeAt: string, restoredTo: string) | TargetNotFound(id: string)

  datatype Run = Run(outcome: Outcome, sessionId: Option<string>, history: seq<Entry>)

  /** What the loop does after one input line: go on with a new state, or return. */
  datatype Next = Continue(sessionId: Option<string>, history: seq<Entry>) | Return(outcome: Outcome)

  /**
   * One line of the prompt loop: `/exit` returns None, a `/rewind` that picks
   * a turn returns its resume checkpoint (and one that does not goes on),
   * blank lines are skipped, and a prompt reads its response.
   */
  function StepLine(sid: Option<string>, h: seq<Entry>, input: Input): (n: Next)
    ensures n.Return? ==> !n.outcome.TargetNotFound?
    ensures n.Return? && n.outcome.Resume? ==>
      exists k :: 0 <= k < |h| && n.outcome.resumeAt == h[k].assistantUuid
    ensures n.Continue? ==> |h| <= |n.history| <= |h| + 1 && n.history[..|h|] == h
    ensures n.Continue? && NonEmptyUuids(h) ==> NonEmptyUuids(n.history)
  {
    match Dispatch(input.line)
    case Exit => Return(Exited)
    case Rewind =>
      (match RewindCommand(h, input.choice)
       case None => Continue(sid, h)
       case Some(plan) => Return(Resume(plan.resumeAt, plan.restoreTo)))
    case Blank => Continue(sid, h)
    case Prompt(text) =>
      var t := ReceiveTurn(sid, h, text, input.events);
      ReceiveTurnKeepsNonEmptyUuids(sid, h, text, input.events);
      Continue(t.sessionId, t.history)
  }

  /**
   * The prompt loop over the remaining input lines; running out of input is
   * end of input at the prompt, which ends the run.
   */
  function Loop(sid: Option<string>, h: seq<Entry>, script: seq<Input>): (r: Run)
    ensures !r.outcome.TargetNotFound?
    ensures |h| <= |r.history| && r.history[..|h|] == h
    ensures NonEmptyUuids(h) ==> NonEmptyUuids(r.history)
    ensures r.outcome.Resume? ==>
      exists k :: 0 <= k < |r.history| && r.outcome.resumeAt == r.history[k].assistantUuid
    decreases |script|
  {
    if script == [] then Run(Exited, sid, h)
    else match StepLine(sid, h, script[0])
      case Return(outcome) => Run(outcome, sid, h)
      case Continue(sid', h') =>
        var r := Loop(sid', h', script[1..]);
        assert r.history[..|h|] == r.history[..|h'|][..|h|];
        r
  }

  /** One run: truncate for the resume checkpoint, then the prompt loop. */
  function SessionRun(sid: Option<string>, h: seq<Entry>, rewindTo: Option<string>, script: seq<Input>): (r: Run)
    ensures r.outcome.TargetNotFound? <==> Truncate(h, rewindTo).Failure?
    ensures r.outcome.TargetNotFound? ==> r.sessionId == sid && r.history == h
    ensures r.outcome.Resume? ==>
      exists k :: 0 <= k < |r.history| && r.outcome.resumeAt == r.history[k].assistantUuid
  {
    match Truncate(h, rewindTo)
    case Failure(id) => Run(TargetNotFound(id), sid, h)
    case Success(h') => Loop(sid, h', script)
  }

  /**
   * Handles one input line on the session state; returns the run's result
   * when the line ends the run, None when the loop goes on.
   */
  method HandleLine(state: SessionState, input: Input) returns (result: Option<Outcome>)
    modifies state
    ensures match StepLine(old(state.sessionId), old(state.history), input)
      case Return(outcome) =>
        result == Some(outcome) && state.sessionId == old(state.sessionId) && state.history == old(state.history)
      case Continue(sid, h) =>
        result == None && state.sessionId == sid && state.history == h
  {
    result := None;
    match Dispatch(input.line) {
      case Exit =>
        result := Some(Exited);
      case Rewind =>
        var entry := MenuChoice(state.history, input.choice);
        if entry.Some? {
          var plan := ResolveRewind(state.history, entry.value);
          result := Some(Resume(plan.resumeAt, plan.restoreTo));
        }
      case Blank =>
      case Prompt(text) =>
        var _ := ReceiveResponse(state, text, input.events);
    }
  }

  /** The imperative run of the loop computes `SessionRun`. */
  method RunSession(state: SessionState, rewindTo: Option<string>, script: seq<Input>) returns (outcome: Outcome)
    modifies state
    ensures Run(outcome, state.sessionId, state.history) ==
      SessionRun(old(state.sessionId), old(state.history), rewindTo, script)
  {
    var missing := TruncateHistory(state, rewindTo);
    if missing.Some? {
      return TargetNotFound(missing.value);
    }
    assert script[0..] == script;
    assert Loop(state.sessionId, state.history, script) ==
      SessionRun(old(state.sessionId), old(state.history), rewindTo, script);
    var k := 0;
    while k < |script|
      invariant k <= |script|
      invariant Loop(state.sessionId, state.history, script[k..]) ==
        SessionRun(old(state.sessionId), old(state.history), rewindTo, script)
    {
      assert script[k..][0] == script[k] && script[k..][1..] == script[k + 1..];
      ghost var sid, h := state.sessionId, state.history;
      var result := HandleLine(state, script[k]);
      if result.Some? {
        assert Loop(sid, h, script[k..]) == Run(result.value, sid, h);
        return result.value;
      }
      assert Loop(sid, h, script[k..]) == Loop(state.sessionId, state.history, script[k + 1..]);
      k := k + 1;
    }
    return Exited;
  }

  /**
   * A `/rewind` that picks history index i returns the assistant checkpoint
   * of turn i - 1 and restores files to turn i's user checkpoint; the next
   * run, resumed there, starts from exactly the first i turns.
   */
  lemma RewindCycle(sid: Option<string>, h: seq<Entry>, i: nat, script: seq<Input>, next: seq<Input>)
    requires 1 <= i < |h| && UniqueAssistantUuids(h) && NonEmptyUuids(h)
    requires script != [] && Dispatch(script[0].line) == Rewind && script[0].choice == Some(i)
    ensures Loop(sid, h, script) == Run(Resume(h[i - 1].assistantUuid, h[i].userUuid), sid, h)
    ensures SessionRun(sid, h, Some(h[i - 1].assistantUuid), next) == Loop(sid, h[..i], next)
  {
  }

  /**
   * The outer loop: each element of `runs` is the input of one run; a run
   * that returns a resume checkpoint starts the next one there, and a run
   * that returns None or raises ends the loop. The last run's result is
   * returned when the runs are used up.
   */
  function MainLoop(sid: Option<string>, h: seq<Entry>, rewindTo: Option<string>, runs: seq<seq<Input>>): (r: Run)
    requires runs != []
    ensures var first := SessionRun(sid, h, rewindTo, runs[0]);
      !first.outcome.Resume? ==> r == first
    ensures r.outcome.Resume? ==>
      exists k :: 0 <= k < |r.history| && r.outcome.resumeAt == r.history[k].assistantUuid
    decreases |runs|
  {
    var r := SessionRun(sid, h, rewindTo, runs[0]);
    if r.outcome.Resume? && |runs| > 1
    then MainLoop(r.sessionId, r.history, Some(r.outcome.resumeAt), runs[1..])
    else r
  }

  /**
   * When a run returns the assistant checkpoint of turn k of its final
   * history, the outer loop goes on exactly as if the next run started
   * afresh from turns 0..k: the restart cuts the history at that checkpoint.
   */
  lemma MainRestartsAtCheckpoint(sid: Option<string>, h: seq<Entry>, rewindTo: Option<string>,
                                 runs: seq<seq<Input>>, k: nat)
    requires |runs| > 1
    requires var first := SessionRun(sid, h, rewindTo, runs[0]);
      first.outcome.Resume? && k < |first.history| && UniqueAssistantUuids(first.history) &&
      first.history[k].assistantUuid != "" && first.outcome.resumeAt == first.history[k].assistantUuid
    ensures var first := SessionRun(sid, h, rewindTo, runs[0]);
      MainLoop(sid, h, rewindTo, runs) == MainLoop(first.sessionId, first.history[..k + 1], None, runs[1..])
  {
    var first := SessionRun(sid, h, rewindTo, runs[0]);
    var rest := runs[1..];
    TruncateToUnique(first.history, k);
    assert rest[0] == runs[1];
    assert SessionRun(first.sessionId, first.history, Some(first.outcome.resumeAt), rest[0]) ==
      SessionRun(first.sessionId, first.history[..k + 1], None, rest[0]);
  }

  /** A resume checkpoint that some turn of the history ends at. */
  ghost predicate ResumesIntoHistory(h: seq<Entry>, rewindTo: Option<string>)
  {
    rewindTo.None? || exists k :: 0 <= k < |h| && h[k].assistantUuid == rewindTo.value
  }

  lemma {:induction false} MainNeverMissesFrom(sid: Option<string>, h: seq<Entry>, rewindTo: Option<string>,
                                               runs: seq<seq<Input>>)
    requires runs != [] && NonEmptyUuids(h) && ResumesIntoHistory(h, rewindTo)
    ensures !MainLoop(sid, h, rewindTo, runs).outcome.TargetNotFound?
    decreases |runs|
  {
    var r := SessionRun(sid, h, rewindTo, runs[0]);
    assert !r.outcome.TargetNotFound?;
    if r.outcome.Resume? && |runs| > 1 {
      var h' := Truncate(h, rewindTo).value;
      assert NonEmptyUuids(h') by {
        forall k | 0 <= k < |h'| ensures h'[k].userUuid != "" && h'[k].assistantUuid != "" {
          if rewindTo.Some? && rewindTo.value != "" { assert h'[k] == h[k]; }
        }
      }
      MainNeverMissesFrom(r.sessionId, r.history, Some(r.outcome.resumeAt), runs[1..]);
    }
  }

  /**
   * Starting from a fresh state, the outer loop never raises the "rewind
   * target not found" error: every resume checkpoint a run returns is the
   * non-empty assistant checkpoint of a turn the next run still holds.
   */
  lemma MainNeverMisses(runs: seq<seq<Input>>)
    requires runs != []
    ensures !MainLoop(None, [], None, runs).outcome.TargetNotFound?
  {
    MainNeverMissesFrom(None, [], None, runs);
  }
}
