/**
 * What one prompt's response stream leaves behind: the raw events are read
 * in order up to the first `result` event; the first user message with
 * plain-text content gives the user checkpoint, the last assistant message
 * gives the assistant checkpoint, and the `result` event closes the turn.
 */
module Capture {
  import opened Wrappers
  import opened History

  /** The `message.content` of a user event: a plain string, or anything else
      (a list of tool-result blocks, or nothing). */
  datatype Content = Text(text: string) | NonText

  /** A raw stream event, by its `type`; `uuid` and `session_id` may be absent. */
  datatype RawEvent =
    | UserEvent(uuid: Option<string>, content: Content)
    | AssistantEvent(uuid: Option<string>)
    | ResultEvent(sessionId: Option<string>)
    | OtherEvent

  /** The checkpoints captured so far in the current turn. */
  datatype Checkpoints = Checkpoints(userUuid: Option<string>, assistantUuid: Option<string>)

  const NoCheckpoints := Checkpoints(None, None)

  /**
   * The effect of one event before the `result` event: a user checkpoint,
   * once held, is kept; a plain-text user event sets it while none is held;
   * every assistant event overwrites the assistant checkpoint, even with None.
   */
  function Step(c: Checkpoints, e: RawEvent): (r: Checkpoints)
    ensures c.userUuid.Some? ==> r.userUuid == c.userUuid
    ensures c.userUuid.None? && e.UserEvent? && e.content.Text? ==> r.userUuid == e.uuid
    ensures !(e.UserEvent? && e.content.Text?) ==> r.userUuid == c.userUuid
    ensures r.assistantUuid == if e.AssistantEvent? then e.uuid else c.assistantUuid
  {
    match e
    case UserEvent(u, content) =>
      if c.userUuid.None? && content.Text? then c.(userUuid := u) else c
    case AssistantEvent(u) => c.(assistantUuid := u)
    case _ => c
  }

  /** The checkpoints after the events of `w`, in order; each captured id
      is the uuid of some event of `w`. */
  function Fold(w: seq<RawEvent>): (c: Checkpoints)
    ensures c.userUuid.Some? ==>
      exists k :: 0 <= k < |w| && w[k].UserEvent? && w[k].content.Text? && w[k].uuid == c.userUuid
    ensures c.assistantUuid.Some? ==>
      exists k :: 0 <= k < |w| && w[k].AssistantEvent? && w[k].uuid == c.assistantUuid
  {
    if w == [] then NoCheckpoints
    else
      var init := w[..|w| - 1];
      var c := Step(Fold(init), w[|w| - 1]);
      assert forall k :: 0 <= k < |init| ==> init[k] == w[k];
      c
  }

  /** A user event that fixes the user checkpoint when none is held yet. */
  predicate GivesUserUuid(e: RawEvent)
  {
    e.UserEvent? && e.content.Text? && e.uuid.Some?
  }

  /** Without a plain-text user event carrying a uuid, no user checkpoint is captured. */
  lemma {:induction false} NoUserUuid(w: seq<RawEvent>)
    requires forall j :: 0 <= j < |w| ==> !GivesUserUuid(w[j])
    ensures Fold(w).userUuid == None
  {
    if w != [] {
      NoUserUuid(w[..|w| - 1]);
    }
  }

  /** The user checkpoint is the uuid of the first plain-text user event that has one. */
  lemma {:induction false} UserUuidIsFirst(w: seq<RawEvent>, k: nat)
    requires k < |w| && GivesUserUuid(w[k])
    requires forall j :: 0 <= j < k ==> !GivesUserUuid(w[j])
    ensures Fold(w).userUuid == w[k].uuid
  {
    var init := w[..|w| - 1];
    if k == |w| - 1 {
      NoUserUuid(init);
    } else {
      UserUuidIsFirst(init, k);
    }
  }

  /** Without an assistant event, no assistant checkpoint is captured. */
  lemma {:induction false} NoAssistantUuid(w: seq<RawEvent>)
    requires forall j :: 0 <= j < |w| ==> !w[j].AssistantEvent?
    ensures Fold(w).assistantUuid == None
  {
    if w != [] {
      NoAssistantUuid(w[..|w| - 1]);
    }
  }

  /** The assistant checkpoint is the uuid of the last assistant event. */
  lemma {:induction false} AssistantUuidIsLast(w: seq<RawEvent>, k: nat)
    requires k < |w| && w[k].AssistantEvent?
    requires forall j :: k < j < |w| ==> !w[j].AssistantEvent?
    ensures Fold(w).assistantUuid == w[k].uuid
  {
    if k < |w| - 1 {
      AssistantUuidIsLast(w[..|w| - 1], k);
    }
  }

  /** The position of the first `result` event. */
  function ResultIndex(evs: seq<RawEvent>): (r: Option<nat>)
    ensures r.Some? ==> r.value < |evs| && evs[r.value].ResultEvent?
    ensures r.Some? ==> forall j :: 0 <= j < r.value ==> !evs[j].ResultEvent?
    ensures r.None? <==> forall j :: 0 <= j < |evs| ==> !evs[j].ResultEvent?
  {
    if evs == [] then None
    else if evs[0].ResultEvent? then Some(0)
    else match ResultIndex(evs[1..])
      case None => None
      case Some(k) => Some(k + 1)
  }

  /** The session id, history and number of events read after one prompt. */
  datatype Turn = Turn(sessionId: Option<string>, history: seq<Entry>, consumed: nat)

  /**
   * Reading one prompt's response. At the first `result` event the session id
   * is taken from it if none was known, and a turn is recorded only when both
   * checkpoints were captured; reading stops there. A stream that ends with
   * no `result` changes nothing.
   */
  function ReceiveTurn(sid: Option<string>, h: seq<Entry>, prompt: string, evs: seq<RawEvent>): (t: Turn)
    ensures t.consumed <= |evs|
    ensures t.history == h || (|t.history| == |h| + 1 && t.history[..|h|] == h)
    ensures sid.Some? ==> t.sessionId == sid
    ensures ResultIndex(evs).None? ==> t == Turn(sid, h, |evs|)
    ensures ResultIndex(evs).Some? ==> t.consumed == ResultIndex(evs).value + 1
    ensures ResultIndex(evs).Some? && sid.None? ==> t.sessionId == evs[ResultIndex(evs).value].sessionId
    ensures t.history != h ==>
      var e := t.history[|h|];
      e.content == prompt && e.userUuid != "" && e.assistantUuid != ""
    ensures ResultIndex(evs).Some? ==>
      var c := Fold(evs[..ResultIndex(evs).value]);
      && (t.history != h <==> Truthy(c.userUuid) && Truthy(c.assistantUuid))
      && (t.history != h ==> t.history[|h|] == Entry(c.userUuid.value, c.assistantUuid.value, prompt))
  {
    match ResultIndex(evs)
    case None => Turn(sid, h, |evs|)
    case Some(i) =>
      var c := Fold(evs[..i]);
      var sid' := if sid.None? then evs[i].sessionId else sid;
      if Truthy(c.userUuid) && Truthy(c.assistantUuid)
      then Turn(sid', h + [Entry(c.userUuid.value, c.assistantUuid.value, prompt)], i + 1)
      else Turn(sid', h, i + 1)
  }

  /** Events after the first `result` are never read. */
  lemma EventsAfterResultIgnored(sid: Option<string>, h: seq<Entry>, prompt: string,
                                 evs: seq<RawEvent>, more: seq<RawEvent>)
    requires ResultIndex(evs).Some?
    ensures ReceiveTurn(sid, h, prompt, evs + more) == ReceiveTurn(sid, h, prompt, evs)
  {
    var i := ResultIndex(evs).value;
    var all := evs + more;
    assert all[i] == evs[i];
    assert ResultIndex(all) == Some(i) by {
      assert forall j :: 0 <= j < i ==> all[j] == evs[j];
    }
    assert all[..i] == evs[..i];
  }

  /** Recorded turns always have both checkpoints. */
  lemma ReceiveTurnKeepsNonEmptyUuids(sid: Option<string>, h: seq<Entry>, prompt: string, evs: seq<RawEvent>)
    ensures NonEmptyUuids(h) ==> NonEmptyUuids(ReceiveTurn(sid, h, prompt, evs).history)
  {
  }

  /**
   * A turn that completes with both checkpoints: the recorded entry pairs the
   * first plain-text user event's uuid with the last assistant event's uuid.
   */
  lemma RecordsCompleteTurn(sid: Option<string>, h: seq<Entry>, prompt: string, evs: seq<RawEvent>,
                            i: nat, u: nat, a: nat)
    requires i < |evs| && evs[i].ResultEvent? && forall j :: 0 <= j < i ==> !evs[j].ResultEvent?
    requires u < i && GivesUserUuid(evs[u]) && forall j :: 0 <= j < u ==> !GivesUserUuid(evs[j])
    requires a < i && evs[a].AssistantEvent? && forall j :: a < j < i ==> !evs[j].AssistantEvent?
    requires evs[u].uuid.value != "" && Truthy(evs[a].uuid)
    ensures ReceiveTurn(sid, h, prompt, evs) ==
      Turn(if sid.None? then evs[i].sessionId else sid,
           h + [Entry(evs[u].uuid.value, evs[a].uuid.value, prompt)], i + 1)
  {
    var w := evs[..i];
    assert ResultIndex(evs) == Some(i);
    UserUuidIsFirst(w, u);
    AssistantUuidIsLast(w, a);
  }

  /** Without an assistant event before the first `result` the turn is not recorded. */
  lemma NoAssistantEventNoTurn(sid: Option<string>, h: seq<Entry>, prompt: string, evs: seq<RawEvent>)
    requires ResultIndex(evs).Some?
    requires forall j :: 0 <= j < ResultIndex(evs).value ==> !evs[j].AssistantEvent?
    ensures ReceiveTurn(sid, h, prompt, evs).history == h
  {
    var i := ResultIndex(evs).value;
    NoAssistantUuid(evs[..i]);
  }

  /**
   * When the last assistant event before the first `result` carries no uuid
   * or an empty one, the turn is not recorded, but an unset session id is
   * still taken from the `result`.
   */
  lemma EmptyAssistantUuidNoTurn(sid: Option<string>, h: seq<Entry>, prompt: string, evs: seq<RawEvent>, a: nat)
    requires ResultIndex(evs).Some? && a < ResultIndex(evs).value
    requires evs[a].AssistantEvent? && !Truthy(evs[a].uuid)
    requires forall j :: a < j < ResultIndex(evs).value ==> !evs[j].AssistantEvent?
    ensures ReceiveTurn(sid, h, prompt, evs).history == h
    ensures sid.None? ==> ReceiveTurn(sid, h, prompt, evs).sessionId == evs[ResultIndex(evs).value].sessionId
  {
    var i := ResultIndex(evs).value;
    AssistantUuidIsLast(evs[..i], a);
  }

  /**
   * When the first plain-text user event carrying a uuid carries an empty
   * one, it blocks every later one and the turn is not recorded.
   */
  lemma EmptyUserUuidNoTurn(sid: Option<string>, h: seq<Entry>, prompt: string, evs: seq<RawEvent>, u: nat)
    requires ResultIndex(evs).Some? && u < ResultIndex(evs).value
    requires GivesUserUuid(evs[u]) && evs[u].uuid.value == ""
    requires forall j :: 0 <= j < u ==> !GivesUserUuid(evs[j])
    ensures ReceiveTurn(sid, h, prompt, evs).history == h
  {
    var i := ResultIndex(evs).value;
    UserUuidIsFirst(evs[..i], u);
  }

  /** Without a plain-text user event carrying a uuid the turn is not recorded. */
  lemma NoUserEventNoTurn(sid: Option<string>, h: seq<Entry>, prompt: string, evs: seq<RawEvent>)
    requires forall j :: 0 <= j < |evs| ==> !GivesUserUuid(evs[j])
    ensures ReceiveTurn(sid, h, prompt, evs).history == h
  {
    if ResultIndex(evs).Some? {
      var i := ResultIndex(evs).value;
      NoUserUuid(evs[..i]);
    }
  }
}
