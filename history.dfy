/**
 * The conversation history of a rewindable session: its entries, the
 * entries offered as rewind targets, the menu that picks one of them,
 * the resolution of a picked entry into a file checkpoint and a resume
 * point, and the truncation of the history at the start of the next run.
 */
module History {
  import opened Wrappers

  /** One completed turn: the checkpoint of the user message, the checkpoint
      of the last assistant message of the turn, and the prompt text. */
  datatype Entry = Entry(userUuid: string, assistantUuid: string, content: string)

  /** No two turns end at the same assistant checkpoint. */
  ghost predicate UniqueAssistantUuids(h: seq<Entry>)
  {
    forall j, k :: 0 <= j < k < |h| ==> h[j].assistantUuid != h[k].assistantUuid
  }

  /** Every turn carries two non-empty checkpoint ids. */
  ghost predicate NonEmptyUuids(h: seq<Entry>)
  {
    forall k :: 0 <= k < |h| ==> h[k].userUuid != "" && h[k].assistantUuid != ""
  }

  /** The entries offered for rewinding: every entry but the first, in order. */
  function RewindTargets(h: seq<Entry>): (t: seq<Entry>)
    ensures |t| == if |h| > 1 then |h| - 1 else 0
    ensures forall k :: 0 <= k < |t| ==> t[k] == h[k + 1]
  {
    if |h| > 1 then h[1..] else []
  }

  /** With unique assistant checkpoints the first entry is never a target. */
  lemma FirstEntryNeverTarget(h: seq<Entry>)
    requires |h| > 0 && UniqueAssistantUuids(h)
    ensures h[0] !in RewindTargets(h)
  {
  }

  const PreviewWidth: nat := 50
  const Ellipsis: string := "..."

  /** The text shown for a target in the rewind menu. */
  function Preview(content: string): (p: string)
    ensures |content| <= PreviewWidth ==> p == content
    ensures |content| > PreviewWidth ==>
      |p| == PreviewWidth + |Ellipsis| && p[..PreviewWidth] == content[..PreviewWidth] && p[PreviewWidth..] == Ellipsis
    ensures |p| <= PreviewWidth + |Ellipsis|
  {
    if |content| > PreviewWidth then content[..PreviewWidth] + Ellipsis else content
  }

  /**
   * The entry picked in the rewind menu. `choice` is the integer the user
   * typed, or None when the line was not an integer or input ended. When
   * there are no targets the choice is never asked for.
   */
  function MenuChoice(h: seq<Entry>, choice: Option<int>): (r: Option<Entry>)
    ensures RewindTargets(h) == [] ==> r == None
    ensures r.Some? <==> choice.Some? && 1 <= choice.value < |h|
    ensures r.Some? ==> r.value == h[choice.value]
  {
    var targets := RewindTargets(h);
    if targets == [] then None
    else match choice
      case None => None
      case Some(idx) =>
        if idx == 0 then None
        else if 1 <= idx <= |targets| then Some(targets[idx - 1])
        else None
  }

  /** Python's `list.index`: the position of the first entry equal to `e`. */
  function IndexOf(h: seq<Entry>, e: Entry): (i: nat)
    requires e in h
    ensures i < |h| && h[i] == e
    ensures forall j :: 0 <= j < i ==> h[j] != e
  {
    if h[0] == e then 0 else 1 + IndexOf(h[1..], e)
  }

  /** Python's indexing, where -1 means the last element. */
  function PyAt(h: seq<Entry>, k: int): (e: Entry)
    requires -|h| <= k < |h|
  {
    if k < 0 then h[|h| + k] else h[k]
  }

  /** What a rewind does: restore files to `restoreTo`, resume after `resumeAt`. */
  datatype RewindPlan = RewindPlan(restoreTo: string, resumeAt: string)

  /**
   * Resolves a picked entry: files go back to the entry's own user
   * checkpoint, the conversation resumes after the assistant checkpoint
   * of the entry before it (found by value with `index`).
   */
  function ResolveRewind(h: seq<Entry>, e: Entry): (p: RewindPlan)
    requires e in h
    ensures p.restoreTo == e.userUuid
    ensures exists k :: 0 <= k < |h| && p.resumeAt == h[k].assistantUuid
  {
    var idx := IndexOf(h, e);
    RewindPlan(e.userUuid, PyAt(h, idx - 1).assistantUuid)
  }

  /** For the first occurrence of a target, the resume point is the turn just before it. */
  lemma ResolveSelected(h: seq<Entry>, i: nat)
    requires 1 <= i < |h|
    requires forall j :: 0 <= j < i ==> h[j] != h[i]
    ensures ResolveRewind(h, h[i]) == RewindPlan(h[i].userUuid, h[i - 1].assistantUuid)
  {
  }

  /**
   * `index` compares by value: a target equal to the first entry resolves
   * to index 0, and `history[-1]` then resumes after the LAST turn.
   */
  lemma ResolveDuplicateOfFirst(h: seq<Entry>, i: nat)
    requires 1 <= i < |h| && h[i] == h[0]
    ensures ResolveRewind(h, h[i]) == RewindPlan(h[0].userUuid, h[|h| - 1].assistantUuid)
  {
  }

  /** The whole `/rewind` command: menu, then resolution of the picked entry. */
  function RewindCommand(h: seq<Entry>, choice: Option<int>): (r: Option<RewindPlan>)
    ensures r.Some? <==> choice.Some? && 1 <= choice.value < |h|
    ensures r.Some? ==> r.value.restoreTo == h[choice.value].userUuid
    ensures r.Some? ==> exists k :: 0 <= k < |h| && r.value.resumeAt == h[k].assistantUuid
    ensures UniqueAssistantUuids(h) && r.Some? ==>
      r.value == RewindPlan(h[choice.value].userUuid, h[choice.value - 1].assistantUuid)
  {
    match MenuChoice(h, choice)
    case None => None
    case Some(e) =>
      Some(ResolveRewind(h, e))
  }

  /** The position of the first entry that ends at assistant checkpoint `id`. */
  function FindAssistant(h: seq<Entry>, id: string): (r: Option<nat>)
    ensures r.Some? ==> r.value < |h| && h[r.value].assistantUuid == id
    ensures r.Some? ==> forall j :: 0 <= j < r.value ==> h[j].assistantUuid != id
    ensures r.None? <==> forall j :: 0 <= j < |h| ==> h[j].assistantUuid != id
  {
    if h == [] then None
    else if h[0].assistantUuid == id then Some(0)
    else match FindAssistant(h[1..], id)
      case None => None
      case Some(k) => Some(k + 1)
  }

  /**
   * The history at the start of a run resumed at `rewindTo`: cut back to
   * the first entry ending at that checkpoint, or the id of the missing
   * target (a ValueError). A missing or empty `rewindTo` leaves it alone.
   */
  function Truncate(h: seq<Entry>, rewindTo: Option<string>): (r: Result<seq<Entry>, string>)
    ensures !Truthy(rewindTo) ==> r == Success(h)
    ensures Truthy(rewindTo) ==>
      (r.Failure? <==> forall j :: 0 <= j < |h| ==> h[j].assistantUuid != rewindTo.value)
    ensures Truthy(rewindTo) && r.Failure? ==> r.error == rewindTo.value
    ensures Truthy(rewindTo) && r.Success? ==>
      var n := |r.value|;
      1 <= n <= |h| && r.value == h[..n] && h[n - 1].assistantUuid == rewindTo.value &&
      forall j :: 0 <= j < n - 1 ==> h[j].assistantUuid != rewindTo.value
  {
    if !Truthy(rewindTo) then Success(h)
    else match FindAssistant(h, rewindTo.value)
      case None => Failure(rewindTo.value)
      case Some(i) => Success(h[..i + 1])
  }

  /** Cutting back to a turn whose checkpoint is unique leaves exactly the turns up to it. */
  lemma TruncateToUnique(h: seq<Entry>, i: nat)
    requires i < |h| && UniqueAssistantUuids(h) && h[i].assistantUuid != ""
    ensures Truncate(h, Some(h[i].assistantUuid)) == Success(h[..i + 1])
  {
  }

  /**
   * Rewinding to the target at history index i, then truncating at the
   * returned resume point, leaves exactly the i turns before it.
   */
  lemma RewindLeavesPrefix(h: seq<Entry>, i: nat)
    requires 1 <= i < |h| && UniqueAssistantUuids(h) && NonEmptyUuids(h)
    ensures RewindCommand(h, Some(i)) == Some(RewindPlan(h[i].userUuid, h[i - 1].assistantUuid))
    ensures Truncate(h, Some(h[i - 1].assistantUuid)) == Success(h[..i])
    ensures |h[..i]| == i
  {
  }
}
