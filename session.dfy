/**
 * The draft session the main page drives: resolving which quick action was
 * pressed, generating a batch of reply drafts, editing one draft at a time,
 * and rendering all drafts as one downloadable text.
 */
module Session {
  import opened Wrappers
  import opened PyStrings
  import opened Prompts

  /** The five quick-action buttons of one page run, pressed or not. */
  datatype Buttons = Buttons(acceptMeeting: bool, declinePolitely: bool, requestInfo: bool,
                             acknowledge: bool, scheduleFollowup: bool)

  /** The action names, in the order the buttons are checked. */
  const QuickActionOrder: seq<string> :=
    ["accept_meeting", "decline_politely", "request_info", "acknowledge", "schedule_followup"]

  /** Whether the `i`-th button, counting in that order, was pressed. */
  function Pressed(b: Buttons, i: nat): bool {
    if i == 0 then b.acceptMeeting
    else if i == 1 then b.declinePolitely
    else if i == 2 then b.requestInfo
    else if i == 3 then b.acknowledge
    else if i == 4 then b.scheduleFollowup
    else false
  }

  /** The selected action and whether drafts are generated in this run. */
  datatype Trigger = Trigger(action: Option<string>, generate: bool)

  /** The if/elif chain over the buttons: the first pressed one sets the
      action and forces generation. */
  function ResolveQuickAction(b: Buttons, generatePressed: bool): Trigger {
    if b.acceptMeeting then Trigger(Some("accept_meeting"), true)
    else if b.declinePolitely then Trigger(Some("decline_politely"), true)
    else if b.requestInfo then Trigger(Some("request_info"), true)
    else if b.acknowledge then Trigger(Some("acknowledge"), true)
    else if b.scheduleFollowup then Trigger(Some("schedule_followup"), true)
    else Trigger(None, generatePressed)
  }

  /** The five action names are different (they even differ in length). */
  lemma QuickActionNamesDistinct()
    ensures forall i, j | 0 <= i < 5 && 0 <= j < 5 && i != j :: QuickActionOrder[i] != QuickActionOrder[j]
  {
    assert |QuickActionOrder[0]| == 14 && |QuickActionOrder[1]| == 16 && |QuickActionOrder[2]| == 12;
    assert |QuickActionOrder[3]| == 11 && |QuickActionOrder[4]| == 17;
  }

  /** The selected action is that of the first pressed button in order, and
      there is none exactly when no button was pressed; any press forces
      generation, otherwise generation follows the Generate button. The
      selected action always names an entry of the action table. */
  lemma QuickActionPriority(b: Buttons, generatePressed: bool)
    ensures ResolveQuickAction(b, generatePressed).generate
        <==> generatePressed || exists i | 0 <= i < 5 :: Pressed(b, i)
    ensures ResolveQuickAction(b, generatePressed).action.None?
        <==> forall i | 0 <= i < 5 :: !Pressed(b, i)
    ensures forall i | 0 <= i < 5 ::
      (ResolveQuickAction(b, generatePressed).action == Some(QuickActionOrder[i]) <==>
       Pressed(b, i) && forall j | 0 <= j < i :: !Pressed(b, j))
    ensures ResolveQuickAction(b, generatePressed).action.Some? ==>
      KnownAction(ResolveQuickAction(b, generatePressed).action)
  {
    QuickActionNamesDistinct();
    var first := if b.acceptMeeting then 0 else if b.declinePolitely then 1 else if b.requestInfo then 2
                 else if b.acknowledge then 3 else if b.scheduleFollowup then 4 else 5;
    assert forall j | 0 <= j < first :: !Pressed(b, j);
    if first < 5 {
      assert Pressed(b, first);
      assert ActionPrompts[first].0 == QuickActionOrder[first];
      assert ResolveQuickAction(b, generatePressed).action == Some(QuickActionOrder[first]);
    }
  }

  /** The marker that nudges the service towards a different draft `k`. */
  function VariationMarker(k: nat): string {
    " (Draft " + NatToString(k) + " variation)"
  }

  /** The email text sent for draft `k` (1-based) of a batch of `numDrafts`:
      marked only when there is more than one draft. */
  function DraftInput(content: string, k: nat, numDrafts: nat): string {
    if numDrafts > 1 then content + VariationMarker(k) else content
  }

  /** The reply prompt of draft `k`. */
  function DraftPrompt(content: string, tone: string, length: string, action: Option<string>,
                       numDrafts: nat, k: nat): string {
    ReplyPrompt(DraftInput(content, k, numDrafts), tone, length, action)
  }

  /** The text of draft `k` when the service answers `service`. */
  function DraftReply(content: string, tone: string, length: string, action: Option<string>,
                      signature: string, numDrafts: nat, service: string -> Outcome, k: nat): string {
    FinishReply(service(DraftPrompt(content, tone, length, action, numDrafts, k)), signature)
  }

  /** In a batch of several drafts, different drafts send different email texts. */
  lemma DraftInputsDistinct(content: string, numDrafts: nat, j: nat, k: nat)
    requires numDrafts > 1 && j != k
    ensures DraftInput(content, j, numDrafts) != DraftInput(content, k, numDrafts)
  {
    assert DraftInput(content, j, numDrafts) == content + " (Draft " + NatToString(j) + " variation)";
    assert DraftInput(content, k, numDrafts) == content + " (Draft " + NatToString(k) + " variation)";
    if DraftInput(content, j, numDrafts) == DraftInput(content, k, numDrafts) {
      CancelFrame(content + " (Draft ", NatToString(j), NatToString(k), " variation)");
      NatToStringInjective(j, k);
    }
  }

  /** ... and so different prompts. */
  lemma DraftPromptsDistinct(content: string, tone: string, length: string, action: Option<string>,
                             numDrafts: nat, j: nat, k: nat)
    requires numDrafts > 1 && j != k
    ensures DraftPrompt(content, tone, length, action, numDrafts, j)
         != DraftPrompt(content, tone, length, action, numDrafts, k)
  {
    DraftInputsDistinct(content, numDrafts, j, k);
    if DraftPrompt(content, tone, length, action, numDrafts, j)
       == DraftPrompt(content, tone, length, action, numDrafts, k) {
      ReplyPromptInjective(DraftInput(content, j, numDrafts), DraftInput(content, k, numDrafts),
                           tone, length, action);
    }
  }

  /** `[f(1), ..., f(count)]`: the values of `f` at the numbers 1 to `count`, in order. */
  function Tabulate(f: nat -> string, count: nat): (r: seq<string>)
    ensures |r| == count
  {
    if count == 0 then [] else Tabulate(f, count - 1) + [f(count)]
  }

  /** Entry `k` of a tabulation is the value at number `k + 1`. */
  lemma {:induction false} TabulateAt(f: nat -> string, count: nat, k: nat)
    requires k < count
    ensures Tabulate(f, count)[k] == f(k + 1)
  {
    if k < count - 1 {
      TabulateAt(f, count - 1, k);
    }
  }

  /** The first `count` drafts of a batch of `numDrafts`, in order. */
  function BatchReplies(content: string, tone: string, length: string, action: Option<string>,
                        signature: string, numDrafts: nat, service: string -> Outcome, count: nat): seq<string>
  {
    Tabulate((n: nat) => DraftReply(content, tone, length, action, signature, numDrafts, service, n), count)
  }

  /** A batch has one entry per draft, and entry `k` is the text of draft number `k + 1`. */
  lemma BatchRepliesAt(content: string, tone: string, length: string, action: Option<string>,
                       signature: string, numDrafts: nat, service: string -> Outcome,
                       count: nat, k: nat)
    requires k < count
    ensures |BatchReplies(content, tone, length, action, signature, numDrafts, service, count)| == count
    ensures BatchReplies(content, tone, length, action, signature, numDrafts, service, count)[k]
         == DraftReply(content, tone, length, action, signature, numDrafts, service, k + 1)
  {
    TabulateAt((n: nat) => DraftReply(content, tone, length, action, signature, numDrafts, service, n), count, k);
  }

  /** A draft's call failing (or answering differently) changes no other draft:
      two services that agree on every prompt but draft `j`'s give every other
      draft the same text. */
  lemma OtherDraftsUnaffected(content: string, tone: string, length: string, action: Option<string>,
                              signature: string, numDrafts: nat, s1: string -> Outcome, s2: string -> Outcome,
                              j: nat, k: nat)
    requires numDrafts > 1 && j != k
    requires forall p | p != DraftPrompt(content, tone, length, action, numDrafts, j) :: s1(p) == s2(p)
    ensures DraftReply(content, tone, length, action, signature, numDrafts, s1, k)
         == DraftReply(content, tone, length, action, signature, numDrafts, s2, k)
  {
    DraftPromptsDistinct(content, tone, length, action, numDrafts, j, k);
  }

  /** The first line of the export, with the timestamp passed in. */
  function ExportHeader(timestamp: string): string {
    "Generated Email Replies - " + timestamp + "\n\n"
  }

  /** The export block of draft number `k`. */
  function DraftBlock(k: nat, draft: string): string {
    "=== DRAFT " + NatToString(k) + " ===\n" + draft + "\n\n"
  }

  /** `f(first, xs[0]) + f(first + 1, xs[1]) + ...`: the texts `f` makes of
      the elements of `xs`, numbered from `first` on, one after the other. */
  function Numbered(f: (nat, string) -> string, xs: seq<string>, first: nat): string
    decreases |xs|
  {
    if xs == [] then [] else f(first, xs[0]) + Numbered(f, xs[1..], first + 1)
  }

  /** Appending an element appends its text, numbered after the others. */
  lemma {:induction false} NumberedAppend(f: (nat, string) -> string, xs: seq<string>, x: string, first: nat)
    ensures Numbered(f, xs + [x], first) == Numbered(f, xs, first) + f(first + |xs|, x)
    decreases |xs|
  {
    if xs == [] {
      assert [] + [x] == [x];
      assert [x][1..] == [];
    } else {
      assert (xs + [x])[1..] == xs[1..] + [x];
      NumberedAppend(f, xs[1..], x, first + 1);
    }
  }

  /** The texts of a sequence are those of its two halves, the second numbered
      on from the first. */
  lemma {:induction false} NumberedSplit(f: (nat, string) -> string, xs: seq<string>, i: nat, first: nat)
    requires i <= |xs|
    ensures Numbered(f, xs, first) == Numbered(f, xs[..i], first) + Numbered(f, xs[i..], first + i)
    decreases i
  {
    if i == 0 {
      assert xs[..0] == [] && xs[0..] == xs;
    } else {
      NumberedSplit(f, xs[1..], i - 1, first + 1);
      assert xs[1..][..i - 1] == xs[..i][1..];
      assert xs[1..][i - 1..] == xs[i..];
      assert xs[..i][0] == xs[0];
    }
  }

  /** Element `i` stands, numbered `first + i`, between the texts of the
      elements before and after it. */
  lemma NumberedAt(f: (nat, string) -> string, xs: seq<string>, i: nat, first: nat)
    requires i < |xs|
    ensures Numbered(f, xs, first)
         == Numbered(f, xs[..i], first) + (f(first + i, xs[i]) + Numbered(f, xs[i + 1..], first + i + 1))
  {
    NumberedSplit(f, xs, i, first);
    assert xs[i..][0] == xs[i] && xs[i..][1..] == xs[i + 1..];
  }

  /** The blocks of `drafts`, numbered from `first` on. */
  function Blocks(drafts: seq<string>, first: nat): string {
    Numbered(DraftBlock, drafts, first)
  }

  /** The whole export: the header, then every draft's block in index order. */
  function ExportText(timestamp: string, drafts: seq<string>): string {
    ExportHeader(timestamp) + Blocks(drafts, 1)
  }

  /** Draft `i` (0-based) appears as block number `i + 1` with its current
      text, between the blocks of the drafts before it and after it. */
  lemma ExportShowsDraft(timestamp: string, drafts: seq<string>, i: nat)
    requires i < |drafts|
    ensures ExportText(timestamp, drafts)
         == ExportHeader(timestamp) + Blocks(drafts[..i], 1) + DraftBlock(i + 1, drafts[i]) + Blocks(drafts[i + 1..], i + 2)
  {
    NumberedAt(DraftBlock, drafts, i, 1);
    var h, a, d, z := ExportHeader(timestamp), Blocks(drafts[..i], 1), DraftBlock(i + 1, drafts[i]), Blocks(drafts[i + 1..], i + 2);
    assert h + (a + (d + z)) == h + a + d + z;
  }

  /** After saving text `t` into draft `i`, the export carries `t` as block
      `i + 1`, and the blocks of every other draft are as before. */
  lemma ExportAfterSave(timestamp: string, drafts: seq<string>, i: nat, t: string)
    requires i < |drafts|
    ensures ExportText(timestamp, drafts[i := t])
         == ExportHeader(timestamp) + Blocks(drafts[..i], 1) + DraftBlock(i + 1, t) + Blocks(drafts[i + 1..], i + 2)
  {
    var after := drafts[i := t];
    ExportShowsDraft(timestamp, after, i);
    assert after[..i] == drafts[..i];
    assert after[i + 1..] == drafts[i + 1..];
  }

  /**
   * The current batch of drafts and the per-draft edit flags. The flags are
   * keyed by 1-based draft number, as the source's session state keys are,
   * and an absent flag reads as "not editing".
   */
  class DraftSession {
    var drafts: seq<string>
    var editMode: map<nat, bool>

    constructor ()
      ensures drafts == [] && editMode == map[]
    {
      drafts := [];
      editMode := map[];
    }

    /** Whether draft number `k` is open for editing. */
    predicate Editing(k: nat)
      reads this
    {
      k in editMode && editMode[k]
    }

    /** Generates `numDrafts` drafts in order, each from its own call; a call
        that fails only puts an error text into its own draft. The edit flags
        are left as they were. */
    method GenerateBatch(content: string, tone: string, length: string, action: Option<string>,
                         signature: string, numDrafts: nat, service: string -> Outcome)
      modifies this
      ensures drafts == BatchReplies(content, tone, length, action, signature, numDrafts, service, numDrafts)
      ensures editMode == old(editMode)
    {
      var batch: seq<string> := [];
      for i := 0 to numDrafts
        invariant batch == BatchReplies(content, tone, length, action, signature, numDrafts, service, i)
        invariant editMode == old(editMode)
      {
        var reply := GenerateEmailReply(DraftInput(content, i + 1, numDrafts), tone, length, action,
                                        signature, service);
        batch := batch + [reply];
      }
      drafts := batch;
    }

    /** One run of the page's generate step: resolve the buttons, and when
        generation is due, produce a new batch with the selected action. */
    method RunGenerateStep(buttons: Buttons, generatePressed: bool, content: string, tone: string,
                           length: string, signature: string, numDrafts: nat, service: string -> Outcome)
      returns (trigger: Trigger)
      modifies this
      ensures trigger == ResolveQuickAction(buttons, generatePressed)
      ensures trigger.generate ==>
        drafts == BatchReplies(content, tone, length, trigger.action, signature, numDrafts, service, numDrafts)
      ensures !trigger.generate ==> drafts == old(drafts)
      ensures editMode == old(editMode)
    {
      trigger := ResolveQuickAction(buttons, generatePressed);
      if trigger.generate {
        GenerateBatch(content, tone, length, trigger.action, signature, numDrafts, service);
      }
    }

    /** Opens draft `i` (0-based) for editing: only its flag changes. */
    method BeginEdit(i: nat)
      requires i < |drafts|
      modifies this
      ensures drafts == old(drafts)
      ensures editMode == old(editMode)[i + 1 := true]
      ensures Editing(i + 1)
    {
      editMode := editMode[i + 1 := true];
    }

    /** Stores the edited text into draft `i` and closes it: no other draft or
        flag changes. Save is only offered while the draft is being edited. */
    method SaveEdit(i: nat, edited: string)
      requires i < |drafts|
      requires Editing(i + 1)
      modifies this
      ensures drafts == old(drafts)[i := edited]
      ensures editMode == old(editMode)[i + 1 := false]
      ensures !Editing(i + 1)
    {
      drafts := drafts[i := edited];
      editMode := editMode[i + 1 := false];
    }

    /** Closes draft `i` without keeping the edit: every draft keeps its text.
        Cancel is only offered while the draft is being edited. */
    method CancelEdit(i: nat)
      requires i < |drafts|
      requires Editing(i + 1)
      modifies this
      ensures drafts == old(drafts)
      ensures editMode == old(editMode)[i + 1 := false]
      ensures !Editing(i + 1)
    {
      editMode := editMode[i + 1 := false];
    }

    /** Renders the current drafts as the downloadable text. */
    method ExportAll(timestamp: string) returns (dump: string)
      ensures dump == ExportText(timestamp, drafts)
    {
      dump := ExportHeader(timestamp);
      for i := 0 to |drafts|
        invariant dump == ExportHeader(timestamp) + Blocks(drafts[..i], 1)
      {
        NumberedAppend(DraftBlock, drafts[..i], drafts[i], 1);
        assert drafts[..i + 1] == drafts[..i] + [drafts[i]];
        dump := dump + DraftBlock(i + 1, drafts[i]);
      }
      assert drafts[..|drafts|] == drafts;
    }
  }
}
