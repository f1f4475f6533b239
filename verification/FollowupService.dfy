/**
 Continuing an interrupted follow-up without losing the user's draft. One receipt key is followed
 through every run of calls, crashes and edits the human makes in the same composer.
 */
module FollowupService {
  import opened Wrappers
  import CommandLine

  /** The literal continuation prompt. */
  const PROMPT: string := "\U{ACC4}\U{C18D}"

  datatype Status = Attempted | Complete

  /** The receipt under the follow-up's key: the backup, and the outcome's report of the restoration. */
  datatype Receipt = Receipt(status: Status, draft: string, dispatched: bool, acknowledged: bool, restored: bool)

  /** Where the one call that holds the actor and the page is. */
  datatype Stage =
    | Idle | Comparing(draft: string) | Confirming(draft: string)
    | Preparing | Verified | Marked | Submitting
    | CheckDraft | CheckEmpty | CheckPrompt | Writing | Finishing(restored: bool)

  /** A text the service replaced, and the human's last edit since the service had last seen or written the composer. */
  datatype Overwrite = Overwrite(text: string, edit: Option<string>)

  /**
   Below `stage` all is history: the sends made; whether the service changed the editor; the draft it
   read; what it found when it read the draft or looked at the composer to restore it, or left there
   itself, whichever came last, and the human's last edit since then; what its own writes left there;
   and the texts its writes and its send replaced.
   */
  datatype State = State(
    receipt: Option<Receipt>, composer: string, stage: Stage,
    submits: nat, edited: bool, original: Option<string>,
    seen: string, edit: Option<string>, left: set<string>, overwritten: seq<Overwrite>)

  predicate IsStart(s: State) {
    s.receipt.None? && s.stage.Idle? && s.submits == 0 && !s.edited && s.original.None? && s.seen == s.composer
        && s.edit.None?
    && s.left == {} && s.overwritten == []
  }

  datatype Event =
    | Begin
    | Compare(preparedPrompt: string)
    | Confirm(quiet: bool)
    | Replace(left: string)
    | Prepared(ready: bool)
    | MarkDispatched
    | Refused
    | SubmitOnce(left: string)
    | Acknowledged
    | Unacknowledged
    | Look
    | Written(gone: bool)
    | Finish
    | Abort
    | HumanEdits(text: string)
    | Crash

  /** `text.trim()` is empty. */
  predicate Blank(text: string) { forall c <- text :: CommandLine.IsSpace(c) }

  /** The service reads the composer. */
  function Seen(s: State): State { s.(seen := s.composer, edit := None) }

  /** The service puts `text` where another text was. */
  function Replaced(s: State, text: string): State {
    s.(overwritten := s.overwritten + [Overwrite(s.composer, s.edit)], left := s.left + {text}, composer := text,
       seen := text, edit := None, edited := true)
  }

  /**
   A finished key is answered from its receipt; a started one is only ever restored; a new one reads the draft first.
   */
  function StepBegin(s: State): State {
    if !s.stage.Idle? || (s.receipt.Some? && s.receipt.value.status.Complete?) then s
    else if s.receipt.Some? then s.(stage := CheckDraft)
    else Seen(s).(stage := Comparing(s.composer))
  }

  /** Nothing but the draft may be in the composer when its backup is recorded. */
  function StepConfirm(s: State, quiet: bool): State
    requires s.stage.Confirming?
  {
    if !quiet || !(s.composer == s.stage.draft || Blank(s.composer)) then s.(stage := Idle)
    else s.(receipt := Some(Receipt(Attempted, s.stage.draft, false, false, false)), original := Some(s.stage.draft),
            stage := Preparing)
  }

  /** One turn of the loop that writes the composer: it leaves alone what it wants to see there. */
  function StepReplace(s: State, left: string): State
    requires s.receipt.Some?
  {
    var wanted := if s.stage.Preparing? then PROMPT else s.receipt.value.draft;
    if !(s.stage.Preparing? || s.stage.Writing?) || s.composer == wanted then s else Replaced(s, left)
  }

  function StepLook(s: State): State
    requires s.receipt.Some?
  {
    match s.stage
    case CheckDraft => Seen(s).(stage := if s.composer == s.receipt.value.draft then Finishing(true) else CheckEmpty)
    case CheckEmpty => Seen(s).(stage := if s.composer == "" then Writing else CheckPrompt)
    case CheckPrompt => Seen(s).(stage := if s.composer == PROMPT then Writing else Finishing(false))
    case _ => s
  }

  function Step(s: State, e: Event): State {
    match e
    case Begin => StepBegin(s)
    case Compare(preparedPrompt) =>
      if !s.stage.Comparing? then s
      else s.(stage := if s.composer == preparedPrompt then Confirming(s.stage.draft) else Idle)
    case Confirm(quiet) => if s.stage.Confirming? then StepConfirm(s, quiet) else s
    case Replace(left) => if s.receipt.Some? then StepReplace(s, left) else s
    case Prepared(ready) =>
      if !s.stage.Preparing? then s
      else s.(stage := if ready && (s.composer == PROMPT || Blank(s.composer)) then Verified else CheckDraft)
    case MarkDispatched =>
      if s.stage.Verified? && s.receipt.Some?
      then s.(receipt := Some(s.receipt.value.(dispatched := true)), stage := Marked) else s
    case Refused => if s.stage.Verified? || s.stage.Marked? then s.(stage := CheckDraft) else s
    case SubmitOnce(left) =>
      if s.stage.Marked? then Replaced(s, left).(submits := s.submits + 1, stage := Submitting) else s
    case Acknowledged =>
      if s.stage.Submitting? && s.receipt.Some?
      then s.(receipt := Some(s.receipt.value.(acknowledged := true)), stage := CheckDraft) else s
    case Unacknowledged => if s.stage.Submitting? then s.(stage := CheckDraft) else s
    case Look => if s.receipt.Some? then StepLook(s) else s
    case Written(gone) =>
      if !(s.stage.Writing? && s.receipt.Some?) then s
      else Seen(s).(stage := Finishing(!gone && s.composer == s.receipt.value.draft))
    case Finish =>
      if s.stage.Finishing? && s.receipt.Some?
      then s.(receipt := Some(s.receipt.value.(status := Complete, restored := s.stage.restored)), stage := Idle) else s
    case Abort => if s.stage in {CheckDraft, CheckEmpty, CheckPrompt, Writing} then s.(stage := Idle) else s
    case HumanEdits(text) => s.(composer := text, edit := Some(text))
    case Crash => s.(stage := Idle)
  }

  function Exec(s: State, run: seq<Event>): State
    decreases |run|
  {
    if run == [] then s else Exec(Step(s, run[0]), run[1..])
  }

  // ---------------------------------------------------------------- the invariant

  /** The backed-up draft, an empty composer, the literal prompt, or what the service itself had left there. */
  predicate Own(s: State, text: string) {
    text == "" || text == PROMPT || s.original == Some(text) || text in s.left
  }

  /** The receipt tells what was sent. */
  ghost predicate ReceiptFits(s: State) {
    && (s.receipt.None? ==>
        s.stage in {Idle, Stage.Comparing(s.seen), Confirming(s.seen)} && s.submits == 0 && !s.edited
            && s.original.None?)
    && (s.receipt.Some? ==>
          var r := s.receipt.value;
          && s.original == Some(r.draft) && !s.stage.Comparing? && !s.stage.Confirming?
          && s.submits <= 1 && (!r.dispatched ==> s.submits == 0)
          && (s.stage in {Preparing, Verified} ==> !r.dispatched)
          && (s.stage.Marked? ==> s.submits == 0 && r.dispatched)
          && (s.stage == Finishing(true) ==> s.seen == r.draft)
          && (r.status.Complete? ==> s.stage.Idle? && (r.restored ==> s.seen == r.draft))
          && (r.acknowledged ==> s.submits == 1)
          && (s.stage.Submitting? ==> s.submits == 1 && r.dispatched))
  }

  /**
   The composer holds the human's last edit or what the service last saw or left, and it writes only over a text of
   its own, unless edited.
   */
  ghost predicate ComposerFits(s: State) {
    && s.composer == s.edit.Or(s.seen)
    && (s.stage in {Preparing, Verified, Marked, Writing} ==> Own(s, s.seen))
    && (forall o <- s.overwritten :: if o.edit.Some? then o.text == o.edit.value else Own(s, o.text))
  }

  ghost predicate Inv(s: State) { ReceiptFits(s) && ComposerFits(s) }

  /** The steps from the first look at the composer to the send. */
  predicate OfSubmission(e: Event) {
    e.Begin? || e.Compare? || e.Confirm? || e.Replace? || e.Prepared? || e.MarkDispatched? || e.Refused?
        || e.SubmitOnce? || e.Acknowledged? || e.Unacknowledged?
  }

  lemma SubmissionKeepsReceipt(s: State, e: Event)
    requires ReceiptFits(s) && OfSubmission(e)
    ensures ReceiptFits(Step(s, e))
  {
    hide Blank;
  }

  lemma LookKeepsReceipt(s: State)
    requires ReceiptFits(s) && s.receipt.Some?
    ensures ReceiptFits(StepLook(s))
  {}

  lemma RestorationKeepsReceipt(s: State, e: Event)
    requires ReceiptFits(s) && !OfSubmission(e)
    ensures ReceiptFits(Step(s, e))
  {
    hide StepLook;
    if e.Look? && s.receipt.Some? { LookKeepsReceipt(s); }
  }

  lemma StepKeepsDraft(s: State, e: Event)
    requires s.receipt.Some? && !s.stage.Comparing? && !s.stage.Confirming?
    ensures Step(s, e).receipt.Some? && Step(s, e).receipt.value.draft == s.receipt.value.draft
  {
    hide Blank;
  }

  lemma StepKeepsReceipt(s: State, e: Event)
    requires ReceiptFits(s)
    ensures ReceiptFits(Step(s, e))
    ensures s.receipt.Some? ==> Step(s, e).receipt.Some? && Step(s, e).receipt.value.draft == s.receipt.value.draft
  {
    hide Step;
    if OfSubmission(e) { SubmissionKeepsReceipt(s, e); } else { RestorationKeepsReceipt(s, e); }
    if s.receipt.Some? { StepKeepsDraft(s, e); }
  }

  lemma SubmissionKeepsComposer(s: State, e: Event)
    requires Inv(s) && OfSubmission(e) && !e.Replace? && !e.SubmitOnce?
    ensures ComposerFits(Step(s, e))
  {
    hide Blank;
    SameTexts(s, Step(s, e));
  }

  lemma RestorationKeepsComposer(s: State, e: Event)
    requires Inv(s) && !OfSubmission(e)
    ensures ComposerFits(Step(s, e))
  {
    SameTexts(s, Step(s, e));
  }

  /** Nothing was replaced, and the draft is the one it was, or the first. */
  lemma SameTexts(s: State, t: State)
    requires ComposerFits(s) && t.left == s.left && t.overwritten == s.overwritten
             && (s.original.Some? ==> t.original == s.original)
    ensures forall o <- t.overwritten :: if o.edit.Some? then o.text == o.edit.value else Own(t, o.text)
    ensures forall text: string :: Own(s, text) ==> Own(t, text)
  {}

  lemma StepKeepsComposer(s: State, e: Event)
    requires Inv(s)
    ensures ComposerFits(Step(s, e))
  {
    hide Blank, ComposerFits, ReceiptFits, Replaced, Own;
    if e.Replace? || e.SubmitOnce? {
      if s.stage in {Preparing, Marked, Writing} {
        WriteKeepsComposer(s, e.left);
        SendKeepsComposer(Replaced(s, e.left), s.submits + 1);
      }
    } else if OfSubmission(e) {
      SubmissionKeepsComposer(s, e);
    } else {
      RestorationKeepsComposer(s, e);
    }
  }

  lemma SendKeepsComposer(s: State, submits: nat)
    requires ComposerFits(s)
    ensures ComposerFits(s.(submits := submits, stage := Submitting))
  {}

  lemma WriteKeepsComposer(s: State, left: string)
    requires ComposerFits(s) && s.stage in {Preparing, Marked, Writing}
    ensures ComposerFits(Replaced(s, left))
  {
    var t := Replaced(s, left);
    forall o | o in t.overwritten ensures if o.edit.Some? then o.text == o.edit.value else Own(t, o.text) {
      if o in s.overwritten && o.edit.None? { assert Own(s, o.text); }
    }
  }

  lemma {:induction false} RunKeepsInv(s: State, run: seq<Event>)
    requires Inv(s)
    ensures Inv(Exec(s, run))
    decreases |run|
  {
    hide Step, ReceiptFits, ComposerFits;
    if run != [] {
      StepKeepsReceipt(s, run[0]);
      StepKeepsComposer(s, run[0]);
      RunKeepsInv(Step(s, run[0]), run[1..]);
    }
  }

  // ---------------------------------------------------------------- what is promised

  /** One key sends at most once, and a stored `dispatched` of false means that nothing was sent. */
  lemma {:induction false} SentAtMostOnce(s: State, run: seq<Event>)
    requires IsStart(s)
    ensures var t := Exec(s, run);
            && t.submits <= 1
            && (t.receipt.None? || !t.receipt.value.dispatched ==> t.submits == 0)
            && (t.receipt.Some? && t.receipt.value.acknowledged ==> t.submits == 1)
  {
    RunKeepsInv(s, run);
  }

  /** The draft is durable before the service first touches the editor, and it stays the text that was read. */
  lemma {:induction false} DraftIsKept(s: State, run: seq<Event>)
    requires IsStart(s) && Exec(s, run).edited
    ensures var t := Exec(s, run); t.receipt.Some? && t.original == Some(t.receipt.value.draft)
  {
    RunKeepsInv(s, run);
  }

  lemma {:induction false} DraftNeverChanges(s: State, run: seq<Event>)
    requires Inv(s) && s.receipt.Some?
    ensures Exec(s, run).receipt.Some? && Exec(s, run).receipt.value.draft == s.receipt.value.draft
    decreases |run|
  {
    hide Step, ReceiptFits, ComposerFits;
    if run != [] {
      StepKeepsReceipt(s, run[0]);
      StepKeepsComposer(s, run[0]);
      DraftNeverChanges(Step(s, run[0]), run[1..]);
    }
  }

  /** A completed run that reports the draft restored saw, last of all, exactly the original text in the composer. */
  lemma {:induction false} RestoredMeansSeen(s: State, run: seq<Event>)
    requires IsStart(s)
    ensures var t := Exec(s, run);
            t.receipt.Some? && t.receipt.value.status.Complete? && t.receipt.value.restored ==>
                t.original == Some(t.seen)
  {
    RunKeepsInv(s, run);
  }

  /**
   Exactly when the service replaces a text other than the backed-up draft, an empty composer, the
   literal prompt or what it had left there itself: when the human put such a text there after the
   service had read the draft, looked at the composer to restore it, or written it, whichever came last.
   */
  lemma {:induction false} ForeignTextIsLostExactlyWhenEdited(s: State, run: seq<Event>, o: Overwrite)
    requires IsStart(s) && o in Exec(s, run).overwritten
    ensures var t := Exec(s, run); !Own(t, o.text) <==> o.edit.Some? && !Own(t, o.edit.value)
  {
    RunKeepsInv(s, run);
  }

  /** And every such edit is lost: whatever the human types between a look and the write that follows is replaced. */
  lemma {:induction false} EditBeforeWriteIsLost(s: State, run: seq<Event>, typed: string, left: string)
    requires IsStart(s) && Exec(s, run).stage in {Preparing, Writing} && typed != PROMPT
             && Exec(s, run).original != Some(typed)
    ensures var t := Exec(s, run);
            var after := Step(Step(t, HumanEdits(typed)), Replace(left));
            after.overwritten == t.overwritten + [Overwrite(typed, Some(typed))] && after.composer == left
  {
    RunKeepsInv(s, run);
  }

  lemma ExecSix(s: State, r: seq<Event>)
    requires |r| == 6
    ensures Exec(s, r) == Step(Step(Step(Step(Step(Step(s, r[0]), r[1]), r[2]), r[3]), r[4]), r[5])
  {
    hide Step;
    assert r[1..][0] == r[1] && r[1..][1..] == r[2..] && r[2..][1..] == r[3..] && r[3..][1..] == r[4..]
           && r[4..][1..] == r[5..] && r[5..][1..] == [];
    var s6 := Step(Step(Step(Step(Step(Step(s, r[0]), r[1]), r[2]), r[3]), r[4]), r[5]);
    assert Exec(s6, []) == s6;
    assert Exec(Step(Step(Step(Step(Step(s, r[0]), r[1]), r[2]), r[3]), r[4]), r[5..]) == s6;
    assert Exec(Step(Step(Step(Step(s, r[0]), r[1]), r[2]), r[3]), r[4..]) == s6;
    assert Exec(Step(Step(Step(s, r[0]), r[1]), r[2]), r[3..]) == s6;
    assert Exec(Step(Step(s, r[0]), r[1]), r[2..]) == s6;
    assert Exec(Step(s, r[0]), r[1..]) == s6;
  }

  function Untouched(draft: string): State { State(None, draft, Idle, 0, false, None, draft, None, {}, []) }

  /** An edit replaced by the preparation, and the call about to restore the draft it had read. */
  function Cleared(draft: string, typed: string): State {
    State(Some(Receipt(Attempted, draft, false, false, false)), "", CheckDraft, 0, true, Some(draft), "", None, {""},
          [Overwrite(typed, Some(typed))])
  }

  lemma EditBeforePreparation(draft: string, typed: string)
    requires draft != PROMPT && draft != "" && typed != PROMPT && typed != draft && typed != ""
    ensures Exec(Untouched(draft), [Begin, Compare(draft), Confirm(true), HumanEdits(typed), Replace(""),
                                    Prepared(false)]) == Cleared(draft, typed)
  {
    hide Blank;
    ExecSix(Untouched(draft), [Begin, Compare(draft), Confirm(true), HumanEdits(typed), Replace(""), Prepared(false)]);
    var s3 := Step(Step(Step(Untouched(draft), Begin), Compare(draft)), Confirm(true));
    assert s3 == State(Some(Receipt(Attempted, draft, false, false, false)), draft, Preparing, 0, false, Some(draft),
                       draft, None, {}, []);
    var s4 := Step(s3, HumanEdits(typed));
    assert s4 == s3.(composer := typed, edit := Some(typed));
    assert Step(Step(s4, Replace("")), Prepared(false)) == Cleared(draft, typed);
  }

  lemma LooksTwice(draft: string, typed: string)
    requires draft != PROMPT && draft != ""
    ensures var s := Cleared(draft, typed); Step(Step(s, Look), Look) == s.(stage := Writing)
  {}

  lemma WritesOver(s: State, draft: string, typed: string)
    requires s == Cleared(draft, typed).(stage := Writing) && typed != draft
    ensures var t := Step(Step(Step(Step(s, HumanEdits(typed)), Replace(draft)), Written(false)), Finish);
            && t.overwritten == s.overwritten + [Overwrite(typed, Some(typed))] && t.composer == draft
            && t.left == {"", draft} && t.original == Some(draft)
            && t.receipt == Some(Receipt(Complete, draft, false, false, true))
  {
    var s1 := Step(s, HumanEdits(typed));
    var s2 := Step(s1, Replace(draft));
    assert s2 == Replaced(s1, draft);
    assert Step(s2, Written(false)) == Seen(s2).(stage := Finishing(true));
  }

  lemma EditBeforeRestoration(draft: string, typed: string)
    requires draft != PROMPT && draft != "" && typed != PROMPT && typed != draft && typed != ""
    ensures var u := Exec(Cleared(draft, typed),
                          [Look, Look, HumanEdits(typed), Replace(draft), Written(false), Finish]);
            && u.overwritten == [Overwrite(typed, Some(typed)), Overwrite(typed, Some(typed))] && u.composer == draft
            && u.receipt == Some(Receipt(Complete, draft, false, false, true)) && !Own(u, typed)
  {
    hide Step;
    ExecSix(Cleared(draft, typed), [Look, Look, HumanEdits(typed), Replace(draft), Written(false), Finish]);
    LooksTwice(draft, typed);
    WritesOver(Cleared(draft, typed).(stage := Writing), draft, typed);
  }

  /**
   Both writes are reached: an edit before the preparation's write is lost, and so is one before the restoration's,
   while the draft is reported restored.
   */
  lemma {:induction false} RacingEditIsLost(draft: string, typed: string)
    requires draft != PROMPT && draft != "" && typed != PROMPT && typed != draft && typed != ""
    ensures IsStart(Untouched(draft))
    ensures var t := Exec(Untouched(draft),
                          [Begin, Compare(draft), Confirm(true), HumanEdits(typed), Replace(""), Prepared(false)]);
            && t.overwritten == [Overwrite(typed, Some(typed))] && !Own(t, typed)
            && var u := Exec(t, [Look, Look, HumanEdits(typed), Replace(draft), Written(false), Finish]);
               && u.overwritten == [Overwrite(typed, Some(typed)), Overwrite(typed, Some(typed))]
               && u.composer == draft && u.receipt == Some(Receipt(Complete, draft, false, false, true))
  {
    hide Step, Exec;
    EditBeforePreparation(draft, typed);
    EditBeforeRestoration(draft, typed);
  }

  // ---------------------------------------------------------------- an undisturbed call

  /** From the draft to the prepared composer. */
  function Preparation(preparedPrompt: string, quiet: bool, afterPrepare: string, verified: bool): seq<Event> {
    [Begin, Compare(preparedPrompt), Confirm(quiet), Replace(afterPrepare), Prepared(verified)]
  }

  /** The send and its acknowledgement. */
  function Dispatch(afterSend: string, acknowledged: bool): seq<Event> {
    [MarkDispatched, SubmitOnce(afterSend), if acknowledged then Acknowledged else Unacknowledged]
  }

  /** Three looks at the composer, a write of the draft if it succeeds, and the outcome. */
  function Restoration(draft: string, writes: bool): seq<Event> {
    [Look, Look, Look] + (if writes then [Replace(draft)] else []) + [Written(!writes), Finish]
  }

  lemma {:induction false} ExecConcat(s: State, a: seq<Event>, b: seq<Event>)
    ensures Exec(s, a + b) == Exec(Exec(s, a), b)
    decreases |a|
  {
    hide Step;
    if a == [] {
      assert a + b == b;
    } else {
      assert (a + b)[0] == a[0] && (a + b)[1..] == a[1..] + b;
      ExecConcat(Step(s, a[0]), a[1..], b);
    }
  }

  lemma ExecThree(s: State, a: Event, b: Event, c: Event)
    ensures Exec(s, [a, b, c]) == Step(Step(Step(s, a), b), c)
  {
    hide Step;
    assert [a, b, c][1..] == [b, c] && [b, c][1..] == [c] && [c][1..] == [];
    var last := Step(Step(Step(s, a), b), c);
    assert Exec(last, []) == last && Exec(Step(Step(s, a), b), [c]) == last && Exec(Step(s, a), [b, c]) == last;
  }

  lemma ExecTwo(s: State, a: Event, b: Event)
    ensures Exec(s, [a, b]) == Step(Step(s, a), b)
  {
    hide Step;
    assert [a, b][1..] == [b] && [b][1..] == [];
    var last := Step(Step(s, a), b);
    assert Exec(last, []) == last && Exec(Step(s, a), [b]) == last;
  }

  lemma PreparationUnfolds(s: State, prompt: string, quiet: bool, afterPrepare: string, verified: bool)
    ensures Exec(s, Preparation(prompt, quiet, afterPrepare, verified))
            == Step(Step(Step(Step(Step(s, Begin), Compare(prompt)), Confirm(quiet)), Replace(afterPrepare)),
                    Prepared(verified))
  {
    hide Step;
    assert Preparation(prompt, quiet, afterPrepare, verified)
        == [Begin, Compare(prompt), Confirm(quiet)] + [Replace(afterPrepare), Prepared(verified)];
    ExecConcat(s, [Begin, Compare(prompt), Confirm(quiet)], [Replace(afterPrepare), Prepared(verified)]);
    ExecThree(s, Begin, Compare(prompt), Confirm(quiet));
    ExecTwo(Exec(s, [Begin, Compare(prompt), Confirm(quiet)]), Replace(afterPrepare), Prepared(verified));
  }

  /** The draft is read and its backup recorded exactly if it is the prepared prompt and the page is quiet. */
  lemma PreparesExactlyWhen(s: State, prompt: string, quiet: bool, afterPrepare: string, verified: bool)
    requires IsStart(s) && s.composer != PROMPT
    ensures var t := Exec(s, Preparation(prompt, quiet, afterPrepare, verified));
            if s.composer == prompt && quiet then
              && t.receipt == Some(Receipt(Attempted, prompt, false, false, false)) && t.composer == afterPrepare
              && t.submits == 0
              && t.stage == if verified && (afterPrepare == PROMPT || Blank(afterPrepare)) then Verified else CheckDraft
            else t.receipt.None? && t.composer == s.composer && t.stage.Idle? && t.submits == 0
  {
    hide Blank;
    PreparationUnfolds(s, prompt, quiet, afterPrepare, verified);
    var compared := Step(Step(s, Begin), Compare(prompt));
    assert compared == Seen(s).(stage := if s.composer == prompt then Confirming(s.composer) else Idle);
    var confirmed := Step(compared, Confirm(quiet));
    if s.composer == prompt && quiet {
      assert confirmed == compared.(receipt := Some(Receipt(Attempted, prompt, false, false, false)),
                                    original := Some(prompt), stage := Preparing);
      assert Step(confirmed, Replace(afterPrepare)) == Replaced(confirmed, afterPrepare);
    } else {
      assert confirmed.stage.Idle? && confirmed.receipt.None? && confirmed.composer == s.composer;
      assert Step(confirmed, Replace(afterPrepare)) == confirmed;
    }
  }

  /** A verified composer is sent once, and nothing else is. */
  lemma SendsExactlyWhen(s: State, afterSend: string, acknowledged: bool)
    requires s.receipt.Some? && (s.stage.Verified? || s.stage.CheckDraft?)
    ensures var t := Exec(s, Dispatch(afterSend, acknowledged));
            && t.stage.CheckDraft?
            && if s.stage.Verified? then
                 && t.submits == s.submits + 1 && t.composer == afterSend
                 && t.receipt == Some(s.receipt.value.(dispatched := true,
                      acknowledged := acknowledged || s.receipt.value.acknowledged))
               else t == s
  {
    ExecThree(s, MarkDispatched, SubmitOnce(afterSend), if acknowledged then Acknowledged else Unacknowledged);
  }

  /** The draft is written back exactly to an empty composer or the literal prompt, and reported exactly if there. */
  lemma RestoresExactlyWhen(s: State, writes: bool)
    requires s.receipt.Some? && s.stage.CheckDraft?
    ensures var draft := s.receipt.value.draft;
            var t := Exec(s, Restoration(draft, writes));
            var mayWrite := s.composer != draft && (s.composer == "" || s.composer == PROMPT);
            && t.stage.Idle? && t.submits == s.submits
            && t.composer == (if mayWrite && writes then draft else s.composer)
            && t.receipt == Some(s.receipt.value.(status := Complete,
                                                  restored := s.composer == draft || (mayWrite && writes)))
  {
    var draft := s.receipt.value.draft;
    var looked := Step(Step(Step(s, Look), Look), Look);
    var mayWrite := s.composer != draft && (s.composer == "" || s.composer == PROMPT);
    assert looked == Seen(s).(stage := if s.composer == draft then Finishing(true)
                              else if mayWrite then Writing else Finishing(false)) by {
      LooksThrice(s);
    }
    ExecThree(s, Look, Look, Look);
    if writes {
      assert Restoration(draft, true) == [Look, Look, Look] + [Replace(draft), Written(false), Finish];
      ExecConcat(s, [Look, Look, Look], [Replace(draft), Written(false), Finish]);
      ExecThree(looked, Replace(draft), Written(false), Finish);
      FinishesWriting(looked, mayWrite);
    } else {
      assert Restoration(draft, false) == [Look, Look, Look] + [Written(true), Finish];
      ExecConcat(s, [Look, Look, Look], [Written(true), Finish]);
      ExecTwo(looked, Written(true), Finish);
    }
  }

  lemma LooksThrice(s: State)
    requires s.receipt.Some? && s.stage.CheckDraft?
    ensures Step(Step(Step(s, Look), Look), Look)
            == Seen(s).(stage := if s.composer == s.receipt.value.draft then Finishing(true)
                                 else if s.composer == "" || s.composer == PROMPT then Writing else Finishing(false))
  {
    var one := Step(s, Look);
    assert one.receipt == s.receipt && one.composer == s.composer;
    var two := Step(one, Look);
    assert two.receipt == s.receipt && two.composer == s.composer;
  }

  lemma FinishesWriting(s: State, mayWrite: bool)
    requires s.receipt.Some? && (s.stage.Writing? || s.stage.Finishing?) && (mayWrite <==> s.stage.Writing?)
    requires mayWrite ==> s.composer != s.receipt.value.draft
    ensures var draft := s.receipt.value.draft;
            var t := Step(Step(Step(s, Replace(draft)), Written(false)), Finish);
            && t.stage.Idle? && t.submits == s.submits && t.composer == (if mayWrite then draft else s.composer)
            && t.receipt == Some(s.receipt.value.(status := Complete,
                                                  restored := mayWrite || (s.stage.Finishing? && s.stage.restored)))
  {
    var draft := s.receipt.value.draft;
    var replaced := Step(s, Replace(draft));
    if mayWrite {
      assert replaced == Replaced(s, draft);
      assert Step(replaced, Written(false)) == Seen(replaced).(stage := Finishing(true));
    } else {
      assert replaced == s && Step(s, Written(false)) == s;
    }
  }

  /**
   With nobody else at the composer, a call of the state machine does what the method does: it is refused without a
   trace, or sends exactly a verified prompt and writes the draft back exactly where it may.
   */
  lemma {:induction false} UndisturbedCall(s: State, prompt: string, quiet: bool, afterPrepare: string, verified: bool,
                                           afterSend: string, acknowledged: bool, writes: bool)
    requires IsStart(s) && s.composer != PROMPT
    ensures var run := Preparation(prompt, quiet, afterPrepare, verified) + Dispatch(afterSend, acknowledged)
                       + Restoration(prompt, writes);
            var t := Exec(s, run);
            var sends := verified && (afterPrepare == PROMPT || Blank(afterPrepare));
            var left := if sends then afterSend else afterPrepare;
            var mayWrite := left != prompt && (left == "" || left == PROMPT);
            if s.composer == prompt && quiet then
              && t.submits == (if sends then 1 else 0) && t.composer == (if mayWrite && writes then prompt else left)
              && t.receipt == Some(Receipt(Complete, prompt, sends, sends && acknowledged,
                                           left == prompt || (mayWrite && writes)))
            else t.receipt.None? && t.composer == s.composer && t.submits == 0
  {
    hide Step, Blank, Exec, IsStart;
    var first, second, third := Preparation(prompt, quiet, afterPrepare, verified), Dispatch(afterSend, acknowledged),
        Restoration(prompt, writes);
    ExecConcat(s, first + second, third);
    ExecConcat(s, first, second);
    PreparesExactlyWhen(s, prompt, quiet, afterPrepare, verified);
    var prepared := Exec(s, first);
    if prepared.receipt.Some? {
      SendsExactlyWhen(prepared, afterSend, acknowledged);
      RestoresExactlyWhen(Exec(prepared, second), writes);
    } else {
      RefusedStaysIdle(prepared, second);
      RefusedStaysIdle(prepared, third);
    }
  }

  /** After a refusal the rest of the call does not happen. */
  lemma {:induction false} RefusedStaysIdle(s: State, run: seq<Event>)
    requires s.receipt.None? && s.stage.Idle?
    requires forall e <- run :: !e.Begin? && !e.HumanEdits?
    ensures Exec(s, run) == s
    decreases |run|
  {
    if run != [] {
      assert run[0] in run && Step(s, run[0]) == s;
      RefusedStaysIdle(s, run[1..]);
    }
  }

  // ---------------------------------------------------------------- the call itself

  class FollowupCall {
    var receipt: Option<Receipt>
    var composer: string
    /** The provider's history. */
    ghost var submits: nat

    ghost predicate Truthful()
      reads this
    {
      submits <= 1 && (receipt.None? || !receipt.value.dispatched ==> submits == 0)
    }

    /**
     `continueFollowup` with nobody else at the composer: `afterPrepare` and `afterSend` are what the
     editor holds after those steps. A first call whose draft is not its prepared prompt, or that finds
     the page busy, is refused and changes nothing. A later one only restores; the composer is written exactly
     when it is empty or holds the literal prompt, and is not the draft already.
     */
    method Continue(preparedPrompt: string, quiet: bool, afterPrepare: string, verified: bool, afterSend: string,
                    acknowledged: bool, writes: bool)
      returns (outcome: Option<bool>)
      requires Truthful()
      modifies this
      ensures Truthful()
      ensures outcome.None? <==> old(receipt).None? && !(old(composer) == preparedPrompt && quiet)
      ensures outcome.None? ==> receipt == old(receipt) && composer == old(composer) && submits == old(submits)
      ensures outcome.Some? ==>
                receipt.Some? && receipt.value.status.Complete? && outcome == Some(receipt.value.restored)
      ensures outcome.Some? ==>
                submits == old(submits) + (if old(receipt).None? && (afterPrepare == PROMPT || Blank(afterPrepare))
                                           && verified then 1 else 0)
      ensures outcome.Some? ==>
                receipt.value.draft == if old(receipt).Some? then old(receipt).value.draft else old(composer)
      ensures old(receipt).Some? && old(receipt).value.status.Complete? ==>
                receipt == old(receipt) && composer == old(composer)
      ensures outcome.Some? && !(old(receipt).Some? && old(receipt).value.status.Complete?) ==>
                var first, draft := old(receipt).None?, receipt.value.draft;
                var sends := first && (afterPrepare == PROMPT || Blank(afterPrepare)) && verified;
                var left := if !first then old(composer) else if sends then afterSend else afterPrepare;
                var mayWrite := left != draft && (left == "" || left == PROMPT);
                && receipt.value.dispatched == (sends || (!first && old(receipt).value.dispatched))
                && receipt.value.acknowledged
                   == ((sends && acknowledged) || (!first && old(receipt).value.acknowledged))
                && outcome == Some(left == draft || (mayWrite && writes))
                && composer == (if mayWrite && writes then draft else left)
    {
      if receipt.Some? && receipt.value.status.Complete? { return Some(receipt.value.restored); }
      if receipt.None? {
        if composer != preparedPrompt || !quiet { return None; }
        receipt := Some(Receipt(Attempted, composer, false, false, false));
        composer := afterPrepare;
        if (composer == PROMPT || Blank(composer)) && verified {
          receipt := Some(receipt.value.(dispatched := true));
          submits := submits + 1;
          composer := afterSend;
          if acknowledged { receipt := Some(receipt.value.(acknowledged := true)); }
        }
      }
      var draft := receipt.value.draft;
      var restored := false;
      if composer == draft {
        restored := true;
      } else if composer == "" || composer == PROMPT {
        if writes { composer := draft; }
        restored := writes;
      }
      receipt := Some(receipt.value.(status := Complete, restored := restored));
      return Some(restored);
    }
  }
}
