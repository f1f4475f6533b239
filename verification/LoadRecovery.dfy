/**
 Retrying a conversation that failed to load: the attempt is counted durably before the click, and
 given back only when the renderer reported that it did not click.
 */
module LoadRecovery {
  import opened Wrappers

  type ConversationId = nat

  const MAX_ATTEMPTS := 100

  datatype Status = Waiting | Held | Attempting | Recovered | Exhausted

  datatype Record = Record(attempts: int, status: Status)

  datatype Surface = Normal | Retry | Other

  /**
   The turn of the one sweep in progress; `copy` is the record it works on, `clicked` whether the renderer has
   clicked.
   */
  datatype Turn = Selected(conversation: ConversationId, copy: Record)
      | Dispatched(conversation: ConversationId, copy: Record, clicked: bool)

  /**
   `clicks` is history: the clicks made. `orphans` counts evaluations nobody waits for any more, each
   of which the renderer may still turn into one click while its lease lasts.
   */
  datatype State = State(records: map<ConversationId, Record>, turn: Option<Turn>, clicks: map<ConversationId, nat>,
                         orphans: map<ConversationId, nat>)

  const Start := State(map[], None, map[], map[])

  function Of(m: map<ConversationId, nat>, c: ConversationId): nat { if c in m then m[c] else 0 }

  datatype Event =
    | Observe(conversation: ConversationId, surface: Surface, loadError: bool)
    | HumanReview(conversation: ConversationId, pause: bool)
    | Select(conversation: ConversationId)
    | Skip(status: Status)
    | Inspect(surface: Surface, reserved: bool)
    | RendererClicks
    | OrphanClicks(conversation: ConversationId)
    | ReportClicked
    | ReportNotClicked(surface: Surface)
    | ReportUnknown
    | Crash

  function Save(s: State, c: ConversationId, r: Record): State {
    s.(records := s.records[c := r])
  }

  /** The first loop of a sweep, on one page. */
  function StepObserve(s: State, c: ConversationId, surface: Surface, loadError: bool): State {
    if s.turn.Some? || (c !in s.records && !loadError) then s
    else
      var r := if c in s.records then s.records[c] else Record(0, Waiting);
      if surface.Normal? then Save(s, c, r.(status := Recovered))
      else if r.status.Exhausted? then s
      else Save(s, c, r.(status := if surface.Retry? then Waiting else Held))
  }

  /** The turn of one conversation, up to the click. */
  function StepInspect(s: State, surface: Surface, reserved: bool): State
    requires s.turn.Some? && s.turn.value.Selected?
  {
    var c, r := s.turn.value.conversation, s.turn.value.copy;
    var idle := s.(turn := None);
    if surface.Normal? then Save(idle, c, r.(status := Recovered))
    else if !surface.Retry? then Save(idle, c, r.(status := Held))
    else if r.attempts >= MAX_ATTEMPTS then Save(idle, c, r.(status := Exhausted))
    else if !reserved then Save(idle, c, r.(status := Waiting))
    else
      var counted := Record(r.attempts + 1, Attempting);
      Save(s, c, counted).(turn := Some(Dispatched(c, counted, false)))
  }

  function Orphaned(s: State): State {
    if s.turn.Some? && s.turn.value.Dispatched? && !s.turn.value.clicked
    then s.(orphans := s.orphans[s.turn.value.conversation := Of(s.orphans, s.turn.value.conversation) + 1])
    else s
  }

  function Step(s: State, e: Event): State {
    match e
    case Observe(c, surface, loadError) => StepObserve(s, c, surface, loadError)
    case HumanReview(c, pause) =>
      Save(s, c, Record(if c in s.records then s.records[c].attempts else 0, if pause then Held else Recovered))
    case Select(c) =>
      if s.turn.Some? || c !in s.records || s.records[c].status !in {Waiting, Held, Attempting} then s
      else s.(turn := Some(Selected(c, s.records[c])))
    case Skip(status) =>
      if !(s.turn.Some? && s.turn.value.Selected?) then s
      else Save(s.(turn := None), s.turn.value.conversation, s.turn.value.copy.(status := status))
    case Inspect(surface, reserved) =>
      if s.turn.Some? && s.turn.value.Selected? then StepInspect(s, surface, reserved) else s
    case RendererClicks =>
      if !(s.turn.Some? && s.turn.value.Dispatched? && !s.turn.value.clicked) then s
      else s.(turn := Some(s.turn.value.(clicked := true)),
              clicks := s.clicks[s.turn.value.conversation := Of(s.clicks, s.turn.value.conversation) + 1])
    case OrphanClicks(c) =>
      if Of(s.orphans, c) == 0 then s
      else s.(orphans := s.orphans[c := Of(s.orphans, c) - 1], clicks := s.clicks[c := Of(s.clicks, c) + 1])
    case ReportClicked =>
      if !(s.turn.Some? && s.turn.value.Dispatched? && s.turn.value.clicked) then s
      else Save(s.(turn := None), s.turn.value.conversation, s.turn.value.copy.(status := Waiting))
    case ReportNotClicked(surface) =>
      if !(s.turn.Some? && s.turn.value.Dispatched? && !s.turn.value.clicked) then s
      else Save(s.(turn := None), s.turn.value.conversation,
                Record(s.turn.value.copy.attempts - 1, if surface.Normal? then Recovered else Held))
    case ReportUnknown =>
      if !(s.turn.Some? && s.turn.value.Dispatched?) then s
      else Save(Orphaned(s).(turn := None), s.turn.value.conversation, s.turn.value.copy.(status := Held))
    case Crash => Orphaned(s).(turn := None)
  }

  function Exec(s: State, run: seq<Event>): State
    decreases |run|
  {
    if run == [] then s else Exec(Step(s, run[0]), run[1..])
  }

  function Attempts(s: State, c: ConversationId): int { if c in s.records then s.records[c].attempts else 0 }

  /** A click the renderer may still make for the turn in progress. */
  function Pending(s: State, c: ConversationId): nat {
    if s.turn.Some? && s.turn.value.Dispatched? && s.turn.value.conversation == c && !s.turn.value.clicked then 1 else 0
  }

  /** Every click made, or still possible, is covered by a persisted attempt. */
  predicate Counted(s: State, c: ConversationId) {
    0 <= Of(s.clicks, c) + Of(s.orphans, c) + Pending(s, c) <= Attempts(s, c) <= MAX_ATTEMPTS
  }

  /** What the sweep holds in hand is what is persisted. */
  predicate CopyFits(s: State) {
    s.turn.Some? ==>
        s.turn.value.conversation in s.records
        && s.records[s.turn.value.conversation].attempts == s.turn.value.copy.attempts
  }

  ghost predicate Inv(s: State) {
    (forall c: ConversationId :: Counted(s, c)) && CopyFits(s)
  }

  lemma StepCounts(s: State, e: Event, c: ConversationId)
    requires Counted(s, c) && CopyFits(s) && (s.turn.Some? ==> Counted(s, s.turn.value.conversation))
    ensures Counted(Step(s, e), c)
  {}

  lemma StepKeepsInv(s: State, e: Event)
    requires Inv(s)
    ensures Inv(Step(s, e))
  {
    hide Counted;
    forall c: ConversationId ensures Counted(Step(s, e), c) { StepCounts(s, e, c); }
  }

  lemma {:induction false} RunKeepsInv(s: State, run: seq<Event>)
    requires Inv(s)
    ensures Inv(Exec(s, run))
    decreases |run|
  {
    if run != [] {
      StepKeepsInv(s, run[0]);
      RunKeepsInv(Step(s, run[0]), run[1..]);
    }
  }

  /**
   Over every run of sweeps, recoveries, reviews and crashes: no more clicks than persisted attempts, and never more
   than a hundred.
   */
  lemma {:induction false} ClicksAreCounted(run: seq<Event>, c: ConversationId)
    ensures var s := Exec(Start, run); Of(s.clicks, c) <= Attempts(s, c) <= MAX_ATTEMPTS
  {
    RunKeepsInv(Start, run);
    assert Counted(Exec(Start, run), c);
  }

  /** Once the attempts are used up no turn clicks again, however often the conversation fails to load. */
  lemma {:induction false} ExhaustedClicksNoMore(run: seq<Event>, more: seq<Event>, c: ConversationId)
    requires Of(Exec(Start, run).clicks, c) == MAX_ATTEMPTS
    ensures Of(Exec(Exec(Start, run), more).clicks, c) == MAX_ATTEMPTS
  {
    RunKeepsInv(Start, run);
    var s := Exec(Start, run);
    RunKeepsInv(s, more);
    ClicksGrow(s, more, c);
    assert Counted(Exec(s, more), c);
  }

  lemma {:induction false} ClicksGrow(s: State, run: seq<Event>, c: ConversationId)
    ensures Of(s.clicks, c) <= Of(Exec(s, run).clicks, c)
    decreases |run|
  {
    if run != [] { ClicksGrow(Step(s, run[0]), run[1..], c); }
  }

  // ---------------------------------------------------------------- the sweep itself

  /** What the renderer did with the turn's evaluation, and what the core was told. */
  datatype Outcome = Clicked | NotClicked(surface: Surface) | Unknown

  /** The first loop of a sweep as events: one observation for each page. */
  function Observing(pages: seq<(ConversationId, Surface, bool)>): seq<Event> {
    if pages == [] then []
    else
      var (c, surface, loadError) := pages[|pages| - 1];
      Observing(pages[..|pages| - 1]) + [Observe(c, surface, loadError)]
  }

  /** The turn of the selected conversation as events. */
  function Turning(surface: Surface, reserved: bool, outcome: Outcome): seq<Event> {
    [Inspect(surface, reserved)] +
    match outcome
    case Clicked => [RendererClicks, ReportClicked]
    case NotClicked(after) => [ReportNotClicked(after)]
    case Unknown => [ReportUnknown]
  }

  /** The persisted records, and the conversation a sweep has selected. */
  function Sweeping(records: map<ConversationId, Record>, turn: Option<Turn>): State {
    State(records, turn, map[], map[])
  }

  lemma {:induction false} ExecLast(s: State, run: seq<Event>, e: Event)
    ensures Exec(s, run + [e]) == Step(Exec(s, run), e)
    decreases |run|
  {
    if run == [] {
      assert [e][1..] == [] && Exec(Step(s, e), []) == Step(s, e);
    } else {
      assert (run + [e])[0] == run[0] && (run + [e])[1..] == run[1..] + [e];
      ExecLast(Step(s, run[0]), run[1..], e);
    }
  }

  lemma {:induction false} ObservingOnly(records: map<ConversationId, Record>,
                                         pages: seq<(ConversationId, Surface, bool)>)
    ensures Exec(Sweeping(records, None), Observing(pages))
            == Sweeping(Exec(Sweeping(records, None), Observing(pages)).records, None)
  {
    if pages != [] {
      var front := pages[..|pages| - 1];
      var (c, surface, loadError) := pages[|pages| - 1];
      ObservingOnly(records, front);
      ExecLast(Sweeping(records, None), Observing(front), Observe(c, surface, loadError));
    }
  }

  lemma ObservesNext(records: map<ConversationId, Record>, pages: seq<(ConversationId, Surface, bool)>, i: nat)
    requires i < |pages|
    ensures var s := Exec(Sweeping(records, None), Observing(pages[..i]));
            var (c, surface, loadError) := pages[i];
            && s == Sweeping(s.records, None)
            && Exec(Sweeping(records, None), Observing(pages[..i + 1])) == StepObserve(s, c, surface, loadError)
  {
    var (c, surface, loadError) := pages[i];
    assert pages[..i + 1][..i] == pages[..i];
    ObservingOnly(records, pages[..i]);
    ExecLast(Sweeping(records, None), Observing(pages[..i]), Observe(c, surface, loadError));
  }

  /**
   An observation starts a record exactly at a load error, counts nothing, and tells what the page shows: a rendered
   conversation is recovered, an exhausted one stays so, and else the retry button decides between waiting and held.
   */
  lemma ObservationTells(s: State, c: ConversationId, surface: Surface, loadError: bool)
    requires s.turn.None?
    ensures var after := Step(s, Observe(c, surface, loadError));
            && (c in after.records <==> c in s.records || loadError)
            && after == s.(records := after.records)
            && (forall d <- s.records :: d != c ==> d in after.records && after.records[d] == s.records[d])
            && (forall d <- after.records :: d in s.records || d == c)
            && Attempts(after, c) == Attempts(s, c)
            && (c in after.records ==>
                  var status := after.records[c].status;
                  var exhausted := c in s.records && s.records[c].status.Exhausted?;
                  && (status.Recovered? <==> surface.Normal?)
                  && (status.Exhausted? <==> exhausted && !surface.Normal?)
                  && (status.Waiting? <==> surface.Retry? && !exhausted)
                  && !status.Attempting?)
  {}

  /** A sweep selects exactly a conversation that is still waiting, held or was being attempted, one at a time. */
  lemma SelectsExactlyWhen(s: State, c: ConversationId)
    ensures Step(s, Select(c)) ==
              if s.turn.None? && c in s.records && !s.records[c].status.Recovered? && !s.records[c].status.Exhausted?
              then s.(turn := Some(Selected(c, s.records[c]))) else s
  {}

  lemma ExecTwo(s: State, a: Event, b: Event)
    ensures Exec(s, [a, b]) == Step(Step(s, a), b)
  {
    assert [a, b][1..] == [b] && [b][1..] == [];
    assert Exec(Step(s, a), [b]) == Exec(Step(Step(s, a), b), []);
  }

  lemma ExecThree(s: State, a: Event, b: Event, c: Event)
    ensures Exec(s, [a, b, c]) == Step(Step(Step(s, a), b), c)
  {
    hide Step;
    assert [a, b, c][1..] == [b, c];
    ExecTwo(Step(s, a), b, c);
  }

  lemma TurnUnfolds(s: State, surface: Surface, reserved: bool, outcome: Outcome)
    ensures Exec(s, Turning(surface, reserved, outcome)) ==
              var inspected := Step(s, Inspect(surface, reserved));
              match outcome
              case Clicked => Step(Step(inspected, RendererClicks), ReportClicked)
              case NotClicked(after) => Step(inspected, ReportNotClicked(after))
              case Unknown => Step(inspected, ReportUnknown)
  {
    hide Step;
    match outcome
    case Clicked =>
      assert Turning(surface, reserved, outcome) == [Inspect(surface, reserved), RendererClicks, ReportClicked];
      ExecThree(s, Inspect(surface, reserved), RendererClicks, ReportClicked);
    case NotClicked(after) =>
      assert Turning(surface, reserved, outcome) == [Inspect(surface, reserved), ReportNotClicked(after)];
      ExecTwo(s, Inspect(surface, reserved), ReportNotClicked(after));
    case Unknown =>
      assert Turning(surface, reserved, outcome) == [Inspect(surface, reserved), ReportUnknown];
      ExecTwo(s, Inspect(surface, reserved), ReportUnknown);
  }

  /** What a turn says of the conversation. */
  function StatusAfter(r: Record, surface: Surface, reserved: bool, outcome: Outcome): Status {
    if surface.Normal? then Recovered
    else if !surface.Retry? then Held
    else if r.attempts >= MAX_ATTEMPTS then Exhausted
    else if !reserved || outcome.Clicked? then Waiting
    else if outcome.NotClicked? && outcome.surface.Normal? then Recovered
    else Held
  }

  /** In the state machine a turn says the same, and keeps the attempt exactly when it may have clicked. */
  lemma TurnTells(records: map<ConversationId, Record>, c: ConversationId, surface: Surface, reserved: bool,
                  outcome: Outcome)
    requires c in records
    ensures var r := records[c];
            var dispatched := surface.Retry? && r.attempts < MAX_ATTEMPTS && reserved;
            var after := Exec(Sweeping(records, Some(Selected(c, r))), Turning(surface, reserved, outcome));
            && after.turn.None?
            && after.records == records[c := Record(r.attempts + if dispatched && !outcome.NotClicked? then 1 else 0,
                                                    StatusAfter(r, surface, reserved, outcome))]
            && Of(after.clicks, c) == (if dispatched && outcome.Clicked? then 1 else 0)
            && Of(after.orphans, c) == (if dispatched && outcome.Unknown? then 1 else 0)
  {
    var s := Sweeping(records, Some(Selected(c, records[c])));
    TurnUnfolds(s, surface, reserved, outcome);
    var inspected := Step(s, Inspect(surface, reserved));
    if surface.Retry? && records[c].attempts < MAX_ATTEMPTS && reserved {
      var counted := Record(records[c].attempts + 1, Attempting);
      assert inspected == Sweeping(records[c := counted], Some(Dispatched(c, counted, false)));
    }
  }

  class Sweeper {
    var records: map<ConversationId, Record>
    /** The clicks the page received, or may still receive from an evaluation whose answer was lost. */
    ghost var charged: map<ConversationId, nat>

    ghost predicate Covered()
      reads this
    {
      forall c: ConversationId ::
          0 <= Of(charged, c) <= (if c in records then records[c].attempts else 0) <= MAX_ATTEMPTS
    }

    method Save(c: ConversationId, r: Record)
      modifies `records
      ensures records == old(records)[c := r]
    {
      records := records[c := r];
    }

    /**
     The first loop: every page's surface is recorded as one observation after the other; nothing is clicked and no
     attempt is counted.
     */
    method ObservePages(pages: seq<(ConversationId, Surface, bool)>)
      requires Covered()
      modifies `records
      ensures Covered()
      ensures forall c: ConversationId ::
              (if c in records then records[c].attempts else 0)
              == (if c in old(records) then old(records)[c].attempts else 0)
      ensures records == Exec(Sweeping(old(records), None), Observing(pages)).records
    {
      for i := 0 to |pages|
        invariant records == Exec(Sweeping(old(records), None), Observing(pages[..i])).records
        invariant forall c: ConversationId ::
                  (if c in records then records[c].attempts else 0)
                  == (if c in old(records) then old(records)[c].attempts else 0)
      {
        var (c, surface, loadError) := pages[i];
        ObservesNext(old(records), pages, i);
        if c in records || loadError {
          var r := if c in records then records[c] else Record(0, Waiting);
          if surface.Normal? {
            Save(c, r.(status := Recovered));
          } else if !r.status.Exhausted? {
            Save(c, r.(status := if surface.Retry? then Waiting else Held));
          }
        }
      }
      assert pages[..|pages|] == pages;
      assert Covered() by {
        forall c: ConversationId
          ensures 0 <= Of(charged, c) <= (if c in records then records[c].attempts else 0) <= MAX_ATTEMPTS
        {
          assert 0 <= Of(old(charged), c) <= (if c in old(records) then old(records)[c].attempts
                                              else 0) <= MAX_ATTEMPTS;
        }
      }
    }

    /** The turn of one conversation: it clicks at most once, and only with the attempt persisted. */
    method TakeTurn(c: ConversationId, surface: Surface, reserved: bool, outcome: Outcome) returns (dispatched: bool)
      requires Covered() && c in records
      modifies this
      ensures Covered()
      ensures dispatched <==> surface.Retry? && old(records)[c].attempts < MAX_ATTEMPTS && reserved
      ensures charged == if dispatched && !outcome.NotClicked? then old(charged)[c := Of(old(charged), c) + 1]
              else old(charged)
      ensures c in records && records[c].attempts
              == old(records)[c].attempts + (if dispatched && !outcome.NotClicked? then 1 else 0)
      ensures records[c].status == StatusAfter(old(records)[c], surface, reserved, outcome)
      ensures records == old(records)[c := records[c]]
    {
      var record := records[c];
      ghost var before := records;
      assert 0 <= Of(charged, c) <= record.attempts <= MAX_ATTEMPTS by {
        assert 0 <= Of(charged, c) <= (if c in records then records[c].attempts else 0) <= MAX_ATTEMPTS;
      }
      dispatched := false;
      if surface.Normal? {
        Save(c, record.(status := Recovered));
      } else if !surface.Retry? {
        Save(c, record.(status := Held));
      } else if record.attempts >= MAX_ATTEMPTS {
        Save(c, record.(status := Exhausted));
      } else if !reserved {
        Save(c, record.(status := Waiting));
      } else {
        dispatched := true;
        record := Record(record.attempts + 1, Attempting);
        Save(c, record);
        charged := charged[c := Of(charged, c) + 1];
        match outcome {
          case NotClicked(after) =>
            charged := old(charged);
            Save(c, Record(record.attempts - 1, if after.Normal? then Recovered else Held));
          case Clicked => Save(c, record.(status := Waiting));
          case Unknown => Save(c, record.(status := Held));
        }
      }
      assert records == before[c := records[c]];
      assert Covered() by {
        forall d: ConversationId
          ensures 0 <= Of(charged, d) <= (if d in records then records[d].attempts else 0) <= MAX_ATTEMPTS
        {
          assert 0 <= Of(old(charged), d) <= (if d in before then before[d].attempts else 0) <= MAX_ATTEMPTS;
        }
      }
    }
  }
}
