/**
 When the registry gives a page to a session, in terms of the table before the call and of what the
 browser shows during it, and what the page is afterwards.
 */
module PageGrants {
  import opened Wrappers
  import opened PageRules
  import opened PageOperations
  import ProviderUrl
  import Runs = PageRuns

  /** The page is open and shows the URL of `sight`. */
  predicate Shows(t: Table, i: nat, sight: Sight)
    requires i < |t|
  {
    !t[i].state.Closed? && !sight.closed
  }

  /** The conversation the browser shows. */
  function Seen(sight: Sight): Option<string> {
    ProviderUrl.ParseProviderConversationId(sight.url)
  }

  /** No other open page is at the conversation. */
  ghost predicate Alone(t: Table, i: nat, c: Option<string>)
    requires i < |t|
  {
    c.Some? ==> forall j :: 0 <= j < |t| && j != i ==> !At(t[j], c.value)
  }

  /** The page belongs to nobody else. */
  predicate FreeFor(r: Record, session: SessionId) {
    r.session.None? || r.session == Some(session)
  }

  /** Nothing but the judgement of the rule changed. */
  predicate SameButJudged(a: Record, b: Record) {
    b == a.(state := b.state, owner := b.owner, duplicates := b.duplicates)
  }

  predicate SameClosed(a: Record, b: Record) { a.state.Closed? <==> b.state.Closed? }

  /** No other page changed but in the judgement of the rule. */
  ghost predicate OthersSame(t: Table, u: Table, i: nat) {
    |u| == |t| && forall j :: 0 <= j < |t| && j != i ==> SameButJudged(t[j], u[j]) && SameClosed(t[j], u[j])
  }

  /** The page as the browser shows it: another URL starts a new epoch. */
  function Shown(r: Record, sight: Sight): Record {
    r.(url := sight.url, conversation := Seen(sight), epoch := r.epoch + if sight.url == r.url then 0 else 1)
  }

  /** The page given to a session: in no conflict, and in the state its expected conversation calls for. */
  function Given(r: Record, session: SessionId, generation: Option<nat>, expected: Option<string>,
                 state: BindingState): Record {
    r.(session := Some(session), generation := generation, expected := expected, state := state, owner := None,
       duplicates := [])
  }

  lemma WriteJudges(t: Table, i: nat, r: Record)
    requires Indexed(t) && i < |t| && r.page == t[i].page && r.key == t[i].key && r.order == t[i].order
    ensures var u := Write(t, i, r);
            && |u| == |t| && Settled(u) && OthersSame(t, u, i) && SameButJudged(r, u[i])
            && (r.state.Closed? <==> u[i].state.Closed?) && (r.state.Closed? ==> u[i] == r)
            && (!r.state.Closed? ==>
                  && (u[i].state.Conflict? <==> !Alone(t, i, r.conversation))
                  && (!u[i].state.Conflict? ==>
                        u[i].state == BaseState(r) && u[i].owner.None? && u[i].duplicates == []))
  {
    hide Judged, Reconciled;
    var written := t[i := r];
    ReconciledSettles(written);
    var u := Write(t, i, r);
    assert forall j :: 0 <= j < |t| ==> SameView(written[j], u[j]);
    assert forall j :: 0 <= j < |t| && j != i ==> written[j] == t[j];
    if r.state.Closed? {
      JudgesClosed(written, i);
    } else {
      ConflictRule(u, i);
      assert forall j, c: string :: 0 <= j < |t| && j != i ==> (At(u[j], c) <==> At(t[j], c));
    }
  }

  lemma JudgesClosed(t: Table, i: nat)
    requires i < |t| && t[i].state.Closed?
    ensures Reconciled(t)[i] == t[i]
  {}

  /**
   A refresh records the URL the browser shows and the conversation in it. The epoch grows by one exactly
   when the URL is another one; no page changes hands.
   */
  lemma RefreshRecords(t: Table, i: nat, sight: Sight)
    requires Inv(t) && i < |t|
    ensures var u := Refresh(t, i, sight);
            && Inv(u) && OthersSame(t, u, i)
            && (u[i].state.Closed? <==> !Shows(t, i, sight)) && (u[i].state.Closed? ==> SameButJudged(t[i], u[i]))
            && (Shows(t, i, sight) ==>
                  && SameButJudged(Shown(t[i], sight), u[i])
                  && (u[i].state.Conflict? <==> !Alone(t, i, Seen(sight)))
                  && (!u[i].state.Conflict? ==>
                        u[i].state == BaseState(Shown(t[i], sight)) && u[i].owner.None? && u[i].duplicates == []))
  {
    hide Judged, Reconciled, ProviderUrl.ParseProviderConversationId, Write, Alone;
    RefreshKeeps(t, i, sight);
    var r := t[i];
    if r.state.Closed? {
    } else if sight.closed {
      WriteJudges(t, i, r.(state := Closed, owner := None, duplicates := []));
    } else {
      WriteJudges(t, i, r.(epoch := if sight.url != r.url then r.epoch + 1 else r.epoch, url := sight.url,
                           conversation := Seen(sight)));
    }
  }

  // ---------------------------------------------------------------- who may have a page

  /** The page is open, and no other open page is at the conversation the browser shows. */
  ghost predicate Usable(t: Table, i: nat, sight: Sight)
    requires i < |t|
  {
    Shows(t, i, sight) && Alone(t, i, Seen(sight))
  }

  /** The page is at the requested conversation, and free for this session, this generation and this conversation. */
  ghost predicate MayBind(t: Table, i: nat, sight: Sight, session: SessionId, generation: Option<nat>,
                          conversation: string)
    requires i < |t|
  {
    && Usable(t, i, sight) && Seen(sight) == Some(conversation)
    && FreeFor(t[i], session) && (t[i].generation.None? || t[i].generation == generation)
    && (t[i].expected.None? || t[i].expected == Some(conversation))
  }

  /** The page is nobody else's, and where the request expects it: at the requested conversation, or at none. */
  ghost predicate MayReserve(t: Table, i: nat, sight: Sight, session: SessionId, conversation: Option<string>)
    requires i < |t|
  {
    Usable(t, i, sight) && Seen(sight) == conversation && FreeFor(t[i], session)
  }

  /** The page is nobody's, at some conversation, and the retained target. */
  ghost predicate MayReserveUnknown(t: Table, i: nat, sight: Sight, target: TargetId)
    requires i < |t|
  {
    && Usable(t, i, sight) && Seen(sight).Some?
    && t[i].session.None? && t[i].expected.None? && t[i].target == Some(target)
  }

  /** A temporary identity is one of the form `WEB:...`. */
  lemma TemporaryExactlyWhen(conversation: string)
    ensures IsTemporary(conversation) <==> exists rest: string :: conversation == "WEB:" + rest
  {
    if IsTemporary(conversation) { assert conversation == "WEB:" + conversation[4..]; }
  }

  /** From a temporary identity to a permanent one, which the browser shows. */
  ghost predicate IsRedirect(sight: Sight, previous: string, conversation: string) {
    IsTemporary(previous) && !IsTemporary(conversation) && Seen(sight) == Some(conversation)
  }

  /** The redirected page is the session's own, and was expected at the temporary identity or at none yet. */
  ghost predicate MayBindRedirect(t: Table, i: nat, sight: Sight, session: SessionId, generation: Option<nat>,
                                  previous: string, conversation: string)
    requires i < |t|
  {
    && Usable(t, i, sight) && IsRedirect(sight, previous, conversation)
    && t[i].session == Some(session) && t[i].generation == generation
    && (t[i].expected.None? || t[i].expected == Some(previous))
  }

  /** The redirected page is nobody's. */
  ghost predicate MayReserveRedirect(t: Table, i: nat, sight: Sight, previous: string, conversation: string)
    requires i < |t|
  {
    && Usable(t, i, sight) && IsRedirect(sight, previous, conversation)
    && t[i].session.None? && t[i].expected.None?
  }

  /**
   The crashed page is a session's, nothing the snapshot of it recorded has changed, and the new page object
   is open, not yet registered, and shows the same URL.
   */
  predicate MayReconnect(t: Table, i: nat, expected: Record, was: Sight, page: PageId, sight: Sight, target: TargetId)
    requires i < |t|
  {
    var r := t[i];
    && r.crashed && (r.state.Owned? || r.state.Reserved?) && !was.closed && !sight.closed
    && r.target == expected.target == Some(target) && r.epoch == expected.epoch
    && r.session == expected.session && r.generation == expected.generation
    && r.conversation == expected.conversation && r.expected == expected.expected
    && r.url == expected.url == sight.url
    && forall j :: 0 <= j < |t| ==> t[j].page != page
  }

  // ---------------------------------------------------------------- giving a page to a session

  /** A write that changes nobody's conversation leaves the page as alone as the refresh found it. */
  lemma GivesShown(t: Table, i: nat, sight: Sight, session: SessionId, generation: Option<nat>,
                   expected: Option<string>)
    requires Inv(t) && i < |t| && Usable(t, i, sight)
    ensures var u := Refresh(t, i, sight);
            var v := Write(u, i, u[i].(session := Some(session), generation := generation, expected := expected));
            && OthersSame(t, v, i)
            && v[i] == Given(Shown(t[i], sight), session, generation, expected,
                             BaseState(Shown(t[i], sight).(session := Some(session), expected := expected)))
  {
    hide Refresh, Write, Seen, BaseState, Inv, Settled;
    RefreshRecords(t, i, sight);
    var u := Refresh(t, i, sight);
    assert Indexed(u) by { IsIndexed(u); }
    var r := u[i].(session := Some(session), generation := generation, expected := expected);
    WriteJudges(u, i, r);
    var v := Write(u, i, r);
    assert Alone(u, i, Seen(sight)) by {
      if Seen(sight).Some? {
        forall j | 0 <= j < |u| && j != i ensures !At(u[j], Seen(sight).value) {
          assert SameButJudged(t[j], u[j]) && !At(t[j], Seen(sight).value);
        }
      }
    }
    assert BaseState(r) == BaseState(Shown(t[i], sight).(session := Some(session), expected := expected)) by {
      SameBase(r, Shown(t[i], sight).(session := Some(session), expected := expected));
    }
    assert forall j :: 0 <= j < |t| && j != i ==> SameButJudged(t[j], u[j]) && SameButJudged(u[j], v[j]);
  }

  lemma IsIndexed(t: Table)
    requires Inv(t)
    ensures Indexed(t)
  {}

  lemma SameBase(a: Record, b: Record)
    requires a.session == b.session && a.expected == b.expected && a.conversation == b.conversation
    ensures BaseState(a) == BaseState(b)
  {}

  /** A page is bound exactly when `MayBind` says so, and is then owned at the conversation the browser shows. */
  lemma BindsExactlyWhen(t: Table, i: nat, sight: Sight, session: SessionId, generation: Option<nat>,
                         conversation: string)
    requires Inv(t) && i < |t|
    ensures var a := Bind(t, i, sight, session, generation, conversation);
            var elsewhere := Seen(sight) != Some(conversation)
                || (t[i].expected.Some? && t[i].expected != Some(conversation));
            && (a.error.None? <==> MayBind(t, i, sight, session, generation, conversation))
            && (a.error == Some(BrowserUnavailable) <==> !Shows(t, i, sight))
            && (a.error == Some(ConversationMismatch) <==>
                  Usable(t, i, sight) && FreeFor(t[i], session)
                      && (t[i].generation.None? || t[i].generation == generation) && elsewhere)
            && (a.error.Some? ==> a.table == Refresh(t, i, sight))
            && (a.error.None? ==>
                  && OthersSame(t, a.table, i)
                  && a.table[i] == Given(Shown(t[i], sight), session, generation, Some(conversation), Owned))
  {
    hide Refresh, Write, Seen, Inv, Alone;
    RefreshRecords(t, i, sight);
    if Usable(t, i, sight) {
      GivesShown(t, i, sight, session, generation, Some(conversation));
    }
  }

  /** A reserved page is owned at the requested conversation, or reserved while it has none. */
  lemma ReservesExactlyWhen(t: Table, i: nat, sight: Sight, session: SessionId, generation: nat,
                            conversation: Option<string>)
    requires Inv(t) && i < |t|
    ensures var a := Reserve(t, i, sight, session, generation, conversation);
            && (a.error.None? <==> MayReserve(t, i, sight, session, conversation))
            && (a.error == Some(BrowserUnavailable) <==> !Shows(t, i, sight))
            && (a.error == Some(ConversationMismatch) <==>
                  Usable(t, i, sight) && FreeFor(t[i], session) && conversation.Some? && Seen(sight) != conversation)
            && (a.error.Some? ==> a.table == Refresh(t, i, sight))
            && (a.error.None? ==>
                  && OthersSame(t, a.table, i)
                  && a.table[i] == Given(Shown(t[i], sight), session, Some(generation), conversation,
                                         if conversation.Some? then Owned else Reserved))
  {
    hide Refresh, Write, Seen, Inv, Alone;
    RefreshRecords(t, i, sight);
    if Usable(t, i, sight) {
      GivesShown(t, i, sight, session, Some(generation), conversation);
    }
  }

  lemma AloneIsCounted(t: Table, i: nat, c: string)
    requires i < |t| && At(t[i], c)
    ensures Count(t, c) == 1 <==> Alone(t, i, Some(c))
  {
    var s := PositionsAt(t, c, |t|);
    if Alone(t, i, Some(c)) {
      assert s == {i};
    } else {
      var j :| 0 <= j < |t| && j != i && At(t[j], c);
      assert {i, j} <= s;
      Larger({i, j}, s);
    }
  }

  lemma {:induction false} Larger(a: set<nat>, b: set<nat>)
    requires a <= b
    ensures |a| <= |b|
  {
    if a != {} {
      var x :| x in a;
      Larger(a - {x}, b - {x});
    }
  }

  /** The page of a session whose conversation is not known is taken over with its identity still to be recovered. */
  lemma ReservesUnknownExactlyWhen(t: Table, i: nat, sight: Sight, session: SessionId, generation: nat,
                                   target: TargetId)
    requires Inv(t) && i < |t|
    ensures var a := ReserveUnknown(t, i, sight, session, generation, target);
            && (a.error.None? <==> MayReserveUnknown(t, i, sight, target))
            && (a.error.Some? ==> a.error == Some(IdentityUnverified) && a.table == Refresh(t, i, sight))
            && (a.error.None? ==>
                  && OthersSame(t, a.table, i)
                  && a.table[i] == Given(Shown(t[i], sight), session, Some(generation), None, IdentityLost))
  {
    hide Refresh, Write, Seen, Inv, Alone, Count;
    RefreshRecords(t, i, sight);
    var u := Refresh(t, i, sight);
    if Shows(t, i, sight) && Seen(sight).Some? && !u[i].state.Conflict? {
      AloneInRefreshed(t, i, sight);
      AloneIsCounted(u, i, Seen(sight).value);
    }
    if Usable(t, i, sight) {
      GivesShown(t, i, sight, session, Some(generation), None);
    }
  }

  lemma AloneInRefreshed(t: Table, i: nat, sight: Sight)
    requires Inv(t) && i < |t| && Alone(t, i, Seen(sight))
    ensures Alone(Refresh(t, i, sight), i, Seen(sight))
  {
    hide Refresh, Seen, Inv;
    RefreshRecords(t, i, sight);
    var u := Refresh(t, i, sight);
    if Seen(sight).Some? {
      forall j | 0 <= j < |u| && j != i ensures !At(u[j], Seen(sight).value) {
        assert SameButJudged(t[j], u[j]) && !At(t[j], Seen(sight).value);
      }
    }
  }

  /** A redirect that is accepted leaves the page owned at the permanent identity. */
  lemma BindsRedirectExactlyWhen(t: Table, i: nat, sight: Sight, session: SessionId, generation: Option<nat>,
                                 previous: string, conversation: string)
    requires Inv(t) && i < |t|
    ensures var a := BindRedirect(t, i, sight, session, generation, previous, conversation);
            && (a.error.None? <==> MayBindRedirect(t, i, sight, session, generation, previous, conversation))
            && (a.error.Some? ==> a.error == Some(IdentityUnverified) && a.table == Refresh(t, i, sight))
            && (a.error.None? ==>
                  && OthersSame(t, a.table, i)
                  && a.table[i] == Given(Shown(t[i], sight), session, generation, Some(conversation), Owned))
  {
    hide Refresh, Write, Seen, Inv, Alone;
    RefreshRecords(t, i, sight);
    var u := Refresh(t, i, sight);
    if Usable(t, i, sight) {
      GivesShown(t, i, sight, session, generation, Some(conversation));
      if u[i].session == Some(session) && u[i].generation == generation {
        assert u[i].(expected := Some(conversation))
            == u[i].(session := Some(session), generation := generation, expected := Some(conversation));
      }
    }
  }

  /** A page reserved for a redirect has its identity still to be verified. */
  lemma ReservesRedirectExactlyWhen(t: Table, i: nat, sight: Sight, session: SessionId, generation: Option<nat>,
                                    previous: string, conversation: string)
    requires Inv(t) && i < |t|
    ensures var a := ReserveRedirect(t, i, sight, session, generation, previous, conversation);
            && (a.error.None? <==> MayReserveRedirect(t, i, sight, previous, conversation))
            && (a.error.Some? ==> a.error == Some(IdentityUnverified) && a.table == Refresh(t, i, sight))
            && (a.error.None? ==>
                  && OthersSame(t, a.table, i)
                  && a.table[i] == Given(Shown(t[i], sight), session, generation, Some(previous), IdentityLost))
  {
    hide Refresh, Write, Seen, Inv, Alone;
    RefreshRecords(t, i, sight);
    if Usable(t, i, sight) {
      GivesShown(t, i, sight, session, generation, Some(previous));
    }
  }

  /** A crashed page goes on under a new page object and a new epoch, and changes in nothing else. */
  lemma ReconnectsExactlyWhen(t: Table, i: nat, expected: Record, was: Sight, page: PageId, sight: Sight,
                              target: TargetId)
    requires i < |t|
    ensures var a := Reconnect(t, i, expected, was, page, sight, target);
            && (a.error.None? <==> MayReconnect(t, i, expected, was, page, sight, target))
            && a.table == if a.error.Some? then t
                          else t[i := t[i].(page := page, crashed := false, epoch := t[i].epoch + 1)]
  {}

  /** A redirected page nobody owned is reserved and then bound at its permanent identity, in this order only. */
  lemma RedirectIsReservedThenBound(t: Table, i: nat, sight: Sight, session: SessionId, generation: Option<nat>,
                                    previous: string, conversation: string)
    requires Inv(t) && i < |t| && MayReserveRedirect(t, i, sight, previous, conversation)
    ensures BindRedirect(t, i, sight, session, generation, previous, conversation).error.Some?
    ensures var reserved := ReserveRedirect(t, i, sight, session, generation, previous, conversation);
            && reserved.error.None? && |reserved.table| == |t| && Inv(reserved.table)
            && var bound := BindRedirect(reserved.table, i, sight, session, generation, previous, conversation);
               && bound.error.None? && |bound.table| == |t| && bound.table[i].state.Owned?
               && bound.table[i].session == Some(session) && bound.table[i].expected == Some(conversation)
  {
    hide ReserveRedirect, BindRedirect, Inv, Seen, Alone;
    ReservesRedirectExactlyWhen(t, i, sight, session, generation, previous, conversation);
    BindsRedirectExactlyWhen(t, i, sight, session, generation, previous, conversation);
    var reserved := ReserveRedirect(t, i, sight, session, generation, previous, conversation);
    assert Inv(reserved.table) by { RedirectKeeps(t, i, sight, session, generation, previous, conversation); }
    assert Alone(reserved.table, i, Seen(sight)) by { AloneStays(t, reserved.table, i, Seen(sight)); }
    BindsRedirectExactlyWhen(reserved.table, i, sight, session, generation, previous, conversation);
  }

  lemma RedirectKeeps(t: Table, i: nat, sight: Sight, session: SessionId, generation: Option<nat>,
                      previous: string, conversation: string)
    requires Inv(t) && i < |t| && MayReserveRedirect(t, i, sight, previous, conversation)
    ensures Inv(ReserveRedirect(t, i, sight, session, generation, previous, conversation).table)
  {
    hide Refresh, Write, Inv;
    RefreshKeeps(t, i, sight);
    if ReserveRedirect(t, i, sight, session, generation, previous, conversation).error.None? {
      RefreshedWriteKeeps(t, i, sight, Refresh(t, i, sight)[i].(session := Some(session), generation := generation,
                                                               expected := Some(previous)));
    }
  }

  lemma AloneStays(t: Table, u: Table, i: nat, c: Option<string>)
    requires i < |t| && |u| == |t| && Alone(t, i, c)
    requires forall j :: 0 <= j < |t| && j != i && !u[j].state.Closed? ==>
               !t[j].state.Closed? && u[j].conversation == t[j].conversation
    ensures Alone(u, i, c)
  {
    if c.Some? {
      forall j | 0 <= j < |u| && j != i ensures !At(u[j], c.value) { assert !At(t[j], c.value); }
    }
  }

  // ---------------------------------------------------------------- the other writes

  /** An unbound page belongs to nobody; if it is alone at its conversation it is free to be given away. */
  lemma UnbindFrees(t: Table, i: nat)
    requires Inv(t) && i < |t|
    ensures var u := Unbind(t, i);
            && OthersSame(t, u, i)
            && SameButJudged(t[i].(session := None, generation := None, expected := None), u[i])
            && SameClosed(t[i], u[i])
            && (u[i].state.Unbound? <==> !t[i].state.Closed? && Alone(t, i, t[i].conversation))
  {
    hide Write, Alone, Inv;
    assert Indexed(t) by { IsIndexed(t); }
    WriteJudges(t, i, t[i].(session := None, generation := None, expected := None));
  }

  /** Closing a page changes nothing else but the judgement of the pages it was in conflict with. */
  lemma ClosingEnds(t: Table, i: nat)
    requires Inv(t) && i < |t|
    ensures var u := MarkClosed(t, i);
            && OthersSame(t, u, i) && (t[i].state.Closed? ==> u == t)
            && (!t[i].state.Closed? ==> u[i] == t[i].(state := Closed, owner := None, duplicates := []))
  {
    hide Write, Alone, Inv;
    assert Indexed(t) by { IsIndexed(t); }
    if !t[i].state.Closed? { WriteJudges(t, i, t[i].(state := Closed, owner := None, duplicates := [])); }
  }

  /** A page the registry does not know is listed last, in its first epoch and nobody's; a known one changes nothing. */
  lemma RegisterLists(t: Table, page: PageId, key: PageKey, sight: Sight)
    requires Inv(t)
    ensures var u := Register(t, page, key, sight);
            if exists i :: 0 <= i < |t| && t[i].page == page then u == t
            else
              && |u| == |t| + 1
              && (forall j :: 0 <= j < |t| ==> SameButJudged(t[j], u[j]) && SameClosed(t[j], u[j]))
              && var r := u[|t|];
                 && r.key == key && r.page == page && r.order == |t| && r.epoch == 1 && r.url == sight.url
                 && r.conversation == Seen(sight) && r.session.None? && r.generation.None? && r.expected.None?
                 && r.target.None? && !r.crashed && (r.state.Closed? <==> sight.closed)
                 && (!sight.closed ==>
                      (r.state.Unbound? <==> Seen(sight).Some? ==>
                          forall j :: 0 <= j < |t| ==> !At(t[j], Seen(sight).value)))
  {
    hide Judged, Reconciled, ProviderUrl.ParseProviderConversationId, Inv;
    if !Known(t, page) {
      var written := t + [Record(key, page, |t|, None, 1, None, None, Seen(sight), None, sight.url,
                                 if sight.closed then Closed else Unbound, None, [], false)];
      ReconciledSettles(written);
      var u := Reconciled(written);
      assert u == Register(t, page, key, sight);
      assert forall j :: 0 <= j < |t| ==> written[j] == t[j];
      if !sight.closed {
        ConflictRule(u, |t|);
        assert forall j, c: string :: 0 <= j < |t| ==> (At(u[j], c) <==> At(t[j], c));
      }
    }
  }

  // ---------------------------------------------------------------- every run

  /** The event gives the page to the session, and its condition holds. */
  ghost predicate Grants(t: Table, i: nat, e: Runs.Event, session: SessionId)
    requires i < |t|
  {
    match e
    case Bind(key, sight, s, generation, conversation) =>
      key == t[i].key && s == session && MayBind(t, i, sight, s, generation, conversation)
    case Reserve(key, sight, s, _, conversation) =>
      key == t[i].key && s == session && MayReserve(t, i, sight, s, conversation)
    case ReserveUnknown(key, sight, s, _, target) =>
      key == t[i].key && s == session && MayReserveUnknown(t, i, sight, target)
    case ReserveRedirect(key, sight, s, _, previous, conversation) =>
      key == t[i].key && s == session && MayReserveRedirect(t, i, sight, previous, conversation)
    case _ => false
  }

  lemma GrantingStepGrants(t: Table, i: nat, e: Runs.Event, session: SessionId)
    requires Inv(t) && i < |t| && (e.Bind? || e.Reserve? || e.ReserveUnknown? || e.BindRedirect? || e.ReserveRedirect?)
    requires e.key == t[i].key && i < |Runs.StepAt(t, i, e)|
    requires t[i].session != Some(session) && Runs.StepAt(t, i, e)[i].session == Some(session)
    ensures Grants(t, i, e, session)
  {
    hide Bind, Reserve, ReserveUnknown, BindRedirect, ReserveRedirect, Refresh, Inv, Seen, Alone;
    RefreshRecords(t, i, e.sight);
    match e
    case Bind(_, sight, s, generation, conversation) => BindsExactlyWhen(t, i, sight, s, generation, conversation);
    case Reserve(_, sight, s, generation, conversation) =>
      ReservesExactlyWhen(t, i, sight, s, generation, conversation);
    case ReserveUnknown(_, sight, s, generation, target) =>
      ReservesUnknownExactlyWhen(t, i, sight, s, generation, target);
    case BindRedirect(_, sight, s, generation, previous, conversation) =>
      BindsRedirectExactlyWhen(t, i, sight, s, generation, previous, conversation);
    case ReserveRedirect(_, sight, s, generation, previous, conversation) =>
      ReservesRedirectExactlyWhen(t, i, sight, s, generation, previous, conversation);
  }

  /** What is done to one page leaves every other page with its session. */
  lemma OtherPagesKeepSession(t: Table, i: nat, e: Runs.Event, j: nat)
    requires Inv(t) && i < |t| && j < |t| && j != i
    ensures |Runs.StepAt(t, i, e)| == |t| && Runs.StepAt(t, i, e)[j].session == t[j].session
  {
    hide Bind, Reserve, ReserveUnknown, BindRedirect, ReserveRedirect, Refresh, Inv, Seen, Alone, Unbind, MarkClosed,
      Reconnect;
    match e
    case Bind(_, sight, s, generation, conversation) =>
      RefreshRecords(t, i, sight);
      BindsExactlyWhen(t, i, sight, s, generation, conversation);
    case Reserve(_, sight, s, generation, conversation) =>
      RefreshRecords(t, i, sight);
      ReservesExactlyWhen(t, i, sight, s, generation, conversation);
    case ReserveUnknown(_, sight, s, generation, target) =>
      RefreshRecords(t, i, sight);
      ReservesUnknownExactlyWhen(t, i, sight, s, generation, target);
    case BindRedirect(_, sight, s, generation, previous, conversation) =>
      RefreshRecords(t, i, sight);
      BindsRedirectExactlyWhen(t, i, sight, s, generation, previous, conversation);
    case ReserveRedirect(_, sight, s, generation, previous, conversation) =>
      RefreshRecords(t, i, sight);
      ReservesRedirectExactlyWhen(t, i, sight, s, generation, previous, conversation);
    case Reconnect(_, expected, was, page, sight, target) =>
      ReconnectsExactlyWhen(t, i, expected, was, page, sight, target);
    case Refresh(_, sight) => RefreshRecords(t, i, sight);
    case PageClosed(_) => ClosingEnds(t, i);
    case Unbind(_) => UnbindFrees(t, i);
    case _ =>
  }

  lemma OtherStepsGiveNothing(t: Table, i: nat, e: Runs.Event)
    requires Inv(t) && i < |t|
             && (e.Crash? || e.Reconnect? || e.Refresh? || e.PageClosed? || e.Unbind?)
    ensures |Runs.StepAt(t, i, e)| == |t|
    ensures Runs.StepAt(t, i, e)[i].session == t[i].session || Runs.StepAt(t, i, e)[i].session.None?
  {
    hide Refresh, Inv, Seen, Alone, Unbind, MarkClosed, Reconnect;
    match e
    case Reconnect(_, expected, was, page, sight, target) =>
      ReconnectsExactlyWhen(t, i, expected, was, page, sight, target);
    case Refresh(_, sight) => RefreshRecords(t, i, sight);
    case PageClosed(_) => ClosingEnds(t, i);
    case Unbind(_) => UnbindFrees(t, i);
    case _ =>
  }

  lemma {:induction false} ClosingKeepsSessions(t: Table, pages: set<PageId>, n: nat, i: nat)
    requires Inv(t) && n <= |t| && i < |t|
    ensures Runs.CloseAll(t, pages, n)[i].session == t[i].session
  {
    hide Inv, MarkClosed;
    if n > 0 {
      ClosingKeepsSessions(t, pages, n - 1, i);
      Runs.CloseAllKeeps(t, pages, n - 1);
      ClosingEnds(Runs.CloseAll(t, pages, n - 1), n - 1);
    }
  }

  lemma ListingGivesNothing(t: Table, page: PageId, key: PageKey, sight: Sight, target: TargetId, i: nat)
    requires Inv(t) && i < |t|
    ensures |Register(t, page, key, sight)| >= |t| && Register(t, page, key, sight)[i].session == t[i].session
    ensures |Runs.Identified(t, page, key, sight, target)| >= |t|
    ensures Runs.Identified(t, page, key, sight, target)[i].session == t[i].session
  {
    hide Inv, Register, Seen;
    RegisterLists(t, page, key, sight);
  }

  /** A step that makes a page a session's is a granting call for it whose condition holds. */
  lemma SessionIsGivenByAGrant(t: Table, e: Runs.Event, i: nat, session: SessionId)
    requires Inv(t) && i < |t| && i < |Runs.Step(t, e)|
    requires t[i].session != Some(session) && Runs.Step(t, e)[i].session == Some(session)
    ensures Grants(t, i, e, session)
  {
    hide Inv, Runs.StepAt, Register, Runs.Identified, Runs.CloseAll, Grants;
    match e
    case Register(page, key, sight) => ListingGivesNothing(t, page, key, sight, 0, i);
    case Identify(page, key, sight, target) => ListingGivesNothing(t, page, key, sight, target, i);
    case ContextClosed(pages) => ClosingKeepsSessions(t, pages, |t|, i);
    case _ =>
      var n := IndexOf(t, e.key);
      if n.Some? {
        if n.value != i {
          OtherPagesKeepSession(t, n.value, e, i);
        } else if e.Crash? || e.Reconnect? || e.Refresh? || e.PageClosed? || e.Unbind? {
          OtherStepsGiveNothing(t, i, e);
        } else {
          GrantingStepGrants(t, i, e, session);
        }
      }
  }

  /** A page that is a session's now and was not before was given to it on the way, by a call that was allowed then. */
  lemma {:induction false} OwnersWereGranted(t: Table, run: seq<Runs.Event>, i: nat, session: SessionId)
    requires Inv(t) && i < |t| && t[i].session != Some(session)
    requires i < |Runs.Exec(t, run)| && Runs.Exec(t, run)[i].session == Some(session)
    ensures exists k :: 0 <= k < |run| && i < |Runs.Exec(t, run[..k])|
              && Grants(Runs.Exec(t, run[..k]), i, run[k], session)
    decreases |run|
  {
    hide Inv, Grants, Runs.Step;
    assert run != [];
    var u := Runs.Step(t, run[0]);
    Runs.StepKeeps(t, run[0]);
    GrowsBy(t, run[0], i);
    if u[i].session == Some(session) {
      SessionIsGivenByAGrant(t, run[0], i, session);
      assert Runs.Exec(t, run[..0]) == t;
    } else {
      OwnersWereGranted(u, run[1..], i, session);
      var k :| 0 <= k < |run[1..]| && i < |Runs.Exec(u, run[1..][..k])|
               && Grants(Runs.Exec(u, run[1..][..k]), i, run[1..][k], session);
      assert run[..k + 1][0] == run[0] && run[..k + 1][1..] == run[1..][..k];
      assert Runs.Exec(t, run[..k + 1]) == Runs.Exec(u, run[1..][..k]) && run[k + 1] == run[1..][k];
    }
  }

  lemma GrowsBy(t: Table, e: Runs.Event, i: nat)
    requires Inv(t) && i < |t|
    ensures i < |Runs.Step(t, e)| && Inv(Runs.Step(t, e))
  {
    hide Inv;
    Runs.StepKeeps(t, e);
  }
}
