/** What the conversation of `main.py` guarantees, one update at a time and over
    any sequence of updates from one user. */
module MainFlowProperties {
  import opened Telegram
  import opened MainFlow

  // ---------------------------------------------------------------------------
  // The states and the membership gate
  // ---------------------------------------------------------------------------

  /** Distinct states have distinct numbers. */
  lemma CodeInjective(a: State, b: State)
    ensures Code(a) == Code(b) ==> a == b
  {
  }

  /** Exactly member, administrator and creator pass the gate. */
  lemma MembershipByStatus(role: ChatMemberStatus)
    ensures CheckMembership(Found(role.Wire())) <==> role.Admitted()
  {
  }

  /** A failed lookup never passes, whatever the exception. */
  lemma MembershipFailsOnError(error: LookupError)
    ensures !CheckMembership(Raised(error))
  {
  }

  // ---------------------------------------------------------------------------
  // One update at a time
  // ---------------------------------------------------------------------------

  /** Routing assumption: an update no handler accepts changes nothing. */
  lemma UnroutedIsIgnored(s: Snapshot, user: User, input: Input)
    requires Route(s.state, input.event).None?
    ensures Transition(s, user, input) == Outcome(s, None)
  {
  }

  /** `/start` outside a conversation: ASK_NAME for members, CHECK_JOIN otherwise. */
  lemma StartGatesOnMembership(s: Snapshot, user: User, lookup: MemberLookup)
    requires s.state == End
    ensures var o := Transition(s, user, Input(Command("start"), lookup));
            o.saved == None && o.after.userData == s.userData &&
            (o.after.state == AskName <==> CheckMembership(lookup)) &&
            (o.after.state == CheckJoin <==> !CheckMembership(lookup))
  {
  }

  /** Outside a conversation every update but `/start` is ignored, so nothing sent
      after a cancel or a completed submission continues that conversation. */
  lemma IdleIgnoresAllButStart(s: Snapshot, user: User, input: Input)
    requires s.state == End && !IsCommand(input.event, "start")
    ensures Transition(s, user, input) == Outcome(s, None)
  {
  }

  /** Inside a conversation `/start` is not an entry point again. */
  lemma StartInsideConversationIgnored(s: Snapshot, user: User, lookup: MemberLookup)
    requires s.state != End
    ensures Transition(s, user, Input(Command("start"), lookup)) == Outcome(s, None)
  {
  }

  /** In CHECK_JOIN only the `check_join_again` button and `/cancel` do anything;
      a failed re-check stays in CHECK_JOIN. */
  lemma CheckJoinReChecks(s: Snapshot, user: User, input: Input)
    requires s.state == CheckJoin
    ensures var o := Transition(s, user, input);
            o.saved == None && o.after.userData == s.userData &&
            (o.after.state == AskName <==> IsCallback(input.event, "check_join_again") && CheckMembership(input.lookup)) &&
            (o.after.state == End <==> IsCommand(input.event, "cancel")) &&
            (o.after.state == CheckJoin || o.after.state == AskName || o.after.state == End)
  {
  }

  /** The `start_submission` button in ASK_NAME changes neither the state nor `user_data`. */
  lemma StartSubmissionKeepsAskName(s: Snapshot, user: User, lookup: MemberLookup)
    requires s.state == AskName
    ensures Transition(s, user, Input(Callback("start_submission"), lookup)) == Outcome(s, None)
  {
  }

  /** The name is stored under `name`, nothing else changes, and the deal is asked for. */
  lemma NameStored(s: Snapshot, user: User, text: string, lookup: MemberLookup)
    requires s.state == AskName
    ensures var o := Transition(s, user, Input(Text(text), lookup));
            o.saved == None && o.after.state == GetDeal &&
            o.after.userData.Keys == s.userData.Keys + {NameKey} &&
            o.after.userData[NameKey] == text &&
            forall k :: k in s.userData && k != NameKey ==> o.after.userData[k] == s.userData[k]
  {
  }

  /** The deal is stored under `deal`, nothing else changes, and the screenshot is asked for. */
  lemma DealStored(s: Snapshot, user: User, text: string, lookup: MemberLookup)
    requires s.state == GetDeal
    ensures var o := Transition(s, user, Input(Text(text), lookup));
            o.saved == None && o.after.state == GetScreenshot &&
            o.after.userData.Keys == s.userData.Keys + {DealKey} &&
            o.after.userData[DealKey] == text &&
            forall k :: k in s.userData && k != DealKey ==> o.after.userData[k] == s.userData[k]
  {
  }

  /** A photo in GET_SCREENSHOT stores the id of its largest size, saves one record
      built from `user_data` and ends the conversation. */
  lemma ScreenshotCompletes(s: Snapshot, user: User, sizes: seq<PhotoSize>, sentAt: string, lookup: MemberLookup)
    requires s.state == GetScreenshot && |sizes| > 0
    ensures var o := Transition(s, user, Input(Photo(sizes, sentAt), lookup));
            var id := sizes[|sizes| - 1].fileId;
            o.after == Snapshot(End, s.userData[ScreenshotKey := id]) &&
            o.saved == Some(Entry(user.id, user.username, Get(s.userData, NameKey), Get(s.userData, DealKey), Some(id), sentAt))
  {
  }

  /** In GET_SCREENSHOT anything but a photo or `/cancel` is ignored: the state
      and the answers collected so far are kept. */
  lemma ScreenshotWaitsForPhoto(s: Snapshot, user: User, input: Input)
    requires s.state == GetScreenshot && !IsPhoto(input.event) && !IsCommand(input.event, "cancel")
    ensures Transition(s, user, input) == Outcome(s, None)
  {
  }

  /** `/cancel` ends a conversation from any of its states and keeps `user_data`. */
  lemma CancelKeepsUserData(s: Snapshot, user: User, lookup: MemberLookup)
    requires s.state != End
    ensures Transition(s, user, Input(Command("cancel"), lookup)) == Outcome(Snapshot(End, s.userData), None)
  {
  }

  /** A record is saved exactly when a photo arrives in GET_SCREENSHOT. */
  lemma SavedOnlyOnScreenshot(s: Snapshot, user: User, input: Input)
    ensures Transition(s, user, input).saved.Some? <==> s.state == GetScreenshot && IsPhoto(input.event)
  {
  }

  // ---------------------------------------------------------------------------
  // Invariants over whole conversations
  // ---------------------------------------------------------------------------

  /** The answers a state relies on have been given. */
  ghost predicate Consistent(s: Snapshot) {
    (s.state == GetDeal ==> NameKey in s.userData) &&
    (s.state == GetScreenshot ==> NameKey in s.userData && DealKey in s.userData)
  }

  /** A record holds the sender's id, a name, a deal and a screenshot. */
  ghost predicate Complete(e: Entry, user: User) {
    e.userId == user.id && e.providedName.Some? && e.dealInfo.Some? && e.screenshotFileId.Some?
  }

  lemma StepKeepsConsistent(s: Snapshot, user: User, input: Input)
    requires Consistent(s)
    ensures Consistent(Transition(s, user, input).after)
    ensures Transition(s, user, input).saved.Some? ==> Complete(Transition(s, user, input).saved.value, user)
  {
  }

  /** Over any updates from one user the log only grows, earlier records stay in
      place, and every record added is complete and carries that user's id. */
  lemma {:induction false} RunSavesCompleteRecords(w: World, user: User, inputs: seq<Input>)
    requires Consistent(w.session)
    ensures var r := Run(w, user, inputs);
            Consistent(r.session) &&
            |w.log| <= |r.log| && r.log[..|w.log|] == w.log &&
            forall k :: |w.log| <= k < |r.log| ==> Complete(r.log[k], user)
    decreases |inputs|
  {
    if inputs != [] {
      var w1 := Step(w, user, inputs[0]);
      StepKeepsConsistent(w.session, user, inputs[0]);
      RunSavesCompleteRecords(w1, user, inputs[1..]);
    }
  }

  /** Some update among `inputs` is the plain text `t`. */
  ghost predicate Supplied(inputs: seq<Input>, t: string) {
    exists i :: 0 <= i < |inputs| && inputs[i].event == Text(t)
  }

  /** The answers the current state relies on were sent as plain text among the
      updates `seen` so far. */
  ghost predicate OwnAnswers(s: Snapshot, seen: seq<Input>) {
    (s.state == GetDeal ==> NameKey in s.userData && Supplied(seen, s.userData[NameKey])) &&
    (s.state == GetScreenshot ==>
       NameKey in s.userData && Supplied(seen, s.userData[NameKey]) &&
       DealKey in s.userData && Supplied(seen, s.userData[DealKey]))
  }

  /** A record whose name and deal were sent as plain text among `seen`. */
  ghost predicate AnsweredBy(e: Entry, seen: seq<Input>) {
    e.providedName.Some? && Supplied(seen, e.providedName.value) &&
    e.dealInfo.Some? && Supplied(seen, e.dealInfo.value)
  }

  lemma SuppliedExtends(seen: seq<Input>, more: seq<Input>, t: string)
    requires Supplied(seen, t)
    ensures Supplied(seen + more, t)
  {
    var i :| 0 <= i < |seen| && seen[i].event == Text(t);
    assert (seen + more)[i] == seen[i];
  }

  lemma StepKeepsOwnAnswers(s: Snapshot, user: User, seen: seq<Input>, input: Input)
    requires OwnAnswers(s, seen)
    ensures OwnAnswers(Transition(s, user, input).after, seen + [input])
    ensures Transition(s, user, input).saved.Some? ==> AnsweredBy(Transition(s, user, input).saved.value, seen + [input])
  {
    var seen' := seen + [input];
    assert seen'[|seen|] == input;
    if NameKey in s.userData && Supplied(seen, s.userData[NameKey]) {
      SuppliedExtends(seen, [input], s.userData[NameKey]);
    }
    if DealKey in s.userData && Supplied(seen, s.userData[DealKey]) {
      SuppliedExtends(seen, [input], s.userData[DealKey]);
    }
  }

  /** Over any updates, every record added carries a name and a deal that the user
      sent as plain text among the updates seen: before the run (`seen`) or during it.
      At END nothing is relied on, so a run from END may start with no updates seen,
      and then each saved answer was sent during the run itself, never left over
      from an earlier conversation in `user_data`. */
  lemma {:induction false} RunSavesOwnAnswers(w: World, user: User, seen: seq<Input>, inputs: seq<Input>)
    requires OwnAnswers(w.session, seen)
    ensures var r := Run(w, user, inputs);
            OwnAnswers(r.session, seen + inputs) &&
            |w.log| <= |r.log| && r.log[..|w.log|] == w.log &&
            forall k :: |w.log| <= k < |r.log| ==> AnsweredBy(r.log[k], seen + inputs)
    decreases |inputs|
  {
    if inputs == [] {
      assert seen + inputs == seen;
    } else {
      var w1 := Step(w, user, inputs[0]);
      StepKeepsOwnAnswers(w.session, user, seen, inputs[0]);
      RunSavesOwnAnswers(w1, user, seen + [inputs[0]], inputs[1..]);
      assert (seen + [inputs[0]]) + inputs[1..] == seen + inputs;
      var o := Transition(w.session, user, inputs[0]);
      if o.saved.Some? {
        SuppliedExtends(seen + [inputs[0]], inputs[1..], o.saved.value.providedName.value);
        SuppliedExtends(seen + [inputs[0]], inputs[1..], o.saved.value.dealInfo.value);
      }
    }
  }

  /** From outside a conversation, every record added carries a name and a deal
      sent as plain text during the run itself, whatever `user_data` still holds
      from an earlier conversation. */
  lemma RunFromEndSavesOwnAnswers(userData: map<string, string>, log: seq<Entry>, user: User, inputs: seq<Input>)
    ensures var r := Run(World(Snapshot(End, userData), log), user, inputs);
            forall k :: |log| <= k < |r.log| ==> AnsweredBy(r.log[k], inputs)
  {
    assert OwnAnswers(Snapshot(End, userData), []);
    RunSavesOwnAnswers(World(Snapshot(End, userData), log), user, [], inputs);
    assert [] + inputs == inputs;
  }

  /** The states that lie beyond the membership gate. */
  predicate PastGate(st: State) {
    st == AskName || st == GetDeal || st == GetScreenshot
  }

  /** `/start` or the re-check button, with the oracle reporting a member. */
  predicate PassingCheck(input: Input) {
    (IsCommand(input.event, "start") || IsCallback(input.event, "check_join_again")) && CheckMembership(input.lookup)
  }

  lemma StepThroughGate(s: Snapshot, user: User, input: Input)
    requires !PastGate(s.state) && PastGate(Transition(s, user, input).after.state)
    ensures PassingCheck(input) && Transition(s, user, input).after.state == AskName
  {
  }

  /** A user outside the gate (not in a conversation, or in CHECK_JOIN) gets past
      it only through an update whose membership check passed: the update that
      takes the conversation from outside the gate into ASK_NAME is a `/start` or
      re-check whose lookup reports a member. */
  lemma {:induction false} GateHolds(w: World, user: User, inputs: seq<Input>)
    requires !PastGate(w.session.state)
    requires PastGate(Run(w, user, inputs).session.state)
    ensures exists k :: 0 <= k < |inputs| && PassingCheck(inputs[k]) &&
              !PastGate(Run(w, user, inputs[..k]).session.state) &&
              Run(w, user, inputs[..k + 1]).session.state == AskName
    decreases |inputs|
  {
    assert inputs != [];
    var w1 := Step(w, user, inputs[0]);
    assert Run(w, user, inputs[..1]) == Run(w1, user, []) by { assert inputs[..1][1..] == []; }
    if PastGate(w1.session.state) {
      StepThroughGate(w.session, user, inputs[0]);
      assert inputs[..0] == [];
    } else {
      GateHolds(w1, user, inputs[1..]);
      var k :| 0 <= k < |inputs[1..]| && PassingCheck(inputs[1..][k]) &&
               !PastGate(Run(w1, user, inputs[1..][..k]).session.state) &&
               Run(w1, user, inputs[1..][..k + 1]).session.state == AskName;
      assert inputs[k + 1] == inputs[1..][k];
      assert inputs[..k + 1][1..] == inputs[1..][..k];
      assert inputs[..k + 2][1..] == inputs[1..][..k + 1];
      assert Run(w, user, inputs[..k + 1]) == Run(w1, user, inputs[1..][..k]);
      assert Run(w, user, inputs[..k + 2]) == Run(w1, user, inputs[1..][..k + 1]);
    }
  }

  // ---------------------------------------------------------------------------
  // Conversations of several users
  // ---------------------------------------------------------------------------

  /** What an update does depends on its sender's conversation alone: two sets of
      conversations that agree on the sender give the sender the same new
      conversation and the log the same records, so no answer of another user can
      reach the sender's conversation or record. */
  lemma DeliverReadsOnlySender(a: map<int, Snapshot>, b: map<int, Snapshot>, log: seq<Entry>, user: User, input: Input)
    requires SessionOf(a, user.id) == SessionOf(b, user.id)
    ensures Deliver(a, log, user, input).0[user.id] == Deliver(b, log, user, input).0[user.id]
    ensures Deliver(a, log, user, input).1 == Deliver(b, log, user, input).1
  {
  }

  // ---------------------------------------------------------------------------
  // A whole submission
  // ---------------------------------------------------------------------------

  /** A member who sends `/start`, a name, a deal, a stray text and then a photo
      ends outside the conversation with exactly one new record holding those
      answers; the stray text changes nothing. */
  lemma SubmissionScenario(
    userData: map<string, string>, log: seq<Entry>, user: User, lookup: MemberLookup,
    name: string, deal: string, stray: string, sizes: seq<PhotoSize>, sentAt: string)
    requires CheckMembership(lookup) && |sizes| > 0
    ensures var inputs := [Input(Command("start"), lookup), Input(Text(name), lookup), Input(Text(deal), lookup),
                           Input(Text(stray), lookup), Input(Photo(sizes, sentAt), lookup)];
            var r := Run(World(Snapshot(End, userData), log), user, inputs);
            r.session.state == End &&
            r.log == log + [Entry(user.id, user.username, Some(name), Some(deal), Some(Largest(sizes).fileId), sentAt)]
  {
    var inputs := [Input(Command("start"), lookup), Input(Text(name), lookup), Input(Text(deal), lookup),
                   Input(Text(stray), lookup), Input(Photo(sizes, sentAt), lookup)];
    var w0 := World(Snapshot(End, userData), log);
    var w1 := Step(w0, user, inputs[0]);
    assert w1 == World(Snapshot(AskName, userData), log);
    var w2 := Step(w1, user, inputs[1]);
    assert w2 == World(Snapshot(GetDeal, userData[NameKey := name]), log);
    var w3 := Step(w2, user, inputs[2]);
    assert w3 == World(Snapshot(GetScreenshot, userData[NameKey := name][DealKey := deal]), log);
    var w4 := Step(w3, user, inputs[3]);
    assert w4 == w3;
    var w5 := Step(w4, user, inputs[4]);
    assert Run(w0, user, inputs) == Run(w1, user, inputs[1..]);
    assert Run(w1, user, inputs[1..]) == Run(w2, user, inputs[2..]);
    assert Run(w2, user, inputs[2..]) == Run(w3, user, inputs[3..]);
    assert Run(w3, user, inputs[3..]) == Run(w4, user, inputs[4..]);
    assert Run(w4, user, inputs[4..]) == Run(w5, user, []);
  }
}
