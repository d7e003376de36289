/** What the conversation of `bot.py` guarantees, and the gap in its membership
    gate: GET_NAME is reached through the "Let's Go!" button without any check. */
module BotFlowProperties {
  import opened Telegram
  import opened BotFlow

  /** Distinct states have distinct numbers. */
  lemma CodeInjective(a: State, b: State)
    ensures Code(a) == Code(b) ==> a == b
  {
  }

  /** Exactly member, administrator and creator pass; `BadRequest` and any other
      exception both fail. */
  lemma MembershipByStatus(role: ChatMemberStatus, error: LookupError)
    ensures IsUserMember(Found(role.Wire())) <==> role.Admitted()
    ensures !IsUserMember(Raised(error))
  {
  }

  // ---------------------------------------------------------------------------
  // One update at a time
  // ---------------------------------------------------------------------------

  /** Routing assumption: an update no handler accepts changes nothing. */
  lemma UnroutedIsIgnored(s: Snapshot, input: Input)
    requires Route(s.state, input.event).None?
    ensures Transition(s, input) == s
  {
  }

  /** `/start` outside a conversation leads to CHECK_MEMBERSHIP whatever the oracle says. */
  lemma StartAlwaysChecksMembership(s: Snapshot, lookup: MemberLookup)
    requires s.state == End
    ensures Transition(s, Input(Command("start"), lookup)) == Snapshot(CheckMembership, s.userData)
  {
  }

  /** Outside a conversation every update but `/start` is ignored. */
  lemma IdleIgnoresAllButStart(s: Snapshot, input: Input)
    requires s.state == End && !IsCommand(input.event, "start")
    ensures Transition(s, input) == s
  {
  }

  /** The re-check button keeps CHECK_MEMBERSHIP whether or not the check passes. */
  lemma ReCheckStays(s: Snapshot, lookup: MemberLookup)
    requires s.state == CheckMembership
    ensures Transition(s, Input(Callback("check_join"), lookup)) == s
  {
  }

  /** "Let's Go!" moves to GET_NAME whatever the oracle would say. */
  lemma LetsGoSkipsCheck(s: Snapshot, lookup: MemberLookup)
    requires s.state == CheckMembership
    ensures Transition(s, Input(Callback("start_submission"), lookup)) == Snapshot(GetName, s.userData)
  {
  }

  /** The name is stored under `name`, nothing else changes, and the deal is asked for. */
  lemma NameStored(s: Snapshot, text: string, lookup: MemberLookup)
    requires s.state == GetName
    ensures var t := Transition(s, Input(Text(text), lookup));
            t.state == GetDeal && t.userData.Keys == s.userData.Keys + {NameKey} && t.userData[NameKey] == text &&
            forall k :: k in s.userData && k != NameKey ==> t.userData[k] == s.userData[k]
  {
  }

  /** The deal is stored under `deal`, nothing else changes, and the screenshot is asked for. */
  lemma DealStored(s: Snapshot, text: string, lookup: MemberLookup)
    requires s.state == GetDeal
    ensures var t := Transition(s, Input(Text(text), lookup));
            t.state == GetScreenshot && t.userData.Keys == s.userData.Keys + {DealKey} && t.userData[DealKey] == text &&
            forall k :: k in s.userData && k != DealKey ==> t.userData[k] == s.userData[k]
  {
  }

  /** A photo in GET_SCREENSHOT ends the conversation with `user_data` cleared. */
  lemma ScreenshotClears(s: Snapshot, sizes: seq<PhotoSize>, sentAt: string, lookup: MemberLookup)
    requires s.state == GetScreenshot && |sizes| > 0
    ensures Transition(s, Input(Photo(sizes, sentAt), lookup)) == Snapshot(End, map[])
  {
  }

  /** In GET_SCREENSHOT anything but a photo or `/cancel` is ignored. */
  lemma ScreenshotWaitsForPhoto(s: Snapshot, input: Input)
    requires s.state == GetScreenshot && !IsPhoto(input.event) && !IsCommand(input.event, "cancel")
    ensures Transition(s, input) == s
  {
  }

  /** `/cancel` ends a conversation from any of its states and clears `user_data`. */
  lemma CancelClears(s: Snapshot, lookup: MemberLookup)
    requires s.state != End
    ensures Transition(s, Input(Command("cancel"), lookup)) == Snapshot(End, map[])
  {
  }

  // ---------------------------------------------------------------------------
  // Invariants over whole conversations
  // ---------------------------------------------------------------------------

  /** The answers a state relies on have been given. */
  ghost predicate Consistent(s: Snapshot) {
    (s.state == GetDeal ==> NameKey in s.userData) &&
    (s.state == GetScreenshot ==> NameKey in s.userData && DealKey in s.userData)
  }

  /** Outside a conversation nothing is kept. */
  ghost predicate Settled(s: Snapshot) {
    s.state == End ==> s.userData == map[]
  }

  lemma StepKeepsInvariants(s: Snapshot, input: Input)
    ensures Consistent(s) ==> Consistent(Transition(s, input))
    ensures Settled(s) ==> Settled(Transition(s, input))
  {
  }

  /** Once a conversation is under way, any later updates keep the collected
      answers consistent with the state, and whenever the conversation has ended
      (finished or cancelled) `user_data` is empty. */
  lemma {:induction false} RunKeepsInvariants(s: Snapshot, inputs: seq<Input>)
    requires Consistent(s) && Settled(s)
    ensures Consistent(Run(s, inputs)) && Settled(Run(s, inputs))
    decreases |inputs|
  {
    if inputs != [] {
      StepKeepsInvariants(s, inputs[0]);
      RunKeepsInvariants(Transition(s, inputs[0]), inputs[1..]);
    }
  }

  // ---------------------------------------------------------------------------
  // The membership gate
  // ---------------------------------------------------------------------------

  /** The states that lie beyond the membership gate. */
  predicate PastGate(st: State) {
    st == GetName || st == GetDeal || st == GetScreenshot
  }

  /** The only way past the gate is the "Let's Go!" button in CHECK_MEMBERSHIP;
      no membership check is involved. */
  lemma StepThroughGate(s: Snapshot, input: Input)
    requires !PastGate(s.state) && PastGate(Transition(s, input).state)
    ensures s.state == CheckMembership && IsCallback(input.event, "start_submission")
    ensures Transition(s, input) == Snapshot(GetName, s.userData)
  {
  }

  /** Any user outside the gate who gets past it pressed "Let's Go!" in
      CHECK_MEMBERSHIP: that press is the update that takes the conversation into
      GET_NAME, with `user_data` kept. */
  lemma {:induction false} GateNeedsLetsGo(s: Snapshot, inputs: seq<Input>)
    requires !PastGate(s.state) && PastGate(Run(s, inputs).state)
    ensures exists k :: 0 <= k < |inputs| && IsCallback(inputs[k].event, "start_submission") &&
              Run(s, inputs[..k]).state == CheckMembership &&
              Run(s, inputs[..k + 1]) == Snapshot(GetName, Run(s, inputs[..k]).userData)
    decreases |inputs|
  {
    assert inputs != [];
    var s1 := Transition(s, inputs[0]);
    assert Run(s, inputs[..1]) == Run(s1, []) by { assert inputs[..1][1..] == []; }
    if PastGate(s1.state) {
      StepThroughGate(s, inputs[0]);
      assert inputs[..0] == [];
    } else {
      GateNeedsLetsGo(s1, inputs[1..]);
      var k :| 0 <= k < |inputs[1..]| && IsCallback(inputs[1..][k].event, "start_submission") &&
               Run(s1, inputs[1..][..k]).state == CheckMembership &&
               Run(s1, inputs[1..][..k + 1]) == Snapshot(GetName, Run(s1, inputs[1..][..k]).userData);
      assert inputs[k + 1] == inputs[1..][k];
      assert inputs[..k + 1][1..] == inputs[1..][..k];
      assert inputs[..k + 2][1..] == inputs[1..][..k + 1];
      assert Run(s, inputs[..k + 1]) == Run(s1, inputs[1..][..k]);
      assert Run(s, inputs[..k + 2]) == Run(s1, inputs[1..][..k + 1]);
    }
  }

  /** A user who is not a member (every lookup fails) sends `/start` and presses a
      "Let's Go!" button left over from an earlier message: the conversation is at
      GET_NAME although no membership check passed. */
  lemma NonMemberReachesGetName(userData: map<string, string>, lookup: MemberLookup)
    requires !IsUserMember(lookup)
    ensures Run(Snapshot(End, userData), [Input(Command("start"), lookup), Input(Callback("start_submission"), lookup)])
            == Snapshot(GetName, userData)
  {
    var inputs := [Input(Command("start"), lookup), Input(Callback("start_submission"), lookup)];
    var s1 := Transition(Snapshot(End, userData), inputs[0]);
    assert s1 == Snapshot(CheckMembership, userData);
    assert Run(Snapshot(End, userData), inputs) == Run(s1, inputs[1..]);
    assert Run(s1, inputs[1..]) == Run(Transition(s1, inputs[1]), []);
  }
}
