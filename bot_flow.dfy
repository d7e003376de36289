/** The submission conversation of `bot.py`: `/start` always lands in
    CHECK_MEMBERSHIP, where a re-check button and a "Let's Go!" button are routed
    to one handler; then name, deal and screenshot. Finishing or cancelling clears
    `user_data`; nothing is forwarded or saved. The bot refuses to start without
    its configuration.

    As in `MainFlow`, `Route` is the handler table and `Transition` one update;
    an update no handler accepts changes nothing. */
module BotFlow {
  import opened Telegram

  /** `CHECK_MEMBERSHIP, GET_NAME, GET_DEAL, GET_SCREENSHOT = range(4)`; `End` is
      `ConversationHandler.END`. */
  datatype State = End | CheckMembership | GetName | GetDeal | GetScreenshot

  /** The integer each state has in the source. */
  function Code(s: State): (c: int)
    ensures -1 <= c < 4
    ensures c == -1 <==> s == End
  {
    match s
    case End => -1
    case CheckMembership => 0
    case GetName => 1
    case GetDeal => 2
    case GetScreenshot => 3
  }

  const NameKey: string := "name"
  const DealKey: string := "deal"

  /** `is_user_member`: true for member, administrator or creator; false for any
      other status, for `BadRequest` and for any other exception. */
  function IsUserMember(lookup: MemberLookup): (isMember: bool)
    ensures isMember <==> ReportsAdmitted(lookup)
  {
    match lookup
    case Found(status) =>
      assert Member.Wire() == "member" && Administrator.Wire() == "administrator" && Creator.Wire() == "creator";
      status in ["member", "administrator", "creator"]
    case Raised(BadRequest) => false
    case Raised(OtherError) => false
  }

  /** `main`'s guard: a value read from the environment counts only when it is
      set and not empty. */
  predicate Configured(value: Option<string>) {
    value.Some? && value.value != ""
  }

  /** `main`: the bot starts polling only when both `BOT_TOKEN` and `CHANNEL_ID` are set. */
  method Launch(botToken: Option<string>, channelId: Option<string>) returns (started: bool)
    ensures started <==> botToken.Some? && |botToken.value| > 0 && channelId.Some? && |channelId.value| > 0
  {
    if !Configured(botToken) || !Configured(channelId) {
      started := false;
      return;
    }
    started := true;
  }

  /** The handlers named in the table of `main`; both buttons go to `button_handler`. */
  datatype Handler = OnStart | OnButton | OnName | OnDeal | OnScreenshot | OnCancel

  /** The `ConversationHandler` table of `bot.py`. */
  function Route(state: State, event: Event): (h: Option<Handler>)
    ensures state == End ==> (h.Some? <==> IsCommand(event, "start"))
    ensures h == Some(OnStart) <==> state == End && IsCommand(event, "start")
    ensures h == Some(OnButton) <==>
              state == CheckMembership && (IsCallback(event, "check_join") || IsCallback(event, "start_submission"))
    ensures h == Some(OnName) <==> state == GetName && IsPlainText(event)
    ensures h == Some(OnDeal) <==> state == GetDeal && IsPlainText(event)
    ensures h == Some(OnScreenshot) <==> state == GetScreenshot && IsPhoto(event)
    ensures h == Some(OnCancel) <==> state != End && IsCommand(event, "cancel")
  {
    if state == End then
      if IsCommand(event, "start") then Some(OnStart) else None
    else
      var own :=
        match state
        case CheckMembership =>
          if IsCallback(event, "check_join") || IsCallback(event, "start_submission") then Some(OnButton) else None
        case GetName => if IsPlainText(event) then Some(OnName) else None
        case GetDeal => if IsPlainText(event) then Some(OnDeal) else None
        case GetScreenshot => if IsPhoto(event) then Some(OnScreenshot) else None
        case End => None;
      if own.Some? then own
      else if IsCommand(event, "cancel") then Some(OnCancel)
      else None
  }

  /** What the conversation holds for one user: its state and `user_data`. */
  datatype Snapshot = Snapshot(state: State, userData: map<string, string>)

  /** `button_handler`'s answer: the next state, or `None` when the button's data
      is neither of the two it knows (the framework then keeps the state). */
  function ButtonTarget(data: string): Option<State> {
    if data == "check_join" then Some(CheckMembership)
    else if data == "start_submission" then Some(GetName)
    else None
  }

  /** One update handled by the conversation. */
  function Transition(s: Snapshot, input: Input): Snapshot {
    match Route(s.state, input.event)
    case None => s
    case Some(h) =>
      match h
      case OnStart => Snapshot(CheckMembership, s.userData)
      case OnButton =>
        (match ButtonTarget(input.event.data)
         case None => s
         case Some(next) => Snapshot(next, s.userData))
      case OnName => Snapshot(GetDeal, s.userData[NameKey := input.event.text])
      case OnDeal => Snapshot(GetScreenshot, s.userData[DealKey := input.event.text])
      case OnScreenshot => Snapshot(End, map[])
      case OnCancel => Snapshot(End, map[])
  }

  /** The updates of one user, handled one after the other. */
  function Run(s: Snapshot, inputs: seq<Input>): Snapshot
    decreases |inputs|
  {
    if inputs == [] then s else Run(Transition(s, inputs[0]), inputs[1..])
  }

  /** One user's conversation: the state the framework keeps for it and the
      user's `user_data`, which the handlers update and clear in place. */
  class Session {
    var state: State
    var userData: map<string, string>

    constructor ()
      ensures state == End && userData == map[]
    {
      state := End;
      userData := map[];
    }

    function Snap(): Snapshot
      reads this
    {
      Snapshot(state, userData)
    }

    /** `start`: checks membership only to choose the reply; the next state is
        CHECK_MEMBERSHIP either way. */
    method Start(lookup: MemberLookup) returns (next: State)
      ensures next == State.CheckMembership
    {
      var isMember := IsUserMember(lookup);
      if isMember {
        next := State.CheckMembership;
      } else {
        next := State.CheckMembership;
      }
    }

    /** `button_handler`: the re-check keeps CHECK_MEMBERSHIP whatever it finds;
        "Let's Go!" moves to GET_NAME without checking; other data returns `None`. */
    method ButtonHandler(data: string, lookup: MemberLookup) returns (next: Option<State>)
      ensures data == "check_join" ==> next == Some(State.CheckMembership)
      ensures data == "start_submission" ==> next == Some(State.GetName)
      ensures data != "check_join" && data != "start_submission" ==> next == None
    {
      if data == "check_join" {
        var isMember := IsUserMember(lookup);
        if isMember {
          next := Some(State.CheckMembership);
        } else {
          next := Some(State.CheckMembership);
        }
      } else if data == "start_submission" {
        next := Some(State.GetName);
      } else {
        next := None;
      }
    }

    /** `get_name`: stores the text under `name`. */
    method GetName(text: string) returns (next: State)
      modifies this`userData
      ensures userData == old(userData)[NameKey := text]
      ensures next == State.GetDeal
    {
      userData := userData[NameKey := text];
      next := State.GetDeal;
    }

    /** `get_deal`: stores the text under `deal`. */
    method GetDeal(text: string) returns (next: State)
      modifies this`userData
      ensures userData == old(userData)[DealKey := text]
      ensures next == State.GetScreenshot
    {
      userData := userData[DealKey := text];
      next := State.GetScreenshot;
    }

    /** `get_screenshot`: the largest photo size it fetches is never kept, so
        only the clearing of `user_data` and the end of the conversation remain. */
    method GetScreenshot(sizes: seq<PhotoSize>) returns (next: State)
      requires |sizes| > 0
      modifies this`userData
      ensures userData == map[]
      ensures next == State.End
    {
      userData := map[];
      next := State.End;
    }

    /** `cancel`: clears `user_data` and ends the conversation. */
    method Cancel() returns (next: State)
      modifies this`userData
      ensures userData == map[]
      ensures next == State.End
    {
      userData := map[];
      next := State.End;
    }

    /** The conversation handling one update: route it by the table, run the
        handler and move to the state it returns (`None` keeps the state). */
    method Handle(input: Input)
      modifies this
      ensures Snap() == Transition(old(Snap()), input)
    {
      var route := Route(state, input.event);
      match route {
        case None =>
        case Some(h) =>
          var next: Option<State>;
          match h {
            case OnStart =>
              var n := Start(input.lookup);
              next := Some(n);
            case OnButton =>
              next := ButtonHandler(input.event.data, input.lookup);
            case OnName =>
              var n := GetName(input.event.text);
              next := Some(n);
            case OnDeal =>
              var n := GetDeal(input.event.text);
              next := Some(n);
            case OnScreenshot =>
              var n := GetScreenshot(input.event.sizes);
              next := Some(n);
            case OnCancel =>
              var n := Cancel();
              next := Some(n);
          }
          if next.Some? {
            state := next.value;
          }
      }
    }
  }
}
