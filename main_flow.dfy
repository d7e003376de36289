/** The submission conversation of `main.py`: a re-checkable membership gate,
    then name, deal and screenshot, after which the submission is appended to the
    submission log. `user_data` is never cleared by this variant.

    The conversation framework is modelled by `Route` (the handler table given to
    `ConversationHandler`) and `Transition`: an update that no handler of the
    current state (or the fallback) accepts changes nothing. */
module MainFlow {
  import opened Telegram

  /** `CHECK_JOIN, ASK_NAME, GET_DEAL, GET_SCREENSHOT = range(4)`; `End` is
      `ConversationHandler.END`, i.e. the user is not in a conversation. */
  datatype State = End | CheckJoin | AskName | GetDeal | GetScreenshot

  /** The integer each state has in the source. */
  function Code(s: State): (c: int)
    ensures -1 <= c < 4
    ensures c == -1 <==> s == End
  {
    match s
    case End => -1
    case CheckJoin => 0
    case AskName => 1
    case GetDeal => 2
    case GetScreenshot => 3
  }

  /** Keys of `context.user_data` written by the handlers. */
  const NameKey: string := "name"
  const DealKey: string := "deal"
  const ScreenshotKey: string := "screenshot_id"

  /** `dict.get`. */
  function Get(userData: map<string, string>, key: string): Option<string> {
    if key in userData then Some(userData[key]) else None
  }

  /** `check_membership`: the member record's status must be one of member,
      administrator or creator; any exception counts as "not a member". */
  function CheckMembership(lookup: MemberLookup): (isMember: bool)
    ensures isMember <==> ReportsAdmitted(lookup)
  {
    match lookup
    case Found(status) =>
      assert Member.Wire() == "member" && Administrator.Wire() == "administrator" && Creator.Wire() == "creator";
      status in ["member", "administrator", "creator"]
    case Raised(_) => false
  }

  /** One record of the submission log. */
  datatype Entry = Entry(
    userId: int,
    telegramUsername: Option<string>,
    providedName: Option<string>,
    dealInfo: Option<string>,
    screenshotFileId: Option<string>,
    timestamp: string)

  /** The record `get_screenshot` assembles from the sender and `user_data`. */
  function EntryOf(user: User, userData: map<string, string>, sentAt: string): Entry {
    Entry(user.id, user.username, Get(userData, NameKey), Get(userData, DealKey), Get(userData, ScreenshotKey), sentAt)
  }

  /** The submission log (`loot_submissions.json`), as the sequence of its records. */
  class SubmissionLog {
    var entries: seq<Entry>

    constructor ()
      ensures entries == []
    {
      entries := [];
    }

    /** `save_data`: appends exactly one record and keeps every earlier one in order. */
    method Save(entry: Entry)
      modifies this
      ensures entries == old(entries) + [entry]
      ensures |entries| == |old(entries)| + 1 && entries[..|old(entries)|] == old(entries)
    {
      entries := entries + [entry];
    }
  }

  /** The handlers named in the table of `main`. */
  datatype Handler =
    | OnStart
    | OnCheckJoin
    | OnStartSubmission
    | OnName
    | OnDeal
    | OnScreenshot
    | OnCancel

  /** The `ConversationHandler` table: outside a conversation only the entry point
      `/start` is looked at (re-entry is not allowed); inside one, the handlers of
      the current state in order, then the `/cancel` fallback. */
  function Route(state: State, event: Event): (h: Option<Handler>)
    ensures state == End ==> (h.Some? <==> IsCommand(event, "start"))
    ensures h == Some(OnStart) <==> state == End && IsCommand(event, "start")
    ensures h == Some(OnCheckJoin) <==> state == CheckJoin && IsCallback(event, "check_join_again")
    ensures h == Some(OnStartSubmission) <==> state == AskName && IsCallback(event, "start_submission")
    ensures h == Some(OnName) <==> state == AskName && IsPlainText(event)
    ensures h == Some(OnDeal) <==> state == GetDeal && IsPlainText(event)
    ensures h == Some(OnScreenshot) <==> state == GetScreenshot && IsPhoto(event)
    ensures h == Some(OnCancel) <==> state != End && IsCommand(event, "cancel")
  {
    if state == End then
      if IsCommand(event, "start") then Some(OnStart) else None
    else
      var own :=
        match state
        case CheckJoin => if IsCallback(event, "check_join_again") then Some(OnCheckJoin) else None
        case AskName =>
          if IsCallback(event, "start_submission") then Some(OnStartSubmission)
          else if IsPlainText(event) then Some(OnName)
          else None
        case GetDeal => if IsPlainText(event) then Some(OnDeal) else None
        case GetScreenshot => if IsPhoto(event) then Some(OnScreenshot) else None
        case End => None;
      if own.Some? then own
      else if IsCommand(event, "cancel") then Some(OnCancel)
      else None
  }

  /** What the conversation holds for one user: its state and `user_data`. */
  datatype Snapshot = Snapshot(state: State, userData: map<string, string>)

  /** The result of one update: the new snapshot, and the record saved, if any. */
  datatype Outcome = Outcome(after: Snapshot, saved: Option<Entry>)

  /** One update handled by the conversation: route it, run the handler, and
      move to the state the handler returns. */
  function Transition(s: Snapshot, user: User, input: Input): Outcome {
    match Route(s.state, input.event)
    case None => Outcome(s, None)
    case Some(h) =>
      match h
      case OnStart =>
        Outcome(Snapshot(if CheckMembership(input.lookup) then AskName else CheckJoin, s.userData), None)
      case OnCheckJoin =>
        Outcome(Snapshot(if CheckMembership(input.lookup) then AskName else CheckJoin, s.userData), None)
      case OnStartSubmission =>
        Outcome(Snapshot(AskName, s.userData), None)
      case OnName =>
        Outcome(Snapshot(GetDeal, s.userData[NameKey := input.event.text]), None)
      case OnDeal =>
        Outcome(Snapshot(GetScreenshot, s.userData[DealKey := input.event.text]), None)
      case OnScreenshot =>
        var userData := s.userData[ScreenshotKey := Largest(input.event.sizes).fileId];
        Outcome(Snapshot(End, userData), Some(EntryOf(user, userData, input.event.sentAt)))
      case OnCancel =>
        Outcome(Snapshot(End, s.userData), None)
  }

  /** The records an outcome appends to the log. */
  function Saved(o: Outcome): seq<Entry> {
    if o.saved.Some? then [o.saved.value] else []
  }

  /** One user's conversation together with the submission log. */
  datatype World = World(session: Snapshot, log: seq<Entry>)

  function Step(w: World, user: User, input: Input): World {
    var o := Transition(w.session, user, input);
    World(o.after, w.log + Saved(o))
  }

  /** The updates of one user, handled one after the other. */
  function Run(w: World, user: User, inputs: seq<Input>): World
    decreases |inputs|
  {
    if inputs == [] then w else Run(Step(w, user, inputs[0]), user, inputs[1..])
  }

  /** Conversations are keyed by user: the snapshot of a user seen for the first time. */
  function SessionOf(sessions: map<int, Snapshot>, id: int): Snapshot {
    if id in sessions then sessions[id] else Snapshot(End, map[])
  }

  /** An update from `user` reaches that user's conversation only; the log is shared.
      The sender's new conversation and any record saved are what one update does
      to the sender's own conversation; other users' conversations are untouched. */
  function Deliver(sessions: map<int, Snapshot>, log: seq<Entry>, user: User, input: Input)
    : (r: (map<int, Snapshot>, seq<Entry>))
    ensures r.0.Keys == sessions.Keys + {user.id}
    ensures forall id :: id in sessions && id != user.id ==> r.0[id] == sessions[id]
    ensures r.0[user.id] == Transition(SessionOf(sessions, user.id), user, input).after
    ensures |log| <= |r.1| <= |log| + 1 && r.1[..|log|] == log
    ensures forall k :: |log| <= k < |r.1| ==>
              r.1[k].userId == user.id && Transition(SessionOf(sessions, user.id), user, input).saved == Some(r.1[k])
    ensures Transition(SessionOf(sessions, user.id), user, input).saved.Some? ==> |r.1| == |log| + 1
    ensures Transition(SessionOf(sessions, user.id), user, input).saved.None? ==> r.1 == log
  {
    var o := Transition(SessionOf(sessions, user.id), user, input);
    (sessions[user.id := o.after], log + Saved(o))
  }

  /** One user's conversation: the state the framework keeps for it and the
      user's `user_data`, which the handlers update in place. */
  class Session {
    const user: User
    var state: State
    var userData: map<string, string>

    constructor (user: User)
      ensures this.user == user && state == End && userData == map[]
    {
      this.user := user;
      state := End;
      userData := map[];
    }

    function Snap(): Snapshot
      reads this
    {
      Snapshot(state, userData)
    }

    /** `start`: members are asked for their name, everyone else to join first. */
    method Start(lookup: MemberLookup) returns (next: State)
      ensures next == State.AskName <==> ReportsAdmitted(lookup)
      ensures next == State.CheckJoin <==> !ReportsAdmitted(lookup)
    {
      var isMember := CheckMembership(lookup);
      if isMember {
        next := State.AskName;
      } else {
        next := State.CheckJoin;
      }
    }

    /** `check_join_callback`: the same gate as `start`, re-checked on request. */
    method CheckJoinCallback(lookup: MemberLookup) returns (next: State)
      ensures next == State.AskName <==> ReportsAdmitted(lookup)
      ensures next == State.CheckJoin <==> !ReportsAdmitted(lookup)
    {
      var isMember := CheckMembership(lookup);
      if isMember {
        next := State.AskName;
      } else {
        next := State.CheckJoin;
      }
    }

    /** `start_submission_callback`: only edits the message; the state stays ASK_NAME. */
    method StartSubmissionCallback() returns (next: State)
      ensures next == State.AskName
    {
      next := State.AskName;
    }

    /** `get_name`: stores the text under `name`. */
    method GetName(text: string) returns (next: State)
      modifies this`userData
      ensures userData == old(userData)[NameKey := text]
      ensures next == State.GetDeal
    {
      userData := userData[NameKey := text];
      next := State.GetDeal;
    }

    /** `get_deal`: stores the text under `deal`. */
    method GetDeal(text: string) returns (next: State)
      modifies this`userData
      ensures userData == old(userData)[DealKey := text]
      ensures next == State.GetScreenshot
    {
      userData := userData[DealKey := text];
      next := State.GetScreenshot;
    }

    /** `get_screenshot`: stores the id of the largest photo size, appends the
        assembled record to the log and ends the conversation. */
    method GetScreenshot(sizes: seq<PhotoSize>, sentAt: string, log: SubmissionLog) returns (next: State)
      requires |sizes| > 0
      modifies this`userData, log
      ensures userData == old(userData)[ScreenshotKey := Largest(sizes).fileId]
      ensures log.entries == old(log.entries) + [EntryOf(user, userData, sentAt)]
      ensures next == State.End
    {
      var fileId := sizes[|sizes| - 1].fileId;
      userData := userData[ScreenshotKey := fileId];
      var entry := Entry(user.id, user.username, Get(userData, NameKey), Get(userData, DealKey),
                         Get(userData, ScreenshotKey), sentAt);
      log.Save(entry);
      next := State.End;
    }

    /** `cancel`: ends the conversation; `user_data` is left as it is. */
    method Cancel() returns (next: State)
      ensures next == State.End
    {
      next := State.End;
    }

    /** The conversation handling one update: route it by the table, run the
        handler and move to the state it returns; an update no handler accepts
        changes nothing. */
    method Handle(input: Input, log: SubmissionLog)
      modifies this, log
      ensures Snap() == Transition(old(Snap()), user, input).after
      ensures log.entries == old(log.entries) + Saved(Transition(old(Snap()), user, input))
    {
      var route := Route(state, input.event);
      match route {
        case None =>
        case Some(h) =>
          var next: State;
          match h {
            case OnStart => next := Start(input.lookup);
            case OnCheckJoin => next := CheckJoinCallback(input.lookup);
            case OnStartSubmission => next := StartSubmissionCallback();
            case OnName => next := GetName(input.event.text);
            case OnDeal => next := GetDeal(input.event.text);
            case OnScreenshot => next := GetScreenshot(input.event.sizes, input.event.sentAt, log);
            case OnCancel => next := Cancel();
          }
          state := next;
      }
    }
  }
}
