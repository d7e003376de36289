/** Values that the Telegram transport hands to the conversation handlers of both
    bot variants: the sender, the kinds of update a handler can be routed, the
    photo sizes of a photo message, and what a `get_chat_member` call produced.
    The transport itself (polling, replies, keyboards) is not part of this model. */
module Telegram {

  datatype Option<+T> = None | Some(value: T)

  /** The sender of an update (`update.effective_user`): numeric id and optional @username. */
  datatype User = User(id: int, username: Option<string>)

  /** One resolution of a photo. Telegram lists the sizes of a photo from the
      smallest to the largest. */
  datatype PhotoSize = PhotoSize(fileId: string, width: nat, height: nat)

  function Pixels(p: PhotoSize): nat {
    p.width * p.height
  }

  /** The sizes are listed from the smallest to the largest, as Telegram sends them. */
  ghost predicate Ascending(sizes: seq<PhotoSize>) {
    forall i, j :: 0 <= i <= j < |sizes| ==> Pixels(sizes[i]) <= Pixels(sizes[j])
  }

  /** The kinds of update the conversation distinguishes.
      `Command` is a message that starts with a bot command (`/start`, `/cancel`, ...);
      `Text` is a text message that is not a command; `Photo` carries the photo's
      sizes and the message date (an opaque ISO-8601 string); `Other` is any other
      message (a sticker, a document, a photo-less media message, ...). */
  datatype Event =
    | Command(name: string)
    | Callback(data: string)
    | Text(text: string)
    | Photo(sizes: seq<PhotoSize>, sentAt: string)
    | Other

  /** `CommandHandler(name)`: the update is the bot command `/name`. */
  predicate IsCommand(e: Event, name: string) {
    e == Command(name)
  }

  /** `CallbackQueryHandler(pattern="^data$")`: a button press carrying exactly `data`. */
  predicate IsCallback(e: Event, data: string) {
    e == Callback(data)
  }

  /** `filters.TEXT & ~filters.COMMAND`. */
  predicate IsPlainText(e: Event) {
    e.Text?
  }

  /** `filters.PHOTO`: a message that carries at least one photo size. */
  predicate IsPhoto(e: Event) {
    e.Photo? && |e.sizes| > 0
  }

  /** `message.photo[-1]`: the last listed size, which is the largest one. */
  function Largest(sizes: seq<PhotoSize>): (p: PhotoSize)
    requires |sizes| > 0
    ensures p in sizes
    ensures Ascending(sizes) ==> forall i :: 0 <= i < |sizes| ==> Pixels(sizes[i]) <= Pixels(p)
  {
    sizes[|sizes| - 1]
  }

  /** Why a `get_chat_member` call raised instead of returning a member record. */
  datatype LookupError = BadRequest | OtherError

  /** What asking Telegram for the user's membership in the channel produced:
      the member record's `status` string, or an exception. */
  datatype MemberLookup = Found(status: string) | Raised(error: LookupError)

  /** The statuses Telegram reports for a chat member, with their wire names. */
  datatype ChatMemberStatus = Creator | Administrator | Member | Restricted | Left | Kicked {

    function Wire(): string {
      match this
      case Creator => "creator"
      case Administrator => "administrator"
      case Member => "member"
      case Restricted => "restricted"
      case Left => "left"
      case Kicked => "kicked"
    }

    /** The statuses both bot variants let through the membership gate. */
    predicate Admitted() {
      this == Creator || this == Administrator || this == Member
    }
  }

  /** The oracle answered with the status of an admitted member. */
  ghost predicate ReportsAdmitted(lookup: MemberLookup) {
    exists role: ChatMemberStatus :: role.Admitted() && lookup == Found(role.Wire())
  }

  /** What a handler is given: the update, and the answer the membership oracle
      gives if the handler asks it while handling this update. */
  datatype Input = Input(event: Event, lookup: MemberLookup)
}
