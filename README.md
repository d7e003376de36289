# Loot submission bot: the submission conversation

The repository is a Telegram bot that collects "loot deal" submissions. A user
proves membership of a channel, then gives a name, a deal description and a
screenshot. This project models the per-user submission conversation of its two
variants, `main.py` and `bot.py`, and proves what each of them guarantees.

- `telegram.dfy` (module `Telegram`): what the transport hands to a handler.
  These are the kinds of update (a command, a button press, plain text, a photo
  with its sizes, anything else), the photo sizes with the rule that the last one
  is the largest, and what asking for the user's membership produced (a status
  string, `BadRequest` or another exception). Each handled update comes with the
  answer the membership oracle would give if asked (`Input`).
- `main_flow.dfy` (module `MainFlow`): the `main.py` conversation. It has a
  re-checkable membership gate. Each answer is stored in `user_data`, which is
  never cleared. Completion appends a record to the submission log (`SubmissionLog`).
  Conversations are keyed by user; `Deliver` shows that an update touches only its
  sender's conversation.
- `main_flow_properties.dfy`: the lemmas for `main.py`. They cover each handler,
  the routing, the completeness of saved records over any run and the fact that
  their answers were sent during that run, the
  gate (getting past CHECK_JOIN needs a passing membership check), and a whole
  submission end to end.
- `bot_flow.dfy` (module `BotFlow`): the `bot.py` conversation. `/start` and the
  re-check button always lead to CHECK_MEMBERSHIP. The "Let's Go!" button leads to
  GET_NAME. Finishing or cancelling clears `user_data`, and nothing is saved. The
  configuration guard is `Launch`.
- `bot_flow_properties.dfy`: the lemmas for `bot.py`. One of them proves that
  GET_NAME is reached only through "Let's Go!" and that no membership check is
  involved. `NonMemberReachesGetName` shows a user who fails every check reaching
  GET_NAME by pressing a leftover "Let's Go!" button.

The framework's dispatch is stated as an explicit assumption, in `Route` and
`Transition`. It follows `ConversationHandler` with its default settings:
- Outside a conversation (`End`), only the `/start` entry point is looked at.
  Re-entry is not allowed, so `/start` inside a conversation is ignored.
- Inside a conversation, the current state's handlers are tried in order, then
  the `/cancel` fallback.
- An update that nothing accepts changes nothing.
- A handler that returns `None` keeps the state.

Three behaviours of the code that the model keeps as written:
- In GET_SCREENSHOT, a message that is not a photo is silently ignored. There is
  no re-prompt, but the state and the collected answers are kept.
- `main.py`'s `cancel` does not clear `user_data`.
- `bot.py` does not re-check membership when "Let's Go!" is pressed.

## Model

| member | source | states |
|---|---|---|
| Telegram.Largest | main.py:139 | the chosen photo size is one of the message's sizes, and it is at least as large as every other size when they are listed smallest first |
| MainFlow.Code | main.py:46 | the four states are numbered from `range(4)` and END is -1, the only negative code |
| MainFlow.CheckMembership | main.py:62-68 | passes exactly when the oracle returned the status of a member, administrator or creator; an exception never passes |
| MainFlow.Route | main.py:175-187 | outside a conversation only `/start` is routed; CHECK_JOIN routes only `check_join_again`; ASK_NAME routes `start_submission` and plain text; GET_DEAL routes plain text; GET_SCREENSHOT routes only photos; `/cancel` is routed in every state of a conversation |
| MainFlow.Deliver | main.py:175-187 | an update changes only its sender's conversation, which becomes what one update does to the sender's own conversation; the shared log keeps its earlier records, gains exactly the record that update saves when it saves one (carrying the sender's id), and is unchanged otherwise |
| MainFlow.SubmissionLog.Save | main.py:56-60 | appends exactly one record and keeps every earlier record in order |
| MainFlow.Session.Start | main.py:72-95 | the next state is ASK_NAME when the user is an admitted member and CHECK_JOIN otherwise |
| MainFlow.Session.CheckJoinCallback | main.py:97-114 | the re-check gives ASK_NAME for an admitted member and stays in CHECK_JOIN otherwise |
| MainFlow.Session.StartSubmissionCallback | main.py:116-120 | the next state stays ASK_NAME |
| MainFlow.Session.GetName | main.py:122-128 | `user_data` gains the text under `name` and nothing else changes; next is GET_DEAL |
| MainFlow.Session.GetDeal | main.py:130-136 | `user_data` gains the text under `deal` and nothing else changes; next is GET_SCREENSHOT |
| MainFlow.Session.GetScreenshot | main.py:138-166 | stores the largest size's file id under `screenshot_id`, appends the record built from the sender and `user_data` to the log, and ends |
| MainFlow.Session.Cancel | main.py:168-170 | ends the conversation without touching `user_data` |
| MainFlow.Session.Handle | main.py:175-187 | the session and the log after one update are those given by the routing table and the handlers |
| MainFlowProperties.CodeInjective | main.py:46 | distinct states have distinct numbers |
| MainFlowProperties.MembershipByStatus | main.py:65 | a found status passes exactly for member, administrator and creator |
| MainFlowProperties.MembershipFailsOnError | main.py:66-68 | any exception from the lookup counts as not a member |
| MainFlowProperties.UnroutedIsIgnored | main.py:175-187 | an update the table does not route changes neither the state nor `user_data`, and saves nothing |
| MainFlowProperties.StartGatesOnMembership | main.py:72-95 | `/start` outside a conversation leads to ASK_NAME exactly for members and to CHECK_JOIN exactly for non-members, keeping `user_data` |
| MainFlowProperties.IdleIgnoresAllButStart | main.py:176 | after END, every update other than `/start` is ignored, so nothing continues a cancelled or finished conversation |
| MainFlowProperties.StartInsideConversationIgnored | main.py:175-187 | `/start` inside a conversation does nothing |
| MainFlowProperties.CheckJoinReChecks | main.py:178 | in CHECK_JOIN the state becomes ASK_NAME exactly on a passing `check_join_again` re-check and END exactly on `/cancel`; otherwise it stays CHECK_JOIN |
| MainFlowProperties.StartSubmissionKeepsAskName | main.py:180 | the `start_submission` button in ASK_NAME changes neither the state nor `user_data` |
| MainFlowProperties.NameStored | main.py:122-128 | in ASK_NAME a text is stored under `name`, other keys are untouched, and the state becomes GET_DEAL |
| MainFlowProperties.DealStored | main.py:130-136 | in GET_DEAL a text is stored under `deal`, other keys are untouched, and the state becomes GET_SCREENSHOT |
| MainFlowProperties.ScreenshotCompletes | main.py:138-166 | a photo in GET_SCREENSHOT stores the last size's id, ends the conversation and saves a record with the sender, `name`, `deal`, that id and the message date |
| MainFlowProperties.ScreenshotWaitsForPhoto | main.py:184 | in GET_SCREENSHOT anything but a photo or `/cancel` leaves state and answers unchanged |
| MainFlowProperties.CancelKeepsUserData | main.py:168-170 | `/cancel` ends a conversation from any state and leaves `user_data` as it was |
| MainFlowProperties.SavedOnlyOnScreenshot | main.py:156-164 | with every Telegram call succeeding, a record is saved exactly when a photo arrives in GET_SCREENSHOT |
| MainFlowProperties.StepKeepsConsistent | main.py:122-140 | each update keeps the answers a state relies on, and every saved record has a name, a deal, a screenshot and the sender's id |
| MainFlowProperties.RunSavesCompleteRecords | main.py:156-164 | over any updates from one user, the log only grows, its earlier records stay in place, and every added record is complete and carries that user's id |
| MainFlowProperties.StepKeepsOwnAnswers | main.py:122-164 | each update keeps the answers the state relies on among the texts seen, and a record saved by it has a name and a deal among those texts |
| MainFlowProperties.RunSavesOwnAnswers | main.py:156-164 | over any updates, every added record's name and deal are plain texts the user sent among the updates seen; from END, texts sent during the run itself, so no record carries answers left over in `user_data` from an earlier conversation |
| MainFlowProperties.RunFromEndSavesOwnAnswers | main.py:122-164 | from outside a conversation, every record added has a name and a deal the user sent as plain text during the run itself, whatever `user_data` still holds from an earlier conversation |
| MainFlowProperties.StepThroughGate | main.py:72-114 | leaving END or CHECK_JOIN for a state past the gate takes `/start` or `check_join_again` with a passing check, and lands in ASK_NAME |
| MainFlowProperties.GateHolds | main.py:175-187 | a user outside the gate who ends up past it was taken from outside the gate into ASK_NAME by a `/start` or re-check whose membership check passed |
| MainFlowProperties.DeliverReadsOnlySender | main.py:175-187 | the sender's new conversation and the records saved depend only on the sender's own conversation, never on another user's |
| MainFlowProperties.SubmissionScenario | main.py:72-166 | a member's `/start`, name, deal, stray text and photo end the conversation with exactly one new record holding that name, deal and largest-size id |
| BotFlow.Code | bot.py:29 | the four states are numbered from `range(4)` and END is -1, the only negative code |
| BotFlow.IsUserMember | bot.py:33-47 | true exactly when the oracle returned the status of a member, administrator or creator; `BadRequest` and other exceptions give false |
| BotFlow.Launch | bot.py:156-158 | the bot starts only when both `BOT_TOKEN` and `CHANNEL_ID` are set and non-empty |
| BotFlow.Route | bot.py:162-174 | outside a conversation only `/start` is routed; CHECK_MEMBERSHIP routes exactly the `check_join` and `start_submission` buttons to the button handler; GET_NAME and GET_DEAL route plain text; GET_SCREENSHOT routes only photos; `/cancel` is routed in every state of a conversation |
| BotFlow.Session.Start | bot.py:52-78 | the next state is CHECK_MEMBERSHIP, member or not |
| BotFlow.Session.ButtonHandler | bot.py:82-107 | `check_join` gives CHECK_MEMBERSHIP whatever the check finds; `start_submission` gives GET_NAME; any other data gives no state |
| BotFlow.Session.GetName | bot.py:112-117 | `user_data` gains the text under `name`; next is GET_DEAL |
| BotFlow.Session.GetDeal | bot.py:120-125 | `user_data` gains the text under `deal`; next is GET_SCREENSHOT |
| BotFlow.Session.GetScreenshot | bot.py:128-146 | clears `user_data` and ends; nothing is stored |
| BotFlow.Session.Cancel | bot.py:149-152 | clears `user_data` and ends |
| BotFlow.Session.Handle | bot.py:162-174 | the session after one update is the one given by the routing table and the handlers; a handler answer of no state keeps the state |
| BotFlowProperties.CodeInjective | bot.py:29 | distinct states have distinct numbers |
| BotFlowProperties.MembershipByStatus | bot.py:33-47 | a found status passes exactly for member, administrator and creator; both kinds of exception fail |
| BotFlowProperties.UnroutedIsIgnored | bot.py:162-174 | an update the table does not route changes nothing |
| BotFlowProperties.StartAlwaysChecksMembership | bot.py:52-78 | `/start` outside a conversation leads to CHECK_MEMBERSHIP whatever the oracle says, keeping `user_data` |
| BotFlowProperties.IdleIgnoresAllButStart | bot.py:163 | after END, every update other than `/start` is ignored |
| BotFlowProperties.ReCheckStays | bot.py:88-101 | the `check_join` button leaves the conversation unchanged, whether or not the re-check passes |
| BotFlowProperties.LetsGoSkipsCheck | bot.py:104-107 | the `start_submission` button in CHECK_MEMBERSHIP leads to GET_NAME whatever the oracle would say |
| BotFlowProperties.NameStored | bot.py:112-117 | in GET_NAME a text is stored under `name`, other keys are untouched, and the state becomes GET_DEAL |
| BotFlowProperties.DealStored | bot.py:120-125 | in GET_DEAL a text is stored under `deal`, other keys are untouched, and the state becomes GET_SCREENSHOT |
| BotFlowProperties.ScreenshotClears | bot.py:128-146 | a photo in GET_SCREENSHOT ends the conversation with `user_data` empty |
| BotFlowProperties.ScreenshotWaitsForPhoto | bot.py:171 | in GET_SCREENSHOT anything but a photo or `/cancel` is ignored |
| BotFlowProperties.CancelClears | bot.py:149-152 | `/cancel` ends a conversation from any state with `user_data` empty |
| BotFlowProperties.StepKeepsInvariants | bot.py:112-152 | each update keeps the answers a state relies on, and keeps `user_data` empty outside a conversation |
| BotFlowProperties.RunKeepsInvariants | bot.py:162-174 | over any updates, the answers stay consistent with the state and END always comes with an empty `user_data`, so a conversation that began and then ended holds no data |
| BotFlowProperties.StepThroughGate | bot.py:104-107 | the only step past the gate is `start_submission` in CHECK_MEMBERSHIP, and it lands in GET_NAME with `user_data` kept |
| BotFlowProperties.GateNeedsLetsGo | bot.py:165-168 | a user outside the gate who ends up past it was taken from CHECK_MEMBERSHIP into GET_NAME, with `user_data` kept, by a `start_submission` press, and no membership check is required |
| BotFlowProperties.NonMemberReachesGetName | bot.py:52-107 | a user whom every lookup rejects reaches GET_NAME with `/start` followed by a `start_submission` button press |

## Left out

- Telegram transport: replies, message edits, alerts, inline keyboards, HTML texts, the admin `send_message`/`send_photo` forward in `main.py` and `photo.get_file()` are not modelled. A file id is an opaque string taken from the photo size.
- The membership oracle (`get_chat_member`) is an input: each update carries the answer it would give.
- `ConversationHandler` dispatch, `run_polling` and per-chat keying are library code. Only the routing tables are modelled, with the rule that an unmatched update changes nothing. Callback patterns are modelled as exact matches of the button data.
- Conversation timeouts are not modelled. Neither variant configures one.
- JSON file I/O in `load_data`/`save_data` is not modelled, including the fallback to an empty list when the file is missing or corrupt. The log is a sequence of records, and each append is atomic. The read-append-rewrite race between concurrent writers is not modelled.
- The Flask keep-alive server and its thread, environment loading, logging and the `isoformat` timestamp are not modelled. The message date is an opaque string.
- `main.py` has no configuration guard, and its missing-configuration behaviour is not modelled. Without `CHANNEL_USERNAME`, `CHANNEL_USERNAME.lstrip('@')` raises `AttributeError` in main.py's own code. Inside the `try` of `check_membership` (main.py:64) this makes every check return false. In the non-member branch of `start` (main.py:87) it is unguarded, so every `/start` raises and no conversation can begin. Without `BOT_TOKEN`, building the application fails (main.py:173).
- Every Telegram call is assumed to succeed. When one raises, the handler stops and `ConversationHandler` keeps the current state. In `main.py`'s `get_screenshot`, `save_data` (main.py:164) runs only after `get_file` (main.py:139), the confirmation (main.py:141), and the admin `send_message` and `send_photo` (main.py:153-154). If one of these fails, no record is saved and the conversation stays in GET_SCREENSHOT. An unset `ADMIN_CHAT_ID` (main.py:36, never checked) is one way for the forward to fail. If the forward is what fails, `screenshot_id` is already stored and the user has already been told the entry was submitted. Likewise a failing reply in any other handler leaves the state as it was.
- MainFlowProperties.RunSavesOwnAnswers: states that the saved name and deal were sent as texts during the run, but not that the name was sent before the deal.
- `MainFlow.Session`: the sender (`effective_user`) is fixed per session, so a username change in the middle of a conversation is not reflected.
