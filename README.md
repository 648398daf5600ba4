# Subscription funnel of a Telegram payment bot, in Dafny

This project models the decision logic of `bot.py`. The bot sells access to a private Telegram channel:

- `/start` registers the user and sends an offer.
- `/buy` asks for an email, unless the user already has a subscription.
- A valid email creates a YooKassa payment.
- A background task polls the payment's status. On success it records a subscription row and sends a one-time channel invite.
- Users who have not paid get a delayed reminder and three calendar broadcasts.

The model keeps the bot's module-level state as the fields of one object, `Funnel.Bot`:

- `subs` is the `subscriptions` table, as a map from user id to row.
- `activeUsers` is the `active_users` set.
- `waitingForEmail` holds the users whose FSM state is `waiting_for_email`.

Each handler is a method on that object. Instead of sending anything, it returns the messages it would send, as `Outbound(chat, kind)` values. Answers from outside come in as parameters:

- what `Payment.create` returned, or `None` when it raised;
- the statuses reported by successive `Payment.find_one` queries;
- the invite link, or `None` when creating it failed;
- the order in which iterating the `active_users` set visits its members.

Files:

- `wrappers.dfy`: `Option`.
- `store.dfy`: the `subscriptions` table and its only write, `INSERT OR REPLACE`.
- `email.dfy`: Python's `str.strip()` (with the exact `str.isspace()` character set) and the `@`/`.` check.
- `payment.dfy`: gateway statuses, the fixed payment request, the constants (30 attempts, 10 s, 5 min, 2999.00 RUB) and the first-terminal-status rule of the poll loop.
- `funnel.dfy`: the `Bot` class and its handlers.
- `scenarios.dfy`: client methods that drive a `Bot` through four journeys using only the handlers' contracts:
  - a malformed email reply, then a good one;
  - payment success on the third query;
  - no terminal status within the budget;
  - a broadcast that skips a subscriber.

Behaviours of the code worth knowing, which the model follows:

- Every `/start` from a user without a subscription schedules another reminder, not only the first `/start`.
- A failed send inside a broadcast is not caught, so it ends the broadcast (see "Left out").
- The error branch after a successful payment catches failures of the database write as well as of the invite creation.

## Model

| member | source | states |
|---|---|---|
| SubscriptionStore.Upsert | bot.py:165 | the upsert leaves exactly the old keys plus the user's; the user's row has the new email and a NULL payment method id, even if the old row had one; every other row is unchanged |
| SubscriptionStore.LastUpsertWins | bot.py:165 | after any non-empty run of upserts for one user, the table equals a single upsert of the last email |
| SubscriptionStore.RepeatedUpsertIdempotent | bot.py:45-49 | repeating the same upsert any number of times gives the same table as one upsert: one row for the user (the primary key), the other rows untouched |
| SubscriptionStore.HasSubscription | bot.py:109-110 | definition: `SELECT * FROM subscriptions WHERE user_id = ?` finds a row, which is the only test of "already subscribed" (also bot.py:121-122 and bot.py:180-181) |
| EmailCheck.IsSpace | bot.py:130 | definition: the characters Python's `str.isspace()` accepts, which are the ones `strip()` removes |
| EmailCheck.LeadingSpaces | bot.py:130 | the prefix that `strip()` removes is all whitespace, and the first remaining character, if any, is not whitespace |
| EmailCheck.TrailingSpaces | bot.py:130 | the suffix that `strip()` removes is all whitespace, and the last remaining character, if any, is not whitespace |
| EmailCheck.Strip | bot.py:130 | the stripped reply is empty exactly when the reply is all whitespace; otherwise it starts and ends with a non-whitespace character |
| EmailCheck.StripDecomposes | bot.py:130 | the reply is a whitespace prefix, then the stripped text, then a whitespace suffix |
| EmailCheck.StripKeepsVisible | bot.py:130 | a non-whitespace character occurs in the stripped reply if and only if it occurs in the reply |
| EmailCheck.StripIdempotent | bot.py:130 | stripping an already stripped reply changes nothing |
| EmailCheck.EmailAcceptedIff | bot.py:130-132 | the reply passes the email check if and only if it contains both `@` and `.` |
| EmailCheck.EmailAccepted | bot.py:130-132 | definition: the stripped reply contains both `@` and `.` |
| PaymentGateway.NewPaymentRequest | bot.py:136-147 | definition: the request `Payment.create` receives, with price 2999.00 RUB, immediate capture, a 5-minute expiry and a receipt to the given email |
| PaymentGateway.PollOutcomeOf | bot.py:160-176 | `Paid(k)` means query k is the first terminal status and it is `succeeded`; `Cancelled(k)` means the same for `canceled`; a time-out happens if and only if no status is terminal |
| PaymentGateway.PollOutcomeAtFirstTerminal | bot.py:160-175 | whichever of `succeeded` and `canceled` comes first decides the outcome, at that attempt |
| PaymentGateway.PollOutcomeIgnoresLater | bot.py:172-175 | once a terminal status has been seen, no later status changes the outcome (the loop returns) |
| PaymentGateway.PollWindowMatchesExpiry | bot.py:136-161 | 30 polls of 10 s cover exactly the 5-minute `expires_at` window |
| Funnel.BroadcastRecipients | bot.py:195-197 | definition: the users in `active_users` for whom the SELECT finds no subscription row |
| Funnel.SubscribingLeavesBroadcasts | bot.py:195-198 | after a user's subscription is recorded, that user is dropped from the broadcast recipients and nobody else's membership changes |
| Funnel.Bot.constructor | bot.py:42-56 | a fresh process keeps the existing table and starts with no known users and no user waiting for an email |
| Funnel.Bot.Start | bot.py:66-111 | the user joins `active_users` and gets the welcome and the offer; a reminder is scheduled if and only if the user has no subscription row |
| Funnel.Bot.RemindAfterDelay | bot.py:178-187 | when the reminder fires, it sends exactly one reminder if the user still has no subscription, and nothing otherwise |
| Funnel.Bot.Buy | bot.py:118-126 | a subscriber gets "already subscribed" and the FSM state is untouched; anyone else gets the email prompt and ends up in `waiting_for_email` |
| Funnel.Bot.EmailReply | bot.py:128-157 | only handled in `waiting_for_email`. A reply failing the check gets the re-prompt, keeps the state and makes no payment request. A passing reply makes one request for the stripped email and always leaves the state. When creation succeeds, the reply carries the confirmation URL and exactly one poll task starts. When it fails, the reply is the error and no poll starts |
| Funnel.Bot.CheckPaymentStatus | bot.py:159-176 | the outcome is the first-terminal-status outcome of the 30 statuses. Only `Paid` writes the subscription row, and the row stays when the invite fails. Exactly one message is sent: the invite, "contact the administrator", "canceled" or "expired" |
| Funnel.Bot.Broadcast | bot.py:189-214 | one firing sends the announcement to exactly the known users without a subscription row, once each, and to no one else |

## Left out

- Telegram I/O (`send_message`, `reply`, inline keyboards, `set_my_commands`, `create_chat_invite_link`): replaced by returned `Outbound` values and the `invite` parameter. The message texts are not modelled, only their kinds.
- YooKassa (`Payment.create`, `Payment.find_one`): replaced by the `gateway` and `statuses` parameters. The receipt payload, the UUID idempotency key and the `strftime` formatting of `expires_at` are not modelled. The request keeps only its price, currency, capture flag, validity window and receipt email.
- SQLite connection and cursor mechanics: the table is a map, and the model's writes never fail.
- Python's asyncio, `asyncio.sleep`, `create_task` and the APScheduler cron triggers and timezone: this is scheduling and wall-clock time. `Start` and `EmailReply` report the background task they would start, and the caller runs `RemindAfterDelay` or `CheckPaymentStatus` later. Each handler runs as one step; the interleavings between a handler's `await` points are not modelled.
- Environment configuration and logging.
- Only private chats are modelled. There the chat id equals the user id, so replies and the FSM state are keyed by user. In a group chat the source replies in the group and keys the FSM state by chat and user.
- `process_buy_callback` (the inline "buy" button): it passes the bot's own message, so the user id it checks is not the user's. Only the `/buy` command path is modelled.
- Non-text replies, where `message.text` is `None` and `strip()` raises: the model's reply is always a string.
- The FSM data written by `update_data`: it is never read again, and the model keeps only the FSM state.
- Funnel.Bot.EmailReply: assumes Telegram sends succeed. In the source, a failed payment-link reply after a successful `Payment.create` falls into the error branch, which sends the error and starts no poll.
- Funnel.Bot.CheckPaymentStatus: assumes every `Payment.find_one` query and every send succeeds, so `statuses` holds exactly 30 statuses. An exception from a query is uncaught and ends the task with no message. A failed database write or a failed success message falls into the error branch; after a failed success message, the bot then also sends the error message.
- Funnel.Bot.Broadcast: assumes every send succeeds. In the source, a failed send is uncaught and ends the broadcast, so the remaining users get nothing; the model claims no tolerance of partial failure. The iteration order of the Python set is the `order` parameter. The model also assumes `active_users` does not change during a firing: a `/start` handled while the broadcast waits on a send adds to the set, the next step of the iteration then raises RuntimeError, and the broadcast ends.
- At most one pending payment per user is not enforced by the source (two `/buy` flows may overlap), and the model does not add it.
