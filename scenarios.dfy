/**
  Client code that drives a `Funnel.Bot` through the user journeys the bot is
  built for, using nothing but the handlers' contracts.
*/
module Scenarios {
  import opened Wrappers
  import opened SubscriptionStore
  import opened EmailCheck
  import opened PaymentGateway
  import opened Funnel

  /**
    /start, /buy, a malformed reply (re-prompt, still waiting), then a good
    one (payment link, one poll task, no longer waiting).
  */
  method RetryAfterMalformedEmail(bad: string, good: string)
    // The replies come in as parameters: written as literals in the body, they
    // make the verifier unfold `Strip` on them without bound.
    requires bad == "not-an-email" && good == " a@b.com "
  {
    var bot := new Bot(map[]);
    var sent, reminder := bot.Start(7);
    assert reminder;
    sent := bot.Buy(7);
    assert sent == [Outbound(7, EmailPrompt)] && 7 in bot.waitingForEmail;

    var created := CreatedPayment("pay-1", "https://pay.example/1");
    EmailAcceptedIff(bad);
    assert '@' !in bad;
    var request, poll;
    sent, request, poll := bot.EmailReply(7, bad, Some(created));
    assert sent == [Outbound(7, InvalidEmail)] && request == None && poll == None;
    assert 7 in bot.waitingForEmail;

    EmailAcceptedIff(good);
    assert good[2] == '@' && good[4] == '.';
    sent, request, poll := bot.EmailReply(7, good, Some(created));
    assert sent == [Outbound(7, PaymentLink("https://pay.example/1"))];
    assert request.Some? && poll.Some? && 7 !in bot.waitingForEmail;
  }

  /** The gateway reports success on the third query: one row, one success message, no more reminders. */
  method SuccessOnThirdAttempt() {
    var bot := new Bot(map[]);
    var statuses := [Pending, Pending, Succeeded] + seq(PollAttempts - 3, _ => Pending);
    assert statuses[2] == Succeeded && NoTerminalBefore(statuses, 2);
    PollOutcomeAtFirstTerminal(statuses, 2);
    var sent, outcome := bot.CheckPaymentStatus(PollTask(7, "pay-1", "a@b.com"), statuses, Some("https://t.me/+invite"));
    assert outcome == Paid(2);
    assert bot.subs == map[7 := SubRecord("a@b.com", None)];
    assert sent == [Outbound(7, PaymentSucceeded("a@b.com", "https://t.me/+invite"))];

    var nudge := bot.RemindAfterDelay(7);
    assert nudge == [];
    var again := bot.Buy(7);
    assert again == [Outbound(7, AlreadySubscribed)];
  }

  /** No terminal status within the budget: one expiry message, no row, and the reminder still fires. */
  method NeverSettles() {
    var bot := new Bot(map[]);
    var statuses := seq(PollAttempts, _ => Pending);
    var sent, outcome := bot.CheckPaymentStatus(PollTask(7, "pay-1", "a@b.com"), statuses, None);
    assert outcome == TimedOut;
    assert sent == [Outbound(7, PaymentExpired)] && bot.subs == map[];

    var nudge := bot.RemindAfterDelay(7);
    assert |nudge| == 1 && nudge[0] in nudge;
    assert nudge == [Outbound(7, Reminder)];
  }

  /** A broadcast skips the subscriber and reaches the other known user once. */
  method BroadcastSkipsSubscriber() {
    var bot := new Bot(map[1 := SubRecord("x@y.ru", None)]);
    var sent, reminder := bot.Start(1);
    assert !reminder;
    sent, reminder := bot.Start(2);
    assert bot.activeUsers == {1, 2};
    var fired := bot.Broadcast(LastChance, [2, 1]);
    assert BroadcastRecipients(bot.activeUsers, bot.subs) == {2};
    assert Outbound(2, Announcement(LastChance)) in fired;
    assert Outbound(1, Announcement(LastChance)) !in fired;
  }
}
