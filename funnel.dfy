/**
  The bot's subscription funnel: the module-level state of the bot (the
  `subscriptions` table, the `active_users` set and each user's FSM state)
  as fields of one object, and each handler as a method on it. What the bot
  would send through Telegram is returned as a sequence of outbound messages;
  what the gateway or Telegram would answer comes in as a parameter.
*/
module Funnel {
  import opened Wrappers
  import opened SubscriptionStore
  import opened EmailCheck
  import opened PaymentGateway

  /** The three calendar broadcasts. */
  datatype BroadcastKind = Spring | LastChance | WeStarted

  /** The kinds of message the bot sends; the template texts are not modelled. */
  datatype MsgKind =
    | Welcome                        // introduction after /start
    | MarathonOffer                  // the offer with its "buy" button
    | AlreadySubscribed
    | EmailPrompt
    | InvalidEmail
    | PaymentLink(confirmationUrl: string)
    | PaymentCreateError
    | PaymentSucceeded(email: string, inviteLink: string)
    | InviteLinkError                // "contact the administrator"
    | PaymentCanceled
    | PaymentExpired
    | Reminder
    | Announcement(kind: BroadcastKind)

  /** A message to one private chat, whose id is the user's id. */
  datatype Outbound = Outbound(chat: int, msg: MsgKind)

  /** The arguments of one `check_payment_status` background task. */
  datatype PollTask = PollTask(userId: int, paymentId: string, email: string)

  /** The users a broadcast is meant for: known users without a subscription row. */
  function BroadcastRecipients(activeUsers: set<int>, subs: Store): set<int> {
    set u | u in activeUsers && !HasSubscription(subs, u)
  }

  /** Once a user's payment is recorded, no broadcast reaches them; everyone else's status is unchanged. */
  lemma SubscribingLeavesBroadcasts(activeUsers: set<int>, subs: Store, userId: int, email: string)
    ensures BroadcastRecipients(activeUsers, Upsert(subs, userId, email))
            == BroadcastRecipients(activeUsers, subs) - {userId}
  {
  }

  class Bot {
    /** The `subscriptions` table. */
    var subs: Store
    /** `active_users`: everyone who has sent /start since the process began. */
    var activeUsers: set<int>
    /** Users whose FSM state is `waiting_for_email`. */
    var waitingForEmail: set<int>

    /** A fresh process over whatever the table already holds. */
    constructor (existing: Store)
      ensures subs == existing && activeUsers == {} && waitingForEmail == {}
    {
      subs := existing;
      activeUsers := {};
      waitingForEmail := {};
    }

    /**
      /start: the user becomes known, gets the welcome and the offer, and a
      delayed reminder is scheduled when the user has no subscription yet
      (on every /start, not only the first).
    */
    method Start(userId: int) returns (sent: seq<Outbound>, reminderScheduled: bool)
      modifies this`activeUsers
      ensures activeUsers == old(activeUsers) + {userId}
      ensures sent == [Outbound(userId, Welcome), Outbound(userId, MarathonOffer)]
      ensures reminderScheduled <==> !HasSubscription(subs, userId)
    {
      activeUsers := activeUsers + {userId};
      sent := [Outbound(userId, Welcome), Outbound(userId, MarathonOffer)];
      reminderScheduled := !HasSubscription(subs, userId);
    }

    /** The delayed reminder, when it wakes up: one nudge, only if the user is still unsubscribed. */
    method RemindAfterDelay(userId: int) returns (sent: seq<Outbound>)
      ensures |sent| <= 1
      ensures sent != [] <==> !HasSubscription(subs, userId)
      ensures forall m :: m in sent ==> m == Outbound(userId, Reminder)
    {
      if HasSubscription(subs, userId) {
        sent := [];
      } else {
        sent := [Outbound(userId, Reminder)];
      }
    }

    /**
      /buy: a subscriber is told so and nothing changes; anyone else is asked
      for an email and moves to `waiting_for_email` (again, if already there).
    */
    method Buy(userId: int) returns (sent: seq<Outbound>)
      modifies this`waitingForEmail
      ensures HasSubscription(subs, userId) ==>
                sent == [Outbound(userId, AlreadySubscribed)] && waitingForEmail == old(waitingForEmail)
      ensures !HasSubscription(subs, userId) ==>
                sent == [Outbound(userId, EmailPrompt)] && waitingForEmail == old(waitingForEmail) + {userId}
    {
      if HasSubscription(subs, userId) {
        sent := [Outbound(userId, AlreadySubscribed)];
        return;
      }
      sent := [Outbound(userId, EmailPrompt)];
      waitingForEmail := waitingForEmail + {userId};
    }

    /**
      A text message, handled by `process_email` only while the user is in
      `waiting_for_email`. A reply failing the email check is rejected and the
      state stays; a reply passing it issues one payment request and always
      leaves the state. `gateway` is what `Payment.create` returned (None when
      it raised); on success exactly one poll task is started.
    */
    method EmailReply(userId: int, text: string, gateway: Option<CreatedPayment>)
      returns (sent: seq<Outbound>, request: Option<PaymentRequest>, poll: Option<PollTask>)
      modifies this`waitingForEmail
      ensures userId !in old(waitingForEmail) ==>
                sent == [] && request == None && poll == None && waitingForEmail == old(waitingForEmail)
      ensures userId in old(waitingForEmail) && !EmailAccepted(text) ==>
                && sent == [Outbound(userId, InvalidEmail)]
                && request == None && poll == None
                && waitingForEmail == old(waitingForEmail)
      ensures userId in old(waitingForEmail) && EmailAccepted(text) ==>
                && request == Some(NewPaymentRequest(Strip(text)))
                && waitingForEmail == old(waitingForEmail) - {userId}
                && (gateway.Some? ==>
                      && sent == [Outbound(userId, PaymentLink(gateway.value.confirmationUrl))]
                      && poll == Some(PollTask(userId, gateway.value.id, Strip(text))))
                && (gateway.None? ==> sent == [Outbound(userId, PaymentCreateError)] && poll == None)
    {
      sent, request, poll := [], None, None;
      if userId !in waitingForEmail {
        return;
      }
      var email := Strip(text);
      if !('@' in email && '.' in email) {
        sent := [Outbound(userId, InvalidEmail)];
        return;
      }
      request := Some(NewPaymentRequest(email));
      match gateway {
        case Some(payment) =>
          sent := [Outbound(userId, PaymentLink(payment.confirmationUrl))];
          poll := Some(PollTask(userId, payment.id, email));
        case None =>
          sent := [Outbound(userId, PaymentCreateError)];
      }
      waitingForEmail := waitingForEmail - {userId};
    }

    /**
      The background poll task. `statuses[i]` is what the (i+1)-th
      `Payment.find_one` reports and `invite` what the invite-link request
      returned (None when it failed). The first terminal status ends the loop;
      only `Succeeded` writes the subscription row, which stays even when the
      invite then fails. Exactly one message is sent on every path.
    */
    method CheckPaymentStatus(task: PollTask, statuses: seq<PaymentStatus>, invite: Option<string>)
      returns (sent: seq<Outbound>, outcome: PollOutcome)
      requires |statuses| == PollAttempts
      modifies this`subs
      ensures outcome == PollOutcomeOf(statuses)
      ensures subs == if outcome.Paid? then Upsert(old(subs), task.userId, task.email) else old(subs)
      ensures outcome.Paid? && invite.Some? ==>
                sent == [Outbound(task.userId, PaymentSucceeded(task.email, invite.value))]
      ensures outcome.Paid? && invite.None? ==> sent == [Outbound(task.userId, InviteLinkError)]
      ensures outcome.Cancelled? ==> sent == [Outbound(task.userId, PaymentCanceled)]
      ensures outcome.TimedOut? ==> sent == [Outbound(task.userId, PaymentExpired)]
    {
      var i := 0;
      while i < PollAttempts
        invariant 0 <= i <= PollAttempts
        invariant NoTerminalBefore(statuses, i)
        invariant subs == old(subs)
      {
        var status := statuses[i];
        if status == Succeeded {
          subs := Upsert(subs, task.userId, task.email);
          match invite {
            case Some(link) => sent := [Outbound(task.userId, PaymentSucceeded(task.email, link))];
            case None => sent := [Outbound(task.userId, InviteLinkError)];
          }
          PollOutcomeAtFirstTerminal(statuses, i);
          outcome := Paid(i);
          return;
        } else if status == Canceled {
          sent := [Outbound(task.userId, PaymentCanceled)];
          PollOutcomeAtFirstTerminal(statuses, i);
          outcome := Cancelled(i);
          return;
        }
        i := i + 1;
      }
      sent := [Outbound(task.userId, PaymentExpired)];
      outcome := TimedOut;
    }

    /**
      One firing of a calendar broadcast: every known user without a
      subscription row gets the announcement, exactly once, and nobody else.
      `order` is the order in which iterating `active_users` visits its
      members: each of them exactly once.
    */
    method Broadcast(kind: BroadcastKind, order: seq<int>) returns (sent: seq<Outbound>)
      requires forall u :: u in order <==> u in activeUsers
      requires forall i, j :: 0 <= i < j < |order| ==> order[i] != order[j]
      ensures forall m :: m in sent ==> m.msg == Announcement(kind)
      ensures forall u :: u in BroadcastRecipients(activeUsers, subs) <==> Outbound(u, Announcement(kind)) in sent
      ensures forall i, j :: 0 <= i < j < |sent| ==> sent[i].chat != sent[j].chat
    {
      sent := [];
      for k := 0 to |order|
        invariant forall m :: m in sent ==> m.msg == Announcement(kind)
        invariant forall u :: Outbound(u, Announcement(kind)) in sent
                             <==> u in order[..k] && !HasSubscription(subs, u)
        invariant forall i, j :: 0 <= i < j < |sent| ==> sent[i].chat != sent[j].chat
      {
        var u := order[k];
        if !HasSubscription(subs, u) {
          sent := sent + [Outbound(u, Announcement(kind))];
        }
        assert order[..k + 1] == order[..k] + [u];
      }
      assert order[..|order|] == order;
    }
  }
}
