/**
  The `subscriptions` table of the bot: `user_id` is its primary key, and the
  only write the bot ever performs is `INSERT OR REPLACE ... (user_id, email)`.
  A map from user id to row gives "at most one row per user" by construction.
*/
module SubscriptionStore {
  import opened Wrappers

  /** One row; `paymentMethodId` is the nullable `payment_method_id` column. */
  datatype SubRecord = SubRecord(email: string, paymentMethodId: Option<string>)

  type Store = map<int, SubRecord>

  /** `SELECT * FROM subscriptions WHERE user_id = ?` returns a row. */
  predicate HasSubscription(store: Store, userId: int) {
    userId in store
  }

  /**
    `INSERT OR REPLACE INTO subscriptions (user_id, email) VALUES (?, ?)`: the
    whole row is replaced, so a column the statement does not name
    (`payment_method_id`) comes back NULL even if the old row had a value.
  */
  function Upsert(store: Store, userId: int, email: string): (r: Store)
    ensures r.Keys == store.Keys + {userId}
    ensures r[userId].email == email && r[userId].paymentMethodId == None
    ensures forall v :: v in store && v != userId ==> r[v] == store[v]
  {
    store[userId := SubRecord(email, None)]
  }

  /** A run of upserts for one user, in order. */
  function UpsertEach(store: Store, userId: int, emails: seq<string>): Store
    decreases |emails|
  {
    if emails == [] then store
    else UpsertEach(Upsert(store, userId, emails[0]), userId, emails[1..])
  }

  /** After any non-empty run of upserts for one user, only the last one is visible. */
  lemma {:induction false} LastUpsertWins(store: Store, userId: int, emails: seq<string>)
    requires emails != []
    ensures UpsertEach(store, userId, emails) == Upsert(store, userId, emails[|emails| - 1])
    decreases |emails|
  {
    if |emails| > 1 {
      var s1 := Upsert(store, userId, emails[0]);
      LastUpsertWins(s1, userId, emails[1..]);
      assert emails[1..][|emails[1..]| - 1] == emails[|emails| - 1];
      assert Upsert(s1, userId, emails[|emails| - 1]) == Upsert(store, userId, emails[|emails| - 1]);
    }
  }

  /**
    Repeating the same upsert any number of times leaves one row for the user,
    equal to the row a single upsert writes, and every other row untouched.
  */
  lemma {:induction false} RepeatedUpsertIdempotent(store: Store, userId: int, email: string, n: nat)
    ensures UpsertEach(store, userId, seq(n + 1, _ => email)) == Upsert(store, userId, email)
    ensures UpsertEach(store, userId, seq(n + 1, _ => email)).Keys == store.Keys + {userId}
  {
    var emails := seq(n + 1, _ => email);
    LastUpsertWins(store, userId, emails);
  }
}
