/**
 * `lib/subscription-service.ts`: subscriptions in Postgres. The `users`
 * and `subscriptions` tables are sequences of rows in a `SubscriptionDb`
 * object, with the serials their `id` columns draw from. Times are integers
 * (milliseconds); the clock and the one-year end date are parameters, and a
 * failing statement is named by `FailAt`.
 */
module SubscriptionService {
  import opened Options
  import opened Ordering

  datatype UserRow = UserRow(id: int, email: string, name: string)

  datatype SubscriptionRow = SubscriptionRow(id: int, userId: int, subscriptionType: string, isActive: bool,
                                             startDate: int, endDate: Option<int>, createdAt: int, updatedAt: int)

  /**
   * Where `createSubscription` throws: `pool.connect()`, one of the
   * statements inside the transaction, or nowhere. The user insert runs
   * only for a new email, so `AtInsertUser` fails only then.
   */
  datatype FailAt = Nowhere | AtConnect | AtBegin | AtSelectUser | AtInsertUser | AtInsertSubscription | AtCommit

  /** `{ userId, subscriptionId }`, or the rethrown error. */
  datatype Created = Created(userId: int, subscriptionId: int) | Threw

  /** `SELECT id FROM users WHERE email = $1`: the first such row. */
  function FindUser(users: seq<UserRow>, email: string): (r: Option<UserRow>)
    ensures r.None? <==> forall u :: u in users ==> u.email != email
    ensures r.Some? ==> r.value in users && r.value.email == email
  {
    if |users| == 0 then None
    else if users[0].email == email then Some(users[0])
    else
      var r := FindUser(users[1..], email);
      assert forall u :: u in users ==> u == users[0] || u in users[1..];
      r
  }

  predicate UniqueEmails(users: seq<UserRow>)
  {
    forall i, j :: 0 <= i < j < |users| ==> users[i].email != users[j].email
  }

  /** The users after the get-or-create step: one row more exactly when the email was new. */
  function WithUser(users: seq<UserRow>, email: string, name: string, serial: int): (r: seq<UserRow>)
    ensures FindUser(users, email).Some? ==> r == users
    ensures FindUser(users, email).None? ==> r == users + [UserRow(serial, email, name)]
  {
    if FindUser(users, email).Some? then users else users + [UserRow(serial, email, name)]
  }

  /** The user id the transaction subscribes: the existing row's, or the new one's. */
  function UserIdFor(users: seq<UserRow>, email: string, serial: int): int
  {
    match FindUser(users, email)
    case Some(u) => u.id
    case None => serial
  }

  /**
   * The get-or-create step keeps emails unique, and the chosen id belongs
   * to the row holding the email afterwards.
   */
  lemma {:induction false} GetOrCreateUser(users: seq<UserRow>, email: string, name: string, serial: int)
    requires UniqueEmails(users)
    ensures var after := WithUser(users, email, name, serial);
      && UniqueEmails(after)
      && FindUser(after, email).Some?
      && FindUser(after, email).value.id == UserIdFor(users, email, serial)
  {
    var after := WithUser(users, email, name, serial);
    if FindUser(users, email).None? {
      assert forall i :: 0 <= i < |users| ==> users[i] in users;
      FindAppended(users, UserRow(serial, email, name));
    }
  }

  lemma {:induction false} FindAppended(users: seq<UserRow>, u: UserRow)
    requires FindUser(users, u.email).None?
    ensures FindUser(users + [u], u.email) == Some(u)
  {
    if |users| > 0 {
      assert users[0] in users;
      assert (users + [u])[1..] == users[1..] + [u];
      assert forall v :: v in users[1..] ==> v in users;
      FindAppended(users[1..], u);
    }
  }

  /** A second subscription under the same email reuses the user the first one created. */
  lemma {:induction false} SecondSubscriptionReusesUser(users: seq<UserRow>, email: string, name1: string, name2: string,
                                     serial1: int, serial2: int)
    requires UniqueEmails(users)
    ensures var after := WithUser(users, email, name1, serial1);
      && WithUser(after, email, name2, serial2) == after
      && UserIdFor(after, email, serial2) == UserIdFor(users, email, serial1)
  {
    GetOrCreateUser(users, email, name1, serial1);
  }

  /** `is_active = true AND (end_date IS NULL OR end_date > NOW())` for the user. */
  function ActiveFor(userId: int, now: int): SubscriptionRow -> bool
  {
    (s: SubscriptionRow) => s.userId == userId && s.isActive && (s.endDate.None? || s.endDate.value > now)
  }

  function NewestCreatedFirst(s: SubscriptionRow): int { -s.createdAt }

  const DAY_MS := 86400000

  /**
   * `endDate.setFullYear(endDate.getFullYear() + 1)`: the same local date
   * and time a year on, which is 365 or 366 days later (February 29 rolls
   * over to March 1).
   */
  predicate OneYearOn(start: int, end: int)
  {
    end - start == 365 * DAY_MS || end - start == 366 * DAY_MS
  }

  /** An active subscription with an end date counts at exactly the times before that date. */
  lemma {:induction false} ActiveUntilEndDate(row: SubscriptionRow, t: int)
    requires row.isActive && row.endDate.Some?
    ensures ActiveFor(row.userId, t)(row) <==> t < row.endDate.value
  {
  }

  /** A row that is active for its user makes the user's query answer something. */
  lemma {:induction false} ActiveAfterInsert(subs: seq<SubscriptionRow>, row: SubscriptionRow, now: int)
    requires ActiveFor(row.userId, now)(row)
    ensures var r := ActiveSubscription(subs + [row], row.userId, now);
      r.Some? && r.value.createdAt >= row.createdAt
  {
    assert row in subs + [row];
  }

  /** `getActiveSubscription`'s query: `ORDER BY created_at DESC LIMIT 1`. */
  function ActiveSubscription(subs: seq<SubscriptionRow>, userId: int, now: int): (r: Option<SubscriptionRow>)
    ensures r.None? <==> forall s :: s in subs ==> !ActiveFor(userId, now)(s)
    ensures r.Some? ==> r.value in subs && ActiveFor(userId, now)(r.value)
    ensures r.Some? ==> forall s :: s in subs && ActiveFor(userId, now)(s) ==> s.createdAt <= r.value.createdAt
  {
    var p := ActiveFor(userId, now);
    var mine := SortBy(Filter(subs, p), NewestCreatedFirst);
    if |mine| == 0 then
      forall s | s in subs && p(s) ensures false {
        SelectedComplete(subs, p, NewestCreatedFirst, s);
      }
      None
    else
      SelectedMember(subs, p, NewestCreatedFirst, 0);
      forall s | s in subs && p(s) ensures s.createdAt <= mine[0].createdAt {
        SelectedComplete(subs, p, NewestCreatedFirst, s);
        var k :| 0 <= k < |mine| && mine[k] == s;
        assert NewestCreatedFirst(mine[0]) <= NewestCreatedFirst(mine[k]);
      }
      Some(mine[0])
  }

  /** `UPDATE subscriptions SET is_active = false, updated_at = NOW() WHERE id = $1`. */
  function Cancelled(subs: seq<SubscriptionRow>, id: int, now: int): (r: seq<SubscriptionRow>)
    ensures |r| == |subs|
    ensures forall i :: 0 <= i < |subs| ==> r[i] == if subs[i].id == id then subs[i].(isActive := false, updatedAt := now) else subs[i]
  {
    seq(|subs|, i requires 0 <= i < |subs| => if subs[i].id == id then subs[i].(isActive := false, updatedAt := now) else subs[i])
  }

  /**
   * A cancelled subscription is never the active one afterwards, and
   * cancelling a subscription that was not active for the user leaves
   * the user's answer unchanged.
   */
  lemma {:induction false} CancelledNotActive(subs: seq<SubscriptionRow>, id: int, userId: int, now: int, later: int)
    ensures var r := ActiveSubscription(Cancelled(subs, id, later), userId, now);
      r.Some? ==> r.value.id != id
    ensures (forall s :: s in subs && s.id == id ==> !ActiveFor(userId, now)(s)) ==>
      ActiveSubscription(Cancelled(subs, id, later), userId, now) == ActiveSubscription(subs, userId, now)
  {
    var c := Cancelled(subs, id, later);
    var r := ActiveSubscription(c, userId, now);
    if r.Some? {
      var k :| 0 <= k < |c| && c[k] == r.value;
    }
    if forall s :: s in subs && s.id == id ==> !ActiveFor(userId, now)(s) {
      FilterCancelled(subs, id, later, userId, now);
    }
  }

  lemma {:induction false} FilterCancelled(subs: seq<SubscriptionRow>, id: int, later: int, userId: int, now: int)
    requires forall s :: s in subs && s.id == id ==> !ActiveFor(userId, now)(s)
    ensures Filter(Cancelled(subs, id, later), ActiveFor(userId, now)) == Filter(subs, ActiveFor(userId, now))
  {
    if |subs| > 0 {
      assert subs[0] in subs;
      assert forall s :: s in subs[1..] ==> s in subs;
      FilterCancelled(subs[1..], id, later, userId, now);
      assert Cancelled(subs, id, later)[1..] == Cancelled(subs[1..], id, later);
    }
  }

  /** Some row of `users` has that id. */
  ghost predicate HasUser(users: seq<UserRow>, id: int)
  {
    exists u :: u in users && u.id == id
  }

  /** Emails are unique, ids were drawn from the serials, and every subscription's user exists. */
  ghost predicate Consistent(users: seq<UserRow>, subs: seq<SubscriptionRow>, userSerial: int, subscriptionSerial: int)
  {
    UniqueEmails(users)
    && (forall u :: u in users ==> u.id < userSerial)
    && (forall s :: s in subs ==> s.id < subscriptionSerial)
    && (forall s :: s in subs ==> HasUser(users, s.userId))
  }

  /** Consuming serials (a rolled-back insert still advances its sequence) keeps the tables consistent. */
  lemma SerialsAdvanced(users: seq<UserRow>, subs: seq<SubscriptionRow>, userSerial: int, subscriptionSerial: int,
                        userSerial': int, subscriptionSerial': int)
    requires Consistent(users, subs, userSerial, subscriptionSerial)
    requires userSerial <= userSerial' && subscriptionSerial <= subscriptionSerial'
    ensures Consistent(users, subs, userSerial', subscriptionSerial')
  {
  }

  /** A committed `createSubscription` keeps the tables consistent. */
  lemma {:induction false} CommitConsistent(users: seq<UserRow>, subs: seq<SubscriptionRow>, userSerial: int, subscriptionSerial: int,
                         email: string, name: string, row: SubscriptionRow,
                         users': seq<UserRow>, subs': seq<SubscriptionRow>, userSerial': int)
    requires Consistent(users, subs, userSerial, subscriptionSerial)
    requires row.id == subscriptionSerial && row.userId == UserIdFor(users, email, userSerial)
    requires users' == WithUser(users, email, name, userSerial) && subs' == subs + [row]
    requires userSerial' == if FindUser(users, email).None? then userSerial + 1 else userSerial
    ensures Consistent(users', subs', userSerial', subscriptionSerial + 1)
  {
    GetOrCreateUser(users, email, name, userSerial);
    assert forall u :: u in users ==> u in users';
    assert FindUser(users', email).value in users';
  }

  class SubscriptionDb {
    var users: seq<UserRow>
    var subscriptions: seq<SubscriptionRow>
    /** The next `users.id`. */
    var userSerial: int
    /** The next `subscriptions.id`. */
    var subscriptionSerial: int

    ghost predicate Valid()
      reads this
    {
      Consistent(users, subscriptions, userSerial, subscriptionSerial)
    }

    constructor ()
      ensures Valid() && users == [] && subscriptions == []
    {
      users := [];
      subscriptions := [];
      userSerial := 1;
      subscriptionSerial := 1;
    }

    /**
     * `createSubscription`: in one transaction, find the user by email or
     * insert one, then insert an active subscription running from `now` to
     * `endDate`, the clock's reading a year on. Any failure rolls both
     * tables back and rethrows; the serial values drawn by inserts that ran
     * stay drawn.
     */
    method CreateSubscription(email: string, name: string, subscriptionType: string, now: int, endDate: int, fail: FailAt)
      returns (r: Created)
      requires Valid()
      requires OneYearOn(now, endDate)
      modifies this
      ensures Valid()
      ensures r.Created? <==> fail == Nowhere || (fail == AtInsertUser && FindUser(old(users), email).Some?)
      ensures r.Created? ==>
        && r.userId == UserIdFor(old(users), email, old(userSerial))
        && r.subscriptionId == old(subscriptionSerial)
        && users == WithUser(old(users), email, name, old(userSerial))
        && subscriptions == old(subscriptions) + [SubscriptionRow(r.subscriptionId, r.userId, subscriptionType, true, now, Some(endDate), now, now)]
      ensures r.Created? ==> ActiveFor(r.userId, now)(subscriptions[|subscriptions| - 1])
      ensures r.Threw? ==> users == old(users) && subscriptions == old(subscriptions)
    {
      r := Threw;
      if fail == AtConnect || fail == AtBegin || fail == AtSelectUser {
        return;
      }
      // Inside BEGIN .. COMMIT the statements work on the transaction's view.
      var userId, txUsers, thrown := SelectOrInsertUser(email, name, fail);
      if thrown || fail == AtInsertSubscription {
        return;
      }
      var subscriptionId := subscriptionSerial;
      subscriptionSerial := subscriptionSerial + 1;
      var row := SubscriptionRow(subscriptionId, userId, subscriptionType, true, now, Some(endDate), now, now);
      var txSubscriptions := subscriptions + [row];
      if fail == AtCommit {
        SerialsAdvanced(users, subscriptions, old(userSerial), old(subscriptionSerial), userSerial, subscriptionSerial);
        return;
      }
      CommitConsistent(users, subscriptions, old(userSerial), old(subscriptionSerial), email, name, row,
                       txUsers, txSubscriptions, userSerial);
      assert ActiveFor(userId, now)(row) by {
        assert endDate > now;
      }
      users := txUsers;
      subscriptions := txSubscriptions;
      r := Created(userId, subscriptionId);
    }

    /**
     * The get-or-create step inside the transaction: the existing user's id, or a
     * new row under the next serial; the serial is consumed even if the transaction
     * later aborts, and the committed tables are not touched.
     */
    method SelectOrInsertUser(email: string, name: string, fail: FailAt)
      returns (userId: int, txUsers: seq<UserRow>, thrown: bool)
      requires Valid()
      modifies this
      ensures Valid()
      ensures users == old(users) && subscriptions == old(subscriptions)
      ensures subscriptionSerial == old(subscriptionSerial)
      ensures thrown <==> FindUser(users, email).None? && fail == AtInsertUser
      ensures userSerial == if !thrown && FindUser(users, email).None? then old(userSerial) + 1 else old(userSerial)
      ensures !thrown ==> userId == UserIdFor(users, email, old(userSerial))
      ensures !thrown ==> txUsers == WithUser(users, email, name, old(userSerial))
    {
      txUsers := users;
      var existing := FindUser(txUsers, email);
      if existing.None? {
        if fail == AtInsertUser {
          return 0, txUsers, true;
        }
        userId := userSerial;
        userSerial := userSerial + 1;
        txUsers := txUsers + [UserRow(userId, email, name)];
      } else {
        userId := existing.value.id;
      }
      thrown := false;
    }

    /** `getActiveSubscription`: the newest active subscription of the user, rethrowing a failed query. */
    method GetActiveSubscription(userId: int, now: int, fail: bool) returns (r: Option<Option<SubscriptionRow>>)
      ensures fail <==> r.None?
      ensures r.Some? ==> r.value == ActiveSubscription(subscriptions, userId, now)
    {
      if fail {
        return None;
      }
      return Some(ActiveSubscription(subscriptions, userId, now));
    }

    /** `cancelSubscription`: deactivates the subscription with that id; a failed update changes nothing. */
    method CancelSubscription(subscriptionId: int, now: int, fail: bool) returns (ok: bool)
      requires Valid()
      modifies this
      ensures Valid()
      ensures ok == !fail
      ensures subscriptions == if ok then Cancelled(old(subscriptions), subscriptionId, now) else old(subscriptions)
      ensures users == old(users)
    {
      if fail {
        return false;
      }
      ghost var before := subscriptions;
      subscriptions := Cancelled(subscriptions, subscriptionId, now);
      forall s | s in subscriptions ensures s.id < subscriptionSerial && HasUser(users, s.userId) {
        var k :| 0 <= k < |subscriptions| && subscriptions[k] == s;
        assert before[k] in before;
      }
      return true;
    }
  }
}
