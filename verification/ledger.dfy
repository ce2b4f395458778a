/**
  The account store and payments log kept by database.py: a users table and
  a payments table, both append-only, in rowid order.
 */
module Ledger {
  import opened Optional
  import opened Config
  import Trial

  /** One row of the users table. Timestamps are whole seconds. */
  datatype User = User(
    id: int,
    telegramId: int,
    username: Option<string>,
    firstName: Option<string>,
    lastName: Option<string>,
    tokens: int,
    createdAt: int,
    lastAccess: int)

  /** One row of the payments table. */
  datatype PaymentRecord = PaymentRecord(id: int, userId: int, amount: int, tokens: int, paidAt: int)

  /** Both tables, rows in insertion (rowid) order. */
  datatype Db = Db(users: seq<User>, payments: seq<PaymentRecord>)

  /** A transition: the store after an operation, and what the operation returned. */
  datatype Step<T> = Step(db: Db, out: T)

  /** The store of a fresh installation: both tables empty. */
  const Empty: Db := Db([], [])

  /**
    The schema's constraints. Both ids are INTEGER PRIMARY KEY AUTOINCREMENT
    and rows are never deleted, so the i-th row has id i + 1; `telegram_id`
    is UNIQUE.
   */
  ghost predicate Wf(db: Db) {
    && (forall i :: 0 <= i < |db.users| ==> db.users[i].id == i + 1)
    && (forall i, j :: 0 <= i < j < |db.users| ==> db.users[i].telegramId != db.users[j].telegramId)
    && (forall i :: 0 <= i < |db.payments| ==> db.payments[i].id == i + 1)
  }

  /** No balance is negative. */
  ghost predicate NonNegative(db: Db) {
    forall i :: 0 <= i < |db.users| ==> db.users[i].tokens >= 0
  }

  /** Some user row has this id (under `Wf`, the row at index userId - 1). */
  predicate HasId(db: Db, userId: int) {
    1 <= userId <= |db.users|
  }

  /** A fresh store meets the schema and has no negative balance. */
  lemma EmptyIsWf()
    ensures Wf(Empty) && NonNegative(Empty)
  {
  }

  /** The two WHERE clauses the store uses to find a user. */
  datatype Key = ById(id: int) | ByTelegramId(telegramId: int)

  /** Whether a row satisfies the WHERE clause. */
  predicate Matches(u: User, key: Key) {
    match key
    case ById(id) => u.id == id
    case ByTelegramId(t) => u.telegramId == t
  }

  /** Index of the first row at or after `i` that matches `key`. */
  function FirstFrom(rows: seq<User>, key: Key, i: nat): (r: Option<nat>)
    requires i <= |rows|
    ensures r.Some? ==> i <= r.value < |rows| && Matches(rows[r.value], key)
    ensures r.Some? ==> forall j :: i <= j < r.value ==> !Matches(rows[j], key)
    ensures r.None? <==> forall j :: i <= j < |rows| ==> !Matches(rows[j], key)
    decreases |rows| - i
  {
    if i == |rows| then None
    else if Matches(rows[i], key) then Some(i)
    else FirstFrom(rows, key, i + 1)
  }

  /** `SELECT ... WHERE key` followed by `fetchone()`. */
  function Select(rows: seq<User>, key: Key): Option<User>
  {
    match FirstFrom(rows, key, 0)
    case Some(i) => Some(rows[i])
    case None => None
  }

  /** Under the schema's constraints a key matches at most one row, so SELECT finds exactly it. */
  lemma SelectFindsRow(db: Db, key: Key)
    requires Wf(db)
    ensures Select(db.users, key).None? <==> forall i :: 0 <= i < |db.users| ==> !Matches(db.users[i], key)
    ensures forall i :: 0 <= i < |db.users| && Matches(db.users[i], key) ==> Select(db.users, key) == Some(db.users[i])
  {
    forall i | 0 <= i < |db.users| && Matches(db.users[i], key)
      ensures Select(db.users, key) == Some(db.users[i])
    {
      var j := FirstFrom(db.users, key, 0).value;
      assert j <= i;
    }
  }

  /** `get_user(telegram_id)`: the row registered for that Telegram user, if any. */
  function GetUser(db: Db, telegramId: int): (r: Option<User>)
    requires Wf(db)
    ensures r.None? <==> forall i :: 0 <= i < |db.users| ==> db.users[i].telegramId != telegramId
    ensures r.Some? ==> r.value.telegramId == telegramId && HasId(db, r.value.id) && db.users[r.value.id - 1] == r.value
    ensures forall i :: 0 <= i < |db.users| && db.users[i].telegramId == telegramId ==> r == Some(db.users[i])
  {
    SelectFindsRow(db, ByTelegramId(telegramId));
    Select(db.users, ByTelegramId(telegramId))
  }

  /** The row `create_user` inserts: the next id, ten tokens, both timestamps set to now. */
  function NewUser(db: Db, telegramId: int, username: Option<string>, firstName: Option<string>,
                   lastName: Option<string>, now: int): User
  {
    User(|db.users| + 1, telegramId, username, firstName, lastName, 10, now, now)
  }

  /**
    `create_user`: inserts a fresh account with the trial allotment, or
    returns None and changes nothing when the Telegram user already has one.
   */
  function CreateUser(db: Db, telegramId: int, username: Option<string>, firstName: Option<string>,
                      lastName: Option<string>, now: int): (r: Step<Option<User>>)
    requires Wf(db)
    ensures Wf(r.db)
    ensures r.out.Some? <==> GetUser(db, telegramId).None?
    ensures r.out.None? ==> r.db == db
    ensures r.out.Some? ==>
              && r.db == db.(users := db.users + [r.out.value])
              && r.out.value.telegramId == telegramId
              && r.out.value.tokens == TrialTokens
              && r.out.value.createdAt == now && r.out.value.lastAccess == now
              && r.out.value.username == username && r.out.value.firstName == firstName
              && r.out.value.lastName == lastName
              && (forall u :: u in db.users ==> u.id != r.out.value.id)
              && GetUser(r.db, telegramId) == r.out
    ensures NonNegative(db) ==> NonNegative(r.db)
  {
    if GetUser(db, telegramId).Some? then Step(db, None)
    else
      var u := NewUser(db, telegramId, username, firstName, lastName, now);
      var db' := db.(users := db.users + [u]);
      assert db'.users[|db.users|] == u;
      Step(db', Some(u))
  }

  /** The column assignments of the UPDATE statements the store issues. */
  datatype Change = Debit | DebitIfPositive | Credit(amount: int) | Touch(at: int)

  /** The WHERE clause: `id = ?`, plus `tokens > 0` for the guarded debit. */
  predicate Selected(u: User, userId: int, change: Change) {
    u.id == userId && (change.DebitIfPositive? ==> u.tokens > 0)
  }

  /** The SET clause. */
  function Apply(u: User, change: Change): User {
    match change
    case Debit => u.(tokens := u.tokens - 1)
    case DebitIfPositive => u.(tokens := u.tokens - 1)
    case Credit(amount) => u.(tokens := u.tokens + amount)
    case Touch(at) => u.(lastAccess := at)
  }

  /** `UPDATE users SET ... WHERE ...`: every selected row changes, the others stay. */
  function UpdateWhere(rows: seq<User>, userId: int, change: Change): seq<User>
  {
    seq(|rows|, i requires 0 <= i < |rows| => if Selected(rows[i], userId, change) then Apply(rows[i], change) else rows[i])
  }

  /** `cursor.rowcount > 0` after that UPDATE. */
  predicate AnySelected(rows: seq<User>, userId: int, change: Change) {
    exists i | 0 <= i < |rows| :: Selected(rows[i], userId, change)
  }

  /** Under the schema's constraints an UPDATE by id touches at most the one row with that id. */
  lemma UpdateWhereOneRow(db: Db, userId: int, change: Change)
    requires Wf(db)
    ensures AnySelected(db.users, userId, change) <==> HasId(db, userId) && Selected(db.users[userId - 1], userId, change)
    ensures AnySelected(db.users, userId, change) ==>
              UpdateWhere(db.users, userId, change) == db.users[userId - 1 := Apply(db.users[userId - 1], change)]
    ensures !AnySelected(db.users, userId, change) ==> UpdateWhere(db.users, userId, change) == db.users
  {
    var rows := UpdateWhere(db.users, userId, change);
    if AnySelected(db.users, userId, change) {
      var i :| 0 <= i < |db.users| && Selected(db.users[i], userId, change);
      assert i == userId - 1;
      assert rows == db.users[userId - 1 := Apply(db.users[userId - 1], change)];
    } else {
      assert rows == db.users;
    }
  }

  /** An UPDATE that keeps ids and Telegram ids keeps the schema's constraints. */
  lemma UpdateKeepsWf(db: Db, i: int, u: User)
    requires Wf(db)
    requires 0 <= i < |db.users|
    requires u.id == db.users[i].id && u.telegramId == db.users[i].telegramId
    ensures Wf(db.(users := db.users[i := u]))
  {
  }

  /**
    `use_token`: takes one token only when the balance is positive, in one
    conditional UPDATE, and reports whether a row was affected.
   */
  function UseToken(db: Db, userId: int): (r: Step<bool>)
    requires Wf(db)
    ensures Wf(r.db)
    ensures r.out <==> HasId(db, userId) && db.users[userId - 1].tokens > 0
    ensures r.out ==> r.db == db.(users := db.users[userId - 1 := db.users[userId - 1].(tokens := db.users[userId - 1].tokens - 1)])
    ensures !r.out ==> r.db == db
    ensures NonNegative(db) ==> NonNegative(r.db)
  {
    UpdateWhereOneRow(db, userId, DebitIfPositive);
    var rows := UpdateWhere(db.users, userId, DebitIfPositive);
    var affected := AnySelected(db.users, userId, DebitIfPositive);
    if affected then UpdateKeepsWf(db, userId - 1, rows[userId - 1]); Step(db.(users := rows), true)
    else Step(db.(users := rows), false)
  }

  /** `add_tokens`: an unconditional increment of one balance; a no-op for an unknown id. */
  function AddTokens(db: Db, userId: int, amount: int): (r: Db)
    requires Wf(db)
    ensures Wf(r)
    ensures HasId(db, userId) ==> r == db.(users := db.users[userId - 1 := db.users[userId - 1].(tokens := db.users[userId - 1].tokens + amount)])
    ensures !HasId(db, userId) ==> r == db
    ensures NonNegative(db) && amount >= 0 ==> NonNegative(r)
  {
    UpdateWhereOneRow(db, userId, Credit(amount));
    var rows := UpdateWhere(db.users, userId, Credit(amount));
    if HasId(db, userId) then UpdateKeepsWf(db, userId - 1, rows[userId - 1]); db.(users := rows)
    else db.(users := rows)
  }

  /** `update_last_access`: stamps one row's access time; nothing else changes. */
  function UpdateLastAccess(db: Db, userId: int, now: int): (r: Db)
    requires Wf(db)
    ensures Wf(r)
    ensures HasId(db, userId) ==> r == db.(users := db.users[userId - 1 := db.users[userId - 1].(lastAccess := now)])
    ensures !HasId(db, userId) ==> r == db
    ensures NonNegative(db) ==> NonNegative(r)
  {
    UpdateWhereOneRow(db, userId, Touch(now));
    var rows := UpdateWhere(db.users, userId, Touch(now));
    if HasId(db, userId) then UpdateKeepsWf(db, userId - 1, rows[userId - 1]); db.(users := rows)
    else db.(users := rows)
  }

  /** `get_user_token_status`: the trial status of the row with that id, or None. */
  function TokenStatus(db: Db, userId: int, now: int): (r: Option<Trial.Status>)
    requires Wf(db)
    ensures r.None? <==> !HasId(db, userId)
    ensures r.Some? ==> r.value.tokens == db.users[userId - 1].tokens
    ensures r.Some? ==> r.value == Trial.StatusOf(db.users[userId - 1].tokens, db.users[userId - 1].createdAt, now)
  {
    SelectFindsRow(db, ById(userId));
    assert HasId(db, userId) ==> Matches(db.users[userId - 1], ById(userId));
    match Select(db.users, ById(userId))
    case None => None
    case Some(u) => Some(Trial.StatusOf(u.tokens, u.createdAt, now))
  }

  /** `add_payment`: appends one row to the payments log and returns its fresh id. */
  function AddPayment(db: Db, userId: int, amount: int, tokens: int, now: int): (r: Step<int>)
    requires Wf(db)
    ensures Wf(r.db)
    ensures r.db.users == db.users
    ensures r.db.payments == db.payments + [PaymentRecord(r.out, userId, amount, tokens, now)]
    ensures forall p :: p in db.payments ==> p.id != r.out
    ensures NonNegative(db) ==> NonNegative(r.db)
  {
    var id := |db.payments| + 1;
    Step(db.(payments := db.payments + [PaymentRecord(id, userId, amount, tokens, now)]), id)
  }

  /** One call into the store. */
  datatype Op =
    | CreateOp(telegramId: int, username: Option<string>, firstName: Option<string>, lastName: Option<string>, at: int)
    | UseTokenOp(userId: int)
    | AddTokensOp(userId: int, amount: int)
    | TouchOp(userId: int, at: int)
    | PaymentOp(userId: int, amount: int, tokens: int, at: int)

  /** The store after one call. */
  function Exec(db: Db, op: Op): (r: Db)
    requires Wf(db)
    ensures Wf(r)
  {
    match op
    case CreateOp(t, u, f, l, at) => CreateUser(db, t, u, f, l, at).db
    case UseTokenOp(id) => UseToken(db, id).db
    case AddTokensOp(id, k) => AddTokens(db, id, k)
    case TouchOp(id, at) => UpdateLastAccess(db, id, at)
    case PaymentOp(id, amount, k, at) => AddPayment(db, id, amount, k, at).db
  }

  /** A sequential caller's calls, one after another. */
  function Run(db: Db, ops: seq<Op>): (r: Db)
    requires Wf(db)
    ensures Wf(r)
    decreases |ops|
  {
    if |ops| == 0 then db else Run(Exec(db, ops[0]), ops[1..])
  }

  /** Top-ups that never subtract. */
  predicate CreditsOnly(ops: seq<Op>) {
    forall i :: 0 <= i < |ops| && ops[i].AddTokensOp? ==> ops[i].amount >= 0
  }

  /**
    No sequence of store calls makes a balance negative, provided top-ups add
    a non-negative number of tokens.
   */
  lemma {:induction false} RunKeepsBalancesNonNegative(db: Db, ops: seq<Op>)
    requires Wf(db) && NonNegative(db)
    requires CreditsOnly(ops)
    ensures NonNegative(Run(db, ops))
    decreases |ops|
  {
    if |ops| > 0 {
      var next := Exec(db, ops[0]);
      assert NonNegative(next);
      assert CreditsOnly(ops[1..]) by {
        forall i | 0 <= i < |ops[1..]| && ops[1..][i].AddTokensOp?
          ensures ops[1..][i].amount >= 0
        {
          assert ops[1..][i] == ops[i + 1];
        }
      }
      RunKeepsBalancesNonNegative(next, ops[1..]);
    }
  }
}
