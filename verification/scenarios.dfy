/**
  Multi-command runs of the bot: a sender issuing the same command several
  times, one command after another.
 */
module Scenarios {
  import opened Optional
  import opened Config
  import Trial
  import opened Ledger
  import opened Bot

  /** Every time lies within the trial of an account created at `createdAt`. */
  predicate WithinTrial(createdAt: int, times: seq<int>) {
    forall i :: 0 <= i < |times| ==> times[i] - createdAt < TrialDays * SecondsPerDay
  }

  /** Every time lies at or after the end of that trial. */
  predicate AfterTrial(createdAt: int, times: seq<int>) {
    forall i :: 0 <= i < |times| ==> times[i] - createdAt >= TrialDays * SecondsPerDay
  }

  /** One search by a registered, active sender with tokens: the row loses one token and is stamped. */
  lemma SearchOnce(db: Db, from: Sender, now: int, k: nat)
    requires Wf(db)
    requires k < |db.users| && db.users[k].telegramId == from.id
    requires now - db.users[k].createdAt < TrialDays * SecondsPerDay
    requires db.users[k].tokens > 0
    ensures Search(db, from, now).db == AfterSearches(db, k, [now])
  {
    var u := db.users[k];
    assert GetUser(db, from.id) == Some(u);
    SearchRegistered(db, from, now);
  }

  /** Writing one position twice keeps the second value. */
  lemma OverwriteTwice<T>(s: seq<T>, k: nat, a: T, b: T)
    requires k < |s|
    ensures s[k := a][k := b] == s[k := b]
  {
  }

  /** The first of the searches by such a sender, peeled off. */
  lemma SearchesAtStep(db: Db, from: Sender, times: seq<int>, k: nat)
    requires Wf(db) && |times| > 0
    requires k < |db.users| && db.users[k].telegramId == from.id
    requires times[0] - db.users[k].createdAt < TrialDays * SecondsPerDay
    requires db.users[k].tokens > 0
    ensures Wf(AfterSearches(db, k, [times[0]]))
    ensures SearchesAt(db, from, times) == SearchesAt(AfterSearches(db, k, [times[0]]), from, times[1..])
  {
    SearchOnce(db, from, times[0], k);
  }

  /** One search followed by the rest is all of them. */
  lemma AfterSearchesCompose(db: Db, k: nat, times: seq<int>)
    requires k < |db.users| && |times| > 0
    ensures AfterSearches(AfterSearches(db, k, [times[0]]), k, times[1..]) == AfterSearches(db, k, times)
  {
    var u := db.users[k];
    var first := Searched(u, [times[0]]);
    assert AfterSearches(db, k, [times[0]]).users[k] == first;
    assert Searched(first, times[1..]) == Searched(u, times);
    OverwriteTwice(db.users, k, first, Searched(u, times));
  }

  /** The remaining times of a run inside the trial are inside it too. */
  lemma WithinTrialTail(createdAt: int, times: seq<int>)
    requires |times| > 0 && WithinTrial(createdAt, times)
    ensures WithinTrial(createdAt, times[1..])
  {
    forall i | 0 <= i < |times[1..]|
      ensures times[1..][i] - createdAt < TrialDays * SecondsPerDay
    {
      assert times[1..][i] == times[i + 1];
    }
  }

  /**
    While the trial lasts and the balance covers them, searches at the given
    times spend one token each from the sender's row, leave it stamped with
    the time of the last search, and change nothing else.
   */
  lemma {:induction false} SearchesSpendOneEach(db: Db, from: Sender, times: seq<int>, k: nat)
    requires Wf(db)
    requires k < |db.users| && db.users[k].telegramId == from.id
    requires WithinTrial(db.users[k].createdAt, times)
    requires db.users[k].tokens >= |times|
    ensures SearchesAt(db, from, times) == AfterSearches(db, k, times)
    decreases |times|, 1
  {
    if |times| == 0 {
      assert db.users[k := db.users[k]] == db.users;
    } else {
      SearchesSpendStep(db, from, times, k);
    }
  }

  /** The inductive step: the first search, then the remaining ones. */
  lemma SearchesSpendStep(db: Db, from: Sender, times: seq<int>, k: nat)
    requires Wf(db) && |times| > 0
    requires k < |db.users| && db.users[k].telegramId == from.id
    requires WithinTrial(db.users[k].createdAt, times)
    requires db.users[k].tokens >= |times|
    ensures SearchesAt(db, from, times) == AfterSearches(db, k, times)
    decreases |times|, 0
  {
    var next := AfterSearches(db, k, [times[0]]);
    SearchesAtStep(db, from, times, k);
    WithinTrialTail(db.users[k].createdAt, times);
    assert next.users[k].createdAt == db.users[k].createdAt;
    SearchesSpendOneEach(next, from, times[1..], k);
    AfterSearchesCompose(db, k, times);
  }

  /** Searching at some times and then at others is searching at all of them in turn. */
  lemma {:induction false} SearchesAtAppend(db: Db, from: Sender, a: seq<int>, b: seq<int>)
    requires Wf(db)
    ensures SearchesAt(db, from, a + b) == SearchesAt(SearchesAt(db, from, a), from, b)
    decreases |a|
  {
    if |a| > 0 {
      assert (a + b)[0] == a[0];
      assert (a + b)[1..] == a[1..] + b;
      SearchesAtAppend(Search(db, from, a[0]).db, from, a[1..], b);
    } else {
      assert a + b == b;
    }
  }

  /** Once the sender's trial is over, further searches change nothing: not the balance, not the access time. */
  lemma {:induction false} SearchesAfterExpiry(db: Db, from: Sender, times: seq<int>)
    requires Wf(db)
    requires GetUser(db, from.id).Some?
    requires AfterTrial(GetUser(db, from.id).value.createdAt, times)
    ensures SearchesAt(db, from, times) == db
    decreases |times|
  {
    if |times| > 0 {
      var u := GetUser(db, from.id).value;
      assert !Trial.StatusOf(u.tokens, u.createdAt, times[0]).isActive;
      SearchRegistered(db, from, times[0]);
      assert AfterTrial(u.createdAt, times[1..]) by {
        forall i | 0 <= i < |times[1..]|
          ensures times[1..][i] - u.createdAt >= TrialDays * SecondsPerDay
        {
          assert times[1..][i] == times[i + 1];
        }
      }
      SearchesAfterExpiry(db, from, times[1..]);
    }
  }

  /**
    A new sender who sends `start` and then searches at the given times, all
    within the trial and at most the trial allotment of them, ends with one
    token fewer per search and the access time of the last search (five left
    after five searches); no other row changes.
   */
  lemma StartThenSearches(db: Db, from: Sender, now: int, times: seq<int>)
    requires Wf(db)
    requires GetUser(db, from.id).None?
    requires |times| <= TrialTokens
    requires WithinTrial(now, times)
    ensures var after := SearchesAt(Start(db, from, now).db, from, times);
              && GetUser(after, from.id).Some?
              && GetUser(after, from.id).value.tokens == TrialTokens - |times|
              && GetUser(after, from.id).value.lastAccess == (if |times| == 0 then now else times[|times| - 1])
              && after.users == db.users + [Searched(NewUser(db, from.id, from.username, from.firstName, from.lastName, now), times)]
  {
    StartAppendsNewUser(db, from, now);
    NewSenderSearches(db, from, now, times);
  }

  /** The store `start` leaves for a new sender: the new account appended. */
  function Registered(db: Db, from: Sender, now: int): Db
  {
    db.(users := db.users + [NewUser(db, from.id, from.username, from.firstName, from.lastName, now)])
  }

  /** The searches of `StartThenSearches`, run on the store `start` leaves. */
  lemma NewSenderSearches(db: Db, from: Sender, now: int, times: seq<int>)
    requires Wf(db)
    requires GetUser(db, from.id).None?
    requires |times| <= TrialTokens
    requires WithinTrial(now, times)
    ensures Wf(Registered(db, from, now))
    ensures var after := SearchesAt(Registered(db, from, now), from, times);
              && GetUser(after, from.id).Some?
              && GetUser(after, from.id).value.tokens == TrialTokens - |times|
              && GetUser(after, from.id).value.lastAccess == (if |times| == 0 then now else times[|times| - 1])
              && after.users == db.users + [Searched(NewUser(db, from.id, from.username, from.firstName, from.lastName, now), times)]
  {
    var u := NewUser(db, from.id, from.username, from.firstName, from.lastName, now);
    var started := Registered(db, from, now);
    assert CreateUser(db, from.id, from.username, from.firstName, from.lastName, now).db == started;
    var k := |db.users|;
    assert started.users[k] == u;
    SearchRun(started, from, times, k);
    SearchedFields(u, times);
    ReplaceLast(db.users, u, Searched(u, times));
  }

  /** Replacing the last element of `s + [x]` gives `s + [y]`. */
  lemma ReplaceLast<T>(s: seq<T>, x: T, y: T)
    ensures (s + [x])[|s| := y] == s + [y]
  {
  }

  /** A run inside the trial, seen through `get_user`: the sender's row as `Searched` describes it. */
  lemma SearchRun(db: Db, from: Sender, times: seq<int>, k: nat)
    requires Wf(db)
    requires k < |db.users| && db.users[k].telegramId == from.id
    requires WithinTrial(db.users[k].createdAt, times)
    requires db.users[k].tokens >= |times|
    ensures var after := SearchesAt(db, from, times);
              && after.users == db.users[k := Searched(db.users[k], times)]
              && GetUser(after, from.id) == Some(Searched(db.users[k], times))
  {
    SearchesSpendOneEach(db, from, times, k);
    var after := AfterSearches(db, k, times);
    assert after.users[k] == Searched(db.users[k], times);
  }

  /** The balance and access time of a row after a run. */
  lemma SearchedFields(u: User, times: seq<int>)
    ensures Searched(u, times).tokens == u.tokens - |times|
    ensures Searched(u, times).lastAccess == (if |times| == 0 then u.lastAccess else times[|times| - 1])
    ensures Searched(u, times).telegramId == u.telegramId && Searched(u, times).createdAt == u.createdAt
  {
  }

  /** `start` from a new sender appends exactly the new account and nothing else. */
  lemma StartAppendsNewUser(db: Db, from: Sender, now: int)
    requires Wf(db)
    requires GetUser(db, from.id).None?
    ensures Start(db, from, now).db == Registered(db, from, now)
  {
  }

  /**
    The trial lapses part-way through a run: searches inside the trial each
    spend a token and stamp the row, and the searches after it ends change
    nothing, so the row keeps the balance and the access time of the last
    search inside the trial.
   */
  lemma TrialLapsesMidRun(db: Db, from: Sender, inside: seq<int>, outside: seq<int>, k: nat)
    requires Wf(db)
    requires k < |db.users| && db.users[k].telegramId == from.id
    requires WithinTrial(db.users[k].createdAt, inside)
    requires AfterTrial(db.users[k].createdAt, outside)
    requires db.users[k].tokens >= |inside|
    ensures SearchesAt(db, from, inside + outside) == AfterSearches(db, k, inside)
  {
    SearchesAtAppend(db, from, inside, outside);
    SearchesSpendOneEach(db, from, inside, k);
    var mid := AfterSearches(db, k, inside);
    assert mid.users[k].telegramId == from.id && mid.users[k].createdAt == db.users[k].createdAt;
    assert GetUser(mid, from.id) == Some(mid.users[k]);
    SearchesAfterExpiry(mid, from, outside);
  }
}
