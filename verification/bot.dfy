/**
  The chat bot: the copy of the store that bot.py keeps for itself, and the
  decision logic of its command handlers. A handler is modelled by the
  branch it takes and the change it makes to the store, not by the text it
  sends back.
 */
module Bot {
  import opened Optional
  import opened Config
  import Trial
  import opened Ledger
  import PaymentHandler
  import Decimal

  /** The Telegram user a command comes from (`update.effective_user`). */
  datatype Sender = Sender(id: int, username: Option<string>, firstName: Option<string>, lastName: Option<string>)

  /**
    What bot.py's `create_user` produces: the row it re-reads after the
    INSERT, or the IntegrityError it lets escape on a duplicate Telegram id.
   */
  datatype Created = Returned(row: Option<User>) | Raised

  /**
    `create_user` in bot.py: the same row as database.py's, but a duplicate
    raises instead of returning None.
   */
  function BotCreateUser(db: Db, from: Sender, now: int): (r: Step<Created>)
    requires Wf(db)
    ensures Wf(r.db)
    ensures r.out.Raised? <==> GetUser(db, from.id).Some?
    ensures var c := CreateUser(db, from.id, from.username, from.firstName, from.lastName, now);
              r.db == c.db && (r.out.Returned? ==> r.out.row == c.out)
    ensures r.out.Returned? ==>
              r.out.row.Some? && r.out.row.value.tokens == TrialTokens
              && r.out.row.value.lastAccess == r.out.row.value.createdAt == now
  {
    if GetUser(db, from.id).Some? then Step(db, Raised)
    else
      var db' := CreateUser(db, from.id, from.username, from.firstName, from.lastName, now).db;
      Step(db', Returned(GetUser(db', from.id)))
  }

  /**
    `use_token` in bot.py: reads the balance, then issues an unguarded
    decrement. For one caller at a time it behaves exactly like the store's
    conditional decrement.
   */
  function BotUseToken(db: Db, userId: int): (r: Step<bool>)
    requires Wf(db)
    ensures r == UseToken(db, userId)
  {
    SelectFindsRow(db, ById(userId));
    assert HasId(db, userId) ==> Matches(db.users[userId - 1], ById(userId));
    UpdateWhereOneRow(db, userId, Debit);
    match Select(db.users, ById(userId))
    case None => Step(db, false)
    case Some(u) =>
      if u.tokens <= 0 then Step(db, false)
      else Step(db.(users := UpdateWhere(db.users, userId, Debit)), true)
  }

  /** `get_user_token_status` in bot.py; it agrees with database.py's. */
  function BotTokenStatus(db: Db, userId: int, now: int): (r: Option<Trial.Status>)
    requires Wf(db)
    ensures r == TokenStatus(db, userId, now)
  {
    match Select(db.users, ById(userId))
    case None => None
    case Some(u) => Some(Trial.BotStatusOf(u.tokens, u.createdAt, now))
  }

  /**
    The find-or-create step at the head of the start, search and profile
    handlers. None stands for the handler aborting with an exception.
   */
  function FindOrCreate(db: Db, from: Sender, now: int): (r: Step<Option<User>>)
    requires Wf(db)
    ensures Wf(r.db)
    ensures r.out.Some?
    ensures GetUser(r.db, from.id) == r.out
    ensures r.db.payments == db.payments
    ensures GetUser(db, from.id).Some? ==> r.db == db
    ensures GetUser(db, from.id).None? ==>
              && r.db.users == db.users + [r.out.value]
              && r.out.value.tokens == TrialTokens
              && r.out.value.createdAt == now && r.out.value.lastAccess == now
    ensures NonNegative(db) ==> NonNegative(r.db)
  {
    match GetUser(db, from.id)
    case Some(u) => Step(db, Some(u))
    case None =>
      var c := BotCreateUser(db, from, now);
      if c.out.Returned? then Step(c.db, c.out.row) else Step(c.db, None)
  }

  /** The number of accounts registered for one Telegram user. */
  function AccountsOf(db: Db, telegramId: int): nat
  {
    |set i | 0 <= i < |db.users| && db.users[i].telegramId == telegramId|
  }

  /**
    Find-or-create leaves exactly one account for the sender, and running it
    again returns the same account and adds nothing.
   */
  lemma FindOrCreateIdempotent(db: Db, from: Sender, now: int, later: int)
    requires Wf(db)
    ensures var first := FindOrCreate(db, from, now);
            var second := FindOrCreate(first.db, from, later);
              && second.db == first.db
              && second.out == first.out
              && AccountsOf(first.db, from.id) == 1
  {
    var first := FindOrCreate(db, from, now);
    RegisteredOnce(first.db, from.id);
  }

  /** A registered Telegram user has exactly one account: the schema keeps Telegram ids unique. */
  lemma RegisteredOnce(db: Db, telegramId: int)
    requires Wf(db)
    requires GetUser(db, telegramId).Some?
    ensures AccountsOf(db, telegramId) == 1
  {
    var i := GetUser(db, telegramId).value.id - 1;
    assert db.users[i].telegramId == telegramId;
    assert (set j | 0 <= j < |db.users| && db.users[j].telegramId == telegramId) == {i};
  }

  /** `start`: the balance the welcome message shows; None if the handler aborts. */
  function Start(db: Db, from: Sender, now: int): (r: Step<Option<int>>)
    requires Wf(db)
    ensures Wf(r.db)
    ensures r.db == FindOrCreate(db, from, now).db
    ensures GetUser(db, from.id).Some? ==> r.db == db && r.out == Some(GetUser(db, from.id).value.tokens)
    ensures GetUser(db, from.id).None? ==> r.out == Some(TrialTokens)
  {
    var found := FindOrCreate(db, from, now);
    match found.out
    case None => Step(found.db, None)
    case Some(u) => Step(found.db, Some(u.tokens))
  }

  /** The branches of `search_command`. */
  datatype SearchReply =
    | Expired
    | NoTokens
    | Results(remaining: int, daysRemaining: int)
    | TokenNotUsed
    | Crashed

  /**
    The part of `search_command` after find-or-create, for the account `u`
    the store holds: the trial check, the balance check, then the spend.
   */
  function SearchAccount(db: Db, u: User, now: int): (r: Step<SearchReply>)
    requires Wf(db)
    requires HasId(db, u.id) && db.users[u.id - 1] == u
    ensures Wf(r.db)
    ensures r.db.payments == db.payments
    ensures var status := Trial.StatusOf(u.tokens, u.createdAt, now);
              && (!status.isActive ==> r == Step(db, Expired))
              && (status.isActive && u.tokens <= 0 ==> r == Step(db, NoTokens))
              && (status.isActive && u.tokens > 0 ==>
                    && r.out == Results(u.tokens - 1, status.daysRemaining)
                    && r.db == db.(users := db.users[u.id - 1 := u.(tokens := u.tokens - 1, lastAccess := now)]))
    ensures NonNegative(db) ==> NonNegative(r.db)
  {
    match BotTokenStatus(db, u.id, now)
    case None => Step(db, Crashed)
    case Some(status) =>
      if !status.isActive then Step(db, Expired)
      else if !status.hasTokens then Step(db, NoTokens)
      else
        var used := BotUseToken(db, u.id);
        if used.out then
          Step(UpdateLastAccess(used.db, u.id, now), Results(status.tokens - 1, status.daysRemaining))
        else Step(used.db, TokenNotUsed)
  }

  /**
    `search_command`: find-or-create, then the checks and the spend of
    `SearchAccount`. It never takes the retry branch nor aborts.
   */
  function Search(db: Db, from: Sender, now: int): (r: Step<SearchReply>)
    requires Wf(db)
    ensures Wf(r.db)
    ensures r.db.payments == db.payments
    ensures r.out.Expired? || r.out.NoTokens? || r.out.Results?
    ensures NonNegative(db) ==> NonNegative(r.db)
  {
    var found := FindOrCreate(db, from, now);
    match found.out
    case None => Step(found.db, Crashed)
    case Some(u) =>
      assert HasId(found.db, u.id) && found.db.users[u.id - 1] == u;
      SearchAccount(found.db, u, now)
  }

  /**
    For a registered sender, a search is the account step on their row:
    expired first, then out of tokens, else one token spent and the count
    read before the spend, minus one, shown.
   */
  lemma SearchRegistered(db: Db, from: Sender, now: int)
    requires Wf(db)
    requires GetUser(db, from.id).Some?
    ensures var u := GetUser(db, from.id).value;
            var status := Trial.StatusOf(u.tokens, u.createdAt, now);
            var r := Search(db, from, now);
              && (!status.isActive ==> r == Step(db, Expired))
              && (status.isActive && u.tokens <= 0 ==> r == Step(db, NoTokens))
              && (status.isActive && u.tokens > 0 ==>
                    && r.out == Results(u.tokens - 1, status.daysRemaining)
                    && r.db == db.(users := db.users[u.id - 1 := u.(tokens := u.tokens - 1, lastAccess := now)]))
  {
    var u := GetUser(db, from.id).value;
    assert FindOrCreate(db, from, now) == Step(db, Some(u));
    assert Search(db, from, now) == SearchAccount(db, u, now);
  }

  /** A first-time sender is registered with the trial allotment and gets results at once. */
  lemma SearchFirstTime(db: Db, from: Sender, now: int)
    requires Wf(db)
    requires GetUser(db, from.id).None?
    ensures var r := Search(db, from, now);
              && r.out == Results(TrialTokens - 1, TrialDays)
              && r.db.users == db.users + [NewUser(db, from.id, from.username, from.firstName, from.lastName, now).(tokens := TrialTokens - 1)]
  {
    var found := FindOrCreate(db, from, now);
    var u := found.out.value;
    assert HasId(found.db, u.id) && found.db.users[u.id - 1] == u;
    assert u == NewUser(db, from.id, from.username, from.firstName, from.lastName, now);
    assert Trial.StatusOf(u.tokens, u.createdAt, now).daysRemaining == TrialDays;
    var r := SearchAccount(found.db, u, now);
    assert Search(db, from, now) == r;
    assert r.db.users == db.users + [u.(tokens := TrialTokens - 1)];
  }

  /** The trial check comes first: an expired account is refused even with no tokens left. */
  lemma ExpiryCheckedBeforeBalance(db: Db, from: Sender, now: int)
    requires Wf(db)
    requires GetUser(db, from.id).Some? && GetUser(db, from.id).value.tokens <= 0
    requires !Trial.StatusOf(0, GetUser(db, from.id).value.createdAt, now).isActive
    ensures Search(db, from, now) == Step(db, Expired)
  {
    SearchRegistered(db, from, now);
  }

  /** What `profile_command` shows. */
  datatype ProfileView =
    | ProfileView(firstName: Option<string>, isActive: bool, tokens: int, registeredAt: int, daysRemaining: int)
    | ProfileCrashed

  /**
    `profile_command`: read-only apart from find-or-create; shows the
    account's balance and its trial status.
   */
  function Profile(db: Db, from: Sender, now: int): (r: Step<ProfileView>)
    requires Wf(db)
    ensures Wf(r.db)
    ensures r.db == FindOrCreate(db, from, now).db
    ensures GetUser(db, from.id).Some? ==> r.db == db
    ensures r.out.ProfileView?
    ensures var u := GetUser(r.db, from.id).value;
            var status := Trial.StatusOf(u.tokens, u.createdAt, now);
              r.out == ProfileView(u.firstName, status.isActive, u.tokens, u.createdAt, status.daysRemaining)
  {
    var found := FindOrCreate(db, from, now);
    match found.out
    case None => Step(found.db, ProfileCrashed)
    case Some(u) =>
      match BotTokenStatus(found.db, u.id, now)
      case None => Step(found.db, ProfileCrashed)
      case Some(status) =>
        Step(found.db, ProfileView(u.firstName, status.isActive, u.tokens, u.createdAt, status.daysRemaining))
  }

  /** The replies of `buy_tokens`. */
  datatype BuyReply = UserNotFound | PaymentInfo(reference: string)

  /**
    `buy_tokens`: looks the sender up without creating an account and, for
    a known sender, hands out the payment reference. It reads the store and
    returns no new one.
   */
  function BuyTokens(db: Db, from: Sender, amount: int, price: int): (r: BuyReply)
    requires Wf(db)
    ensures r.UserNotFound? <==> GetUser(db, from.id).None?
    ensures r.PaymentInfo? && amount >= 0 && price >= 0 ==>
              PaymentHandler.ParseReference(r.reference) == Some((GetUser(db, from.id).value.id, amount, price))
  {
    match GetUser(db, from.id)
    case None => UserNotFound
    case Some(u) =>
      var reference := PaymentHandler.Reference(u.id, amount, price);
      if amount >= 0 && price >= 0 then PaymentHandler.ReferenceRoundTrip(u.id, amount, price); PaymentInfo(reference)
      else PaymentInfo(reference)
  }

  /** The four purchase commands. */
  datatype BuyCommand = Buy10 | Buy25 | Buy50 | Buy100

  /** The (tokens, price) pair each purchase command passes to `buy_tokens`. */
  function BundleOf(command: BuyCommand): (b: PaymentHandler.Bundle)
    ensures b.amount > 0 && b.price == TokenPrice * b.amount
    ensures b in PaymentHandler.PaymentOptions().Values
  {
    var options := PaymentHandler.PaymentOptions();
    match command
    case Buy10 => assert options["10_tokens"] == PaymentHandler.Bundle(10, 100); PaymentHandler.Bundle(10, 100)
    case Buy25 => assert options["25_tokens"] == PaymentHandler.Bundle(25, 250); PaymentHandler.Bundle(25, 250)
    case Buy50 => assert options["50_tokens"] == PaymentHandler.Bundle(50, 500); PaymentHandler.Bundle(50, 500)
    case Buy100 => assert options["100_tokens"] == PaymentHandler.Bundle(100, 1000); PaymentHandler.Bundle(100, 1000)
  }

  /** The commands sell exactly the bundles the payment handler lists, each by a different command. */
  lemma CommandsMatchOptions()
    ensures {BundleOf(Buy10), BundleOf(Buy25), BundleOf(Buy50), BundleOf(Buy100)} == PaymentHandler.PaymentOptions().Values
    ensures forall c1, c2 :: BundleOf(c1) == BundleOf(c2) ==> c1 == c2
  {
    var options := PaymentHandler.PaymentOptions();
    forall b | b in options.Values
      ensures b in {BundleOf(Buy10), BundleOf(Buy25), BundleOf(Buy50), BundleOf(Buy100)}
    {
      var k :| k in options && options[k] == b;
    }
  }

  /** `buy_10_command` ... `buy_100_command`. */
  function Buy(db: Db, from: Sender, command: BuyCommand): (r: BuyReply)
    requires Wf(db)
    ensures r.UserNotFound? <==> GetUser(db, from.id).None?
    ensures r.PaymentInfo? ==>
              PaymentHandler.ParseReference(r.reference)
              == Some((GetUser(db, from.id).value.id, BundleOf(command).amount, BundleOf(command).price))
  {
    BuyTokens(db, from, BundleOf(command).amount, BundleOf(command).price)
  }

  /** A known sender who sends `buy_25` is shown the reference `PAY-{id}-25-250`. */
  lemma Buy25Reference(db: Db, from: Sender)
    requires Wf(db)
    requires GetUser(db, from.id).Some?
    ensures Buy(db, from, Buy25).PaymentInfo?
    ensures Buy(db, from, Buy25).reference
            == "PAY-" + Decimal.ShowNat(GetUser(db, from.id).value.id) + "-25-250"
  {
    var u := GetUser(db, from.id).value;
    assert BundleOf(Buy25) == PaymentHandler.Bundle(25, 250);
    assert Buy(db, from, Buy25) == PaymentInfo(PaymentHandler.Reference(u.id, 25, 250));
    ShowSmall();
  }

  /** The two prices `buy_25` prints, spelled out. */
  lemma ShowSmall()
    ensures Decimal.ShowInt(25) == "25" && Decimal.ShowInt(250) == "250"
  {
    assert Decimal.ShowNat(2) == "2";
    assert Decimal.ShowNat(25) == "25";
    assert Decimal.ShowNat(250) == "250";
  }

  /** The store after the same sender searches once at each of the given times, in order. */
  function SearchesAt(db: Db, from: Sender, times: seq<int>): (r: Db)
    requires Wf(db)
    ensures Wf(r)
    decreases |times|
  {
    if |times| == 0 then db else SearchesAt(Search(db, from, times[0]).db, from, times[1..])
  }

  /**
    A row after searches at the given times that each spent a token: one
    token fewer per search, and stamped with the time of the last one.
   */
  function Searched(u: User, times: seq<int>): User
  {
    if |times| == 0 then u else u.(tokens := u.tokens - |times|, lastAccess := times[|times| - 1])
  }

  /** The store after such searches on row `k`. */
  function AfterSearches(db: Db, k: nat, times: seq<int>): Db
    requires k < |db.users|
  {
    db.(users := db.users[k := Searched(db.users[k], times)])
  }
}
