/**
  The payment handler: the reference string shown to a buyer, the manual
  confirmation that credits tokens and logs the payment, and the fixed
  bundle table.
 */
module PaymentHandler {
  import opened Optional
  import opened Config
  import Decimal
  import Ledger

  /** A purchasable bundle: how many tokens, for what price in roubles. */
  datatype Bundle = Bundle(amount: int, price: int)

  /**
    The payment reference `PAY-{user_id}-{amount}-{price}` that
    `generate_payment_info` puts into its message; the rest of the message
    is fixed text and the admin contact.
   */
  function Reference(userId: int, amount: int, price: int): string
  {
    "PAY-" + Decimal.ShowInt(userId) + "-" + Decimal.ShowInt(amount) + "-" + Decimal.ShowInt(price)
  }

  /**
    How an administrator reads a reference back: drop `PAY-`, split the rest
    on `-`, expect three non-empty runs of digits.
   */
  function ParseReference(s: string): Option<(nat, nat, nat)>
  {
    if |s| < 4 || s[..4] != "PAY-" then None
    else
      var parts := Decimal.Split(s[4..], '-');
      if |parts| == 3 && DigitRun(parts[0]) && DigitRun(parts[1]) && DigitRun(parts[2]) then
        Some((Decimal.ParseDigits(parts[0]), Decimal.ParseDigits(parts[1]), Decimal.ParseDigits(parts[2])))
      else None
  }

  /** A non-empty run of decimal digits. */
  predicate DigitRun(s: string)
  {
    |s| > 0 && Decimal.AllDigits(s)
  }

  /** Three separator-free fields joined by `-` split back into the same three fields. */
  lemma SplitThree(u: string, a: string, p: string)
    requires '-' !in u && '-' !in a && '-' !in p
    ensures Decimal.Split(u + ['-'] + a + ['-'] + p, '-') == [u, a, p]
  {
    Decimal.SplitField(a, p, '-');
    Decimal.SplitField(p, "", '-');
    assert u + ['-'] + a + ['-'] + p == u + ['-'] + (a + ['-'] + p);
    Decimal.SplitField(u, a + ['-'] + p, '-');
  }

  /** A rendered number contains no separator. */
  lemma DigitsHaveNoDash(n: nat)
    ensures '-' !in Decimal.ShowNat(n)
  {
  }

  /** Behind `PAY-`, a body that splits into three digit runs is read as the three numbers they spell. */
  lemma ParseFields(body: string, u: string, a: string, p: string)
    requires Decimal.Split(body, '-') == [u, a, p]
    requires DigitRun(u) && DigitRun(a) && DigitRun(p)
    ensures ParseReference("PAY-" + body)
            == Some((Decimal.ParseDigits(u), Decimal.ParseDigits(a), Decimal.ParseDigits(p)))
  {
    var s := "PAY-" + body;
    assert s[..4] == "PAY-";
    assert s[4..] == body;
  }

  /** For non-negative numbers the reference names its triple: reading it back recovers the triple. */
  lemma ReferenceRoundTrip(userId: nat, amount: nat, price: nat)
    ensures ParseReference(Reference(userId, amount, price)) == Some((userId, amount, price))
  {
    var u, a, p := Decimal.ShowNat(userId), Decimal.ShowNat(amount), Decimal.ShowNat(price);
    var body := u + ['-'] + a + ['-'] + p;
    assert Reference(userId, amount, price) == "PAY-" + body;
    DigitsHaveNoDash(userId);
    DigitsHaveNoDash(amount);
    DigitsHaveNoDash(price);
    SplitThree(u, a, p);
    ParseFields(body, u, a, p);
    Decimal.ParseShow(userId);
    Decimal.ParseShow(amount);
    Decimal.ParseShow(price);
  }

  /** Two purchases with different (user, amount, price) get different references. */
  lemma ReferenceInjective(u1: nat, a1: nat, p1: nat, u2: nat, a2: nat, p2: nat)
    requires Reference(u1, a1, p1) == Reference(u2, a2, p2)
    ensures u1 == u2 && a1 == a2 && p1 == p2
  {
    ReferenceRoundTrip(u1, a1, p1);
    ReferenceRoundTrip(u2, a2, p2);
  }

  /**
    `process_payment_confirmation`: credits the tokens, then logs a payment
    of ten roubles per token, and reports success. There is no check that
    the user exists: an unknown id changes no balance but is still logged.
   */
  function ProcessPaymentConfirmation(db: Ledger.Db, userId: int, amount: int, now: int): (r: Ledger.Step<bool>)
    requires Ledger.Wf(db)
    ensures r.out
    ensures Ledger.Wf(r.db)
    ensures Ledger.HasId(db, userId) ==>
              r.db.users == db.users[userId - 1 := db.users[userId - 1].(tokens := db.users[userId - 1].tokens + amount)]
    ensures !Ledger.HasId(db, userId) ==> r.db.users == db.users
    ensures |r.db.payments| == |db.payments| + 1
    ensures r.db.payments[..|db.payments|] == db.payments
    ensures var p := r.db.payments[|db.payments|];
              && p.userId == userId && p.tokens == amount && p.amount == TokenPrice * amount && p.paidAt == now
              && (forall q :: q in db.payments ==> q.id != p.id)
    ensures Ledger.NonNegative(db) && amount >= 0 ==> Ledger.NonNegative(r.db)
  {
    var credited := Ledger.AddTokens(db, userId, amount);
    var recorded := Ledger.AddPayment(credited, userId, amount * 10, amount, now);
    assert recorded.db.payments[..|db.payments|] == db.payments;
    Ledger.Step(recorded.db, true)
  }

  /** `get_payment_options`: the four bundles on sale, keyed by name. */
  function PaymentOptions(): (r: map<string, Bundle>)
    ensures |r| == 4
    ensures forall k :: k in r ==> r[k].amount > 0 && r[k].price == TokenPrice * r[k].amount
  {
    map[
      "10_tokens" := Bundle(10, 100),
      "25_tokens" := Bundle(25, 250),
      "50_tokens" := Bundle(50, 500),
      "100_tokens" := Bundle(100, 1000)
    ]
  }

  /** Each bundle is keyed by its token count followed by `_tokens`. */
  lemma OptionsKeyedByAmount()
    ensures forall k :: k in PaymentOptions() ==> k == Decimal.ShowNat(PaymentOptions()[k].amount) + "_tokens"
  {
    ShowAmounts();
  }

  /** The four bundle sizes, spelled out. */
  lemma ShowAmounts()
    ensures Decimal.ShowNat(10) == "10" && Decimal.ShowNat(25) == "25"
    ensures Decimal.ShowNat(50) == "50" && Decimal.ShowNat(100) == "100"
  {
    assert Decimal.ShowNat(2) == "2";
    assert Decimal.ShowNat(5) == "5";
  }
}
