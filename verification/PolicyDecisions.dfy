/** When a payment is blocked, sent to review or cleared, in terms of the request and the rules
    (services/policy-service/src/evaluate.mjs:5-63 and 95-128, packages/shared/policy-math.mjs). */
module PolicyDecisions {
  import opened Basics
  import opened Policy

  /** A dollar token counts 92 cents to the euro, everything else one to one. */
  lemma WorthInEuro(amount: real, asset: string)
    ensures ValueToEur(amount, asset) == if asset in {"USDC", "N-USDC", "USDG"} then 0.92 * amount else amount
  {
  }

  /** Two approvals are asked for from the second threshold on, one from the first. */
  predicate TooFewApprovals(amountEur: real, required: nat, rules: Rules) {
    (amountEur >= rules.secondApprovalThreshold && required < 2) || (amountEur >= rules.approvalThreshold && required < 1)
  }

  /** What a payment is blocked for. */
  predicate MustBlock(r: Request, rules: Rules)
    requires Complete(r)
  {
    var p, amountEur := r.payment.value, ValueToEur(r.payment.value.amount, r.payment.value.asset);
    || p.asset !in rules.allowedAssets || r.asset != Some(AssetEnabled)
    || r.provider.value.id !in rules.allowedProviders
    || r.wallet.value.balance < p.amount + p.fee
    || (rules.requireScreening && r.counterparty == Some(CounterpartyBlocked))
    || amountEur > rules.hardTransferLimit
    || TooFewApprovals(amountEur, p.requiredApprovals, rules)
  }

  /** What a payment that is not blocked is reviewed for. */
  predicate NeedsReview(r: Request, rules: Rules)
    requires Complete(r)
  {
    || r.provider.value.status == Degraded
    || (rules.requireScreening && r.counterparty == Some(CounterpartyReview))
    || (r.wallets.Some? && RaisesConcentration(ConcentrationAfterPayment(r.wallets.value, r.payment.value), rules.concentrationLimit))
  }

  predicate RaisesConcentration(c: Concentration, limit: real) {
    c.projected > limit && c.projected > c.current
  }

  lemma ChecksBlock(r: Request, rules: Rules)
    requires Complete(r)
    ensures Blocked in Checks(r, rules) <==> MustBlock(r, rules)
    ensures Blocked !in Checks(r, rules) ==> (Review in Checks(r, rules) <==> NeedsReview(r, rules))
  {
    var checks := Checks(r, rules);
    assert forall v :: v in checks <==>
      v == checks[0] || v == checks[1] || v == checks[2] || v == checks[3] || v == checks[4] || v == checks[5] || v == checks[6];
  }

  /** Every decision, exactly when it is made. */
  lemma DecisionExactlyWhen(r: Request, rules: Rules)
    ensures Evaluate(r, rules) == None <==>
      r.payment == None || r.wallet == None || r.asset == None || r.counterparty == None || r.provider == None
    ensures Complete(r) ==>
      && (Evaluate(r, rules) == Some(Blocked) <==> MustBlock(r, rules))
      && (Evaluate(r, rules) == Some(Review) <==> !MustBlock(r, rules) && NeedsReview(r, rules))
      && (Evaluate(r, rules) == Some(Clear) <==> !MustBlock(r, rules) && !NeedsReview(r, rules))
  {
    if Complete(r) {
      ChecksBlock(r, rules);
    }
  }

  // ---------------------------------------------------------------- what concentration is

  predicate Held(wallets: seq<Holding>, asset: string) {
    exists i :: 0 <= i < |wallets| && wallets[i].asset == asset
  }

  /** The worth of all wallets together. */
  function TotalWorth(wallets: seq<Holding>): real {
    if wallets == [] then 0.0
    else TotalWorth(wallets[..|wallets| - 1]) + ValueToEur(wallets[|wallets| - 1].balance, wallets[|wallets| - 1].asset)
  }

  /** The worth of an asset's wallets once an amount of one asset has gone out. */
  function WorthAfter(wallets: seq<Holding>, asset: string, paid: string, outgoing: real): real {
    if asset == paid then AtLeastZero(WorthOf(wallets, asset) - outgoing) else WorthOf(wallets, asset)
  }

  lemma {:induction false} LargestShareIsLargest(m: Holdings, total: real)
    requires total != 0.0
    ensures
      var x := LargestShare(m, total);
      && x >= 0.0 && (forall i :: 0 <= i < |m| ==> m[i].1 / total <= x)
      && (x == 0.0 || exists i :: 0 <= i < |m| && m[i].1 / total == x)
  {
    if m != [] {
      var front, last := m[..|m| - 1], m[|m| - 1];
      LargestShareIsLargest(front, total);
      assert m == front + [last];
      var x := LargestShare(front, total);
      if x != 0.0 {
        var i :| 0 <= i < |front| && front[i].1 / total == x;
        assert m[i].1 / total == x;
      }
      assert m[|m| - 1] == last;
    }
  }

  lemma {:induction false} FillDistinct(wallets: seq<Holding>)
    ensures DistinctKeys(Fill(wallets))
  {
    if wallets != [] {
      var rest, item := wallets[..|wallets| - 1], wallets[|wallets| - 1];
      FillDistinct(rest);
      SetDistinct(Fill(rest), item.asset, Get(Fill(rest), item.asset) + ValueToEur(item.balance, item.asset));
    }
  }

  lemma {:induction false} SetKeys(m: Holdings, asset: string, value: real, key: string)
    ensures HasKey(Set(m, asset, value), key) <==> key == asset || HasKey(m, key)
  {
    var after := Set(m, asset, value);
    if m == [] {
      assert after[0].0 == asset;
    } else if m[0].0 == asset {
      assert after == [(asset, value)] + m[1..];
      KeyOfFirst(after, key);
      KeyOfFirst(m, key);
    } else {
      assert after == [m[0]] + Set(m[1..], asset, value);
      SetKeys(m[1..], asset, value, key);
      KeyOfFirst(after, key);
      KeyOfFirst(m, key);
    }
  }

  predicate HasKey(m: Holdings, key: string) {
    exists i :: 0 <= i < |m| && m[i].0 == key
  }

  lemma KeyOfFirst(m: Holdings, key: string)
    requires m != []
    ensures HasKey(m, key) <==> m[0].0 == key || HasKey(m[1..], key)
  {
    if i :| 0 <= i < |m| && m[i].0 == key {
      assert i == 0 || m[1..][i - 1].0 == key;
    }
    if i :| 0 <= i < |m[1..]| && m[1..][i].0 == key {
      assert m[i + 1].0 == key;
    }
  }

  lemma {:induction false} FillKeys(wallets: seq<Holding>, key: string)
    ensures HasKey(Fill(wallets), key) <==> Held(wallets, key)
  {
    if wallets != [] {
      var rest, item := wallets[..|wallets| - 1], wallets[|wallets| - 1];
      FillKeys(rest, key);
      SetKeys(Fill(rest), item.asset, Get(Fill(rest), item.asset) + ValueToEur(item.balance, item.asset), key);
      HeldByLast(wallets, key);
    }
  }

  lemma HeldByLast(wallets: seq<Holding>, asset: string)
    requires wallets != []
    ensures Held(wallets, asset) <==> wallets[|wallets| - 1].asset == asset || Held(wallets[..|wallets| - 1], asset)
  {
    var rest := wallets[..|wallets| - 1];
    if i :| 0 <= i < |rest| && rest[i].asset == asset {
      assert wallets[i].asset == asset;
    }
    if i :| 0 <= i < |wallets| && wallets[i].asset == asset {
      assert i < |rest| ==> rest[i].asset == asset;
    }
  }

  lemma {:induction false} FillTotal(wallets: seq<Holding>)
    ensures Total(Fill(wallets)) == TotalWorth(wallets)
  {
    if wallets != [] {
      var rest, item := wallets[..|wallets| - 1], wallets[|wallets| - 1];
      FillTotal(rest);
      FillDistinct(rest);
      SetTotal(Fill(rest), item.asset, Get(Fill(rest), item.asset) + ValueToEur(item.balance, item.asset));
    }
  }

  /** The largest share of a book, over its keys. */
  lemma MaxShareIs(m: Holdings, total: real)
    requires DistinctKeys(m) && total != 0.0
    ensures
      var x := MaxShare(m, total);
      && x >= 0.0 && (forall key :: HasKey(m, key) ==> Get(m, key) / total <= x)
      && (x == 0.0 || exists key :: HasKey(m, key) && Get(m, key) / total == x)
  {
    LargestShareIsLargest(m, total);
    forall i | 0 <= i < |m| ensures Get(m, m[i].0) == m[i].1 && HasKey(m, m[i].0) {
      GetAt(m, i);
    }
    var x := MaxShare(m, total);
    if x != 0.0 {
      var i :| 0 <= i < |m| && m[i].1 / total == x;
      assert HasKey(m, m[i].0) && Get(m, m[i].0) / total == x;
    }
  }

  /** The current figure is the largest share any held asset has in the worth of all wallets. */
  lemma CurrentIsLargestShare(wallets: seq<Holding>, p: Payment)
    ensures
      var x, total := ConcentrationAfterPayment(wallets, p).current, TotalWorth(wallets);
      if total == 0.0 then x == 0.0
      else
        && x >= 0.0 && (forall a :: Held(wallets, a) ==> WorthOf(wallets, a) / total <= x)
        && (x == 0.0 || exists a :: Held(wallets, a) && WorthOf(wallets, a) / total == x)
  {
    var m, total := Fill(wallets), TotalWorth(wallets);
    FillDistinct(wallets);
    FillTotal(wallets);
    forall a ensures (HasKey(m, a) <==> Held(wallets, a)) && Get(m, a) == WorthOf(wallets, a) {
      FillKeys(wallets, a);
      FillSums(wallets, a);
    }
    if total != 0.0 {
      MaxShareIs(m, total);
    }
  }

  lemma BookAfter(wallets: seq<Holding>, paid: string, out: real, a: string)
    ensures
      var m := HoldingsAfter(Fill(wallets), paid, out);
      (HasKey(m, a) <==> a == paid || Held(wallets, a)) && Get(m, a) == WorthAfter(wallets, a, paid, out)
  {
    FillKeys(wallets, a);
    FillSums(wallets, a);
    FillSums(wallets, paid);
    SetKeys(Fill(wallets), paid, AtLeastZero(Get(Fill(wallets), paid) - out), a);
  }

  /** x is the largest share after the outflow, or zero if none is positive. */
  ghost predicate IsLargestAfter(x: real, wallets: seq<Holding>, paid: string, out: real, total: real)
    requires total != 0.0
  {
    && x >= 0.0
    && (forall a :: a == paid || Held(wallets, a) ==> WorthAfter(wallets, a, paid, out) / total <= x)
    && (x == 0.0 || exists a :: (a == paid || Held(wallets, a)) && WorthAfter(wallets, a, paid, out) / total == x)
  }

  lemma LargestOfBookAfter(m: Holdings, wallets: seq<Holding>, paid: string, out: real, total: real)
    requires DistinctKeys(m) && total != 0.0
    requires forall a :: (HasKey(m, a) <==> a == paid || Held(wallets, a)) && Get(m, a) == WorthAfter(wallets, a, paid, out)
    ensures IsLargestAfter(MaxShare(m, total), wallets, paid, out, total)
  {
    MaxShareIs(m, total);
  }

  lemma AfterIsDistinct(wallets: seq<Holding>, paid: string, out: real)
    ensures DistinctKeys(HoldingsAfter(Fill(wallets), paid, out))
  {
    FillDistinct(wallets);
    SetDistinct(Fill(wallets), paid, AtLeastZero(Get(Fill(wallets), paid) - out));
  }

  lemma ProjectedBook(wallets: seq<Holding>, p: Payment, out: real)
    requires out == ValueToEur(p.amount + p.fee, p.asset)
    ensures ConcentrationAfterPayment(wallets, p).projected
         == MaxShare(HoldingsAfter(Fill(wallets), p.asset, out), AtLeastZero(TotalWorth(wallets) - out))
  {
    FillTotal(wallets);
  }

  lemma LargestAfter(wallets: seq<Holding>, paid: string, out: real, total: real)
    requires total != 0.0
    ensures IsLargestAfter(MaxShare(HoldingsAfter(Fill(wallets), paid, out), total), wallets, paid, out, total)
  {
    var m := HoldingsAfter(Fill(wallets), paid, out);
    AfterIsDistinct(wallets, paid, out);
    forall a ensures (HasKey(m, a) <==> a == paid || Held(wallets, a)) && Get(m, a) == WorthAfter(wallets, a, paid, out) {
      BookAfter(wallets, paid, out, a);
    }
    LargestOfBookAfter(m, wallets, paid, out, total);
  }

  /** The projected figure is the largest share once the payment and its fee have left the paid asset
      and the total, neither going below zero. */
  lemma ProjectedIsLargestShare(wallets: seq<Holding>, p: Payment)
    ensures
      var out := ValueToEur(p.amount + p.fee, p.asset);
      var x, total := ConcentrationAfterPayment(wallets, p).projected, AtLeastZero(TotalWorth(wallets) - out);
      if total == 0.0 then x == 0.0 else IsLargestAfter(x, wallets, p.asset, out, total)
  {
    var out := ValueToEur(p.amount + p.fee, p.asset);
    var total := AtLeastZero(TotalWorth(wallets) - out);
    ProjectedBook(wallets, p, out);
    if total != 0.0 {
      LargestAfter(wallets, p.asset, out, total);
    }
  }
}
