/** Policy evaluation and concentration shares: services/policy-service/src/evaluate.mjs over
    packages/shared/policy-math.mjs, in exact arithmetic. */
module Policy {
  import opened Basics

  // ---------------------------------------------------------------- policy math

  function RateToEur(asset: string): (rate: real)
    ensures rate > 0.0
  {
    if asset in ["EURC", "EURI", "N-EURC"] then 1.0
    else if asset in ["N-USDC", "USDC", "USDG"] then 0.92
    else 1.0
  }

  function ValueToEur(amount: real, asset: string): real {
    amount * RateToEur(asset)
  }

  datatype Rules = Rules(
    approvalThreshold: real, secondApprovalThreshold: real, hardTransferLimit: real,
    concentrationLimit: real, allowedAssets: set<string>, allowedProviders: set<string>,
    requireScreening: bool, selfApprovalAllowed: bool)

  function RequiredApprovalsFor(amountEur: real, rules: Rules): (n: nat)
    ensures n <= 2
    ensures n == 2 <==> amountEur >= rules.secondApprovalThreshold
    ensures n >= 1 <==> amountEur >= rules.approvalThreshold || amountEur >= rules.secondApprovalThreshold
  {
    if amountEur >= rules.secondApprovalThreshold then 2
    else if amountEur >= rules.approvalThreshold then 1
    else 0
  }

  // ---------------------------------------------------------------- holdings per asset

  datatype Holding = Holding(asset: string, balance: real)

  /** A JavaScript Map from asset to value: keys in insertion order. */
  type Holdings = seq<(string, real)>

  function Get(m: Holdings, asset: string): real {
    if m == [] then 0.0 else if m[0].0 == asset then m[0].1 else Get(m[1..], asset)
  }

  function Set(m: Holdings, asset: string, value: real): (r: Holdings)
    ensures Get(r, asset) == value
    ensures forall other :: other != asset ==> Get(r, other) == Get(m, other)
  {
    if m == [] then [(asset, value)]
    else if m[0].0 == asset then [(asset, value)] + m[1..]
    else [m[0]] + Set(m[1..], asset, value)
  }

  predicate DistinctKeys(m: Holdings) {
    forall i, j :: 0 <= i < j < |m| ==> m[i].0 != m[j].0
  }

  predicate NonNegative(m: Holdings) {
    forall i :: 0 <= i < |m| ==> m[i].1 >= 0.0
  }

  function Total(m: Holdings): real {
    if m == [] then 0.0 else m[0].1 + Total(m[1..])
  }

  function Fill(wallets: seq<Holding>): Holdings {
    if wallets == [] then []
    else
      var rest := wallets[..|wallets| - 1];
      var item := wallets[|wallets| - 1];
      Set(Fill(rest), item.asset, Get(Fill(rest), item.asset) + ValueToEur(item.balance, item.asset))
  }

  function LargestShare(m: Holdings, total: real): real
    requires total != 0.0
  {
    if m == [] then 0.0
    else
      var rest := LargestShare(m[..|m| - 1], total);
      var share := m[|m| - 1].1 / total;
      if share > rest then share else rest
  }

  function MaxShare(m: Holdings, total: real): real {
    if total == 0.0 then 0.0 else LargestShare(m, total)
  }

  function AtLeastZero(x: real): (r: real)
    ensures r >= 0.0
  {
    if x >= 0.0 then x else 0.0
  }

  datatype Concentration = Concentration(current: real, projected: real)

  /** The book after the outflow, and its total. */
  function HoldingsAfter(m: Holdings, asset: string, outgoing: real): Holdings {
    Set(m, asset, AtLeastZero(Get(m, asset) - outgoing))
  }

  function TotalAfter(m: Holdings, outgoing: real): (r: real)
    ensures r >= 0.0
  {
    AtLeastZero(Total(m) - outgoing)
  }

  function ConcentrationOf(m: Holdings, asset: string, outgoing: real): Concentration {
    Concentration(MaxShare(m, Total(m)), MaxShare(HoldingsAfter(m, asset, outgoing), TotalAfter(m, outgoing)))
  }

  function ConcentrationAfterPayment(wallets: seq<Holding>, payment: Payment): Concentration {
    ConcentrationOf(Fill(wallets), payment.asset, ValueToEur(payment.amount + payment.fee, payment.asset))
  }

  // The loops of the original, proved against the functions above.

  method FillLoop(wallets: seq<Holding>) returns (valueByAsset: Holdings)
    ensures valueByAsset == Fill(wallets)
  {
    valueByAsset := [];
    for i := 0 to |wallets|
      invariant valueByAsset == Fill(wallets[..i])
    {
      var item := wallets[i];
      assert wallets[..i + 1][..i] == wallets[..i];
      valueByAsset := Set(valueByAsset, item.asset, Get(valueByAsset, item.asset) + ValueToEur(item.balance, item.asset));
    }
    assert wallets[..|wallets|] == wallets;
  }

  method MaxShareLoop(valueByAsset: Holdings, total: real) returns (max: real)
    ensures max == MaxShare(valueByAsset, total)
  {
    if total == 0.0 {
      return 0.0;
    }
    max := 0.0;
    for i := 0 to |valueByAsset|
      invariant max == LargestShare(valueByAsset[..i], total)
    {
      assert valueByAsset[..i + 1][..i] == valueByAsset[..i];
      var share := valueByAsset[i].1 / total;
      max := if share > max then share else max;
    }
    assert valueByAsset[..|valueByAsset|] == valueByAsset;
  }

  // ---------------------------------------------------------------- evaluation

  datatype Verdict = Clear | Review | Blocked

  datatype AssetStatus = AssetEnabled | ReportingOnly | AssetDisabled
  datatype ProviderStatus = Operational | Degraded
  datatype CounterpartyStatus = CounterpartyApproved | CounterpartyReview | CounterpartyBlocked

  datatype Payment = Payment(asset: string, amount: real, fee: real, requiredApprovals: nat)
  datatype Provider = Provider(id: string, status: ProviderStatus)

  datatype Request = Request(
    payment: Option<Payment>, wallet: Option<Holding>, wallets: Option<seq<Holding>>,
    asset: Option<AssetStatus>, counterparty: Option<CounterpartyStatus>, provider: Option<Provider>)

  predicate Complete(r: Request) {
    r.payment.Some? && r.wallet.Some? && r.asset.Some? && r.counterparty.Some? && r.provider.Some?
  }

  function Checks(r: Request, rules: Rules): (checks: seq<Verdict>)
    requires Complete(r)
    ensures |checks| == 7
  {
    var payment, provider := r.payment.value, r.provider.value;
    var amountEur := ValueToEur(payment.amount, payment.asset);
    var expected := RequiredApprovalsFor(amountEur, rules);
    var c := if r.wallets.Some? then ConcentrationAfterPayment(r.wallets.value, payment) else Concentration(0.0, 0.0);
    [ // asset allowlist
      if payment.asset in rules.allowedAssets && r.asset.value.AssetEnabled? then Clear else Blocked,
      // provider route
      if provider.id !in rules.allowedProviders then Blocked else if provider.status.Operational? then Clear else Review,
      // balance
      if r.wallet.value.balance >= payment.amount + payment.fee then Clear else Blocked,
      // counterparty screening
      if !rules.requireScreening then Clear else
      (match r.counterparty.value case CounterpartyApproved => Clear case CounterpartyBlocked => Blocked case CounterpartyReview => Review),
      // transfer limit
      if amountEur <= rules.hardTransferLimit then Clear else Blocked,
      // approval threshold
      if payment.requiredApprovals >= expected then Clear else Blocked,
      // concentration limit
      if c.projected <= rules.concentrationLimit || c.projected <= c.current then Clear else Review
    ]
  }

  function Decide(checks: seq<Verdict>): Verdict {
    if Blocked in checks then Blocked else if Review in checks then Review else Clear
  }

  /** `evaluate`: None is the 422 for an incomplete context. */
  function Evaluate(r: Request, rules: Rules): Option<Verdict> {
    if !Complete(r) then None else Some(Decide(Checks(r, rules)))
  }

  // ---------------------------------------------------------------- tightening

  function Severity(v: Verdict): nat {
    match v case Clear => 0 case Review => 1 case Blocked => 2
  }

  /** Every field of `tight` is at least as strict as the same field of `loose`. */
  predicate AtLeastAsStrict(tight: Rules, loose: Rules) {
    && tight.approvalThreshold <= loose.approvalThreshold
    && tight.secondApprovalThreshold <= loose.secondApprovalThreshold
    && tight.hardTransferLimit <= loose.hardTransferLimit
    && tight.concentrationLimit <= loose.concentrationLimit
    && tight.allowedAssets <= loose.allowedAssets
    && tight.allowedProviders <= loose.allowedProviders
    && (loose.requireScreening ==> tight.requireScreening)
  }

  /** Tightening any policy field never makes the overall decision milder. */
  lemma TighteningNeverMilder(r: Request, tight: Rules, loose: Rules)
    requires Complete(r) && AtLeastAsStrict(tight, loose)
    ensures Severity(Evaluate(r, loose).value) <= Severity(Evaluate(r, tight).value)
  {
    var a, b := Checks(r, loose), Checks(r, tight);
    forall i | 0 <= i < |a|
      ensures Severity(a[i]) <= Severity(b[i])
    {
      assert i == 0 || i == 1 || i == 2 || i == 3 || i == 4 || i == 5 || i == 6;
    }
  }

  /** A payment that is not blocked carries at least the approvals the rules just read demand. */
  lemma NotBlockedMeansEnoughRequired(r: Request, rules: Rules)
    requires Complete(r) && Evaluate(r, rules) != Some(Blocked)
    ensures
      var p := r.payment.value;
      RequiredApprovalsFor(ValueToEur(p.amount, p.asset), rules) <= p.requiredApprovals
  {
    assert Checks(r, rules)[5] != Blocked;
  }

  // ---------------------------------------------------------------- concentration theorem

  /** Writing one key adds no other: every other row of the result is a row of the book. */
  lemma {:induction false} SetRowAt(m: Holdings, asset: string, value: real, i: nat) returns (j: nat)
    requires i < |Set(m, asset, value)|
    ensures Set(m, asset, value)[i] == (asset, value) || (j < |m| && m[j] == Set(m, asset, value)[i])
  {
    j := 0;
    if m != [] {
      var tail := m[1..];
      if m[0].0 == asset {
        j := i;
        assert Set(m, asset, value) == [(asset, value)] + tail;
      } else {
        assert Set(m, asset, value) == [m[0]] + Set(tail, asset, value);
        if i > 0 {
          var k := SetRowAt(tail, asset, value, i - 1);
          j := k + 1;
        }
      }
    }
  }

  lemma {:induction false} SetDistinct(m: Holdings, asset: string, value: real)
    requires DistinctKeys(m)
    ensures DistinctKeys(Set(m, asset, value))
  {
    if m != [] {
      var tail := m[1..];
      if m[0].0 == asset {
        assert Set(m, asset, value) == [(asset, value)] + tail;
      } else {
        var r := Set(tail, asset, value);
        SetDistinct(tail, asset, value);
        assert Set(m, asset, value) == [m[0]] + r;
        forall i | 0 <= i < |r|
          ensures r[i].0 != m[0].0
        {
          var j := SetRowAt(tail, asset, value, i);
          assert j < |tail| ==> tail[j] == m[j + 1];
        }
      }
    }
  }

  lemma {:induction false} SetTotal(m: Holdings, asset: string, value: real)
    requires DistinctKeys(m)
    ensures Total(Set(m, asset, value)) == Total(m) - Get(m, asset) + value
  {
    if m != [] {
      var tail := m[1..];
      if m[0].0 == asset {
        assert Set(m, asset, value)[1..] == tail;
      } else {
        SetTotal(tail, asset, value);
        assert Set(m, asset, value)[1..] == Set(tail, asset, value);
      }
    }
  }

  lemma {:induction false} SetNonNegative(m: Holdings, asset: string, value: real)
    requires NonNegative(m) && value >= 0.0
    ensures NonNegative(Set(m, asset, value))
  {
    if m != [] && m[0].0 != asset {
      SetNonNegative(m[1..], asset, value);
    }
  }

  lemma {:induction false} GetAbsent(m: Holdings, asset: string)
    requires forall i :: 0 <= i < |m| ==> m[i].0 != asset
    ensures Get(m, asset) == 0.0
  {
    if m != [] {
      GetAbsent(m[1..], asset);
    }
  }

  lemma {:induction false} GetAt(m: Holdings, i: nat)
    requires DistinctKeys(m) && i < |m|
    ensures Get(m, m[i].0) == m[i].1
  {
    if i > 0 {
      GetAt(m[1..], i - 1);
      assert m[0].0 != m[i].0;
    }
  }

  lemma SetKeepsABook(m: Holdings, asset: string, value: real)
    requires DistinctKeys(m) && NonNegative(m) && value >= 0.0
    ensures DistinctKeys(Set(m, asset, value)) && NonNegative(Set(m, asset, value))
  {
    SetDistinct(m, asset, value);
    SetNonNegative(m, asset, value);
  }

  lemma ValueNonNegative(amount: real, asset: string)
    requires amount >= 0.0
    ensures ValueToEur(amount, asset) >= 0.0
  {
  }

  lemma ValueKeepsOrder(a: real, b: real, asset: string)
    requires a <= b
    ensures ValueToEur(a, asset) <= ValueToEur(b, asset)
  {
    ValueNonNegative(b - a, asset);
    assert ValueToEur(b, asset) - ValueToEur(a, asset) == ValueToEur(b - a, asset);
  }

  lemma {:induction false} FillIsABook(wallets: seq<Holding>)
    requires forall i :: 0 <= i < |wallets| ==> wallets[i].balance >= 0.0
    ensures DistinctKeys(Fill(wallets)) && NonNegative(Fill(wallets))
  {
    if wallets != [] {
      var rest, item := wallets[..|wallets| - 1], wallets[|wallets| - 1];
      FillIsABook(rest);
      GetNonNegative(Fill(rest), item.asset);
      ValueNonNegative(item.balance, item.asset);
      var value := Get(Fill(rest), item.asset) + ValueToEur(item.balance, item.asset);
      SetKeepsABook(Fill(rest), item.asset, value);
    }
  }

  function WorthOf(wallets: seq<Holding>, asset: string): real {
    if wallets == [] then 0.0
    else
      var item := wallets[|wallets| - 1];
      WorthOf(wallets[..|wallets| - 1], asset) + (if item.asset == asset then ValueToEur(item.balance, item.asset) else 0.0)
  }

  /** Each asset of the book holds the worth of exactly the wallets of that asset. */
  lemma {:induction false} FillSums(wallets: seq<Holding>, asset: string)
    ensures Get(Fill(wallets), asset) == WorthOf(wallets, asset)
  {
    if wallets != [] {
      FillSums(wallets[..|wallets| - 1], asset);
    }
  }

  lemma {:induction false} GetNonNegative(m: Holdings, asset: string)
    requires NonNegative(m)
    ensures Get(m, asset) >= 0.0
  {
    if m != [] {
      GetNonNegative(m[1..], asset);
    }
  }

  lemma {:induction false} TotalBounds(m: Holdings)
    requires NonNegative(m)
    ensures Total(m) >= 0.0
    ensures forall i :: 0 <= i < |m| ==> m[i].1 <= Total(m)
  {
    if m != [] {
      TotalBounds(m[1..]);
    }
  }

  /** The largest share is a share, or zero, and no share exceeds it. */
  lemma {:induction false} LargestShareIsMax(m: Holdings, total: real)
    requires total > 0.0
    ensures forall i :: 0 <= i < |m| ==> m[i].1 / total <= LargestShare(m, total)
    ensures LargestShare(m, total) >= 0.0
    ensures LargestShare(m, total) == 0.0 || exists i :: 0 <= i < |m| && m[i].1 / total == LargestShare(m, total)
  {
    if m != [] {
      LargestShareIsMax(m[..|m| - 1], total);
    }
  }

  lemma QuotientOrder(a: real, b: real, total: real)
    requires total > 0.0
    ensures a <= b <==> a / total <= b / total
  {
    assert a == (a / total) * total && b == (b / total) * total;
    if a / total <= b / total {
      assert (b / total - a / total) * total >= 0.0;
    } else {
      assert (a / total - b / total) * total > 0.0;
    }
  }

  /** The share of one asset in a book. */
  function Share(m: Holdings, asset: string, total: real): real {
    if total == 0.0 then 0.0 else Get(m, asset) / total
  }

  lemma SharesWithinOne(m: Holdings, total: real)
    requires NonNegative(m) && total >= 0.0
    requires total > 0.0 ==> forall i :: 0 <= i < |m| ==> m[i].1 <= total
    ensures 0.0 <= MaxShare(m, total) <= 1.0
  {
    if total > 0.0 {
      LargestShareIsMax(m, total);
      if LargestShare(m, total) != 0.0 {
        var i :| 0 <= i < |m| && m[i].1 / total == LargestShare(m, total);
        ShareAtMostOne(m[i].1, total);
      }
    }
  }

  lemma ShareAtMostOne(a: real, total: real)
    requires total > 0.0
    ensures a / total <= 1.0 <==> a <= total
  {
    QuotientOrder(a, total, total);
    assert (total / total) * total == total;
  }

  /** Removing c from a part a and from its whole b can only shrink the quotient. */
  lemma OutflowShrinksShare(a: real, b: real, c: real)
    requires 0.0 <= c <= a <= b && c < b
    ensures (a - c) / (b - c) <= a / b
  {
    var x := a / b;
    assert x * b == a;
    ShareAtMostOne(a, b);
    assert x * (b - c) == a - x * c;
    assert x * c <= c;
    QuotientOrder(a - c, x * (b - c), b - c);
    assert (x * (b - c)) / (b - c) == x;
  }

  lemma OutflowIsSet(m: Holdings, asset: string, outgoing: real)
    requires outgoing <= Get(m, asset)
    ensures HoldingsAfter(m, asset, outgoing) == Set(m, asset, Get(m, asset) - outgoing)
  {
  }

  lemma TotalAfterCovered(m: Holdings, outgoing: real)
    requires outgoing <= Total(m)
    ensures TotalAfter(m, outgoing) == Total(m) - outgoing
  {
  }

  /** The book after a covered outflow, as a book again. */
  lemma AfterCovered(m: Holdings, asset: string, outgoing: real)
    requires DistinctKeys(m) && NonNegative(m) && 0.0 <= outgoing <= Get(m, asset)
    ensures Get(m, asset) <= Total(m)
    ensures
      var after := HoldingsAfter(m, asset, outgoing);
      DistinctKeys(after) && NonNegative(after) && Total(after) == TotalAfter(m, outgoing) == Total(m) - outgoing
  {
    CoveredTotal(m, asset, outgoing);
    TotalAfterCovered(m, outgoing);
    OutflowIsSet(m, asset, outgoing);
    SetKeepsABook(m, asset, Get(m, asset) - outgoing);
  }

  lemma CoveredTotal(m: Holdings, asset: string, outgoing: real)
    requires DistinctKeys(m) && NonNegative(m) && outgoing <= Get(m, asset)
    ensures Get(m, asset) <= Total(m) && Total(HoldingsAfter(m, asset, outgoing)) == Total(m) - outgoing
  {
    GetWithinTotal(m, asset);
    OutflowIsSet(m, asset, outgoing);
    SetTotal(m, asset, Get(m, asset) - outgoing);
  }

  lemma OwnShareNeverRises(m: Holdings, asset: string, outgoing: real)
    requires DistinctKeys(m) && NonNegative(m) && 0.0 <= outgoing <= Get(m, asset)
    ensures Share(HoldingsAfter(m, asset, outgoing), asset, TotalAfter(m, outgoing)) <= Share(m, asset, Total(m))
  {
    AfterCovered(m, asset, outgoing);
    if TotalAfter(m, outgoing) > 0.0 {
      OutflowShrinksShare(Get(m, asset), Total(m), outgoing);
    } else if Total(m) != 0.0 {
      GetNonNegative(m, asset);
      TotalBounds(m);
    }
  }

  lemma CoveredMaximaAreShares(m: Holdings, asset: string, outgoing: real)
    requires DistinctKeys(m) && NonNegative(m) && 0.0 <= outgoing <= Get(m, asset)
    ensures var c := ConcentrationOf(m, asset, outgoing); 0.0 <= c.current <= 1.0 && 0.0 <= c.projected <= 1.0
  {
    AfterCovered(m, asset, outgoing);
    TotalBounds(m);
    SharesWithinOne(m, Total(m));
    var after := HoldingsAfter(m, asset, outgoing);
    TotalBounds(after);
    SharesWithinOne(after, TotalAfter(m, outgoing));
  }

  /** The concentration theorem. When the holdings of the paid asset cover the outflow: its own
      share never rises, both maxima are shares, and a maximum that rises does so in an asset that
      was not spent. */
  lemma ConcentrationTheorem(m: Holdings, asset: string, outgoing: real)
    requires DistinctKeys(m) && NonNegative(m) && 0.0 <= outgoing <= Get(m, asset)
    ensures Share(HoldingsAfter(m, asset, outgoing), asset, TotalAfter(m, outgoing)) <= Share(m, asset, Total(m))
    ensures
      var c := ConcentrationOf(m, asset, outgoing);
      && 0.0 <= c.current <= 1.0
      && 0.0 <= c.projected <= 1.0
      && (c.projected > c.current ==>
            exists i :: 0 <= i < |m| && m[i].0 != asset && IsShareOf(m[i].1, TotalAfter(m, outgoing), c.projected))
  {
    OwnShareNeverRises(m, asset, outgoing);
    CoveredMaximaAreShares(m, asset, outgoing);
    var c := ConcentrationOf(m, asset, outgoing);
    if c.projected > c.current {
      AfterCovered(m, asset, outgoing);
      RisingShareIsElsewhere(m, asset, outgoing);
    }
  }

  predicate IsShareOf(value: real, total: real, share: real) {
    total != 0.0 && value / total == share
  }

  lemma {:induction false} GetWithinTotal(m: Holdings, asset: string)
    requires NonNegative(m)
    ensures Get(m, asset) <= Total(m)
  {
    if m != [] {
      TotalBounds(m[1..]);
      GetWithinTotal(m[1..], asset);
    }
  }

  lemma {:induction false} MemberShareBelowMax(m: Holdings, asset: string, total: real)
    requires NonNegative(m) && total > 0.0
    ensures Get(m, asset) / total <= LargestShare(m, total)
  {
    LargestShareIsMax(m, total);
    GetIsMember(m, asset);
    if Get(m, asset) != 0.0 {
      var i :| 0 <= i < |m| && m[i] == (asset, Get(m, asset));
    }
  }

  lemma {:induction false} GetIsMember(m: Holdings, asset: string)
    ensures Get(m, asset) == 0.0 || exists i :: 0 <= i < |m| && m[i] == (asset, Get(m, asset))
  {
    if m != [] && m[0].0 != asset {
      GetIsMember(m[1..], asset);
      if Get(m, asset) != 0.0 {
        var i :| 0 <= i < |m[1..]| && m[1..][i] == (asset, Get(m, asset));
        assert m[i + 1] == (asset, Get(m, asset));
      }
    }
  }

  /** The maximum of a book is zero or the share of a member of it. */
  lemma MaxIsAttained(m: Holdings, total: real) returns (i: nat)
    requires total > 0.0 && LargestShare(m, total) > 0.0
    ensures i < |m| && IsShareOf(m[i].1, total, LargestShare(m, total))
  {
    LargestShareIsMax(m, total);
    i :| 0 <= i < |m| && m[i].1 / total == LargestShare(m, total);
  }

  /** After a covered outflow the paid asset's share is not above the largest share before. */
  lemma OwnShareIsNotTheRise(m: Holdings, asset: string, outgoing: real, share: real)
    requires NonNegative(m) && 0.0 <= outgoing <= Get(m, asset) <= Total(m) && Total(m) - outgoing > 0.0
    requires IsShareOf(Get(m, asset) - outgoing, Total(m) - outgoing, share)
    ensures share <= LargestShare(m, Total(m))
  {
    OutflowShrinksShare(Get(m, asset), Total(m), outgoing);
    MemberShareBelowMax(m, asset, Total(m));
  }

  /** A row of the book after the outflow is the paid asset's, or a row of the book before. */
  lemma RowAfterOutflow(m: Holdings, asset: string, outgoing: real, i: nat) returns (j: nat)
    requires outgoing <= Get(m, asset) && i < |HoldingsAfter(m, asset, outgoing)|
    ensures
      var row := HoldingsAfter(m, asset, outgoing)[i];
      row == (asset, Get(m, asset) - outgoing) || (j < |m| && m[j] == row)
  {
    j := SetRowAt(m, asset, Get(m, asset) - outgoing, i);
  }

  lemma RisingShareIsElsewhere(m: Holdings, asset: string, outgoing: real)
    requires DistinctKeys(m) && NonNegative(m)
    requires 0.0 <= outgoing <= Get(m, asset) <= Total(m)
    requires ConcentrationOf(m, asset, outgoing).projected > ConcentrationOf(m, asset, outgoing).current >= 0.0
    ensures exists i :: 0 <= i < |m| && m[i].0 != asset
                        && IsShareOf(m[i].1, TotalAfter(m, outgoing), ConcentrationOf(m, asset, outgoing).projected)
  {
    var after, left := HoldingsAfter(m, asset, outgoing), TotalAfter(m, outgoing);
    var share := LargestShare(after, left);
    var i := MaxIsAttained(after, left);
    var j := RisingRow(m, asset, outgoing, i, share);
    assert m[j].0 != asset;
  }

  lemma RisingRow(m: Holdings, asset: string, outgoing: real, i: nat, share: real) returns (j: nat)
    requires DistinctKeys(m) && NonNegative(m) && 0.0 <= outgoing <= Get(m, asset) <= Total(m) && Total(m) - outgoing > 0.0
    requires i < |HoldingsAfter(m, asset, outgoing)|
    requires IsShareOf(HoldingsAfter(m, asset, outgoing)[i].1, Total(m) - outgoing, share) && share > LargestShare(m, Total(m))
    ensures j < |m| && m[j] == HoldingsAfter(m, asset, outgoing)[i] && m[j].0 != asset
  {
    j := RowAfterOutflow(m, asset, outgoing, i);
    if HoldingsAfter(m, asset, outgoing)[i].0 == asset {
      AfterIsDistinct(m, asset, outgoing, i);
      OwnShareIsNotTheRise(m, asset, outgoing, share);
    }
  }

  /** The paid asset has one row after the outflow. */
  lemma AfterIsDistinct(m: Holdings, asset: string, outgoing: real, i: nat)
    requires DistinctKeys(m) && outgoing <= Get(m, asset) && i < |HoldingsAfter(m, asset, outgoing)|
    requires HoldingsAfter(m, asset, outgoing)[i].0 == asset
    ensures HoldingsAfter(m, asset, outgoing)[i].1 == Get(m, asset) - outgoing
  {
    OutflowIsSet(m, asset, outgoing);
    SetDistinct(m, asset, Get(m, asset) - outgoing);
    RowOfAsset(HoldingsAfter(m, asset, outgoing), asset, i);
  }

  lemma RowOfAsset(m: Holdings, asset: string, i: nat)
    requires DistinctKeys(m) && i < |m| && m[i].0 == asset
    ensures Get(m, asset) == m[i].1
  {
    GetAt(m, i);
  }

  /** Without cover the projected value need not be a share: half of what is left can be counted
      against a total that the shortfall has shrunk. */
  lemma UncoveredOutflowExceedsOne()
    ensures
      var m := [("EURC", 10.0), ("EURI", 10.0)];
      ConcentrationOf(m, "EURC", 15.0).projected == 2.0
  {
    var m := [("EURC", 10.0), ("EURI", 10.0)];
    var after := HoldingsAfter(m, "EURC", 15.0);
    assert m[1..] == [("EURI", 10.0)];
    assert Total(m[1..]) == 10.0 + Total(m[1..][1..]);
    assert Total(m) == 20.0;
    assert after == [("EURC", 0.0), ("EURI", 10.0)];
    assert after[..1] == [("EURC", 0.0)];
    assert after[..1][..0] == [];
    assert LargestShare(after[..1], 5.0) == 0.0;
    assert LargestShare(after, 5.0) == 2.0;
  }

  /** No asset other than the paid one outweighs what is left after the outflow. */
  predicate OthersWithin(m: Holdings, asset: string, left: real) {
    forall i :: 0 <= i < |m| && m[i].0 != asset ==> m[i].1 <= left
  }

  /** Exactly when the projected maximum is a share: the paid asset covers the outflow, or nothing
      is left, or no other asset outweighs what is left. */
  lemma ProjectedIsAShareExactlyWhen(m: Holdings, asset: string, outgoing: real)
    requires DistinctKeys(m) && NonNegative(m) && outgoing >= 0.0
    ensures
      ConcentrationOf(m, asset, outgoing).projected <= 1.0 <==>
      || outgoing <= Get(m, asset)
      || Total(m) <= outgoing
      || OthersWithin(m, asset, Total(m) - outgoing)
  {
    if outgoing <= Get(m, asset) {
      CoveredMaximaAreShares(m, asset, outgoing);
    } else if Total(m) > outgoing {
      UncoveredMaximum(m, asset, outgoing);
    }
  }

  lemma UncoveredMaximum(m: Holdings, asset: string, outgoing: real)
    requires DistinctKeys(m) && NonNegative(m) && Get(m, asset) < outgoing < Total(m)
    ensures ConcentrationOf(m, asset, outgoing).projected <= 1.0 <==> OthersWithin(m, asset, Total(m) - outgoing)
  {
    UncoveredProjection(m, asset, outgoing);
    LargestOfTheOthers(m, asset, Total(m) - outgoing);
  }

  lemma UncoveredProjection(m: Holdings, asset: string, outgoing: real)
    requires Get(m, asset) < outgoing < Total(m)
    ensures ConcentrationOf(m, asset, outgoing).projected == LargestShare(Set(m, asset, 0.0), Total(m) - outgoing)
  {
  }

  lemma LargestOfTheOthers(m: Holdings, asset: string, left: real)
    requires DistinctKeys(m) && NonNegative(m) && left > 0.0
    ensures LargestShare(Set(m, asset, 0.0), left) <= 1.0 <==> OthersWithin(m, asset, left)
  {
    if OthersWithin(m, asset, left) {
      OthersWithinMeansAtMostOne(m, asset, left);
    } else {
      var i :| 0 <= i < |m| && m[i].0 != asset && m[i].1 > left;
      OtherAboveMeansAboveOne(m, asset, left, i);
    }
  }

  lemma OthersWithinMeansAtMostOne(m: Holdings, asset: string, left: real)
    requires DistinctKeys(m) && NonNegative(m) && OthersWithin(m, asset, left) && left > 0.0
    ensures LargestShare(Set(m, asset, 0.0), left) <= 1.0
  {
    var after := Set(m, asset, 0.0);
    SetNonNegative(m, asset, 0.0);
    forall i | 0 <= i < |after|
      ensures after[i].1 <= left
    {
      RowWithin(m, asset, left, i);
    }
    SharesWithinOne(after, left);
  }

  lemma OtherAboveMeansAboveOne(m: Holdings, asset: string, left: real, i: nat)
    requires DistinctKeys(m) && NonNegative(m) && left > 0.0 && i < |m| && m[i].0 != asset && m[i].1 > left
    ensures LargestShare(Set(m, asset, 0.0), left) > 1.0
  {
    SetNonNegative(m, asset, 0.0);
    GetAt(m, i);
    MemberShareBelowMax(Set(m, asset, 0.0), m[i].0, left);
    ShareAtMostOne(m[i].1, left);
  }

  lemma RowWithin(m: Holdings, asset: string, left: real, i: nat)
    requires DistinctKeys(m) && OthersWithin(m, asset, left) && left >= 0.0 && i < |Set(m, asset, 0.0)|
    ensures Set(m, asset, 0.0)[i].1 <= left
  {
    SetDistinct(m, asset, 0.0);
    GetAt(Set(m, asset, 0.0), i);
    var j := SetRowAt(m, asset, 0.0, i);
    assert j < |m| && m[j].0 != asset ==> m[j].1 <= left;
  }

  lemma UnblockedMeansBalance(r: Request, rules: Rules)
    requires Complete(r) && Evaluate(r, rules) != Some(Blocked)
    ensures r.payment.value.amount + r.payment.value.fee <= r.wallet.value.balance
  {
    assert Checks(r, rules)[2] != Blocked;
  }

  /** A payment that is not blocked is always covered, so its concentration check compares shares:
      the balance check on the source wallet is what guards the theorem above. */
  lemma UnblockedPaymentsAreCovered(r: Request, rules: Rules)
    requires Complete(r) && Evaluate(r, rules) != Some(Blocked)
    requires r.wallets.Some? && r.wallet.value in r.wallets.value
    requires r.wallet.value.asset == r.payment.value.asset
    requires r.payment.value.amount >= 0.0 && r.payment.value.fee >= 0.0
    requires forall i :: 0 <= i < |r.wallets.value| ==> r.wallets.value[i].balance >= 0.0
    ensures
      var p := r.payment.value;
      && ValueToEur(p.amount + p.fee, p.asset) <= Get(Fill(r.wallets.value), p.asset)
      && 0.0 <= ConcentrationAfterPayment(r.wallets.value, p).current <= 1.0
      && 0.0 <= ConcentrationAfterPayment(r.wallets.value, p).projected <= 1.0
  {
    var wallets, payment := r.wallets.value, r.payment.value;
    UnblockedMeansBalance(r, rules);
    var i :| 0 <= i < |wallets| && wallets[i] == r.wallet.value;
    FillIsABook(wallets);
    FillCoversWallet(wallets, i);
    ValueKeepsOrder(payment.amount + payment.fee, wallets[i].balance, payment.asset);
    ValueNonNegative(payment.amount + payment.fee, payment.asset);
    ConcentrationTheorem(Fill(wallets), payment.asset, ValueToEur(payment.amount + payment.fee, payment.asset));
  }

  lemma {:induction false} FillCoversWallet(wallets: seq<Holding>, i: nat)
    requires i < |wallets|
    requires forall k :: 0 <= k < |wallets| ==> wallets[k].balance >= 0.0
    ensures ValueToEur(wallets[i].balance, wallets[i].asset) <= Get(Fill(wallets), wallets[i].asset)
  {
    var rest, item := wallets[..|wallets| - 1], wallets[|wallets| - 1];
    FillIsABook(rest);
    GetNonNegative(Fill(rest), item.asset);
    ValueNonNegative(item.balance, item.asset);
    if i < |rest| {
      FillCoversWallet(rest, i);
    }
  }
}
