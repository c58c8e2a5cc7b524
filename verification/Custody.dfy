/** The custody adapters of packages/shared/adapters/custody.mjs and the contract the saga relies
    on: one transfer per idempotency key. */
module Custody {
  import opened Basics

  datatype Receipt = Receipt(providerRef: string, chainRef: string)

  /** One transfer on the external rail. */
  datatype Transfer = Transfer(adapter: string, key: string, receipt: Receipt)

  /** The receipt under which an adapter has accepted a key. */
  function Lookup(rail: seq<Transfer>, adapter: string, key: string): Option<Receipt> {
    if rail == [] then None
    else if rail[0].adapter == adapter && rail[0].key == key then Some(rail[0].receipt)
    else Lookup(rail[1..], adapter, key)
  }

  /** The rail after a submission: a key that was accepted before creates nothing new. */
  function Submit(rail: seq<Transfer>, adapter: string, key: string, issued: Receipt): (r: (seq<Transfer>, Receipt))
    ensures rail <= r.0
  {
    match Lookup(rail, adapter, key)
    case Some(receipt) => (rail, receipt)
    case None => (rail + [Transfer(adapter, key, issued)], issued)
  }

  /** All transfers made under one key, whoever carried them. */
  function Under(rail: seq<Transfer>, key: string): seq<Transfer> {
    if rail == [] then []
    else
      var last := rail[|rail| - 1];
      Under(rail[..|rail| - 1], key) + (if last.key == key then [last] else [])
  }

  /** The provider's promise: no adapter has two transfers for one key. */
  predicate Idempotent(rail: seq<Transfer>) {
    forall i, j :: 0 <= i < j < |rail| ==> rail[i].adapter != rail[j].adapter || rail[i].key != rail[j].key
  }

  lemma {:induction false} LookupFinds(rail: seq<Transfer>, adapter: string, key: string)
    ensures Lookup(rail, adapter, key).Some? <==> exists i :: 0 <= i < |rail| && rail[i].adapter == adapter && rail[i].key == key
    ensures Lookup(rail, adapter, key).Some? ==> Transfer(adapter, key, Lookup(rail, adapter, key).value) in rail
  {
    if rail != [] && !(rail[0].adapter == adapter && rail[0].key == key) {
      var rest := rail[1..];
      LookupFinds(rest, adapter, key);
      if exists i :: 0 <= i < |rail| && rail[i].adapter == adapter && rail[i].key == key {
        var i :| 0 <= i < |rail| && rail[i].adapter == adapter && rail[i].key == key;
        assert rest[i - 1] == rail[i];
      }
      if Lookup(rest, adapter, key).Some? {
        var i :| 0 <= i < |rest| && rest[i].adapter == adapter && rest[i].key == key;
        assert rail[i + 1] == rest[i];
      }
    }
  }

  lemma SubmitKeepsIdempotent(rail: seq<Transfer>, adapter: string, key: string, issued: Receipt)
    requires Idempotent(rail)
    ensures Idempotent(Submit(rail, adapter, key, issued).0)
    ensures Transfer(adapter, key, Submit(rail, adapter, key, issued).1) in Submit(rail, adapter, key, issued).0
  {
    LookupFinds(rail, adapter, key);
    var next := Submit(rail, adapter, key, issued).0;
    if Lookup(rail, adapter, key).None? {
      assert next[|rail|] == Transfer(adapter, key, issued);
    }
  }

  lemma {:induction false} UnderMembers(rail: seq<Transfer>, key: string)
    ensures forall t :: t in Under(rail, key) <==> t in rail && t.key == key
    ensures Under(rail, key) != [] ==> exists t :: t in rail && t.key == key
  {
    if rail != [] {
      UnderMembers(rail[..|rail| - 1], key);
    }
  }

  /** With one adapter for a key, an idempotent rail holds at most one transfer under it. */
  lemma {:induction false} OneAdapterOneTransfer(rail: seq<Transfer>, key: string)
    requires Idempotent(rail)
    requires forall t, u :: t in rail && u in rail && t.key == key && u.key == key ==> t.adapter == u.adapter
    ensures |Under(rail, key)| <= 1
  {
    if rail != [] {
      var front, last := rail[..|rail| - 1], rail[|rail| - 1];
      OneAdapterOneTransfer(front, key);
      UnderMembers(front, key);
      assert last in rail;
    }
  }

  // ---------------------------------------------------------------- the adapters

  /** What an adapter's map promises about the transfers it made. */
  ghost predicate MapMatchesRail(accepted: map<string, Receipt>, rail: seq<Transfer>, adapter: string) {
    && Idempotent(rail)
    && (forall t :: t in rail ==> t.adapter == adapter)
    && (forall key :: (key in accepted) == Lookup(rail, adapter, key).Some?)
    && (forall key :: key in accepted ==> Lookup(rail, adapter, key) == Some(accepted[key]))
  }

  lemma {:induction false} LookupAppend(rail: seq<Transfer>, t: Transfer, key: string)
    ensures Lookup(rail + [t], t.adapter, key) ==
      if Lookup(rail, t.adapter, key).Some? then Lookup(rail, t.adapter, key)
      else if key == t.key then Some(t.receipt) else None
  {
    if rail == [] {
      assert (rail + [t])[1..] == [];
    } else {
      assert (rail + [t])[1..] == rail[1..] + [t];
      LookupAppend(rail[1..], t, key);
    }
  }

  /** The default adapter. `rail` is what has happened outside; `None` for the key means the caller
      sent none, and then every call is a new transfer. */
  class SimulatedCustodyAdapter {
    const name: string
    var submissions: map<string, Receipt>
    var rail: seq<Transfer>
    var unkeyed: nat

    ghost predicate Valid()
      reads this
    {
      MapMatchesRail(submissions, rail, name)
    }

    constructor (name: string)
      ensures Valid() && rail == [] && this.name == name
    {
      this.name := name;
      submissions, rail, unkeyed := map[], [], 0;
    }

    method SubmitTransfer(paymentRef: string, paymentChain: string, key: Option<string>, randomRef: string, randomChain: string)
      returns (receipt: Receipt)
      requires Valid()
      modifies this
      ensures Valid()
      ensures
        var issued := Receipt(if paymentRef != "" then paymentRef else randomRef, if paymentChain != "" then paymentChain else randomChain);
        if key.Some?
        then (rail, receipt) == Submit(old(rail), name, key.value, issued) && unkeyed == old(unkeyed)
        else receipt == issued && rail == old(rail) && unkeyed == old(unkeyed) + 1
    {
      if key.Some? && key.value in submissions {
        return submissions[key.value];
      }
      var providerRef := if paymentRef != "" then paymentRef else randomRef;
      var chainRef := if paymentChain != "" then paymentChain else randomChain;
      receipt := Receipt(providerRef, chainRef);
      if key.Some? {
        var t := Transfer(name, key.value, receipt);
        SubmitKeepsIdempotent(rail, name, key.value, receipt);
        forall k
          ensures Lookup(rail + [t], name, k) ==
            if Lookup(rail, name, k).Some? then Lookup(rail, name, k) else if k == key.value then Some(receipt) else None
        {
          LookupAppend(rail, t, k);
        }
        submissions := submissions[key.value := receipt];
        rail := rail + [t];
      } else {
        unkeyed := unkeyed + 1;
      }
    }
  }

  /** The crash-injection double: its first call accepts the transfer and still throws. */
  class CrashOnceThenIdempotentAdapter {
    const name: string
    var accepted: map<string, Receipt>
    var rail: seq<Transfer>
    var callCount: nat

    ghost predicate Valid()
      reads this
    {
      MapMatchesRail(accepted, rail, name)
    }

    constructor (name: string)
      ensures Valid() && rail == [] && callCount == 0 && this.name == name
    {
      this.name := name;
      accepted, rail, callCount := map[], [], 0;
    }

    method SubmitTransfer(key: string) returns (r: Result<Receipt, string>)
      requires Valid()
      modifies this
      ensures Valid() && callCount == old(callCount) + 1
      ensures
        var submitted := Submit(old(rail), name, key, Receipt("CRASH-" + key, "0xcrash-" + key));
        && rail == submitted.0
        && r == if old(callCount) == 0 && Lookup(old(rail), name, key).None? then Err("simulated crash") else Ok(submitted.1)
    {
      callCount := callCount + 1;
      if key in accepted {
        return Ok(accepted[key]);
      }
      var receipt := Receipt("CRASH-" + key, "0xcrash-" + key);
      var t := Transfer(name, key, receipt);
      SubmitKeepsIdempotent(rail, name, key, receipt);
      forall k
        ensures Lookup(rail + [t], name, k) ==
          if Lookup(rail, name, k).Some? then Lookup(rail, name, k) else if k == key then Some(receipt) else None
      {
        LookupAppend(rail, t, k);
      }
      accepted := accepted[key := receipt];
      rail := rail + [t];
      if callCount == 1 {
        return Err("simulated crash");
      }
      r := Ok(receipt);
    }
  }
}
