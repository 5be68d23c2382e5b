/** The privacy wallet: a budget of epsilon that a sequence of queries of a
    fixed cost draws on. A query is answered only while the remaining budget
    covers its cost; otherwise it is refused and the wallet is left as it is.
    The loop over the numbered attempts 1, 2, ... is modelled by `Run`, which
    records what happened to each attempt, and by the method `PrivacyWallet`,
    which walks the attempts in a loop as the script does. */
module Wallet {
  import opened Composition

  /** What one query does to the wallet: whether it was answered, and the
      wallet afterwards. */
  datatype Decision = Decision(answered: bool, wallet: real)

  /** One query of the given cost against the wallet. An answered query
      lowers the wallet by exactly its cost; a refused one leaves it
      unchanged. The wallet never drops below zero and, for a
      non-negative cost, never grows. */
  function Charge(wallet: real, cost: real): (d: Decision)
    ensures d.answered <==> cost <= wallet
    ensures d.answered ==> d.wallet == wallet - cost
    ensures !d.answered ==> d.wallet == wallet
    ensures 0.0 <= wallet ==> 0.0 <= d.wallet
    ensures 0.0 <= cost ==> d.wallet <= wallet
  {
    if wallet >= cost then Decision(true, wallet - cost) else Decision(false, wallet)
  }

  /** Charging two queries in turn, when the wallet covers both, answers both
      and leaves the same wallet as one query costing their sum. */
  lemma ChargeTwiceIsChargeOfSum(wallet: real, cost1: real, cost2: real)
    requires 0.0 <= cost1 && 0.0 <= cost2 && cost1 + cost2 <= wallet
    ensures Charge(wallet, cost1).answered
    ensures Charge(Charge(wallet, cost1).wallet, cost2)
            == Decision(true, Charge(wallet, cost1 + cost2).wallet)
  {
  }

  /** One line of the wallet's log: query number `query` was answered,
      spending `spent` and leaving `remaining`, or it was not allowed. */
  datatype Event =
    | Answered(query: nat, spent: real, remaining: real)
    | NotAllowed(query: nat)

  /** The log of all attempts so far and the wallet after them. */
  datatype Trace = Trace(log: seq<Event>, wallet: real)

  /** The wallet loop over attempts 1..attempts, starting from `budget`,
      every query costing `cost`. */
  function Run(budget: real, cost: real, attempts: nat): (t: Trace)
    ensures |t.log| == attempts
    ensures forall k :: 0 <= k < attempts ==> t.log[k].query == k + 1
  {
    if attempts == 0 then Trace([], budget)
    else
      var prev := Run(budget, cost, attempts - 1);
      var d := Charge(prev.wallet, cost);
      var e := if d.answered then Answered(attempts, cost, d.wallet) else NotAllowed(attempts);
      Trace(prev.log + [e], d.wallet)
  }

  /** Budget spent by the answered queries of a log. */
  function Spent(log: seq<Event>): real {
    if |log| == 0 then 0.0
    else
      var last := log[|log| - 1];
      Spent(log[..|log| - 1]) + (if last.Answered? then last.spent else 0.0)
  }

  /** Number of answered queries in a log. */
  function AnsweredCount(log: seq<Event>): nat {
    if |log| == 0 then 0
    else AnsweredCount(log[..|log| - 1]) + (if log[|log| - 1].Answered? then 1 else 0)
  }

  /** Attempt j + 1 is decided on the wallet left after the first j attempts:
      it is answered exactly when that wallet covers the cost, and then it
      reports that wallet minus the cost as remaining. */
  lemma {:induction false} RunEntry(budget: real, cost: real, attempts: nat, j: nat)
    requires j < attempts
    ensures var w := Run(budget, cost, j).wallet;
            Run(budget, cost, attempts).log[j]
            == if cost <= w then Answered(j + 1, cost, w - cost) else NotAllowed(j + 1)
  {
    if j < attempts - 1 {
      RunEntry(budget, cost, attempts - 1, j);
    }
  }

  /** Remaining wallet plus total spent is always the initial budget. */
  lemma {:induction false} RunConservesBudget(budget: real, cost: real, attempts: nat)
    ensures Run(budget, cost, attempts).wallet + Spent(Run(budget, cost, attempts).log) == budget
  {
    if attempts > 0 {
      var prev := Run(budget, cost, attempts - 1);
      var log := Run(budget, cost, attempts).log;
      assert log[..|log| - 1] == prev.log;
      RunConservesBudget(budget, cost, attempts - 1);
    }
  }

  /** What has been spent is the composed cost of the answered queries. */
  lemma {:induction false} RunSpentIsComposedCost(budget: real, cost: real, attempts: nat)
    ensures var log := Run(budget, cost, attempts).log;
            Spent(log) == TotalEpsilon(cost, AnsweredCount(log))
  {
    if attempts > 0 {
      var prev := Run(budget, cost, attempts - 1);
      var log := Run(budget, cost, attempts).log;
      assert log[..|log| - 1] == prev.log;
      RunSpentIsComposedCost(budget, cost, attempts - 1);
      TotalEpsilonStep(cost, AnsweredCount(prev.log));
    }
  }

  /** Starting from a non-negative budget, the wallet never goes negative. */
  lemma {:induction false} RunWalletNonNegative(budget: real, cost: real, attempts: nat)
    requires 0.0 <= budget
    ensures 0.0 <= Run(budget, cost, attempts).wallet
  {
    if attempts > 0 {
      RunWalletNonNegative(budget, cost, attempts - 1);
    }
  }

  /** For a non-negative cost the wallet never increases across the loop. */
  lemma {:induction false} RunWalletNeverIncreases(budget: real, cost: real, before: nat, after: nat)
    requires 0.0 <= cost
    requires before <= after
    ensures Run(budget, cost, after).wallet <= Run(budget, cost, before).wallet
    decreases after
  {
    if before < after {
      RunWalletNeverIncreases(budget, cost, before, after - 1);
    }
  }

  /** Once a query is refused the wallet stays as it is, so every later
      query (of the same cost) is refused too. */
  lemma {:induction false} RunRefusalIsFinal(budget: real, cost: real, attempts: nat, i: nat, j: nat)
    requires i <= j < attempts
    requires Run(budget, cost, attempts).log[i].NotAllowed?
    ensures Run(budget, cost, attempts).log[j].NotAllowed?
    ensures Run(budget, cost, j + 1).wallet == Run(budget, cost, i).wallet
    decreases j
  {
    RunEntry(budget, cost, attempts, i);
    if i < j {
      RunRefusalIsFinal(budget, cost, attempts, i, j - 1);
      RunEntry(budget, cost, attempts, j);
    }
  }

  /** A query is refused only when the wallet no longer covers its cost, and
      refusal leaves the wallet unchanged: so if any attempt went unanswered,
      the final wallet cannot pay for one more query. */
  lemma {:induction false} RunAnswersUntilExhausted(budget: real, cost: real, attempts: nat)
    ensures AnsweredCount(Run(budget, cost, attempts).log) <= attempts
    ensures AnsweredCount(Run(budget, cost, attempts).log) < attempts
            ==> Run(budget, cost, attempts).wallet < cost
  {
    if attempts > 0 {
      var prev := Run(budget, cost, attempts - 1);
      var log := Run(budget, cost, attempts).log;
      assert log[..|log| - 1] == prev.log;
      RunAnswersUntilExhausted(budget, cost, attempts - 1);
    }
  }

  /** For a non-negative budget and any cost, the number m of
      answered queries is the largest the budget allows: m never exceeds the
      attempts, m queries fit in the budget, and if some attempt was refused
      then one more query would not have fit. */
  lemma RunAnswersAsManyAsFit(budget: real, cost: real, attempts: nat)
    requires 0.0 <= budget
    ensures var m := AnsweredCount(Run(budget, cost, attempts).log);
            && m <= attempts
            && TotalEpsilon(cost, m) <= budget
            && (m < attempts ==> budget < TotalEpsilon(cost, m + 1))
  {
    RunAnswersUntilExhausted(budget, cost, attempts);
    RunConservesBudget(budget, cost, attempts);
    RunSpentIsComposedCost(budget, cost, attempts);
    RunWalletNonNegative(budget, cost, attempts);
    TotalEpsilonStep(cost, AnsweredCount(Run(budget, cost, attempts).log));
  }

  /** Budget 2.0 and cost 0.5 over five attempts: queries 1 to 4 are
      answered, leaving 1.5, 1.0, 0.5 and 0.0; query 5 is not allowed. */
  lemma WalletExample()
    ensures Run(2.0, 0.5, 5) == Trace([
      Answered(1, 0.5, 1.5),
      Answered(2, 0.5, 1.0),
      Answered(3, 0.5, 0.5),
      Answered(4, 0.5, 0.0),
      NotAllowed(5)], 0.0)
  {
    assert Run(2.0, 0.5, 1) == Trace([Answered(1, 0.5, 1.5)], 1.5);
    assert Run(2.0, 0.5, 2) == Trace([Answered(1, 0.5, 1.5), Answered(2, 0.5, 1.0)], 1.0);
    assert Run(2.0, 0.5, 3).wallet == 0.5;
    assert Run(2.0, 0.5, 4).wallet == 0.0;
  }

  /** The wallet loop as written: walk attempts 1..attempts, answering each
      query the wallet still covers. */
  method PrivacyWallet(budget: real, cost: real, attempts: nat) returns (log: seq<Event>, wallet: real)
    ensures Trace(log, wallet) == Run(budget, cost, attempts)
    ensures wallet + Spent(log) == budget
    ensures 0.0 <= budget ==> 0.0 <= wallet
    ensures 0.0 <= cost ==> wallet <= budget
  {
    log, wallet := [], budget;
    var i := 1;
    while i <= attempts
      invariant 1 <= i <= attempts + 1
      invariant Trace(log, wallet) == Run(budget, cost, i - 1)
    {
      if wallet >= cost {
        wallet := wallet - cost;
        log := log + [Answered(i, cost, wallet)];
      } else {
        log := log + [NotAllowed(i)];
      }
      i := i + 1;
    }
    RunConservesBudget(budget, cost, attempts);
    if 0.0 <= budget {
      RunWalletNonNegative(budget, cost, attempts);
    }
    if 0.0 <= cost {
      RunWalletNeverIncreases(budget, cost, 0, attempts);
    }
  }
}
