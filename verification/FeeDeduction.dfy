/** `BitcoinTx::deduct_fee`: sharing a fee over outputs, dropping those too small to pay. */
module FeeDeduction {
  import opened Common
  import opened BitcoinTypes
  import opened Transactions

  const MAX_U64: nat := 0xFFFF_FFFF_FFFF_FFFF

  /** An equal part of the fee. */
  function Share(fee: nat, n: nat): nat
    requires n > 0
  {
    fee / n
  }

  /** What an output can give up before it becomes dust. */
  function Spare(o: Oracle, out: TxOut): nat {
    SatSub(out.value, o.dust(out.script))
  }

  /** The outputs that can pay more than `t`, in order. */
  function Above(o: Oracle, outs: seq<TxOut>, t: nat): seq<TxOut> {
    if outs == [] then []
    else if Spare(o, outs[0]) > t then [outs[0]] + Above(o, outs[1..], t)
    else Above(o, outs[1..], t)
  }

  lemma {:induction false} AboveConcat(o: Oracle, a: seq<TxOut>, b: seq<TxOut>, t: nat)
    ensures Above(o, a + b, t) == Above(o, a, t) + Above(o, b, t)
  {
    if a == [] {
      assert a + b == b;
    } else {
      AboveConcat(o, a[1..], b, t);
      assert (a + b)[1..] == a[1..] + b;
    }
  }

  lemma {:induction false} AboveAll(o: Oracle, outs: seq<TxOut>, t: nat)
    ensures |Above(o, outs, t)| <= |outs|
    ensures forall i :: 0 <= i < |Above(o, outs, t)| ==> Spare(o, Above(o, outs, t)[i]) > t
    ensures |Above(o, outs, t)| == |outs| <==> forall i :: 0 <= i < |outs| ==> Spare(o, outs[i]) > t
    ensures |Above(o, outs, t)| == |outs| ==> Above(o, outs, t) == outs
  {
    if outs != [] {
      AboveAll(o, outs[1..], t);
      assert forall i :: 1 <= i < |outs| ==> outs[1..][i - 1] == outs[i];
      assert outs == [outs[0]] + outs[1..];
    }
  }

  /** Raising the bar in two steps is raising it once. */
  lemma {:induction false} AboveTwice(o: Oracle, outs: seq<TxOut>, t: nat, u: nat)
    requires t <= u
    ensures Above(o, Above(o, outs, t), u) == Above(o, outs, u)
  {
    if outs != [] {
      AboveTwice(o, outs[1..], t, u);
      if Spare(o, outs[0]) > t {
        assert Above(o, outs, t)[1..] == Above(o, outs[1..], t);
      }
    }
  }

  lemma AboveSnoc(o: Oracle, outs: seq<TxOut>, n: nat, t: nat)
    requires n < |outs|
    ensures Above(o, outs[..n + 1], t) ==
            Above(o, outs[..n], t) + (if Spare(o, outs[n]) > t then [outs[n]] else [])
  {
    assert outs[..n + 1] == outs[..n] + [outs[n]];
    AboveConcat(o, outs[..n], [outs[n]], t);
  }

  lemma {:induction false} AboveCount(o: Oracle, outs: seq<TxOut>, t: nat, chosen: set<nat>, n: nat)
    requires n <= |outs|
    requires forall i :: i in chosen ==> i < n && Spare(o, outs[i]) > t
    ensures |chosen| <= |Above(o, outs[..n], t)|
  {
    if n == 0 {
      assert chosen == {};
    } else {
      var rest := chosen - {n - 1};
      AboveCount(o, outs, t, rest, n - 1);
      AboveSnoc(o, outs, n - 1, t);
      if n - 1 in chosen {
        assert chosen == rest + {n - 1};
      } else {
        assert chosen == rest;
      }
    }
  }

  /** A cut-off `t` that the surviving outputs agree on: they share the fee equally, and
      all of them can pay more than their share. */
  ghost predicate Settled(o: Oracle, outs: seq<TxOut>, fee: nat, t: nat) {
    var kept := Above(o, outs, t);
    kept != [] ==> t == Share(fee, |kept|)
  }

  /** A set of outputs is affordable when each of them can pay more than an equal share. */
  ghost predicate Affordable(o: Oracle, outs: seq<TxOut>, fee: nat, chosen: set<nat>) {
    chosen != {} && forall i :: i in chosen ==> i < |outs| && Spare(o, outs[i]) > Share(fee, |chosen|)
  }

  /** No affordable set has a member at or below the bar. */
  ghost predicate Sound(o: Oracle, outs: seq<TxOut>, fee: nat, t: nat) {
    forall chosen, i :: Affordable(o, outs, fee, chosen) && i in chosen ==> i < |outs| && Spare(o, outs[i]) > t
  }

  lemma DivideByFewer(fee: nat, a: nat, b: nat)
    requires 0 < a <= b
    ensures fee / b <= fee / a
  {
    var q := fee / b;
    assert q * b <= fee;
    assert q * a <= q * b;
    DivideLower(fee, a, q);
  }

  lemma DivideLower(fee: nat, a: nat, q: nat)
    requires 0 < a && q * a <= fee
    ensures q <= fee / a
  {
    assert fee == fee / a * a + fee % a;
    assert q * a < (fee / a + 1) * a;
  }

  /** One pass raises the bar without losing an affordable set. */
  lemma SoundStep(o: Oracle, outs: seq<TxOut>, fee: nat, t: nat)
    requires Sound(o, outs, fee, t)
    requires Above(o, outs, t) != []
    ensures Sound(o, outs, fee, Share(fee, |Above(o, outs, t)|))
  {
    var n := |Above(o, outs, t)|;
    forall chosen, i | Affordable(o, outs, fee, chosen) && i in chosen
      ensures i < |outs| && Spare(o, outs[i]) > fee / n
    {
      AboveCount(o, outs, t, chosen, |outs|);
      assert outs[..|outs|] == outs;
      assert |chosen| > 0;
      DivideByFewer(fee, |chosen|, n);
    }
  }

  /** `retain` with the running minimum over all outputs looked at. */
  method Retain(o: Oracle, outs: seq<TxOut>, t: nat) returns (kept: seq<TxOut>, minOutput: nat)
    requires forall i :: 0 <= i < |outs| ==> outs[i].value <= MAX_U64
    ensures kept == Above(o, outs, t)
    ensures |kept| == |outs| && kept != [] ==> minOutput > t
    ensures |kept| < |outs| ==> minOutput <= t
  {
    kept, minOutput := [], MAX_U64;
    for i := 0 to |outs|
      invariant kept == Above(o, outs[..i], t)
      invariant forall j :: 0 <= j < i ==> minOutput <= Spare(o, outs[j])
      invariant minOutput == MAX_U64 || exists j :: 0 <= j < i && minOutput == Spare(o, outs[j])
      invariant minOutput <= MAX_U64
    {
      var spare := Spare(o, outs[i]);
      if spare < minOutput {
        minOutput := spare;
      }
      AboveSnoc(o, outs, i, t);
      if spare > t {
        kept := kept + [outs[i]];
      }
    }
    assert outs[..|outs|] == outs;
    AboveAll(o, outs, t);
    if |kept| == |outs| && kept != [] {
      assert Spare(o, outs[0]) > t && Spare(o, outs[0]) <= MAX_U64;
    }
  }

  function Charged(outs: seq<TxOut>, t: nat): (r: seq<TxOut>)
    ensures |r| == |outs|
    ensures forall i :: 0 <= i < |outs| ==> r[i].script == outs[i].script
    ensures forall i :: 0 <= i < |outs| ==> r[i].value == SatSub(outs[i].value, t)
  {
    seq(|outs|, i requires 0 <= i < |outs| => outs[i].(value := SatSub(outs[i].value, t)))
  }

  lemma {:induction false} ChargedSumTo(outs: seq<TxOut>, t: nat, n: nat)
    requires n <= |outs| && forall i :: 0 <= i < |outs| ==> outs[i].value >= t
    ensures SumTo(Charged(outs, t), n, Value) == SumTo(outs, n, Value) - n * t
  {
    if n > 0 {
      ChargedSumTo(outs, t, n - 1);
      assert n * t == (n - 1) * t + t;
    }
  }

  lemma ChargedSum(o: Oracle, outs: seq<TxOut>, t: nat)
    requires forall i :: 0 <= i < |outs| ==> Spare(o, outs[i]) > t
    ensures Sum(Charged(outs, t), Value) == Sum(outs, Value) - |outs| * t
    ensures forall i :: 0 <= i < |outs| ==> Charged(outs, t)[i].value > o.dust(outs[i].script)
  {
    assert forall i :: 0 <= i < |outs| ==> Spare(o, outs[i]) > t;
    ChargedSumTo(outs, t, |outs|);
  }

  /** The bar that survives: raise it to the equal share until nothing more drops out. */
  function CutOff(o: Oracle, outs: seq<TxOut>, fee: nat): nat
    requires outs != []
    decreases |outs|
  {
    var t := Share(fee, |outs|);
    var kept := Above(o, outs, t);
    AboveAll(o, outs, t);
    if kept == [] || |kept| == |outs| then t else CutOff(o, kept, fee)
  }

  function Deducted(o: Oracle, outs: seq<TxOut>, fee: nat): Result<seq<TxOut>> {
    if fee == 0 then Ok(outs)
    else if outs == [] then Err(Rejected)
    else var t := CutOff(o, outs, fee); Ok(Charged(Above(o, outs, t), t))
  }

  lemma {:induction false} CutOffCorrect(o: Oracle, outs: seq<TxOut>, cur: seq<TxOut>, fee: nat)
    requires cur != []
    requires Sound(o, outs, fee, Share(fee, |cur|))
    requires forall t :: Share(fee, |cur|) <= t ==> Above(o, cur, t) == Above(o, outs, t)
    ensures var t := CutOff(o, cur, fee);
            Settled(o, outs, fee, t) && Sound(o, outs, fee, t)
    decreases |cur|
  {
    var t := Share(fee, |cur|);
    var kept := Above(o, cur, t);
    AboveAll(o, cur, t);
    if kept != [] && |kept| < |cur| {
      SoundStep(o, outs, fee, t);
      DivideByFewer(fee, |kept|, |cur|);
      forall u | Share(fee, |kept|) <= u ensures Above(o, kept, u) == Above(o, outs, u) {
        AboveTwice(o, cur, t, u);
      }
      CutOffCorrect(o, outs, kept, fee);
    }
  }

  /**
    What `deduct_fee` leaves: exactly the outputs above a settled cut-off, the greatest
    affordable set, in order. Each pays an equal share and ends above its dust limit, and
    together they pay their number times that share.
   */
  lemma DeductedGreatest(o: Oracle, outs: seq<TxOut>, fee: nat)
    requires fee != 0 && outs != []
    ensures var t, r := CutOff(o, outs, fee), Deducted(o, outs, fee).value;
            var kept := Above(o, outs, t);
            && Settled(o, outs, fee, t) && Sound(o, outs, fee, t)
            && (kept != [] ==> Affordable(o, outs, fee, Positions(o, outs, t, |outs|)))
            && |r| == |kept|
            && (forall i :: 0 <= i < |r| ==>
                  && r[i].script == kept[i].script && r[i].value == kept[i].value - fee / |kept|
                  && r[i].value > o.dust(r[i].script))
            && Sum(r, Value) == Sum(kept, Value) - (if kept == [] then 0 else |kept| * (Share(fee, |kept|)))
  {
    var t := CutOff(o, outs, fee);
    SoundAtFirst(o, outs, fee);
    CutOffCorrect(o, outs, outs, fee);
    SettledAffordable(o, outs, fee, t);
    AboveAll(o, outs, t);
    ChargedSum(o, Above(o, outs, t), t);
  }

  /** Above a settled cut-off stands an affordable set. */
  lemma SettledAffordable(o: Oracle, outs: seq<TxOut>, fee: nat, t: nat)
    requires Settled(o, outs, fee, t)
    ensures Above(o, outs, t) != [] ==> Affordable(o, outs, fee, Positions(o, outs, t, |outs|))
  {
    PositionsCount(o, outs, t, |outs|);
    assert outs[..|outs|] == outs;
  }

  /** Once nothing drops out, the bar is where it is. */
  lemma CutOffSettled(o: Oracle, kept: seq<TxOut>, fee: nat, t: nat)
    requires kept != [] && t == Share(fee, |kept|)
    requires forall i :: 0 <= i < |kept| ==> Spare(o, kept[i]) > t
    ensures CutOff(o, kept, fee) == t && Above(o, kept, t) == kept
  {
    AboveAll(o, kept, t);
  }

  /** `deduct_fee`. */
  method DeductFee(o: Oracle, outs: seq<TxOut>, fee: nat) returns (r: Result<seq<TxOut>>)
    requires forall i :: 0 <= i < |outs| ==> outs[i].value <= MAX_U64
    ensures r == Deducted(o, outs, fee)
  {
    if fee == 0 {
      return Ok(outs);
    }
    if |outs| == 0 {
      return Err(Rejected);
    }
    var kept, threshold := Settle(o, outs, fee);
    var output := ChargeEach(o, kept, threshold);
    return Ok(output);
  }

  /** Drops outputs until all that are left can pay. The loop ends because every repeated pass
      drops an output. */
  method Settle(o: Oracle, outs: seq<TxOut>, fee: nat) returns (output: seq<TxOut>, threshold: nat)
    requires outs != [] && Bounded(outs)
    ensures threshold == CutOff(o, outs, fee) && output == Above(o, outs, threshold)
    ensures forall i :: 0 <= i < |output| ==> Spare(o, output[i]) > threshold
  {
    output := outs;
    while true
      invariant output != [] && Bounded(output) && SameCut(o, output, outs, fee)
      decreases |output|
    {
      threshold := Share(fee, |output|);
      var kept, minOutput := Retain(o, output, threshold);
      PassKeeps(o, output, outs, fee);
      output := kept;
      if |output| == 0 {
        return;
      }
      if minOutput >= Share(fee, |output|) {
        threshold := Share(fee, |output|);
        CutOffSettled(o, output, fee, threshold);
        return;
      }
    }
  }

  ghost predicate Bounded(outs: seq<TxOut>) {
    forall i :: 0 <= i < |outs| ==> outs[i].value <= MAX_U64
  }

  /** The same outputs survive, above the same cut-off. */
  ghost predicate SameCut(o: Oracle, a: seq<TxOut>, b: seq<TxOut>, fee: nat)
    requires a != [] && b != []
  {
    var t := CutOff(o, b, fee);
    CutOff(o, a, fee) == t && Above(o, a, t) == Above(o, b, t)
  }

  /** One pass changes neither the cut-off nor what lies above it. */
  lemma PassKeeps(o: Oracle, cur: seq<TxOut>, outs: seq<TxOut>, fee: nat)
    requires cur != [] && outs != [] && Bounded(cur) && SameCut(o, cur, outs, fee)
    ensures var t := Share(fee, |cur|); var kept := Above(o, cur, t);
            && |kept| <= |cur| && Bounded(kept)
            && (forall i :: 0 <= i < |kept| ==> Spare(o, kept[i]) > t)
            && (kept == [] ==> t == CutOff(o, outs, fee) && Above(o, outs, t) == [])
            && (kept != [] ==> SameCut(o, kept, outs, fee))
  {
    var t := Share(fee, |cur|);
    AboveAll(o, cur, t);
    AboveSubset(o, cur, t);
    var kept := Above(o, cur, t);
    PassSame(o, cur, fee, kept);
    if kept != [] {
      SameCutTransitive(o, kept, cur, outs, fee);
    }
  }

  lemma SameCutTransitive(o: Oracle, a: seq<TxOut>, b: seq<TxOut>, c: seq<TxOut>, fee: nat)
    requires a != [] && b != [] && c != [] && SameCut(o, a, b, fee) && SameCut(o, b, c, fee)
    ensures SameCut(o, a, c, fee)
  {
  }

  lemma PassSame(o: Oracle, cur: seq<TxOut>, fee: nat, kept: seq<TxOut>)
    requires cur != [] && kept == Above(o, cur, Share(fee, |cur|)) && |kept| <= |cur|
    ensures kept == [] ==> CutOff(o, cur, fee) == Share(fee, |cur|)
    ensures kept != [] ==> SameCut(o, kept, cur, fee)
  {
    var t := Share(fee, |cur|);
    AboveAll(o, cur, t);
    if kept != [] && |kept| < |cur| {
      DivideByFewer(fee, |kept|, |cur|);
      CutOffAbove(o, kept, fee);
      AboveTwice(o, cur, t, CutOff(o, kept, fee));
    }
  }

  method ChargeEach(o: Oracle, kept: seq<TxOut>, threshold: nat) returns (output: seq<TxOut>)
    requires forall i :: 0 <= i < |kept| ==> Spare(o, kept[i]) > threshold
    ensures output == Charged(kept, threshold)
  {
    output := kept;
    for i := 0 to |output|
      invariant |output| == |kept|
      invariant forall j :: 0 <= j < i ==> output[j] == Charged(kept, threshold)[j]
      invariant forall j :: i <= j < |output| ==> output[j] == kept[j]
    {
      output := output[i := output[i].(value := output[i].value - threshold)];
    }
  }

  lemma {:induction false} CutOffAbove(o: Oracle, outs: seq<TxOut>, fee: nat)
    requires outs != []
    ensures CutOff(o, outs, fee) >= Share(fee, |outs|)
    decreases |outs|
  {
    var kept := Above(o, outs, Share(fee, |outs|));
    AboveAll(o, outs, Share(fee, |outs|));
    if kept != [] && |kept| < |outs| {
      DivideByFewer(fee, |kept|, |outs|);
      CutOffAbove(o, kept, fee);
    }
  }

  lemma {:induction false} AboveSubset(o: Oracle, outs: seq<TxOut>, t: nat)
    requires forall i :: 0 <= i < |outs| ==> outs[i].value <= MAX_U64
    ensures forall i :: 0 <= i < |Above(o, outs, t)| ==> Above(o, outs, t)[i].value <= MAX_U64
  {
    if outs != [] {
      AboveSubset(o, outs[1..], t);
    }
  }

  lemma SoundAtFirst(o: Oracle, outs: seq<TxOut>, fee: nat)
    requires outs != []
    ensures Sound(o, outs, fee, Share(fee, |outs|))
  {
    forall chosen, i | Affordable(o, outs, fee, chosen) && i in chosen
      ensures i < |outs| && Spare(o, outs[i]) > Share(fee, |outs|)
    {
      BoundedCount(chosen, |outs|);
      DivideByFewer(fee, |chosen|, |outs|);
    }
  }

  lemma {:induction false} BoundedCount(s: set<nat>, n: nat)
    requires forall i :: i in s ==> i < n
    ensures |s| <= n
  {
    if n == 0 {
      assert s == {};
    } else {
      BoundedCount(s - {n - 1}, n - 1);
      if n - 1 in s {
        assert s == (s - {n - 1}) + {n - 1};
      } else {
        assert s == s - {n - 1};
      }
    }
  }

  /**
    The survivors are an affordable set that contains every affordable set, and there is
    only one cut-off with that property: any two settled, sound cut-offs keep the same
    outputs.
   */
  lemma SurvivorsUnique(o: Oracle, outs: seq<TxOut>, fee: nat, t: nat, u: nat)
    requires Settled(o, outs, fee, t) && Sound(o, outs, fee, t)
    requires Settled(o, outs, fee, u) && Sound(o, outs, fee, u)
    ensures Above(o, outs, t) == Above(o, outs, u)
  {
    if t < u {
      SettledBelow(o, outs, fee, t, u);
    } else if u < t {
      SettledBelow(o, outs, fee, u, t);
    }
  }

  /** Positions, among the first `n`, of the outputs above a bar. */
  ghost function Positions(o: Oracle, outs: seq<TxOut>, t: nat, n: nat): set<nat>
    requires n <= |outs|
  {
    set i: nat | i < n && Spare(o, outs[i]) > t
  }

  lemma {:induction false} PositionsCount(o: Oracle, outs: seq<TxOut>, t: nat, n: nat)
    requires n <= |outs|
    ensures |Positions(o, outs, t, n)| == |Above(o, outs[..n], t)|
  {
    if n == 0 {
      assert Positions(o, outs, t, n) == {};
    } else {
      PositionsCount(o, outs, t, n - 1);
      AboveSnoc(o, outs, n - 1, t);
      PositionsStep(o, outs, t, n - 1);
    }
  }

  lemma PositionsStep(o: Oracle, outs: seq<TxOut>, t: nat, n: nat)
    requires n < |outs|
    ensures |Positions(o, outs, t, n + 1)| == |Positions(o, outs, t, n)| + (if Spare(o, outs[n]) > t then 1 else 0)
  {
    if Spare(o, outs[n]) > t {
      assert Positions(o, outs, t, n + 1) == Positions(o, outs, t, n) + {n};
    } else {
      assert Positions(o, outs, t, n + 1) == Positions(o, outs, t, n);
    }
  }

  lemma SettledBelow(o: Oracle, outs: seq<TxOut>, fee: nat, t: nat, u: nat)
    requires t < u && Settled(o, outs, fee, t) && Sound(o, outs, fee, u)
    ensures Above(o, outs, t) == Above(o, outs, u)
  {
    var chosen := Positions(o, outs, t, |outs|);
    PositionsCount(o, outs, t, |outs|);
    assert outs[..|outs|] == outs;
    AboveTwice(o, outs, t, u);
    AboveAll(o, outs, t);
    if chosen != {} {
      assert Affordable(o, outs, fee, chosen);
      AboveCount(o, outs, u, chosen, |outs|);
      assert outs[..|outs|] == outs;
      AboveAll(o, Above(o, outs, t), u);
    }
  }
}
