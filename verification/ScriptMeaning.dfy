/**
  The meaning of a redeem script: it accepts a witness exactly when the witness has one
  element per signatory and the truncated power of the valid signatures exceeds the truncated
  threshold. Acceptance never needs less than the real threshold.
 */
module ScriptMeaning {
  import opened Common
  import opened BitcoinTypes
  import opened SignatorySets
  import opened ScriptNums
  import opened Scripts
  import opened RedeemScripts
  import TS = ThresholdSigs

  /** Signatory `i` is paired with element `i` of the witness counted from its end. */
  predicate SignedBy(check: Checker, sigs: seq<Signatory>, w: seq<Bytes>, i: nat)
    requires i < |sigs| && i < |w|
  {
    check(w[|w| - 1 - i], sigs[i].key)
  }

  /** The truncated power of the valid signatures among the first `n` signatories. */
  function Weight(check: Checker, sigs: seq<Signatory>, w: seq<Bytes>, t: nat, n: nat): nat
    requires n <= |sigs| && n <= |w|
  {
    if n == 0 then 0
    else Weight(check, sigs, w, t, n - 1) + if SignedBy(check, sigs, w, n - 1) then Truncated(sigs[n - 1], t) else 0
  }

  function TruncatedPower(t: nat): Signatory -> int {
    (s: Signatory) => Truncated(s, t)
  }

  // ----- truncation of sums -----

  lemma {:induction false} ShiftMonotone(a: nat, b: nat, t: nat)
    requires a <= b
    ensures Shift(a, t) <= Shift(b, t)
  {
    if t > 0 {
      ShiftMonotone(a / 2, b / 2, t - 1);
    }
  }

  lemma {:induction false} ShiftSum(a: nat, b: nat, t: nat)
    ensures Shift(a, t) + Shift(b, t) <= Shift(a + b, t)
  {
    if t > 0 {
      ShiftSum(a / 2, b / 2, t - 1);
      ShiftMonotone(a / 2 + b / 2, (a + b) / 2, t - 1);
    }
  }

  lemma {:induction false} TruncatedSum(sigs: seq<Signatory>, t: nat, n: nat)
    requires n <= |sigs|
    ensures 0 <= SumTo(sigs, n, SignatoryPower)
    ensures 0 <= SumTo(sigs, n, TruncatedPower(t)) <= Shift(SumTo(sigs, n, SignatoryPower), t)
  {
    if n > 0 {
      TruncatedSum(sigs, t, n - 1);
      ShiftSum(SumTo(sigs, n - 1, SignatoryPower), sigs[n - 1].power, t);
    } else {
      ShiftZero(t);
    }
  }

  lemma {:induction false} ShiftZero(t: nat)
    ensures Shift(0, t) == 0
  {
    if t > 0 {
      ShiftZero(t - 1);
    }
  }

  /** The truncated powers of a well-formed set sum to less than 2^23, and so does its threshold. */
  lemma SetFits(sigset: SignatorySet, n: nat)
    requires SignatorySets.WellFormed(sigset) && n <= |sigset.signatories|
    ensures SumTo(sigset.signatories, n, TruncatedPower(Truncation(sigset.presentVp))) < LIMIT
    ensures TruncatedThreshold(sigset) < LIMIT
  {
    var t, sigs := Truncation(sigset.presentVp), sigset.signatories;
    TruncatedSum(sigs, t, |sigs|);
    SumToMonotone(sigs, n, |sigs|, TruncatedPower(t));
    TruncatedFits(sigset.presentVp);
    ShiftMonotone(TS.TwoThirds(sigset.presentVp), sigset.presentVp, t);
  }

  // ----- running the code -----

  lemma {:induction false} WeightBound(check: Checker, sigs: seq<Signatory>, w: seq<Bytes>, t: nat, n: nat)
    requires n <= |sigs| && n <= |w|
    ensures Weight(check, sigs, w, t, n) <= SumTo(sigs, n, TruncatedPower(t))
  {
    if n > 0 {
      WeightBound(check, sigs, w, t, n - 1);
    }
  }

  function Start(w: seq<Bytes>): Machine {
    Running(StackOf(w, |w|), NoCond)
  }

  /** After the code of `n` signatories the accumulator stands above the signatures not used. */
  lemma {:induction false} CodeRuns(check: Checker, sigs: seq<Signatory>, t: nat, w: seq<Bytes>, n: nat)
    requires 1 <= n <= |sigs| && n <= |w| && SumTo(sigs, n, TruncatedPower(t)) < LIMIT
    ensures Execute(check, Code(sigs, t, n), Start(w))
         == Running(Item(EncodeNum(Weight(check, sigs, w, t, n)), StackOf(w, |w| - n)), NoCond)
  {
    var sig, rest := w[|w| - n], StackOf(w, |w| - n);
    assert StackOf(w, |w| - n + 1) == Item(sig, rest);
    if n == 1 {
      SumToZero(sigs, 0, TruncatedPower(t));
      assert Code(sigs, t, 1) == FirstCode(sigs[0], t) by {
        assert Code(sigs, t, 0) == [];
      }
      FirstRuns(check, sigs[0], t, sig, rest);
    } else {
      TruncatedSum(sigs, t, n - 1);
      CodeRuns(check, sigs, t, w, n - 1);
      WeightBound(check, sigs, w, t, n - 1);
      ExecuteConcat(check, Code(sigs, t, n - 1), NextCode(sigs[n - 1], t), Start(w));
      NextRuns(check, sigs[n - 1], t, Weight(check, sigs, w, t, n - 1), sig, rest);
    }
  }

  lemma {:induction false} FailedStays(check: Checker, ins: seq<Instr>, n: nat)
    requires n <= |ins|
    ensures RunTo(check, ins, n, Failed) == Failed
  {
    if n > 0 {
      FailedStays(check, ins, n - 1);
    }
  }

  /** A signatory without a witness element makes the script fail. */
  lemma NextFails(check: Checker, s: Signatory, t: nat, x: Bytes)
    ensures Execute(check, NextCode(s, t), Running(Item(x, Empty), NoCond)) == Failed
  {
    var ins, m := NextCode(s, t), Running(Item(x, Empty), NoCond);
    assert RunTo(check, ins, 1, m) == Failed;
    assert RunTo(check, ins, 2, m) == Failed;
    assert RunTo(check, ins, 3, m) == Failed;
    assert RunTo(check, ins, 4, m) == Failed;
    assert RunTo(check, ins, 5, m) == Failed;
    assert RunTo(check, ins, 6, m) == Failed;
  }

  lemma FirstFails(check: Checker, s: Signatory, t: nat)
    ensures Execute(check, FirstCode(s, t), Running(Empty, NoCond)) == Failed
  {
    var ins, m := FirstCode(s, t), Running(Empty, NoCond);
    assert RunTo(check, ins, 1, m) == Running(Item(s.key, Empty), NoCond);
    assert RunTo(check, ins, 2, m) == Failed;
    assert RunTo(check, ins, 3, m) == Failed;
    assert RunTo(check, ins, 4, m) == Failed;
    assert RunTo(check, ins, 5, m) == Failed;
    assert RunTo(check, ins, 6, m) == Failed;
  }

  lemma {:induction false} ShortFails(check: Checker, sigs: seq<Signatory>, t: nat, w: seq<Bytes>, n: nat)
    requires |w| < n <= |sigs| && SumTo(sigs, n, TruncatedPower(t)) < LIMIT
    ensures Execute(check, Code(sigs, t, n), Start(w)) == Failed
  {
    if n == 1 {
      assert Code(sigs, t, 1) == FirstCode(sigs[0], t) by {
        assert Code(sigs, t, 0) == [];
      }
      FirstFails(check, sigs[0], t);
    } else {
      TruncatedSum(sigs, t, n - 1);
      ExecuteConcat(check, Code(sigs, t, n - 1), NextCode(sigs[n - 1], t), Start(w));
      if |w| < n - 1 {
        ShortFails(check, sigs, t, w, n - 1);
        FailedStays(check, NextCode(sigs[n - 1], t), 7);
      } else {
        CodeRuns(check, sigs, t, w, n - 1);
        NextFails(check, sigs[n - 1], t, EncodeNum(Weight(check, sigs, w, t, n - 1)));
      }
    }
  }

  /**
    Script compiler correctness: whatever the witness, the script of a well-formed set accepts
    it exactly when it has one element per signatory and the truncated power of the signatures
    valid for their own keys exceeds the truncated threshold.
   */
  lemma ScriptMeans(check: Checker, sigset: SignatorySet, dest: Bytes, w: seq<Bytes>)
    requires SignatorySets.WellFormed(sigset) && sigset.signatories != []
    ensures var sigs, t := sigset.signatories, Truncation(sigset.presentVp);
            Accepts(check, RedeemCode(sigset, dest), w) <==>
            |w| == |sigs| && Weight(check, sigs, w, t, |sigs|) > TruncatedThreshold(sigset)
  {
    var sigs, t, th := sigset.signatories, Truncation(sigset.presentVp), TruncatedThreshold(sigset);
    var n := |sigs|;
    SetFits(sigset, n);
    ExecuteConcat(check, Code(sigs, t, n), EndCode(th, dest), Start(w));
    if |w| < n {
      ShortFails(check, sigs, t, w, n);
      FailedStays(check, EndCode(th, dest), 4);
    } else {
      CodeRuns(check, sigs, t, w, n);
      WeightBound(check, sigs, w, t, n);
      EndRuns(check, Weight(check, sigs, w, t, n), th, dest, StackOf(w, |w| - n));
      BoolItems();
    }
  }
}
