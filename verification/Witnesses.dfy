/**
  `to_witness` and what it means to the redeem script: every signature meets its own key, and
  acceptance is compared with `signed`.
 */
module Witnesses {
  import opened Common
  import opened BitcoinTypes
  import opened Ordering
  import opened SignatorySets
  import opened ScriptNums
  import opened Scripts
  import opened RedeemScripts
  import opened ScriptMeaning
  import TS = ThresholdSigs

  // ----- real power against truncated power -----

  /** The real power of the valid signatures among the first `n` signatories. */
  function RealPower(check: Checker, sigs: seq<Signatory>, w: seq<Bytes>, n: nat): nat
    requires n <= |sigs| && n <= |w|
  {
    if n == 0 then 0
    else RealPower(check, sigs, w, n - 1) + if SignedBy(check, sigs, w, n - 1) then sigs[n - 1].power else 0
  }

  function Signers(check: Checker, sigs: seq<Signatory>, w: seq<Bytes>, n: nat): nat
    requires n <= |sigs| && n <= |w|
  {
    if n == 0 then 0 else Signers(check, sigs, w, n - 1) + if SignedBy(check, sigs, w, n - 1) then 1 else 0
  }

  lemma TimesSum(a: nat, b: nat, c: nat)
    ensures Times(a + b, c) == Times(a, c) + Times(b, c)
  {
  }

  lemma TimesOrder(a: nat, b: nat, c: nat)
    requires a <= b
    ensures Times(a, c) <= Times(b, c)
  {
    TimesSum(a, b - a, c);
  }

  /** Each signer loses less than one unit of 2^t to truncation. */
  lemma {:induction false} PowerBounds(check: Checker, sigs: seq<Signatory>, w: seq<Bytes>, t: nat, n: nat)
    requires n <= |sigs| && n <= |w|
    ensures var scaled := Times(Weight(check, sigs, w, t, n), Pow2(t));
            var k := Signers(check, sigs, w, n);
            scaled <= RealPower(check, sigs, w, n) <= scaled + Times(k, Pow2(t)) - k
  {
    if n > 0 {
      PowerBounds(check, sigs, w, t, n - 1);
      if SignedBy(check, sigs, w, n - 1) {
        var p := Truncated(sigs[n - 1], t);
        ShiftBounds(sigs[n - 1].power, t);
        TimesSum(Weight(check, sigs, w, t, n - 1), p, Pow2(t));
        TimesSum(Signers(check, sigs, w, n - 1), 1, Pow2(t));
        TimesSum(p, 1, Pow2(t));
      }
    }
  }

  /** Exceeding the truncated threshold means exceeding the real one. */
  lemma TruncationSound(weight: nat, threshold: nat, power: nat, t: nat)
    requires Times(weight, Pow2(t)) <= power && weight > Shift(threshold, t)
    ensures power > threshold
  {
    ShiftBounds(threshold, t);
    TimesOrder(Shift(threshold, t) + 1, weight, Pow2(t));
  }

  lemma TruncationComplete(weight: nat, threshold: nat, t: nat)
    requires Times(weight, Pow2(t)) > threshold
    ensures weight > Shift(threshold, t)
  {
    ShiftBounds(threshold, t);
    if weight <= Shift(threshold, t) {
      TimesOrder(weight, Shift(threshold, t), Pow2(t));
    }
  }

  /** No witness is accepted without signatures of more than the real threshold. */
  lemma AcceptedIsBacked(check: Checker, sigset: SignatorySet, dest: Bytes, w: seq<Bytes>)
    requires SignatorySets.WellFormed(sigset) && sigset.signatories != []
    requires Accepts(check, RedeemCode(sigset, dest), w)
    ensures var sigs := sigset.signatories;
            |w| == |sigs| && RealPower(check, sigs, w, |sigs|) > TS.TwoThirds(sigset.presentVp)
  {
    var sigs, t := sigset.signatories, Truncation(sigset.presentVp);
    ScriptMeans(check, sigset, dest, w);
    PowerBounds(check, sigs, w, t, |sigs|);
    TruncationSound(Weight(check, sigs, w, t, |sigs|), TS.TwoThirds(sigset.presentVp),
                    RealPower(check, sigs, w, |sigs|), t);
  }

  /** A margin of one unit of 2^t per signer above the threshold is always enough. */
  lemma MarginIsAccepted(check: Checker, sigset: SignatorySet, dest: Bytes, w: seq<Bytes>)
    requires SignatorySets.WellFormed(sigset) && sigset.signatories != [] && |w| == |sigset.signatories|
    requires var sigs := sigset.signatories; var k := Signers(check, sigs, w, |sigs|);
             k > 0 && RealPower(check, sigs, w, |sigs|)
                      >= TS.TwoThirds(sigset.presentVp) + Times(k, Pow2(Truncation(sigset.presentVp)))
    ensures Accepts(check, RedeemCode(sigset, dest), w)
  {
    var sigs, t := sigset.signatories, Truncation(sigset.presentVp);
    ScriptMeans(check, sigset, dest, w);
    PowerBounds(check, sigs, w, t, |sigs|);
    TruncationComplete(Weight(check, sigs, w, t, |sigs|), TS.TwoThirds(sigset.presentVp), t);
  }

  // ----- to_witness -----

  function Rank(e: Entry): Signatory {
    Signatory(e.share.power, e.key)
  }

  /** The witness element of an entry: the signature in DER form with its sighash type, or
      nothing. */
  function Element(der: Signature -> Bytes, e: Entry): Bytes {
    if e.share.sig.Some? then der(e.share.sig.value) + [1] else []
  }

  /** `to_witness`: nothing before the threshold is passed, then all entries in ascending order. */
  function Witness(der: Signature -> Bytes, ts: ThresholdSig): seq<Bytes> {
    if !TS.Signed(ts) then [] else
    var entries := Sort(ts.sigs, Rank);
    seq(|entries|, i requires 0 <= i < |entries| => Element(der, entries[i]))
  }

  /** The entries belong to the set, in its order. */
  ghost predicate Matches(ts: ThresholdSig, sigset: SignatorySet) {
    |ts.sigs| == |sigset.signatories| && forall i :: 0 <= i < |ts.sigs| ==> Rank(ts.sigs[i]) == sigset.signatories[i]
  }

  ghost predicate DistinctKeys(sigs: seq<Signatory>) {
    forall i, j :: 0 <= i < j < |sigs| ==> sigs[i].key != sigs[j].key
  }

  /** Fresh entries match their set. */
  lemma FreshMatches(sigset: SignatorySet)
    requires TS.Fresh(TS.EntriesOf(sigset.signatories)).Ok?
    ensures Matches(TS.Fresh(TS.EntriesOf(sigset.signatories)).value, sigset)
  {
  }

  lemma EntriesRanked(ts: ThresholdSig, sigset: SignatorySet)
    requires Matches(ts, sigset) && DistinctKeys(sigset.signatories)
    ensures Ranked(Sort(ts.sigs, Rank), Rank)
  {
    SortCorrect(ts.sigs, Rank);
    var entries := Sort(ts.sigs, Rank);
    forall x, y | x in entries && y in entries && Rank(x) == Rank(y) ensures x == y {
      assert x in multiset(entries) && y in multiset(entries);
      assert x in ts.sigs && y in ts.sigs;
      var i :| 0 <= i < |ts.sigs| && ts.sigs[i] == x;
      var j :| 0 <= j < |ts.sigs| && ts.sigs[j] == y;
      assert Rank(ts.sigs[i]) == sigset.signatories[i] && Rank(ts.sigs[j]) == sigset.signatories[j];
    }
  }

  /** Sorting the entries ascending turns the order of the signatories around. */
  lemma SortedIsReversed(ts: ThresholdSig, sigset: SignatorySet)
    requires SignatorySets.WellFormed(sigset) && Matches(ts, sigset) && DistinctKeys(sigset.signatories)
    ensures Sort(ts.sigs, Rank) == Reverse(ts.sigs)
  {
    var a, b := Sort(ts.sigs, Rank), Reverse(ts.sigs);
    SortCorrect(ts.sigs, Rank);
    ReverseMultiset(ts.sigs);
    EntriesRanked(ts, sigset);
    forall i, j | 0 <= i < j < |b| ensures Le(Rank(b[i]), Rank(b[j])) {
      var n := |b| - 1;
      assert Rank(ts.sigs[n - i]) == sigset.signatories[n - i] && Rank(ts.sigs[n - j]) == sigset.signatories[n - j];
    }
    AscendingUnique(a, b, Rank);
  }

  /** Every signatory finds its own element where the script looks for it. */
  lemma WitnessPairs(der: Signature -> Bytes, ts: ThresholdSig, sigset: SignatorySet)
    requires SignatorySets.WellFormed(sigset) && Matches(ts, sigset) && DistinctKeys(sigset.signatories)
    requires TS.Signed(ts)
    ensures var w := Witness(der, ts);
            |w| == |ts.sigs| && forall i :: 0 <= i < |w| ==> w[|w| - 1 - i] == Element(der, ts.sigs[i])
  {
    SortedIsReversed(ts, sigset);
  }

  /** Stored signatures are valid for their own keys, and an empty element for none. */
  ghost predicate Verified(check: Checker, der: Signature -> Bytes, ts: ThresholdSig) {
    && (forall key :: !check([], key))
    && (forall i :: 0 <= i < |ts.sigs| && ts.sigs[i].share.sig.Some? ==>
          check(Element(der, ts.sigs[i]), ts.sigs[i].key))
  }

  /** `sign` only stores signatures it has verified. */
  lemma SignKeepsVerified(o: Oracle, check: Checker, der: Signature -> Bytes, ts: ThresholdSig, key: Pubkey,
                          sig: Signature)
    requires Verified(check, der, ts) && TS.Sign(o, ts, key, sig).Ok?
    requires forall k, s :: o.verify(ts.message, k, s) ==> check(der(s) + [1], k)
    ensures Verified(check, der, TS.Sign(o, ts, key, sig).value)
  {
  }

  lemma {:induction false} PairedPower(check: Checker, der: Signature -> Bytes, ts: ThresholdSig, sigs: seq<Signatory>,
                                       w: seq<Bytes>, t: nat, n: nat)
    requires n <= |ts.sigs| == |sigs| == |w| && Verified(check, der, ts)
    requires forall i :: 0 <= i < |sigs| ==> Rank(ts.sigs[i]) == sigs[i] && w[|w| - 1 - i] == Element(der, ts.sigs[i])
    ensures RealPower(check, sigs, w, n) == SumTo(ts.sigs, n, TS.SignedPower)
    ensures Weight(check, sigs, w, t, n) == SumTo(ts.sigs, n, SignedWeight(t))
  {
    if n > 0 {
      PairedPower(check, der, ts, sigs, w, t, n - 1);
      assert Rank(ts.sigs[n - 1]) == sigs[n - 1];
    }
  }

  /** The signatures in the witness carry exactly the power that was counted. */
  lemma WitnessPower(check: Checker, der: Signature -> Bytes, ts: ThresholdSig, sigset: SignatorySet)
    requires SignatorySets.WellFormed(sigset) && Matches(ts, sigset) && DistinctKeys(sigset.signatories)
    requires TS.Signed(ts) && Verified(check, der, ts)
    ensures |Witness(der, ts)| == |ts.sigs| == |sigset.signatories|
    ensures RealPower(check, sigset.signatories, Witness(der, ts), |ts.sigs|) == Sum(ts.sigs, TS.SignedPower)
    ensures Weight(check, sigset.signatories, Witness(der, ts), Truncation(sigset.presentVp), |ts.sigs|)
         == Sum(ts.sigs, SignedWeight(Truncation(sigset.presentVp)))
  {
    WitnessPairs(der, ts, sigset);
    PairedPower(check, der, ts, sigset.signatories, Witness(der, ts), Truncation(sigset.presentVp), |ts.sigs|);
  }

  /** The truncated power of an entry that has signed. */
  function SignedWeight(t: nat): Entry -> int {
    (e: Entry) => if e.share.sig.Some? then Shift(e.share.power, t) else 0
  }

  /**
    The witness of a threshold signature is accepted exactly when the truncated powers of the
    signers exceed the truncated threshold, and then the signature is `signed`; with a total
    power below 2^23 acceptance and `signed` are the same.
   */
  lemma WitnessMeans(check: Checker, der: Signature -> Bytes, ts: ThresholdSig, sigset: SignatorySet, dest: Bytes)
    requires SignatorySets.WellFormed(sigset) && sigset.signatories != [] && DistinctKeys(sigset.signatories)
    requires TS.Valid(ts) && Matches(ts, sigset) && Verified(check, der, ts)
    ensures var t := Truncation(sigset.presentVp);
            var accepted := Accepts(check, RedeemCode(sigset, dest), Witness(der, ts));
            && (accepted <==> TS.Signed(ts) && Sum(ts.sigs, SignedWeight(t)) > TruncatedThreshold(sigset))
            && (sigset.presentVp < LIMIT ==> (accepted <==> TS.Signed(ts)))
  {
    var w, t := Witness(der, ts), Truncation(sigset.presentVp);
    ScriptMeans(check, sigset, dest, w);
    if TS.Signed(ts) {
      WitnessPower(check, der, ts, sigset);
      if sigset.presentVp < LIMIT {
        TruncatedFits(sigset.presentVp);
        SumAgrees(ts.sigs, ts.sigs, SignedWeight(0), TS.SignedPower);
        ThresholdsMeet(ts, sigset);
      }
    }
  }

  /** The threshold of the signatures is the threshold of the script. */
  lemma ThresholdsMeet(ts: ThresholdSig, sigset: SignatorySet)
    requires TS.Valid(ts) && Matches(ts, sigset) && SignatorySets.WellFormed(sigset)
    ensures ts.threshold == TS.TwoThirds(sigset.presentVp)
  {
    MatchedPower(ts.sigs, sigset.signatories, |ts.sigs|);
  }

  lemma {:induction false} MatchedPower(es: seq<Entry>, sigs: seq<Signatory>, n: nat)
    requires n <= |es| == |sigs| && forall i :: 0 <= i < |es| ==> Rank(es[i]) == sigs[i]
    ensures SumTo(es, n, TS.Power) == SumTo(sigs, n, SignatoryPower)
  {
    if n > 0 {
      MatchedPower(es, sigs, n - 1);
      assert Rank(es[n - 1]) == sigs[n - 1];
    }
  }

  // ----- a signed input that the script rejects -----

  /** Three signatories with distinct keys, those of equal power in the order of their keys. */
  predicate KeysFit(k1: Pubkey, k2: Pubkey, k3: Pubkey) {
    && |k1| == 33 && |k2| == 33 && |k3| == 33
    && k1 != k2 && k1 != k3 && k2 != k3 && Lex(k3, k2)
  }

  function Uneven(k1: Pubkey, k2: Pubkey, k3: Pubkey): SignatorySet {
    SignatorySet(0, 8388611, 8388611, 0,
                 [Signatory(2796205, k1), Signatory(2796203, k2), Signatory(2796203, k3)])
  }

  /** The first two of the three have signed. */
  function UnevenSigs(k1: Pubkey, k2: Pubkey, k3: Pubkey, a: Signature, b: Signature): ThresholdSig {
    ThresholdSig(5592407, 5592408, [], 3,
                 [Entry(k1, Share(2796205, Some(a))), Entry(k2, Share(2796203, Some(b))), Entry(k3, Share(2796203, None))])
  }

  lemma SumThree<T>(x: T, y: T, z: T, f: T -> int)
    ensures Sum([x, y, z], f) == f(x) + f(y) + f(z)
  {
    var s := [x, y, z];
    assert SumTo(s, 1, f) == f(x);
    assert SumTo(s, 2, f) == f(x) + f(y);
  }

  lemma UnevenWellFormed(k1: Pubkey, k2: Pubkey, k3: Pubkey)
    requires KeysFit(k1, k2, k3)
    ensures SignatorySets.WellFormed(Uneven(k1, k2, k3)) && DistinctKeys(Uneven(k1, k2, k3).signatories)
  {
    SumThree(Signatory(2796205, k1), Signatory(2796203, k2), Signatory(2796203, k3), SignatoryPower);
  }

  lemma UnevenTruncation()
    ensures Truncation(8388611) == 1
  {
    Pow23();
    TruncatedFits(8388611);
    BitsExact(8388611, PRECISION + 1);
  }

  /** Above 2^23 the script can reject what `signed` reports as signed. */
  lemma SignedButRejected(check: Checker, der: Signature -> Bytes, k1: Pubkey, k2: Pubkey, k3: Pubkey, a: Signature,
                          b: Signature, dest: Bytes)
    requires KeysFit(k1, k2, k3)
    requires check(der(a) + [1], k1) && check(der(b) + [1], k2) && forall key :: !check([], key)
    ensures SignatorySets.WellFormed(Uneven(k1, k2, k3)) && Matches(UnevenSigs(k1, k2, k3, a, b), Uneven(k1, k2, k3))
    ensures TS.Valid(UnevenSigs(k1, k2, k3, a, b)) && TS.Signed(UnevenSigs(k1, k2, k3, a, b))
    ensures !Accepts(check, RedeemCode(Uneven(k1, k2, k3), dest), Witness(der, UnevenSigs(k1, k2, k3, a, b)))
  {
    var ts, sigset := UnevenSigs(k1, k2, k3, a, b), Uneven(k1, k2, k3);
    UnevenWellFormed(k1, k2, k3);
    UnevenTruncation();
    SumThree(ts.sigs[0], ts.sigs[1], ts.sigs[2], TS.Power);
    SumThree(ts.sigs[0], ts.sigs[1], ts.sigs[2], TS.SignedPower);
    SumThree(ts.sigs[0], ts.sigs[1], ts.sigs[2], SignedWeight(1));
    assert Shift(2796205, 1) == 1398102 && Shift(2796203, 1) == 1398101 && Shift(5592407, 1) == 2796203;
    WitnessMeans(check, der, ts, sigset, dest);
  }
}
