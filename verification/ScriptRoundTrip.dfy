/**
  `from_script` inverts `redeem_script` exactly when no truncated number is between 1 and 16
  and the truncated total is not rounded up to 2^23; otherwise it fails.
 */
module ScriptRoundTrip {
  import opened Common
  import opened BitcoinTypes
  import opened SignatorySets
  import opened ScriptNums
  import opened Scripts
  import opened RedeemScripts
  import opened ScriptMeaning
  import opened FromScripts
  import opened Witnesses
  import TS = ThresholdSigs

  // ----- where the instructions stand -----

  function SignatoryCode(sigs: seq<Signatory>, t: nat, k: nat): (c: seq<Instr>)
    requires k < |sigs|
    ensures |c| == 7
  {
    if k == 0 then FirstCode(sigs[0], t) else NextCode(sigs[k], t)
  }

  lemma {:induction false} CodeLength(sigs: seq<Signatory>, t: nat, n: nat)
    requires n <= |sigs|
    ensures |Code(sigs, t, n)| == 7 * n
  {
    if n > 0 {
      CodeLength(sigs, t, n - 1);
    }
  }

  lemma CodeFront(sigs: seq<Signatory>, t: nat, n: nat, i: nat)
    requires 0 < n <= |sigs| && i < 7 * (n - 1)
    ensures |Code(sigs, t, n)| == 7 * n && |Code(sigs, t, n - 1)| == 7 * (n - 1)
    ensures Code(sigs, t, n)[i] == Code(sigs, t, n - 1)[i]
  {
    CodeLength(sigs, t, n);
    CodeLength(sigs, t, n - 1);
  }

  lemma CodeLast(sigs: seq<Signatory>, t: nat, n: nat, j: nat)
    requires 0 < n <= |sigs| && j < 7
    ensures |Code(sigs, t, n)| == 7 * n
    ensures Code(sigs, t, n)[7 * (n - 1) + j] == SignatoryCode(sigs, t, n - 1)[j]
  {
    CodeLength(sigs, t, n);
    CodeLength(sigs, t, n - 1);
    assert Code(sigs, t, n) == Code(sigs, t, n - 1) + SignatoryCode(sigs, t, n - 1);
  }

  lemma {:induction false} CodeAt(sigs: seq<Signatory>, t: nat, n: nat, k: nat, j: nat)
    requires k < n <= |sigs| && j < 7
    ensures |Code(sigs, t, n)| == 7 * n
    ensures Code(sigs, t, n)[7 * k + j] == SignatoryCode(sigs, t, k)[j]
  {
    if k < n - 1 {
      CodeAt(sigs, t, n - 1, k, j);
      CodeFront(sigs, t, n, 7 * k + j);
    } else {
      CodeLast(sigs, t, n, j);
    }
  }

  /** The code of signatory `k` is found at `7 * k`. */
  ghost predicate Holds(ins: seq<Instr>, i: nat, code: seq<Instr>) {
    i + |code| <= |ins| && forall j :: 0 <= j < |code| ==> ins[i + j] == code[j]
  }

  lemma RedeemHolds(sigset: SignatorySet, dest: Bytes, k: nat)
    requires k < |sigset.signatories|
    ensures var ins, t := RedeemCode(sigset, dest), Truncation(sigset.presentVp);
            && |ins| == 7 * |sigset.signatories| + 4
            && Holds(ins, 7 * k, SignatoryCode(sigset.signatories, t, k))
            && Holds(ins, 7 * |sigset.signatories|, EndCode(TruncatedThreshold(sigset), dest))
  {
    var sigs, t, n := sigset.signatories, Truncation(sigset.presentVp), |sigset.signatories|;
    var ins := RedeemCode(sigset, dest);
    CodeAt(sigs, t, n, k, 0);
    forall j | 0 <= j < 7 ensures ins[7 * k + j] == SignatoryCode(sigs, t, k)[j] {
      CodeAt(sigs, t, n, k, j);
    }
  }

  // ----- reading numbers -----

  /** Numbers pushed by an opcode of their own cannot be read back. */
  predicate Readable(n: nat) {
    n == 0 || n > 16
  }

  lemma NumberReads(ins: seq<Instr>, i: nat, n: nat)
    requires i < |ins| && n < WIDE && ins[i] == NumInstr(AsI64(n))
    ensures TakeNumber(ins, i) == if Readable(n) then Ok(n) else Err(Rejected)
  {
    NumRoundTrip(n);
  }

  ghost predicate GoodKey(valid: KeyTest, s: Signatory) {
    |s.key| == 33 && valid(s.key)
  }

  function Read(s: Signatory, t: nat): Signatory {
    Signatory(Truncated(s, t), s.key)
  }

  lemma FirstReads(valid: KeyTest, ins: seq<Instr>, i: nat, s: Signatory, t: nat)
    requires Holds(ins, i, FirstCode(s, t)) && GoodKey(valid, s) && Truncated(s, t) < WIDE
    ensures TakeFirst(valid, ins, i) == if Readable(Truncated(s, t)) then Ok(Read(s, t)) else Err(Rejected)
  {
    var code := FirstCode(s, t);
    assert ins[i + 0] == code[0] && ins[i + 1] == code[1] && ins[i + 2] == code[2] && ins[i + 3] == code[3];
    assert ins[i + 4] == code[4] && ins[i + 5] == code[5] && ins[i + 6] == code[6];
    NumberReads(ins, i + 3, Truncated(s, t));
  }

  lemma NextReads(valid: KeyTest, ins: seq<Instr>, i: nat, s: Signatory, t: nat)
    requires Holds(ins, i, NextCode(s, t)) && GoodKey(valid, s) && Truncated(s, t) < WIDE
    ensures i < |ins| && ins[i] == Op(OP_SWAP)
    ensures TakeNext(valid, ins, i) == if Readable(Truncated(s, t)) then Ok(Read(s, t)) else Err(Rejected)
  {
    var code := NextCode(s, t);
    assert ins[i + 0] == code[0] && ins[i + 1] == code[1] && ins[i + 2] == code[2] && ins[i + 3] == code[3];
    assert ins[i + 4] == code[4] && ins[i + 5] == code[5] && ins[i + 6] == code[6];
    NumberReads(ins, i + 4, Truncated(s, t));
  }

  lemma EndReads(ins: seq<Instr>, i: nat, threshold: nat, dest: Bytes)
    requires |ins| == i + 4 && Holds(ins, i, EndCode(threshold, dest)) && threshold < WIDE
    ensures ins[i] != Op(OP_SWAP)
    ensures TakeEnd(ins, i) == if Readable(threshold) then Ok((threshold, dest)) else Err(Rejected)
  {
    var code := EndCode(threshold, dest);
    assert ins[i + 0] == code[0] && ins[i + 1] == code[1] && ins[i + 2] == code[2] && ins[i + 3] == code[3];
    NumberReads(ins, i, threshold);
  }

  // ----- reading all signatories -----

  function ReadAll(sigs: seq<Signatory>, t: nat): (r: seq<Signatory>)
    ensures |r| == |sigs| && forall i :: 0 <= i < |sigs| ==> r[i] == Read(sigs[i], t)
  {
    seq(|sigs|, i requires 0 <= i < |sigs| => Read(sigs[i], t))
  }

  /** Every signatory from `k` on can be read. */
  predicate ReadableFrom(sigs: seq<Signatory>, t: nat, k: nat) {
    forall i :: k <= i < |sigs| ==> Readable(Truncated(sigs[i], t))
  }

  ghost predicate Compiled(ins: seq<Instr>, sigs: seq<Signatory>, t: nat, threshold: nat, dest: Bytes) {
    && |ins| == 7 * |sigs| + 4
    && (forall k :: 0 <= k < |sigs| ==> Holds(ins, 7 * k, SignatoryCode(sigs, t, k)))
    && Holds(ins, 7 * |sigs|, EndCode(threshold, dest)) && threshold < WIDE
  }

  ghost predicate GoodSigs(valid: KeyTest, sigs: seq<Signatory>, t: nat) {
    forall i :: 0 <= i < |sigs| ==> GoodKey(valid, sigs[i]) && Truncated(sigs[i], t) < WIDE
  }

  lemma {:induction false} RestReads(valid: KeyTest, ins: seq<Instr>, sigs: seq<Signatory>, t: nat, threshold: nat,
                                     dest: Bytes, k: nat)
    requires Compiled(ins, sigs, t, threshold, dest) && GoodSigs(valid, sigs, t) && 1 <= k <= |sigs|
    ensures TakeRest(valid, ins, 7 * k) ==
            if ReadableFrom(sigs, t, k) then Ok((Suffix(ReadAll(sigs, t), k), 7 * |sigs|)) else Err(Rejected)
    decreases |sigs| - k
  {
    if k == |sigs| {
      EndReads(ins, 7 * k, threshold, dest);
    } else {
      assert Holds(ins, 7 * k, SignatoryCode(sigs, t, k));
      NextReads(valid, ins, 7 * k, sigs[k], t);
      RestReads(valid, ins, sigs, t, threshold, dest, k + 1);
      assert 7 * k + 7 == 7 * (k + 1);
      RestStep(valid, ins, 7 * k, ReadAll(sigs, t), k, 7 * |sigs|, Readable(Truncated(sigs[k], t)),
               ReadableFrom(sigs, t, k + 1));
      ReadableSplit(sigs, t, k);
    }
  }

  /** One more signatory in front of those already read. */
  lemma RestStep(valid: KeyTest, ins: seq<Instr>, i: nat, all: seq<Signatory>, k: nat, end: nat, ok: bool, rest: bool)
    requires i < |ins| && ins[i] == Op(OP_SWAP) && k < |all|
    requires TakeNext(valid, ins, i) == if ok then Ok(all[k]) else Err(Rejected)
    requires TakeRest(valid, ins, i + 7) == if rest then Ok((Suffix(all, k + 1), end)) else Err(Rejected)
    ensures TakeRest(valid, ins, i) == if ok && rest then Ok((Suffix(all, k), end)) else Err(Rejected)
  {
    SuffixCons(all, k);
  }

  lemma ReadableSplit(sigs: seq<Signatory>, t: nat, k: nat)
    requires k < |sigs|
    ensures ReadableFrom(sigs, t, k) <==> Readable(Truncated(sigs[k], t)) && ReadableFrom(sigs, t, k + 1)
  {
  }

  lemma ParseReads(valid: KeyTest, ins: seq<Instr>, sigs: seq<Signatory>, t: nat, threshold: nat, dest: Bytes)
    requires Compiled(ins, sigs, t, threshold, dest) && GoodSigs(valid, sigs, t) && sigs != []
    ensures Parse(valid, ins) ==
            if ReadableFrom(sigs, t, 0) && Readable(threshold) then Ok(Parsed(ReadAll(sigs, t), threshold, dest))
            else Err(Rejected)
  {
    assert Holds(ins, 7 * 0, SignatoryCode(sigs, t, 0));
    FirstReads(valid, ins, 0, sigs[0], t);
    RestReads(valid, ins, sigs, t, threshold, dest, 1);
    EndReads(ins, 7 * |sigs|, threshold, dest);
    ReadableSplit(sigs, t, 0);
    ParseStep(valid, ins, ReadAll(sigs, t), 7 * |sigs|, Readable(Truncated(sigs[0], t)), ReadableFrom(sigs, t, 1),
              Readable(threshold), threshold, dest);
  }

  lemma ParseStep(valid: KeyTest, ins: seq<Instr>, all: seq<Signatory>, end: nat, first: bool, rest: bool, last: bool,
                  threshold: nat, dest: Bytes)
    requires all != []
    requires TakeFirst(valid, ins, 0) == if first then Ok(all[0]) else Err(Rejected)
    requires TakeRest(valid, ins, 7) == if rest then Ok((Suffix(all, 1), end)) else Err(Rejected)
    requires TakeEnd(ins, end) == if last then Ok((threshold, dest)) else Err(Rejected)
    ensures Parse(valid, ins) == if first && rest && last then Ok(Parsed(all, threshold, dest)) else Err(Rejected)
  {
    SuffixCons(all, 0);
    assert Suffix(all, 0) == all;
  }

  // ----- the search for the total -----

  /** The least total with threshold `e`. */
  function Target(e: nat): nat {
    (3 * e + 1) / 2
  }

  function Max(a: nat, b: nat): nat {
    if a < b then b else a
  }

  /** From below, the search reaches the threshold if it has enough steps. */
  lemma {:induction false} SearchFinds(total: nat, e: nat, k: nat)
    requires TS.TwoThirds(total) <= e && Target(e) <= total + k
    ensures Search(total, e, k) == Max(total, Target(e))
    ensures TS.TwoThirds(Search(total, e, k)) == e
    decreases k
  {
    if TS.TwoThirds(total) < e {
      SearchFinds(total + 1, e, k - 1);
    }
  }

  lemma {:induction false} ShiftSumUpper(a: nat, b: nat, t: nat)
    ensures Shift(a + b, t) <= Shift(a, t) + Shift(b, t) + 1
  {
    if t > 0 {
      ShiftSumUpper(a / 2, b / 2, t - 1);
      var c := (a + b) / 2;
      if a % 2 == 1 && b % 2 == 1 {
        ShiftOdd(a / 2, b / 2, t - 1);
      }
    }
  }

  /** One more does not reach further than the one the lemma above allows for. */
  lemma {:induction false} ShiftOdd(a: nat, b: nat, t: nat)
    ensures Shift(a + b + 1, t) <= Shift(a, t) + Shift(b, t) + 1
  {
    if t > 0 {
      var c := a / 2 + b / 2;
      ShiftOdd(a / 2, b / 2, t - 1);
      ShiftMonotone((a + b + 1) / 2, c + 1, t - 1);
    }
  }

  /** Truncating every power loses less than one unit each. */
  lemma {:induction false} TruncatedSumLower(sigs: seq<Signatory>, t: nat, n: nat)
    requires 1 <= n <= |sigs|
    ensures 0 <= SumTo(sigs, n, SignatoryPower)
    ensures Shift(SumTo(sigs, n, SignatoryPower), t) <= SumTo(sigs, n, TruncatedPower(t)) + n - 1
  {
    if n == 1 {
      assert SumTo(sigs, 0, SignatoryPower) == 0 && SumTo(sigs, 0, TruncatedPower(t)) == 0;
    } else {
      TruncatedSumLower(sigs, t, n - 1);
      ShiftSumUpper(SumTo(sigs, n - 1, SignatoryPower), sigs[n - 1].power, t);
    }
  }

  lemma ShiftAtLeast(x: nat, t: nat, c: nat)
    ensures Shift(x, t) >= c <==> x >= Times(c, Pow2(t))
  {
    ShiftBounds(x, t);
    if Shift(x, t) >= c {
      TimesOrder(c, Shift(x, t), Pow2(t));
    } else {
      TimesOrder(Shift(x, t) + 1, c, Pow2(t));
    }
  }

  lemma TimesScaled(k: nat, a: nat, b: nat)
    ensures Times(k * a, b) == k * Times(a, b)
  {
  }

  /** How the truncated threshold lies to the truncated total. */
  lemma ThresholdNear(vp: nat, t: nat)
    ensures var x, e := Shift(vp, t), Shift(TS.TwoThirds(vp), t);
            TS.TwoThirds(x) <= e && 3 * e <= 2 * x + 1
  {
    var x, e, a := Shift(vp, t), Shift(TS.TwoThirds(vp), t), TS.TwoThirds(Shift(vp, t));
    ShiftBounds(vp, t);
    ShiftBounds(TS.TwoThirds(vp), t);
    TimesScaled(3, a, Pow2(t));
    TimesScaled(2, x, Pow2(t));
    TimesOrder(3 * a, 2 * x, Pow2(t));
    ShiftAtLeast(TS.TwoThirds(vp), t, a);
    if 3 * e >= 2 * (x + 1) {
      TimesScaled(3, e, Pow2(t));
      TimesScaled(2, x + 1, Pow2(t));
      TimesOrder(2 * (x + 1), 3 * e, Pow2(t));
    }
  }

  /** The total that parsing finds, and why it is found within as many steps as signatories. */
  lemma SearchOnSet(sigset: SignatorySet)
    requires SignatorySets.WellFormed(sigset) && sigset.signatories != []
    ensures var t, e := Truncation(sigset.presentVp), TruncatedThreshold(sigset);
            var q := Sum(ReadAll(sigset.signatories, t), SignatoryPower);
            && 0 <= q < LIMIT && Target(e) <= q + |sigset.signatories| && Target(e) <= LIMIT
            && Search(q, e, SEARCH_STEPS) == Max(q, Target(e))
            && TS.TwoThirds(Search(q, e, SEARCH_STEPS)) == e
  {
    var sigs, t, e := sigset.signatories, Truncation(sigset.presentVp), TruncatedThreshold(sigset);
    var q, x := Sum(ReadAll(sigs, t), SignatoryPower), Shift(sigset.presentVp, t);
    ReadSum(sigs, t, |sigs|);
    TruncatedSum(sigs, t, |sigs|);
    TruncatedSumLower(sigs, t, |sigs|);
    TruncatedFits(sigset.presentVp);
    ThresholdNear(sigset.presentVp, t);
    assert TS.TwoThirds(q) <= TS.TwoThirds(x);
    SearchFinds(q, e, SEARCH_STEPS);
  }

  lemma {:induction false} ReadSum(sigs: seq<Signatory>, t: nat, n: nat)
    requires n <= |sigs|
    ensures SumTo(ReadAll(sigs, t), n, SignatoryPower) == SumTo(sigs, n, TruncatedPower(t))
  {
    if n > 0 {
      ReadSum(sigs, t, n - 1);
    }
  }

  // ----- compiling the result again -----

  /** Twice the power is below 2^24 - 1 truncation units: the total does not round up to 2^23. */
  predicate NotFull(sigset: SignatorySet) {
    2 * sigset.presentVp < Times(0xff_ffff, Pow2(Truncation(sigset.presentVp)))
  }

  lemma FullIsTarget(sigset: SignatorySet)
    ensures NotFull(sigset) <==> Target(TruncatedThreshold(sigset)) < LIMIT
  {
    var vp, t := sigset.presentVp, Truncation(sigset.presentVp);
    ShiftAtLeast(TS.TwoThirds(vp), t, 5592405);
    TimesScaled(3, 5592405, Pow2(t));
    assert 3 * 5592405 == 0xff_ffff;
  }

  lemma {:induction false} SameCode(a: seq<Signatory>, b: seq<Signatory>, t: nat, u: nat, n: nat)
    requires n <= |a| == |b|
    requires forall i :: 0 <= i < |a| ==> a[i].key == b[i].key && Truncated(a[i], t) == Truncated(b[i], u)
    ensures Code(a, t, n) == Code(b, u, n)
  {
    if n > 0 {
      SameCode(a, b, t, u, n - 1);
    }
  }

  function Resolved(sigset: SignatorySet): SignatorySet {
    var t := Truncation(sigset.presentVp);
    var sigs := ReadAll(sigset.signatories, t);
    var vp := Search(NonNegative(Sum(sigs, SignatoryPower)), TruncatedThreshold(sigset), SEARCH_STEPS);
    SignatorySet(0, vp, vp, 0, sigs)
  }

  function NonNegative(x: int): nat {
    if x < 0 then 0 else x
  }

  lemma CompilesBack(sigset: SignatorySet, dest: Bytes)
    requires SignatorySets.WellFormed(sigset) && sigset.signatories != [] && NotFull(sigset)
    ensures RedeemCode(Resolved(sigset), dest) == RedeemCode(sigset, dest)
  {
    var t, r := Truncation(sigset.presentVp), Resolved(sigset);
    SearchOnSet(sigset);
    FullIsTarget(sigset);
    TruncatedFits(r.presentVp);
    SameCode(r.signatories, sigset.signatories, 0, t, |r.signatories|);
  }

  lemma NumInstrInjective(a: nat, b: nat)
    requires 16 < a < LIMIT && 16 < b < LIMIT && NumInstr(a) == NumInstr(b)
    ensures a == b
  {
    NumRoundTrip(a);
    NumRoundTrip(b);
  }

  lemma FullCompilesOtherwise(sigset: SignatorySet, dest: Bytes)
    requires SignatorySets.WellFormed(sigset) && sigset.signatories != [] && !NotFull(sigset)
    ensures RedeemCode(Resolved(sigset), dest) != RedeemCode(sigset, dest)
  {
    var r, e := Resolved(sigset), TruncatedThreshold(sigset);
    SearchOnSet(sigset);
    FullIsTarget(sigset);
    assert r.presentVp == LIMIT && e == 5592405;
    LimitTruncation();
    assert TruncatedThreshold(r) == 2796202;
    RedeemHolds(sigset, dest, 0);
    RedeemHolds(r, dest, 0);
    var n := 7 * |sigset.signatories|;
    assert RedeemCode(sigset, dest)[n + 0] == EndCode(e, dest)[0];
    assert RedeemCode(r, dest)[n + 0] == EndCode(2796202, dest)[0];
    if RedeemCode(r, dest) == RedeemCode(sigset, dest) {
      NumInstrInjective(e, 2796202);
    }
  }

  lemma LimitTruncation()
    ensures Truncation(LIMIT) == 1 && Shift(5592405, 1) == 2796202 && TS.TwoThirds(LIMIT) == 5592405
  {
    LimitBits();
    assert Shift(5592405, 1) == Shift(2796202, 0);
  }

  lemma LimitBits()
    ensures Truncation(LIMIT) == 1
  {
    Pow23();
    TruncatedFits(LIMIT);
    BitsExact(LIMIT, PRECISION + 1);
  }

  // ----- the round trip -----

  lemma NumWellFormed(n: nat)
    requires n < WIDE
    ensures Scripts.WellFormed(NumInstr(AsI64(n)))
  {
    if n > 16 {
      MagnitudeLength(n, false);
    }
  }

  lemma {:induction false} CodeWellFormed(valid: KeyTest, sigs: seq<Signatory>, t: nat, n: nat)
    requires GoodSigs(valid, sigs, t) && n <= |sigs|
    ensures AllWellFormed(Code(sigs, t, n))
  {
    if n > 0 {
      CodeWellFormed(valid, sigs, t, n - 1);
      NumWellFormed(Truncated(sigs[n - 1], t));
      assert GoodKey(valid, sigs[n - 1]);
      assert AllWellFormed(SignatoryCode(sigs, t, n - 1));
    }
  }

  lemma RedeemWellFormed(valid: KeyTest, sigset: SignatorySet, dest: Bytes)
    requires GoodSigs(valid, sigset.signatories, Truncation(sigset.presentVp))
    requires TruncatedThreshold(sigset) < WIDE && |dest| < 0x1_0000_0000
    ensures AllWellFormed(RedeemCode(sigset, dest))
  {
    CodeWellFormed(valid, sigset.signatories, Truncation(sigset.presentVp), |sigset.signatories|);
    NumWellFormed(TruncatedThreshold(sigset));
    assert AllWellFormed(EndCode(TruncatedThreshold(sigset), dest));
  }

  lemma GoodSet(valid: KeyTest, sigset: SignatorySet)
    requires SignatorySets.WellFormed(sigset)
    requires forall i :: 0 <= i < |sigset.signatories| ==> GoodKey(valid, sigset.signatories[i])
    ensures GoodSigs(valid, sigset.signatories, Truncation(sigset.presentVp))
    ensures TruncatedThreshold(sigset) < LIMIT
  {
    var sigs, t := sigset.signatories, Truncation(sigset.presentVp);
    SetFits(sigset, 0);
    forall i | 0 <= i < |sigs| ensures Truncated(sigs[i], t) < LIMIT {
      SetFits(sigset, i + 1);
      TruncatedSum(sigs, t, i);
    }
  }

  /** All truncated powers and the truncated threshold can be read back. */
  predicate AllReadable(sigset: SignatorySet) {
    ReadableFrom(sigset.signatories, Truncation(sigset.presentVp), 0) && Readable(TruncatedThreshold(sigset))
  }

  lemma RedeemParses(valid: KeyTest, sigset: SignatorySet, dest: Bytes)
    requires GoodSigs(valid, sigset.signatories, Truncation(sigset.presentVp)) && sigset.signatories != []
    requires TruncatedThreshold(sigset) < WIDE
    ensures Parse(valid, RedeemCode(sigset, dest)) ==
            if AllReadable(sigset)
            then Ok(Parsed(ReadAll(sigset.signatories, Truncation(sigset.presentVp)), TruncatedThreshold(sigset), dest))
            else Err(Rejected)
  {
    var sigs, t, ins := sigset.signatories, Truncation(sigset.presentVp), RedeemCode(sigset, dest);
    forall k | 0 <= k < |sigs| ensures Holds(ins, 7 * k, SignatoryCode(sigs, t, k)) {
      RedeemHolds(sigset, dest, k);
    }
    RedeemHolds(sigset, dest, 0);
    ParseReads(valid, ins, sigs, t, TruncatedThreshold(sigset), dest);
  }

  lemma ResolveFinds(sigset: SignatorySet, dest: Bytes)
    requires SignatorySets.WellFormed(sigset) && sigset.signatories != []
    ensures Resolve(Parsed(ReadAll(sigset.signatories, Truncation(sigset.presentVp)), TruncatedThreshold(sigset), dest))
         == Ok(Resolved(sigset))
  {
    SearchOnSet(sigset);
  }

  /** The script compiled from the parsed set is the one that was parsed, unless the set is full. */
  lemma CheckPasses(valid: KeyTest, sigset: SignatorySet, dest: Bytes)
    requires SignatorySets.WellFormed(sigset) && sigset.signatories != [] && |dest| < 0x1_0000_0000
    requires forall i :: 0 <= i < |sigset.signatories| ==> GoodKey(valid, sigset.signatories[i])
    requires AllWellFormed(RedeemCode(sigset, dest))
    ensures Redeem(Resolved(sigset), dest) == Ok(Assemble(RedeemCode(sigset, dest))) <==> NotFull(sigset)
  {
    var r := Resolved(sigset);
    if NotFull(sigset) {
      CompilesBack(sigset, dest);
    } else {
      FullCompilesOtherwise(sigset, dest);
      FullWellFormed(valid, sigset, dest);
      if Assemble(RedeemCode(r, dest)) == Assemble(RedeemCode(sigset, dest)) {
        AssembleInjective(RedeemCode(r, dest), RedeemCode(sigset, dest));
      }
    }
  }

  lemma HalvedGood(valid: KeyTest, sigs: seq<Signatory>, t: nat)
    requires GoodSigs(valid, sigs, t)
    ensures GoodSigs(valid, ReadAll(sigs, t), 1)
  {
    forall i | 0 <= i < |sigs| ensures GoodKey(valid, Read(sigs[i], t)) && Truncated(Read(sigs[i], t), 1) < WIDE {
      assert GoodKey(valid, sigs[i]);
      assert Shift(Truncated(sigs[i], t), 1) == Truncated(sigs[i], t) / 2;
    }
  }

  lemma FullWellFormed(valid: KeyTest, sigset: SignatorySet, dest: Bytes)
    requires SignatorySets.WellFormed(sigset) && sigset.signatories != [] && |dest| < 0x1_0000_0000
    requires forall i :: 0 <= i < |sigset.signatories| ==> GoodKey(valid, sigset.signatories[i])
    requires !NotFull(sigset)
    ensures AllWellFormed(RedeemCode(Resolved(sigset), dest))
  {
    var r := Resolved(sigset);
    SearchOnSet(sigset);
    FullIsTarget(sigset);
    LimitTruncation();
    GoodSet(valid, sigset);
    assert r.presentVp == LIMIT && TruncatedThreshold(sigset) == 5592405;
    HalvedGood(valid, sigset.signatories, Truncation(sigset.presentVp));
    RedeemWellFormed(valid, r, dest);
  }

  /**
    `from_script` inverts `redeem_script`: it returns the same keys, the truncated powers, a
    total with the same threshold, and the commitment, exactly when every truncated number is
    zero or above 16 and the set is not full. In every other case it fails.
   */
  lemma ScriptRoundTrips(valid: KeyTest, sigset: SignatorySet, dest: Bytes)
    requires SignatorySets.WellFormed(sigset) && sigset.signatories != [] && |dest| < 0x1_0000_0000
    requires forall i :: 0 <= i < |sigset.signatories| ==> GoodKey(valid, sigset.signatories[i])
    ensures Redeem(sigset, dest).Ok?
    ensures var r := FromScript(valid, Redeem(sigset, dest).value);
            && (r.Ok? <==> AllReadable(sigset) && NotFull(sigset))
            && (r.Ok? ==> r.value == (Resolved(sigset), dest))
  {
    var ins := RedeemCode(sigset, dest);
    GoodSet(valid, sigset);
    RedeemWellFormed(valid, sigset, dest);
    AssemblyRoundTrip(ins);
    RedeemParses(valid, sigset, dest);
    ResolveFinds(sigset, dest);
    CheckPasses(valid, sigset, dest);
  }

  /** What a parsed set keeps of the original. */
  lemma ResolvedKeeps(sigset: SignatorySet)
    requires SignatorySets.WellFormed(sigset) && sigset.signatories != []
    ensures var r, t := Resolved(sigset), Truncation(sigset.presentVp);
            && |r.signatories| == |sigset.signatories|
            && (forall i :: 0 <= i < |r.signatories| ==>
                  && r.signatories[i].key == sigset.signatories[i].key
                  && r.signatories[i].power == Shift(sigset.signatories[i].power, t))
            && TS.TwoThirds(r.presentVp) == TruncatedThreshold(sigset)
            && Sum(r.signatories, SignatoryPower) <= r.presentVp
               <= Sum(r.signatories, SignatoryPower) + |sigset.signatories|
  {
    SearchOnSet(sigset);
  }

  // ----- scripts that cannot be parsed back -----

  function Lone(power: nat, key: Pubkey): SignatorySet {
    SignatorySet(0, power, power, 0, [Signatory(power, key)])
  }

  /** A power of one is pushed by an opcode that the parser does not read. */
  lemma SmallPowerFails(valid: KeyTest, key: Pubkey, dest: Bytes)
    requires |key| == 33 && valid(key) && |dest| < 0x1_0000_0000
    ensures Redeem(Lone(1, key), dest).Ok? && FromScript(valid, Redeem(Lone(1, key), dest).value).Err?
  {
    var sigset := Lone(1, key);
    SumSingle(sigset.signatories[0], SignatoryPower);
    TruncatedFits(1);
    assert Truncated(sigset.signatories[0], 0) == 1;
    ScriptRoundTrips(valid, sigset, dest);
  }

  /** A total of 2^24 - 1 truncates to 2^23 - 1 and is taken for 2^23. */
  lemma FullSetFails(valid: KeyTest, key: Pubkey, dest: Bytes)
    requires |key| == 33 && valid(key) && |dest| < 0x1_0000_0000
    ensures Redeem(Lone(0xff_ffff, key), dest).Ok?
    ensures FromScript(valid, Redeem(Lone(0xff_ffff, key), dest).value).Err?
  {
    var sigset := Lone(0xff_ffff, key);
    SumSingle(sigset.signatories[0], SignatoryPower);
    Pow23();
    TruncatedFits(0xff_ffff);
    BitsExact(0xff_ffff, PRECISION + 1);
    assert Times(0xff_ffff, Pow2(1)) == 2 * 0xff_ffff;
    ScriptRoundTrips(valid, sigset, dest);
  }
}
