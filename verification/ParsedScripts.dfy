/**
  What `from_script` accepts, over all byte strings: exactly the scripts it would compile again
  from a set of its own kind, and it returns that set.
 */
module ParsedScripts {
  import opened Common
  import opened BitcoinTypes
  import opened SignatorySets
  import opened ScriptNums
  import opened Scripts
  import opened RedeemScripts
  import opened FromScripts
  import opened ScriptRoundTrip
  import TS = ThresholdSigs

  // ----- what is read from a script -----

  /** A number of four bytes, cast to an unsigned word. */
  predicate Cast(n: nat) {
    n < WIDE || U64 - WIDE < n < U64
  }

  lemma MagnitudeBound(bytes: Bytes)
    requires 1 <= |bytes| <= 4
    ensures DecodeMagnitude(bytes).0 < if |bytes| == 1 then 0x80 else if |bytes| == 2 then 0x8000
                                       else if |bytes| == 3 then 0x80_0000 else 0x8000_0000
  {
    if |bytes| > 1 {
      MagnitudeBound(bytes[1..]);
    }
  }

  lemma TakenNumber(ins: seq<Instr>, i: nat)
    requires TakeNumber(ins, i).Ok?
    ensures Cast(AsU64(TakeNumber(ins, i).value))
  {
    if ins[i].data != [] {
      MagnitudeBound(ins[i].data);
    }
  }

  ghost predicate Taken(valid: KeyTest, s: Signatory) {
    GoodKey(valid, s) && Cast(s.power)
  }

  ghost predicate AllTaken(valid: KeyTest, sigs: seq<Signatory>) {
    forall k :: 0 <= k < |sigs| ==> Taken(valid, sigs[k])
  }

  lemma FirstTaken(valid: KeyTest, ins: seq<Instr>, i: nat)
    requires TakeFirst(valid, ins, i).Ok?
    ensures Taken(valid, TakeFirst(valid, ins, i).value)
  {
    TakenNumber(ins, i + 3);
  }

  lemma NextTaken(valid: KeyTest, ins: seq<Instr>, i: nat)
    requires TakeNext(valid, ins, i).Ok?
    ensures Taken(valid, TakeNext(valid, ins, i).value)
  {
    TakenNumber(ins, i + 4);
  }

  lemma {:induction false} RestTaken(valid: KeyTest, ins: seq<Instr>, i: nat)
    requires TakeRest(valid, ins, i).Ok?
    ensures AllTaken(valid, TakeRest(valid, ins, i).value.0)
    decreases SatSub(|ins|, i)
  {
    if ins[i] == Op(OP_SWAP) {
      NextTaken(valid, ins, i);
      RestTaken(valid, ins, i + 7);
    }
  }

  ghost predicate ShortPushes(ins: seq<Instr>) {
    forall k :: 0 <= k < |ins| ==> ins[k].Push? ==> |ins[k].data| < 0x1_0000_0000
  }

  lemma DecodedShort(bytes: Bytes)
    requires bytes != [] && Decode(bytes).Ok? && Decode(bytes).value.0.Push?
    ensures |Decode(bytes).value.0.data| < 0x1_0000_0000
  {
  }

  lemma {:induction false} DisassembledShort(bytes: Bytes)
    requires Disassemble(bytes).Ok?
    ensures ShortPushes(Disassemble(bytes).value)
    decreases |bytes|
  {
    if bytes != [] {
      var first := Decode(bytes).value;
      DisassembledShort(Suffix(bytes, first.1));
      if first.0.Push? {
        DecodedShort(bytes);
      }
    }
  }

  lemma ParsedGood(valid: KeyTest, ins: seq<Instr>)
    requires Parse(valid, ins).Ok? && ShortPushes(ins)
    ensures var p := Parse(valid, ins).value;
            p.sigs != [] && AllTaken(valid, p.sigs) && Cast(p.threshold) && |p.commitment| < 0x1_0000_0000
  {
    FirstTaken(valid, ins, 0);
    RestTaken(valid, ins, 7);
    TakenNumber(ins, TakeRest(valid, ins, 7).value.1);
  }

  // ----- the search -----

  /** `vp` is the total closest to `total` whose threshold is `e`. */
  predicate Closest(total: nat, e: nat, vp: nat) {
    && TS.TwoThirds(vp) == e
    && (total < vp ==> TS.TwoThirds(vp - 1) < e)
    && (vp < total ==> TS.TwoThirds(vp + 1) > e)
  }

  predicate Within(a: nat, b: nat, k: nat) {
    a <= b + k && b <= a + k
  }

  /** The search finds the closest total with the threshold, if it has enough steps. */
  lemma {:induction false} SearchExactly(total: nat, e: nat, k: nat, vp: nat)
    ensures Search(total, e, k) == vp && TS.TwoThirds(vp) == e <==> Closest(total, e, vp) && Within(vp, total, k)
    decreases k
  {
    if k > 0 {
      if TS.TwoThirds(total) < e {
        SearchExactly(total + 1, e, k - 1, vp);
      } else if TS.TwoThirds(total) > e {
        SearchExactly(total - 1, e, k - 1, vp);
      }
    }
  }

  // ----- exactly what is accepted -----

  /**
    A set as `from_script` returns it: no time, no index, nobody missing; valid keys; powers and
    threshold that are pushed as bytes; and a total below 2^23, at most a hundred away from the
    sum of the powers, that is the closest one with its threshold.
   */
  ghost predicate Canonical(valid: KeyTest, r: SignatorySet) {
    && r.createTime == 0 && r.index == 0 && r.possibleVp == r.presentVp < 0x80_0000 && r.signatories != []
    && (forall i :: 0 <= i < |r.signatories| ==> GoodKey(valid, r.signatories[i]) && Readable(r.signatories[i].power))
    && Readable(TS.TwoThirds(r.presentVp))
    && var sum := NonNegative(Sum(r.signatories, SignatoryPower));
       Closest(sum, TS.TwoThirds(r.presentVp), r.presentVp) && Within(r.presentVp, sum, 100)
  }

  lemma {:induction false} ShiftAtMost(x: nat, t: nat)
    ensures Shift(x, t) <= x && (t > 0 && x > 0 ==> Shift(x, t) < x)
  {
    if t > 0 {
      ShiftAtMost(x / 2, t - 1);
    }
  }

  lemma {:induction false} MemberAtMost(sigs: seq<Signatory>, n: nat, i: nat)
    requires i < n <= |sigs|
    ensures sigs[i].power <= SumTo(sigs, n, SignatoryPower)
  {
    SumToNonNegative(sigs, n - 1, SignatoryPower);
    if i < n - 1 {
      MemberAtMost(sigs, n - 1, i);
    }
  }

  /** Nothing is truncated below 2^23. */
  lemma Untruncated(r: SignatorySet)
    requires r.presentVp < 0x80_0000
    ensures Truncation(r.presentVp) == 0 && ReadAll(r.signatories, 0) == r.signatories
    ensures TruncatedThreshold(r) == TS.TwoThirds(r.presentVp)
  {
    TruncatedFits(r.presentVp);
  }

  /** A threshold close to two thirds of the sum leaves no room for a negative number. */
  lemma NoneNegative(total: nat, e: nat, vp: nat)
    requires Cast(e) && total < U64 && TS.TwoThirds(vp) == e && Within(vp, total, 100)
    ensures total < U64 - WIDE && e < WIDE
  {
  }

  lemma ResolvedClosest(p: Parsed)
    requires Resolve(p).Ok? && Cast(p.threshold)
    ensures var r, sum := Resolve(p).value, NonNegative(Sum(p.sigs, SignatoryPower));
            && r == SignatorySet(0, r.presentVp, r.presentVp, 0, p.sigs) && TS.TwoThirds(r.presentVp) == p.threshold < WIDE
            && Closest(sum, p.threshold, r.presentVp) && Within(r.presentVp, sum, 100) && sum < U64 - WIDE
  {
    var sum := Checked(Sum(p.sigs, SignatoryPower)).value;
    SearchExactly(sum, p.threshold, SEARCH_STEPS, Resolve(p).value.presentVp);
    NoneNegative(sum, p.threshold, Resolve(p).value.presentVp);
  }

  /** The powers of a resolved set are not cast from negative numbers. */
  lemma ResolvedGood(valid: KeyTest, sigs: seq<Signatory>, t: nat)
    requires AllTaken(valid, sigs) && NonNegative(Sum(sigs, SignatoryPower)) < U64 - WIDE
    ensures GoodSigs(valid, sigs, t)
  {
    forall i | 0 <= i < |sigs| ensures GoodKey(valid, sigs[i]) && Truncated(sigs[i], t) < WIDE {
      assert Taken(valid, sigs[i]);
      MemberAtMost(sigs, |sigs|, i);
      ShiftAtMost(sigs[i].power, t);
    }
  }

  /** A set whose script parses back to itself was not truncated. */
  lemma NotTruncated(r: SignatorySet)
    requires TruncatedThreshold(r) == TS.TwoThirds(r.presentVp)
    ensures r.presentVp < 0x80_0000
  {
    TruncatedFits(r.presentVp);
    ShiftAtMost(TS.TwoThirds(r.presentVp), Truncation(r.presentVp));
  }

  lemma CodeParses(valid: KeyTest, r: SignatorySet, dest: Bytes, script: Bytes)
    requires GoodSigs(valid, r.signatories, Truncation(r.presentVp)) && TruncatedThreshold(r) < WIDE
    requires r.signatories != [] && |dest| < 0x1_0000_0000 && Redeem(r, dest) == Ok(script)
    ensures Disassemble(script) == Ok(RedeemCode(r, dest))
    ensures Parse(valid, RedeemCode(r, dest)) ==
            if AllReadable(r) then Ok(Parsed(ReadAll(r.signatories, Truncation(r.presentVp)), TruncatedThreshold(r), dest))
            else Err(Rejected)
  {
    RedeemWellFormed(valid, r, dest);
    AssemblyRoundTrip(RedeemCode(r, dest));
    RedeemParses(valid, r, dest);
  }

  lemma CanonicalFrom(valid: KeyTest, r: SignatorySet)
    requires GoodSigs(valid, r.signatories, 0) && AllReadable(r) && r.signatories != []
    requires r == SignatorySet(0, r.presentVp, r.presentVp, 0, r.signatories) && r.presentVp < 0x80_0000
    requires var sum := NonNegative(Sum(r.signatories, SignatoryPower));
             Closest(sum, TS.TwoThirds(r.presentVp), r.presentVp) && Within(r.presentVp, sum, 100)
    ensures Canonical(valid, r)
  {
    Untruncated(r);
    forall i | 0 <= i < |r.signatories|
      ensures GoodKey(valid, r.signatories[i]) && Readable(r.signatories[i].power)
    {
      assert Truncated(r.signatories[i], 0) == r.signatories[i].power;
    }
  }

  lemma AcceptedCanonical(valid: KeyTest, script: Bytes, r: SignatorySet, dest: Bytes)
    requires FromScript(valid, script) == Ok((r, dest))
    ensures Canonical(valid, r) && |dest| < 0x1_0000_0000
  {
    DisassembledShort(script);
    var p := Parse(valid, Disassemble(script).value).value;
    ParsedGood(valid, Disassemble(script).value);
    ResolvedClosest(p);
    var t := Truncation(r.presentVp);
    ResolvedGood(valid, p.sigs, t);
    ShiftAtMost(TS.TwoThirds(r.presentVp), t);
    CodeParses(valid, r, dest, script);
    NotTruncated(r);
    Untruncated(r);
    CanonicalFrom(valid, r);
  }

  lemma CanonicalGood(valid: KeyTest, r: SignatorySet)
    requires Canonical(valid, r)
    ensures GoodSigs(valid, r.signatories, 0) && AllReadable(r)
  {
    Untruncated(r);
    forall i | 0 <= i < |r.signatories|
      ensures GoodKey(valid, r.signatories[i]) && Truncated(r.signatories[i], 0) < WIDE
              && Readable(Truncated(r.signatories[i], 0))
    {
      MemberAtMost(r.signatories, |r.signatories|, i);
    }
  }

  lemma CanonicalResolves(valid: KeyTest, r: SignatorySet, dest: Bytes)
    requires Canonical(valid, r)
    ensures Resolve(Parsed(r.signatories, TS.TwoThirds(r.presentVp), dest)) == Ok(r)
  {
    SumNonNegative(r.signatories, SignatoryPower);
    SearchExactly(Sum(r.signatories, SignatoryPower), TS.TwoThirds(r.presentVp), SEARCH_STEPS, r.presentVp);
  }

  lemma CanonicalAccepted(valid: KeyTest, script: Bytes, r: SignatorySet, dest: Bytes)
    requires Canonical(valid, r) && |dest| < 0x1_0000_0000 && Redeem(r, dest) == Ok(script)
    ensures FromScript(valid, script) == Ok((r, dest))
  {
    Untruncated(r);
    CanonicalGood(valid, r);
    CodeParses(valid, r, dest, script);
    CanonicalResolves(valid, r, dest);
  }

  /**
    Over all byte strings: `from_script` accepts exactly the scripts compiled from a canonical set
    and a commitment, and returns just these. So what it accepts is what it would write.
   */
  lemma ParsesExactly(valid: KeyTest, script: Bytes, r: SignatorySet, dest: Bytes)
    ensures FromScript(valid, script) == Ok((r, dest))
       <==> Canonical(valid, r) && |dest| < 0x1_0000_0000 && Redeem(r, dest) == Ok(script)
  {
    if FromScript(valid, script) == Ok((r, dest)) {
      AcceptedCanonical(valid, script, r, dest);
    } else if Canonical(valid, r) && |dest| < 0x1_0000_0000 && Redeem(r, dest) == Ok(script) {
      CanonicalAccepted(valid, script, r, dest);
    }
  }
}
