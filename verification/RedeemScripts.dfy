/**
  `redeem_script` compiles a signatory set to a weighted multisig script. The script is run
  on the stack machine and its meaning is the truncated voting power of the valid signatures.
 */
module RedeemScripts {
  import opened Common
  import opened BitcoinTypes
  import opened ScriptNums
  import opened Scripts
  import TS = ThresholdSigs

  // ----- the compiler -----

  /** How a number is pushed: small ones have opcodes of their own. */
  function NumInstr(n: int): Instr {
    if n == 0 then Push([])
    else if n == -1 then Op(OP_1NEGATE)
    else if 1 <= n <= 16 then Op(OP_RESERVED + n)
    else Push(EncodeNum(n))
  }

  function Truncated(s: Signatory, t: nat): nat {
    Shift(s.power, t)
  }

  function FirstCode(s: Signatory, t: nat): seq<Instr> {
    [Push(s.key), Op(OP_CHECKSIG), Op(OP_IF), NumInstr(AsI64(Truncated(s, t))), Op(OP_ELSE), Push([]), Op(OP_ENDIF)]
  }

  function NextCode(s: Signatory, t: nat): seq<Instr> {
    [Op(OP_SWAP), Push(s.key), Op(OP_CHECKSIG), Op(OP_IF), NumInstr(AsI64(Truncated(s, t))), Op(OP_ADD), Op(OP_ENDIF)]
  }

  /** The code of the first `n` signatories. */
  function Code(sigs: seq<Signatory>, t: nat, n: nat): seq<Instr>
    requires n <= |sigs|
  {
    if n == 0 then [] else Code(sigs, t, n - 1) + (if n == 1 then FirstCode(sigs[0], t) else NextCode(sigs[n - 1], t))
  }

  function EndCode(threshold: nat, dest: Bytes): seq<Instr> {
    [NumInstr(AsI64(threshold)), Op(OP_GREATERTHAN), Push(dest), Op(OP_DROP)]
  }

  function TruncatedThreshold(sigset: SignatorySet): nat {
    Shift(TS.TwoThirds(sigset.presentVp), Truncation(sigset.presentVp))
  }

  function RedeemCode(sigset: SignatorySet, dest: Bytes): seq<Instr> {
    Code(sigset.signatories, Truncation(sigset.presentVp), |sigset.signatories|) + EndCode(TruncatedThreshold(sigset), dest)
  }

  function Redeem(sigset: SignatorySet, dest: Bytes): Result<Bytes> {
    if sigset.signatories == [] then Err(EmptySigset) else Ok(Assemble(RedeemCode(sigset, dest)))
  }

  /** `redeem_script`: the parts are appended to one buffer. */
  method RedeemScript(sigset: SignatorySet, dest: Bytes) returns (r: Result<Bytes>)
    ensures r == Redeem(sigset, dest)
  {
    var t := Truncation(sigset.presentVp);
    var sigs := sigset.signatories;
    if |sigs| == 0 {
      return Err(EmptySigset);
    }
    var bytes := Assemble(FirstCode(sigs[0], t));
    assert Code(sigs, t, 1) == FirstCode(sigs[0], t) by {
      assert Code(sigs, t, 0) == [];
    }
    for i := 1 to |sigs|
      invariant bytes == Assemble(Code(sigs, t, i))
    {
      bytes := bytes + Assemble(NextCode(sigs[i], t));
      AssembleConcat(Code(sigs, t, i), NextCode(sigs[i], t));
    }
    var threshold := TruncatedThreshold(sigset);
    bytes := bytes + Assemble(EndCode(threshold, dest));
    AssembleConcat(Code(sigs, t, |sigs|), EndCode(threshold, dest));
    return Ok(bytes);
  }

  lemma AssembleConcat(a: seq<Instr>, b: seq<Instr>)
    ensures Assemble(a + b) == Assemble(a) + Assemble(b)
  {
    FlattenConcat(a, b, |b|, Encode);
  }

  // ----- one signatory -----

  lemma PushNum(check: Checker, n: int, s: Stack, c: Conds)
    requires Active(c)
    ensures Step(check, Running(s, c), NumInstr(n)) == Running(Item(EncodeNum(n), s), c)
  {
  }

  lemma SkipNum(check: Checker, n: int, s: Stack, c: Conds)
    requires !Active(c)
    ensures Step(check, Running(s, c), NumInstr(n)) == Running(s, c)
  {
  }

  lemma BoolItems()
    ensures IsTrue(BoolItem(true)) && !IsTrue(BoolItem(false))
  {
    assert BoolItem(true)[0] == 1;
  }

  /** The first signatory turns its signature into its weight. */
  lemma FirstRuns(check: Checker, s: Signatory, t: nat, sig: Bytes, rest: Stack)
    requires Truncated(s, t) < LIMIT
    ensures Execute(check, FirstCode(s, t), Running(Item(sig, rest), NoCond))
         == Running(Item(EncodeNum(if check(sig, s.key) then Truncated(s, t) else 0), rest), NoCond)
  {
    var ins, m, ok := FirstCode(s, t), Running(Item(sig, rest), NoCond), check(sig, s.key);
    var p := Truncated(s, t);
    BoolItems();
    assert RunTo(check, ins, 1, m) == Running(Item(s.key, Item(sig, rest)), NoCond);
    assert RunTo(check, ins, 2, m) == Running(Item(BoolItem(ok), rest), NoCond);
    assert RunTo(check, ins, 3, m) == Running(rest, Cond(ok, NoCond));
    if ok {
      PushNum(check, p, rest, Cond(true, NoCond));
      assert RunTo(check, ins, 4, m) == Running(Item(EncodeNum(p), rest), Cond(true, NoCond));
      assert RunTo(check, ins, 5, m) == Running(Item(EncodeNum(p), rest), Cond(false, NoCond));
      assert RunTo(check, ins, 6, m) == RunTo(check, ins, 5, m);
    } else {
      SkipNum(check, p, rest, Cond(false, NoCond));
      assert RunTo(check, ins, 4, m) == Running(rest, Cond(false, NoCond));
      assert RunTo(check, ins, 5, m) == Running(rest, Cond(true, NoCond));
      assert RunTo(check, ins, 6, m) == Running(Item([], rest), Cond(true, NoCond));
    }
  }

  /** Every other signatory adds its weight to the accumulator. */
  lemma NextRuns(check: Checker, s: Signatory, t: nat, acc: nat, sig: Bytes, rest: Stack)
    requires acc + Truncated(s, t) < LIMIT
    ensures Execute(check, NextCode(s, t), Running(Item(EncodeNum(acc), Item(sig, rest)), NoCond))
         == Running(Item(EncodeNum(acc + if check(sig, s.key) then Truncated(s, t) else 0), rest), NoCond)
  {
    var ins, m := NextCode(s, t), Running(Item(EncodeNum(acc), Item(sig, rest)), NoCond);
    var ok, p, a := check(sig, s.key), Truncated(s, t), EncodeNum(acc);
    BoolItems();
    assert RunTo(check, ins, 1, m) == Running(Item(sig, Item(a, rest)), NoCond);
    assert RunTo(check, ins, 2, m) == Running(Item(s.key, Item(sig, Item(a, rest))), NoCond);
    assert RunTo(check, ins, 3, m) == Running(Item(BoolItem(ok), Item(a, rest)), NoCond);
    assert RunTo(check, ins, 4, m) == Running(Item(a, rest), Cond(ok, NoCond));
    if ok {
      PushNum(check, p, Item(a, rest), Cond(true, NoCond));
      assert RunTo(check, ins, 5, m) == Running(Item(EncodeNum(p), Item(a, rest)), Cond(true, NoCond));
      NumRoundTrip(acc);
      NumRoundTrip(p);
      assert RunTo(check, ins, 6, m) == Running(Item(EncodeNum(acc + p), rest), Cond(true, NoCond));
    } else {
      SkipNum(check, p, Item(a, rest), Cond(false, NoCond));
      assert RunTo(check, ins, 5, m) == Running(Item(a, rest), Cond(false, NoCond));
      assert RunTo(check, ins, 6, m) == RunTo(check, ins, 5, m);
    }
  }

  /** The end compares the accumulator with the threshold and drops the commitment. */
  lemma EndRuns(check: Checker, acc: nat, threshold: nat, dest: Bytes, rest: Stack)
    requires acc < LIMIT && threshold < LIMIT
    ensures Execute(check, EndCode(threshold, dest), Running(Item(EncodeNum(acc), rest), NoCond))
         == Running(Item(BoolItem(acc > threshold), rest), NoCond)
  {
    var ins, m := EndCode(threshold, dest), Running(Item(EncodeNum(acc), rest), NoCond);
    PushNum(check, threshold, m.stack, NoCond);
    assert RunTo(check, ins, 1, m) == Running(Item(EncodeNum(threshold), Item(EncodeNum(acc), rest)), NoCond);
    NumRoundTrip(acc);
    NumRoundTrip(threshold);
    assert RunTo(check, ins, 2, m) == Running(Item(BoolItem(acc > threshold), rest), NoCond);
    assert RunTo(check, ins, 3, m) == Running(Item(dest, Item(BoolItem(acc > threshold), rest)), NoCond);
  }
}
