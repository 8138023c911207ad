/**
  `from_script` parses a redeem script back into a signatory set, searching for a total power
  that explains the threshold and compiling the result again.
 */
module FromScripts {
  import opened Common
  import opened BitcoinTypes
  import opened SignatorySets
  import opened ScriptNums
  import opened Scripts
  import opened RedeemScripts
  import TS = ThresholdSigs

  const OP_FALSE: Byte := 0

  /** Whether 33 bytes are a public key. */
  type KeyTest = Bytes -> bool

  // ----- single instructions -----

  /** The opcode at position `i`; an empty push reads as `OP_FALSE`. */
  function TakeOp(ins: seq<Instr>, i: nat, expected: Byte): Result<()> {
    if i >= |ins| then Err(Rejected)
    else if ins[i] == Op(expected) || (ins[i] == Push([]) && expected == OP_FALSE) then Ok(())
    else Err(Rejected)
  }

  function TakeBytes(ins: seq<Instr>, i: nat): Result<Bytes> {
    if i < |ins| && ins[i].Push? then Ok(ins[i].data) else Err(Rejected)
  }

  function TakeKey(valid: KeyTest, ins: seq<Instr>, i: nat): Result<Pubkey> {
    var bytes :- TakeBytes(ins, i);
    if |bytes| == 33 && valid(bytes) then Ok(bytes) else Err(Rejected)
  }

  /** A number must be pushed as bytes, so the opcodes for 1 to 16 are not read. */
  function TakeNumber(ins: seq<Instr>, i: nat): Result<int> {
    var bytes :- TakeBytes(ins, i);
    DecodeNum(bytes)
  }

  /** The cast `n as u64` of an `i64`. */
  function AsU64(n: int): nat {
    if n >= 0 then n else if n >= -U64 then n + U64 else 0
  }

  function TakeFirst(valid: KeyTest, ins: seq<Instr>, i: nat): Result<Signatory> {
    var key :- TakeKey(valid, ins, i);
    var _ :- TakeOp(ins, i + 1, OP_CHECKSIG);
    var _ :- TakeOp(ins, i + 2, OP_IF);
    var power :- TakeNumber(ins, i + 3);
    var _ :- TakeOp(ins, i + 4, OP_ELSE);
    var _ :- TakeOp(ins, i + 5, OP_FALSE);
    var _ :- TakeOp(ins, i + 6, OP_ENDIF);
    Ok(Signatory(AsU64(power), key))
  }

  function TakeNext(valid: KeyTest, ins: seq<Instr>, i: nat): Result<Signatory> {
    var _ :- TakeOp(ins, i, OP_SWAP);
    var key :- TakeKey(valid, ins, i + 1);
    var _ :- TakeOp(ins, i + 2, OP_CHECKSIG);
    var _ :- TakeOp(ins, i + 3, OP_IF);
    var power :- TakeNumber(ins, i + 4);
    var _ :- TakeOp(ins, i + 5, OP_ADD);
    var _ :- TakeOp(ins, i + 6, OP_ENDIF);
    Ok(Signatory(AsU64(power), key))
  }

  /** The further signatories and the position after them. */
  function TakeRest(valid: KeyTest, ins: seq<Instr>, i: nat): Result<(seq<Signatory>, nat)>
    decreases SatSub(|ins|, i)
  {
    if i >= |ins| then Err(Rejected)
    else if ins[i] != Op(OP_SWAP) then Ok(([], i))
    else
      var s :- TakeNext(valid, ins, i);
      var rest :- TakeRest(valid, ins, i + 7);
      Ok(([s] + rest.0, rest.1))
  }

  /** The threshold and the commitment at the end of the script. */
  function TakeEnd(ins: seq<Instr>, i: nat): Result<(nat, Bytes)> {
    var threshold :- TakeNumber(ins, i);
    var _ :- TakeOp(ins, i + 1, OP_GREATERTHAN);
    var commitment :- TakeBytes(ins, i + 2);
    var _ :- TakeOp(ins, i + 3, OP_DROP);
    if |ins| != i + 4 then Err(Rejected) else Ok((AsU64(threshold), commitment))
  }

  datatype Parsed = Parsed(sigs: seq<Signatory>, threshold: nat, commitment: Bytes)

  function Parse(valid: KeyTest, ins: seq<Instr>): Result<Parsed> {
    var first :- TakeFirst(valid, ins, 0);
    var rest :- TakeRest(valid, ins, 7);
    var end :- TakeEnd(ins, rest.1);
    Ok(Parsed([first] + rest.0, end.0, end.1))
  }

  // ----- the total power -----

  /** At most `k` steps by one towards a total with the expected threshold. */
  function Search(total: nat, expected: nat, k: nat): nat
    decreases k
  {
    if k == 0 || TS.TwoThirds(total) == expected then total
    else if TS.TwoThirds(total) < expected then Search(total + 1, expected, k - 1)
    else if total == 0 then 0
    else Search(total - 1, expected, k - 1)
  }

  const SEARCH_STEPS: nat := 100

  function Resolve(p: Parsed): Result<SignatorySet> {
    var total :- Checked(Sum(p.sigs, SignatoryPower));
    var vp := Search(total, p.threshold, SEARCH_STEPS);
    if TS.TwoThirds(vp) != p.threshold then Err(Overflow) else Ok(SignatorySet(0, vp, vp, 0, p.sigs))
  }

  /** What `from_script` computes. */
  function FromScript(valid: KeyTest, script: Bytes): Result<(SignatorySet, Bytes)> {
    var ins :- Disassemble(script);
    var p :- Parse(valid, ins);
    var sigset :- Resolve(p);
    if Redeem(sigset, p.commitment) != Ok(script) then Err(Overflow) else Ok((sigset, p.commitment))
  }

  // ----- the loops -----

  method TakeRestLoop(valid: KeyTest, ins: seq<Instr>, first: Signatory)
    returns (r: Result<(seq<Signatory>, nat)>)
    ensures var rest := TakeRest(valid, ins, 7);
            r == if rest.Err? then Err(rest.error) else Ok(([first] + rest.value.0, rest.value.1))
  {
    var sigs, i := [first], 7;
    while true
      invariant Continued([first], TakeRest(valid, ins, 7)) == Continued(sigs, TakeRest(valid, ins, i))
      decreases SatSub(|ins|, i)
    {
      if i >= |ins| {
        return Err(Rejected);
      }
      if ins[i] != Op(OP_SWAP) {
        assert sigs + [] == sigs;
        return Ok((sigs, i));
      }
      var s := TakeNext(valid, ins, i);
      if s.Err? {
        return Err(s.error);
      }
      ContinuedStep(sigs, s.value, TakeRest(valid, ins, i + 7));
      sigs := sigs + [s.value];
      i := i + 7;
    }
  }

  /** Signatories already read, followed by the remaining ones. */
  function Continued(done: seq<Signatory>, rest: Result<(seq<Signatory>, nat)>): Result<(seq<Signatory>, nat)> {
    if rest.Err? then Err(rest.error) else Ok((done + rest.value.0, rest.value.1))
  }

  lemma ContinuedStep(done: seq<Signatory>, s: Signatory, rest: Result<(seq<Signatory>, nat)>)
    ensures rest.Ok? ==> Continued(done, Ok(([s] + rest.value.0, rest.value.1))) == Continued(done + [s], rest)
  {
    if rest.Ok? {
      assert done + ([s] + rest.value.0) == done + [s] + rest.value.0;
    }
  }

  method SearchLoop(total: nat, expected: nat) returns (vp: nat)
    ensures vp == Search(total, expected, SEARCH_STEPS)
  {
    vp := total;
    for k := 0 to SEARCH_STEPS
      invariant Search(total, expected, SEARCH_STEPS) == Search(vp, expected, SEARCH_STEPS - k)
    {
      var actual := TS.TwoThirds(vp);
      if actual == expected {
        return;
      } else if actual < expected {
        vp := vp + 1;
      } else {
        vp := vp - 1;
      }
    }
  }

  /** `from_script`. */
  method ReadScript(valid: KeyTest, script: Bytes) returns (r: Result<(SignatorySet, Bytes)>)
    ensures r == FromScript(valid, script)
    ensures r.Ok? ==> Redeem(r.value.0, r.value.1) == Ok(script)
  {
    var ins := Disassemble(script);
    if ins.Err? {
      return Err(ins.error);
    }
    var first := TakeFirst(valid, ins.value, 0);
    if first.Err? {
      return Err(first.error);
    }
    var sigs := TakeRestLoop(valid, ins.value, first.value);
    if sigs.Err? {
      return Err(sigs.error);
    }
    var end := TakeEnd(ins.value, sigs.value.1);
    if end.Err? {
      return Err(end.error);
    }
    var total := Checked(Sum(sigs.value.0, SignatoryPower));
    if total.Err? {
      return Err(total.error);
    }
    var vp := SearchLoop(total.value, end.value.0);
    if TS.TwoThirds(vp) != end.value.0 {
      return Err(Overflow);
    }
    var sigset := SignatorySet(0, vp, vp, 0, sigs.value.0);
    var again := RedeemScript(sigset, end.value.1);
    if again != Ok(script) {
      return Err(Overflow);
    }
    return Ok((sigset, end.value.1));
  }
}
