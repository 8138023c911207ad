/**
  A concrete bridge to run: one validator, one deposit, sizes as Bitcoin counts them, 32-byte
  ids, and the default configuration up to the units per satoshi and the maximum interval. Here
  are its checkpoints and what fees they are charged.
 */
module SampleBridge {
  import opened Common
  import opened BitcoinTypes
  import opened Transactions
  import opened SignatorySets
  import opened Ordering
  import opened Advance
  import opened CheckpointQueue
  import opened StepInvariants
  import opened Payouts
  import opened Bridge
  import TS = ThresholdSigs
  import Signing

  // ----- the environment -----

  const SIGNATURE: Signature := [1]
  const XPUB: Xpub := [2]
  const KEY: Pubkey := Padded([2]) + [3]
  const DEPOSITED: OutPoint := OutPoint(Padded([]), 0)

  /** A string of 32 bytes. */
  function Padded(bytes: Bytes): (r: Bytes)
    ensures |r| == 32
    ensures forall i :: 0 <= i < 32 ==> r[i] == if i < |bytes| then bytes[i] else 0
  {
    seq(32, i requires 0 <= i < 32 => if i < |bytes| then bytes[i] else 0)
  }

  /** The id of a transaction starts with a one and shifts the id it spends. */
  function IdOf(body: TxBody): (id: Hash)
    ensures |id| == 32 && (body.prevouts != [] ==> id[0] == 1)
  {
    if body.prevouts == [] then Padded([]) else Padded([1] + body.prevouts[0].txid)
  }

  function OutSize(out: TxOut): int {
    9 + |out.script|
  }

  function SizeOf(ins: seq<Input>, outs: seq<TxOut>): nat {
    SumNonNegative(outs, OutSize);
    10 + 41 * |ins| + Sum(outs, OutSize)
  }

  function CommitmentOf(dest: Dest): Bytes {
    match dest
    case Address(addr) => seq(|addr|, i requires 0 <= i < |addr| => addr[i] as int % 256)
    case Ibc(_, _, _, _) => [1]
  }

  const ORACLE := Oracle(
    IdOf,
    (_: TxBody, _: nat, _: Bytes, _: nat) => Padded([]),
    SizeOf,
    (_: Bytes) => 546,
    (s: SignatorySet, dest: Bytes) => [s.index % 256] + dest,
    (script: Bytes) => [0, 32] + Padded(script),
    (data: Bytes) => [0x6a, |data| % 256] + data,
    CommitmentOf,
    (_: Xpub, _: nat) => Some(KEY),
    (_: Hash, _: Pubkey, sig: Signature) => sig == SIGNATURE)

  function Limits(gap: nat): CheckpointConfig {
    CheckpointConfig(300, gap, 40, 200, 1_814_400, 2, 40, 1000, 27_000, 15)
  }

  /** The default configuration has 12 days and a million units per satoshi. */
  function Settings(units: nat, gap: nat): Config {
    Config(Limits(gap), units, 1_209_600, 4, 64, 2_100_000_000, "usat")
  }

  const TWELVE_DAYS: nat := 1_036_800
  const MILLION: nat := 1_000_000

  /** Nothing is taken from a payout. */
  const ENV := PayoutEnv(None, 0, "relayer", "fees", "bridge", false, 0)

  function SetOn(now: nat, k: nat): SignatorySet {
    SignatorySet(now, 1, 1, k, [Signatory(1, KEY)])
  }

  /** The set of checkpoint `k` when one is created every `gap` seconds. */
  function SetAt(gap: nat, k: nat): SignatorySet {
    SetOn(Times(k, gap), k)
  }

  function BlockAt(now: nat, mark: Bytes): Block {
    Block(now, 0, ValidatorCtx([Validator([1], 1)], map[[1] := XPUB]), mark)
  }

  // ----- the signatory set -----

  lemma OneMember()
    ensures var all := [Signatory(1, KEY)]; Sort(all, Id) == all && Reverse(all) == all && Sum(all, SignatoryPower) == 1
  {
    var all := [Signatory(1, KEY)];
    assert all[1..] == [];
    SumSingle(all[0], SignatoryPower);
  }

  lemma OnePresent(k: nat)
    ensures Present(ORACLE, BlockAt(0, []).ctx, BlockAt(0, []).ctx.validators, k) == Ok([Signatory(1, KEY)])
  {
    var v, ctx := Validator([1], 1), BlockAt(0, []).ctx;
    assert [v][..0] == [];
    assert Present(ORACLE, ctx, [], k) == Ok([]);
    assert v.consensusKey in ctx.xpubs;
    assert [] + [Signatory(1, KEY)] == [Signatory(1, KEY)];
  }

  lemma NewSet(q: Queue, now: nat, mark: Bytes, k: nat)
    requires NextIndex(q) == k
    ensures NextSigset(ORACLE, q, BlockAt(now, mark)) == Ok(SetOn(now, k)) && Usable(SetOn(now, k))
  {
    OneMember();
    OnePresent(k);
    SumSingle(Validator([1], 1), ValidatorPower);
  }

  const SHARES: ThresholdSig := ThresholdSig(0, 0, [], 1, [Entry(KEY, Share(1, None))])

  lemma NewShares(gap: nat, k: nat)
    ensures TS.Fresh(TS.EntriesOf(SetAt(gap, k).signatories)) == Ok(SHARES) && TS.Fresh(SHARES.sigs) == Ok(SHARES)
  {
    var entries := TS.EntriesOf(SetAt(gap, k).signatories);
    assert entries == [Entry(KEY, Share(1, None))];
    SumSingle(entries[0], TS.Power);
  }

  // ----- checkpoints -----

  /** An unsigned input of one satoshi amount. */
  predicate Plain(i: Input, amount: nat) {
    i.amount == amount && i.estWitnessVsize == 118 && i.signatures == SHARES
  }

  lemma NewPlain(prevout: OutPoint, gap: nat, k: nat, dest: Bytes, amount: nat)
    ensures var r := NewInput(ORACLE, prevout, SetAt(gap, k), dest, amount);
            r.Ok? && Plain(r.value, amount) && r.value.prevout == prevout
  {
    NewShares(gap, k);
  }

  /** Building, with one input and no output. */
  predicate Open(cp: Checkpoint, gap: nat, k: nat, amount: nat) {
    && cp.status.Building? && cp.sigset == SetAt(gap, k) && cp.feeRate == DEFAULT_FEE_RATE
    && cp.signedAtBtcHeight == None && cp.depositsEnabled && cp.feesCollected < MILLION
    && SingleTx(cp) && cp.batches[0].signedTxs == 0 && Tx(cp).signedInputs == 0
    && |Tx(cp).input| == 1 && Plain(Tx(cp).input[0], amount) && Tx(cp).output == []
  }

  /** The fee it pays and the size that later fee adjustments count for it. */
  predicate Pays(cp: Checkpoint, gap: nat, fees: nat) {
    MinerFees(cp) == Ok(fees) && EstVsize(ORACLE, Limits(gap), cp, ZERO_COMMITMENT) == Ok(341)
  }

  /** Complete, its reserve output worth `reserve`. */
  predicate Done(cp: Checkpoint, gap: nat, k: nat, fees: nat, reserve: nat) {
    && cp.status.Complete? && cp.sigset == SetAt(gap, k) && cp.feeRate == DEFAULT_FEE_RATE
    && cp.signedAtBtcHeight == Some(0) && cp.depositsEnabled && Pays(cp, gap, fees)
    && Tx(cp).input != [] && Tx(cp).output != []
    && Tx(cp).output[0] == TxOut(reserve, ReserveScript(k))
  }

  function ReserveScript(k: nat): Bytes {
    [0, 32] + Padded([k % 256, 0])
  }

  // ----- fees -----

  lemma TwoSizes(a: TxOut, b: TxOut)
    ensures Sum([a, b], OutSize) == OutSize(a) + OutSize(b)
  {
    SumSnoc([a], b, OutSize);
    assert [a] + [b] == [a, b];
    SumSingle(a, OutSize);
  }

  lemma Additional(gap: nat, k: nat, data: Bytes)
    ensures var outs := AdditionalOutputs(ORACLE, SetAt(gap, k), data);
            && outs.Ok? && outs.value == [TxOut(0, ReserveScript(k)), TxOut(0, [0x6a, |data| % 256] + data)]
            && Sum(outs.value, OutSize) == 54 + |data|
  {
    var outs := AdditionalOutputs(ORACLE, SetAt(gap, k), data).value;
    assert [k % 256] + [0] == [k % 256, 0];
    TwoSizes(outs[0], outs[1]);
  }

  /** 223 virtual bytes besides the data, at 55 satoshis each. */
  lemma OpenFee(cp: Checkpoint, gap: nat, k: nat, amount: nat, data: Bytes)
    requires Open(cp, gap, k, amount) && amount < U64 && |data| <= 10_000
    ensures BaseFee(ORACLE, Limits(gap), cp, data) == Ok(55 * (223 + |data|))
    ensures Totals(Limits(gap), cp) == Ok((amount, 0))
  {
    Additional(gap, k, data);
    var outs, ins := AdditionalOutputs(ORACLE, cp.sigset, data).value, Tx(cp).input;
    assert outs + Tx(cp).output == outs;
    assert ins == [ins[0]];
    SumSingle(ins[0], Vsize);
    SumSingle(ins[0], Amount);
  }

  // ----- freezing and handing over -----

  /** What freezing an open checkpoint for a fee gives. */
  predicate FrozenFrom(a: Advanced, cp: Checkpoint, k: nat, amount: nat, data: Bytes, fees: nat) {
    && fees <= amount && |Tx(cp).input| == 1
    && SingleTx(a.cp) && a.cp == cp.(status := Signing, batches := a.cp.batches)
    && a.cp.batches[0].signedTxs == 0 && Tx(a.cp).signedInputs == 0
    && Tx(a.cp).input == [Tx(cp).input[0].(signatures := SHARES.(message := Padded([])))]
    && Tx(a.cp).output == [TxOut(amount - fees, ReserveScript(k)), TxOut(0, [0x6a, |data| % 256] + data)]
    && a.reserveOutpoint == OutPoint(Txid(ORACLE, Tx(a.cp)), 0) && a.reserveValue == amount - fees
    && a.excessInputs == [] && a.excessOutputs == []
  }

  lemma KeptOutputs(cp: Checkpoint, gap: nat, k: nat, data: Bytes)
    requires Tx(cp).output == []
    ensures var outs := AdditionalOutputs(ORACLE, SetAt(gap, k), data).value;
            && Take(outs + Tx(cp).output, 200) == outs && Drop(outs + Tx(cp).output, 200) == [] && Sum(outs, Value) == 0
  {
    var outs := AdditionalOutputs(ORACLE, SetAt(gap, k), data).value;
    assert outs + Tx(cp).output == outs;
    SumPair(outs);
  }

  lemma FreezeOpen(cp: Checkpoint, gap: nat, k: nat, amount: nat, data: Bytes, fees: nat) returns (a: Advanced)
    requires Open(cp, gap, k, amount) && amount < U64 && fees <= amount
    ensures Freeze(ORACLE, Limits(gap), cp, data, fees) == Ok(a) && FrozenFrom(a, cp, k, amount, data, fees)
  {
    Additional(gap, k, data);
    KeptOutputs(cp, gap, k, data);
    var ins := Tx(cp).input;
    assert ins == [ins[0]];
    SumSingle(ins[0], Amount);
    a := Freeze(ORACLE, Limits(gap), cp, data, fees).value;
    assert Tx(a.cp).input == [WithMessage(ORACLE, TxBody(Tx(cp).lockTime, Prevouts(ins), Tx(a.cp).output), 0, ins[0])];
  }

  lemma NextOpen(a: Advanced, cp: Checkpoint, gap: nat, k: nat, amount: nat, data: Bytes, fees: nat, rate: nat)
    returns (next: Checkpoint)
    requires FrozenFrom(a, cp, k, amount, data, fees) && cp.sigset == SetAt(gap, k)
    ensures Succeed(ORACLE, a, NewCheckpoint(SetAt(gap, k + 1), true), rate) == Ok(next)
    ensures next.sigset == SetAt(gap, k + 1) && (rate == DEFAULT_FEE_RATE ==> Open(next, gap, k + 1, amount - fees))
  {
    NewPlain(a.reserveOutpoint, gap, k, [0], amount - fees);
    next := Succeed(ORACLE, a, NewCheckpoint(SetAt(gap, k + 1), true), rate).value;
    var reserve, excess := SucceedParts(ORACLE, a, SetAt(gap, k + 1), true, rate, next);
    assert excess == [];
    assert [reserve] + excess == [reserve];
  }

  // ----- signing -----

  /** Frozen, its one input still to be signed. */
  predicate Waiting(cp: Checkpoint, gap: nat, k: nat, fees: nat, reserve: nat) {
    && cp.status.Signing? && cp.sigset == SetAt(gap, k) && cp.feeRate == DEFAULT_FEE_RATE
    && cp.signedAtBtcHeight == None && cp.depositsEnabled && Pays(cp, gap, fees)
    && SingleTx(cp) && cp.batches[0].signedTxs == 0 && Tx(cp).signedInputs == 0
    && |Tx(cp).input| == 1 && Tx(cp).input[0].signatures == SHARES.(message := Padded([]))
    && Tx(cp).output != [] && Tx(cp).output[0] == TxOut(reserve, ReserveScript(k))
  }

  lemma FourSizes(a: TxOut, b: TxOut, c: TxOut, d: TxOut)
    ensures Sum([a, b] + [c, d], OutSize) == OutSize(a) + OutSize(b) + OutSize(c) + OutSize(d)
  {
    SumConcat([a, b], [c, d], OutSize);
    TwoSizes(a, b);
    TwoSizes(c, d);
  }

  /** With 32 bytes of data, a frozen checkpoint counts 341 virtual bytes later on. */
  lemma FrozenCounts(a: Advanced, cp: Checkpoint, gap: nat, k: nat, amount: nat, data: Bytes, fees: nat)
    requires Open(cp, gap, k, amount) && amount < U64 && fees <= amount && |data| == 32
    requires Freeze(ORACLE, Limits(gap), cp, data, fees) == Ok(a) && FrozenFrom(a, cp, k, amount, data, fees)
    ensures Waiting(a.cp, gap, k, fees, amount - fees)
  {
    FreezeBalances(ORACLE, Limits(gap), cp, data, fees);
    Additional(gap, k, ZERO_COMMITMENT);
    var outs, tx := AdditionalOutputs(ORACLE, SetAt(gap, k), ZERO_COMMITMENT).value, Tx(a.cp);
    FourSizes(outs[0], outs[1], tx.output[0], tx.output[1]);
    assert outs + tx.output == [outs[0], outs[1]] + [tx.output[0], tx.output[1]];
    assert tx.input == [tx.input[0]];
    SumSingle(tx.input[0], Vsize);
    assert SizeOf(tx.input, outs + tx.output) == 223;
  }

  const SIGNED := ThresholdSig(0, 1, Padded([]), 1, [Entry(KEY, Share(1, Some(SIGNATURE)))])

  lemma SignShares(i: Input)
    requires i.signatures == SHARES.(message := Padded([]))
    ensures Signing.SignInput(ORACLE, XPUB, i, [SIGNATURE]) == Ok(Signing.Pass([i.(signatures := SIGNED)], [], 1))
  {
    assert TS.IndexOf(i.signatures.sigs, KEY) == Some(0);
    assert i.signatures.sigs[0 := Entry(KEY, Share(1, Some(SIGNATURE)))] == SIGNED.sigs;
    assert TS.Sign(ORACLE, i.signatures, KEY, SIGNATURE) == Ok(SIGNED);
    assert [SIGNATURE][1..] == [];
  }

  /** A pass over one item. */
  lemma OnePass<T>(f: Signing.Signer<T>, x: T, sigs: seq<Signature>)
    ensures Signing.PassAll(f, [x], sigs) ==
            match f(x, sigs)
            case Err(e) => Err(e)
            case Ok(p) => Ok(Signing.Pass([] + p.items, p.rest, 0 + p.newly))
  {
    assert [x][..0] == [];
    assert Signing.PassAll(f, [], sigs) == Ok(Signing.Pass([], sigs, 0));
  }

  lemma SignWaitingTx(tx: BitcoinTx)
    requires |tx.input| == 1 && tx.signedInputs == 0 && tx.input[0].signatures == SHARES.(message := Padded([]))
    ensures var tx' := tx.(input := [tx.input[0].(signatures := SIGNED)], signedInputs := 1);
            Signing.SignTx(ORACLE, XPUB, tx, [SIGNATURE]) == Ok(Signing.Pass([tx'], [], 1))
  {
    var f, i := Signing.InputSigner(ORACLE, XPUB), tx.input[0];
    SignShares(i);
    OnePass(f, i, [SIGNATURE]);
    assert tx.input == [i];
    assert [] + [i.(signatures := SIGNED)] == [i.(signatures := SIGNED)];
  }

  lemma SignWaiting(cp: Checkpoint, gap: nat, k: nat, fees: nat, reserve: nat) returns (signed: Checkpoint)
    requires Waiting(cp, gap, k, fees, reserve)
    ensures Signing.SignCheckpoint(ORACLE, cp, XPUB, [SIGNATURE], 0) == Ok(signed)
    ensures CheckpointSigned(signed.batches) && Done(signed.(status := Complete), gap, k, fees, reserve)
  {
    var f, tx := Signing.TxSigner(ORACLE, XPUB), Tx(cp);
    var tx' := tx.(input := [tx.input[0].(signatures := SIGNED)], signedInputs := 1);
    SignWaitingTx(tx);
    OnePass(f, tx, [SIGNATURE]);
    assert cp.batches[0].txs == [tx] && cp.batches[1..] == [] && [] + [tx'] == [tx'];
    assert Signing.SignBatches(f, cp.batches, [SIGNATURE]) == Ok(([Batch(1, [tx'])], [])) by {
      assert [Batch(1, [tx'])] + cp.batches[1..] == [Batch(1, [tx'])];
    }
    signed := cp.(batches := [Batch(1, [tx'])], signedAtBtcHeight := Some(0));
    OneSigned(tx');
    SamePays(cp, signed.(status := Complete), gap, fees, tx');
  }

  lemma OneSigned(tx: BitcoinTx)
    requires tx.signedInputs == |tx.input| == 1
    ensures CheckpointSigned([Batch(1, [tx])])
    ensures !CheckpointSigned([Batch(0, [tx])])
  {
    assert [Batch(1, [tx])][1..] == [];
  }

  lemma SamePays(a: Checkpoint, b: Checkpoint, gap: nat, fees: nat, tx: BitcoinTx)
    requires Pays(a, gap, fees) && SingleTx(a) && SingleTx(b) && Tx(b) == tx && b.sigset == a.sigset
    requires |Tx(a).input| == |tx.input| == 1 && tx.output == Tx(a).output
    requires tx.input[0] == Tx(a).input[0].(signatures := tx.input[0].signatures)
    ensures Pays(b, gap, fees)
  {
    assert tx.input == [tx.input[0]] && Tx(a).input == [Tx(a).input[0]];
    SumSingle(tx.input[0], Amount);
    SumSingle(Tx(a).input[0], Amount);
    SumSingle(tx.input[0], Vsize);
    SumSingle(Tx(a).input[0], Vsize);
  }
}
