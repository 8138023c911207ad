/** `ThresholdSig`: weighted collection of signatures over one message. */
module ThresholdSigs {
  import opened Common
  import opened BitcoinTypes

  function Power(e: Entry): int {
    e.share.power
  }

  function SignedPower(e: Entry): int {
    if e.share.sig.Some? then e.share.power else 0
  }

  predicate Unsigned(sigs: seq<Entry>) {
    forall i :: 0 <= i < |sigs| ==> sigs[i].share.sig.None?
  }

  /** Two thirds of the total, as fixed by the constant `SIGSET_THRESHOLD`. */
  function TwoThirds(total: nat): nat {
    total * 2 / 3
  }

  /** The counters agree with the shares, and the powers fit a machine word. */
  ghost predicate Valid(ts: ThresholdSig) {
    && ts.signed == Sum(ts.sigs, SignedPower)
    && Sum(ts.sigs, Power) < U64
    && ts.threshold == TwoThirds(Total(ts.sigs))
    && ts.len == |ts.sigs|
  }

  ghost function Total(sigs: seq<Entry>): (n: nat)
    ensures n == Sum(sigs, Power)
  {
    SumNonNegative(sigs, Power);
    Sum(sigs, Power)
  }

  /** Entries of a signatory set, nobody having signed. */
  function EntriesOf(signatories: seq<Signatory>): (es: seq<Entry>)
    ensures |es| == |signatories|
    ensures forall i :: 0 <= i < |es| ==>
              es[i] == Entry(signatories[i].key, Share(signatories[i].power, None))
  {
    seq(|signatories|, i requires 0 <= i < |signatories| =>
      Entry(signatories[i].key, Share(signatories[i].power, None)))
  }

  /**
    Rebuilds the collection from a list of shares. It panics when one of them is
    already signed, and when the powers overflow a machine word.
   */
  method FromShares(shares: seq<Entry>) returns (r: Result<ThresholdSig>)
    ensures r.Ok? <==> Unsigned(shares) && Sum(shares, Power) < U64
    ensures r.Ok? ==> Valid(r.value) && r.value.signed == 0
    ensures r.Ok? ==> r.value.sigs == shares && r.value.message == []
    ensures r.Err? ==> r.error == Overflow
  {
    var total, len, sigs := 0, 0, [];
    for i := 0 to |shares|
      invariant sigs == shares[..i] && len == i
      invariant total == Sum(shares[..i], Power) < U64
      invariant Unsigned(shares[..i])
      invariant 0 <= total
    {
      if shares[i].share.sig.Some? {
        return Err(Overflow);
      }
      assert shares[..i + 1] == shares[..i] + [shares[i]];
      SumSnoc(shares[..i], shares[i], Power);
      SumPrefix(shares, i + 1, Power);
      total := total + shares[i].share.power;
      if total >= U64 {
        return Err(Overflow);
      }
      len := len + 1;
      sigs := sigs + [shares[i]];
    }
    assert shares[..|shares|] == shares;
    UnsignedSum(shares);
    return Ok(ThresholdSig(TwoThirds(total), 0, [], len, sigs));
  }

  /** The value both constructors build, as a function of the entries. */
  function Fresh(shares: seq<Entry>): Result<ThresholdSig> {
    if !Unsigned(shares) then Err(Overflow) else
    var total :- Checked(Sum(shares, Power));
    Ok(ThresholdSig(TwoThirds(total), 0, [], |shares|, shares))
  }

  lemma UnsignedSum(sigs: seq<Entry>)
    requires Unsigned(sigs)
    ensures Sum(sigs, SignedPower) == 0
  {
    SumToZero(sigs, |sigs|, SignedPower);
  }

  lemma FreshValid(shares: seq<Entry>)
    ensures Fresh(shares).Ok? ==> Valid(Fresh(shares).value) && Fresh(shares).value.sigs == shares
    ensures Fresh(shares).Ok? <==> Unsigned(shares) && Sum(shares, Power) < U64
  {
    SumNonNegative(shares, Power);
    if Unsigned(shares) {
      UnsignedSum(shares);
    }
  }

  predicate Signed(ts: ThresholdSig) {
    ts.signed > ts.threshold
  }

  /** Position of the first entry with the given key. */
  function IndexOf(sigs: seq<Entry>, key: Pubkey): (r: Option<nat>)
    ensures r.Some? ==> r.value < |sigs| && sigs[r.value].key == key
    ensures r.Some? ==> forall j :: 0 <= j < r.value ==> sigs[j].key != key
    ensures r.None? ==> forall j :: 0 <= j < |sigs| ==> sigs[j].key != key
  {
    if sigs == [] then None
    else if sigs[0].key == key then Some(0)
    else match IndexOf(sigs[1..], key)
      case None => None
      case Some(i) => Some(i + 1)
  }

  predicate NeedsSig(ts: ThresholdSig, key: Pubkey) {
    var i := IndexOf(ts.sigs, key);
    i.Some? && ts.sigs[i.value].share.sig.None?
  }

  function Sign(o: Oracle, ts: ThresholdSig, key: Pubkey, sig: Signature): Result<ThresholdSig> {
    match IndexOf(ts.sigs, key)
    case None => Err(NoValue)
    case Some(i) =>
      var share := ts.sigs[i].share;
      if share.sig.Some? then Err(AlreadySigned)
      else if !o.verify(ts.message, key, sig) then Err(BadSignature)
      else
        var signed :- Checked(ts.signed + share.power);
        Ok(ts.(signed := signed, sigs := ts.sigs[i := Entry(key, share.(sig := Some(sig)))]))
  }

  /**
    A key that still has to sign succeeds exactly with a verifying signature; the
    collection stays consistent, the key's power is added once and nothing else
    about the entries changes.
   */
  lemma SignCorrect(o: Oracle, ts: ThresholdSig, key: Pubkey, sig: Signature)
    requires Valid(ts) && NeedsSig(ts, key)
    ensures Sign(o, ts, key, sig).Ok? <==> o.verify(ts.message, key, sig)
    ensures Sign(o, ts, key, sig).Ok? ==>
              var ts' := Sign(o, ts, key, sig).value;
              && Valid(ts') && !NeedsSig(ts', key)
              && (Signed(ts) ==> Signed(ts'))
              && ts'.message == ts.message && ts'.threshold == ts.threshold
              && forall other :: other != key ==> NeedsSig(ts', other) == NeedsSig(ts, other)
  {
    var i := IndexOf(ts.sigs, key).value;
    var e := Entry(key, ts.sigs[i].share.(sig := Some(sig)));
    SumUpdate(ts.sigs, i, e, SignedPower);
    SumUpdate(ts.sigs, i, e, Power);
    SumAtMost(ts.sigs[i := e], SignedPower, Power);
    if o.verify(ts.message, key, sig) {
      var ts' := Sign(o, ts, key, sig).value;
      forall other ensures IndexOf(ts'.sigs, other) == IndexOf(ts.sigs, other) {
        IndexOfSameKeys(ts.sigs, ts'.sigs, other);
      }
    }
  }

  lemma {:induction false} IndexOfSameKeys(a: seq<Entry>, b: seq<Entry>, key: Pubkey)
    requires |a| == |b| && forall i :: 0 <= i < |a| ==> a[i].key == b[i].key
    ensures IndexOf(a, key) == IndexOf(b, key)
  {
    if a != [] {
      IndexOfSameKeys(a[1..], b[1..], key);
    }
  }
}
