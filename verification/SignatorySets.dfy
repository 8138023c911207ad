/** `SignatorySet`: built from the validator set, sorted and capped at twenty members. */
module SignatorySets {
  import opened Common
  import opened BitcoinTypes
  import opened Ordering

  const MAX_SIGNATORIES: nat := 20

  datatype Validator = Validator(consensusKey: Bytes, power: nat)

  /** The validator set and the extended public keys validators have submitted. */
  datatype ValidatorCtx = ValidatorCtx(validators: seq<Validator>, xpubs: map<Bytes, Xpub>)

  function ValidatorPower(v: Validator): int {
    v.power
  }

  function SignatoryPower(s: Signatory): int {
    s.power
  }

  /** Validators with a submitted key, as signatories, in validator order. */
  function Present(o: Oracle, ctx: ValidatorCtx, vals: seq<Validator>, index: nat): Result<seq<Signatory>> {
    if vals == [] then Ok([]) else
    var v := vals[|vals| - 1];
    var front :- Present(o, ctx, vals[..|vals| - 1], index);
    if v.consensusKey !in ctx.xpubs then Ok(front) else
    match o.derive(ctx.xpubs[v.consensusKey], index)
    case None => Err(Rejected)
    case Some(key) => Ok(front + [Signatory(v.power, key)])
  }

  function Take<T>(s: seq<T>, n: nat): seq<T> {
    if |s| <= n then s else s[..n]
  }

  /** What `from_validator_ctx` computes. */
  function FromValidators(o: Oracle, ctx: ValidatorCtx, createTime: nat, index: nat): (r: Result<SignatorySet>)
    ensures r.Ok? ==> r.value.index == index && r.value.createTime == createTime
  {
    var all :- Present(o, ctx, ctx.validators, index);
    var possible :- Checked(Sum(ctx.validators, ValidatorPower));
    var kept := Take(Reverse(Sort(all, Id)), MAX_SIGNATORIES);
    var present :- Checked(Sum(kept, SignatoryPower));
    Ok(SignatorySet(createTime, present, possible, index, kept))
  }

  function QuorumThreshold(s: SignatorySet): nat {
    s.possibleVp / 2
  }

  predicate HasQuorum(s: SignatorySet) {
    s.presentVp >= QuorumThreshold(s)
  }

  /** What every signatory set built from a validator set satisfies. */
  ghost predicate WellFormed(s: SignatorySet) {
    && |s.signatories| <= MAX_SIGNATORIES
    && (forall i, j :: 0 <= i < j < |s.signatories| ==> Le(s.signatories[j], s.signatories[i]))
    && s.presentVp == Sum(s.signatories, SignatoryPower)
    && s.presentVp < U64
  }

  lemma {:induction false} PresentPower(o: Oracle, ctx: ValidatorCtx, vals: seq<Validator>, index: nat)
    requires Present(o, ctx, vals, index).Ok?
    ensures 0 <= Sum(Present(o, ctx, vals, index).value, SignatoryPower) <= Sum(vals, ValidatorPower)
  {
    if vals != [] {
      var n := |vals| - 1;
      var v := vals[n];
      PresentPower(o, ctx, vals[..n], index);
      SumSnoc(vals[..n], v, ValidatorPower);
      assert vals == vals[..n] + [v];
      if v.consensusKey in ctx.xpubs {
        var key := o.derive(ctx.xpubs[v.consensusKey], index).value;
        SumSnoc(Present(o, ctx, vals[..|vals| - 1], index).value, Signatory(v.power, key), SignatoryPower);
      }
    }
  }

  lemma {:induction false} SumInsert(x: Signatory, s: seq<Signatory>, f: Signatory -> int)
    ensures Sum(Insert(x, s, Id), f) == f(x) + Sum(s, f)
  {
    if s == [] {
      SumSingle(x, f);
    } else if Le(x, s[0]) {
      SumCons(x, s, f);
    } else {
      SumInsert(x, s[1..], f);
      SumCons(s[0], Insert(x, s[1..], Id), f);
      assert s == [s[0]] + s[1..];
      SumCons(s[0], s[1..], f);
    }
  }

  lemma {:induction false} SumSort(s: seq<Signatory>, f: Signatory -> int)
    ensures Sum(Sort(s, Id), f) == Sum(s, f)
  {
    if s != [] {
      SumSort(s[1..], f);
      SumInsert(s[0], Sort(s[1..], Id), f);
      assert s == [s[0]] + s[1..];
      SumCons(s[0], s[1..], f);
    }
  }

  /** The sorted members, most powerful first. */
  lemma SortedMembers(all: seq<Signatory>, f: Signatory -> int)
    ensures var s := Reverse(Sort(all, Id));
            && |s| == |all| && Sum(s, f) == Sum(all, f)
            && (forall i, j :: 0 <= i < j < |s| ==> Le(s[j], s[i]))
  {
    var asc := Sort(all, Id);
    SortCorrect(all, Id);
    var s := Reverse(asc);
    forall i, j | 0 <= i < j < |s| ensures Le(s[j], s[i]) {
      assert Le(Id(asc[|s| - 1 - j]), Id(asc[|s| - 1 - i]));
    }
    SumReversed(asc, f);
    SumSort(all, f);
  }

  lemma FromValidatorsWellFormed(o: Oracle, ctx: ValidatorCtx, createTime: nat, index: nat)
    requires FromValidators(o, ctx, createTime, index).Ok?
    ensures WellFormed(FromValidators(o, ctx, createTime, index).value)
    ensures FromValidators(o, ctx, createTime, index).value.presentVp
         <= FromValidators(o, ctx, createTime, index).value.possibleVp
  {
    var all := Present(o, ctx, ctx.validators, index).value;
    SortedMembers(all, SignatoryPower);
    PresentPower(o, ctx, ctx.validators, index);
    var s := Reverse(Sort(all, Id));
    SumPrefix(s, if |s| < MAX_SIGNATORIES then |s| else MAX_SIGNATORIES, SignatoryPower);
    assert |s| <= MAX_SIGNATORIES ==> s[..|s|] == s;
  }

  /** Sorts, drops the members beyond the cap and takes their power back out. */
  method SortAndTruncate(vp: nat, all: seq<Signatory>) returns (presentVp: nat, kept: seq<Signatory>)
    requires vp == Sum(all, SignatoryPower)
    ensures kept == Take(Reverse(Sort(all, Id)), MAX_SIGNATORIES)
    ensures presentVp == Sum(kept, SignatoryPower) <= vp
    ensures forall i, j :: 0 <= i < j < |kept| ==> Le(kept[j], kept[i])
  {
    SortedMembers(all, SignatoryPower);
    presentVp, kept := vp, Reverse(Sort(all, Id));
    if |kept| > MAX_SIGNATORIES {
      SumSplit(kept, MAX_SIGNATORIES, SignatoryPower);
      for i := MAX_SIGNATORIES to |kept|
        invariant presentVp == Sum(kept[..MAX_SIGNATORIES], SignatoryPower) + Sum(kept[i..], SignatoryPower)
        invariant presentVp <= vp
      {
        assert kept[i..] == [kept[i]] + kept[i + 1..];
        SumCons(kept[i], kept[i + 1..], SignatoryPower);
        SumNonNegative(kept[i + 1..], SignatoryPower);
        SumNonNegative(kept[..MAX_SIGNATORIES], SignatoryPower);
        presentVp := presentVp - kept[i].power;
      }
      assert kept[|kept|..] == [];
      kept := kept[..MAX_SIGNATORIES];
    }
  }

  /**
    `from_validator_ctx`: one pass over the validators accumulating both totals, then
    `sort_and_truncate`, which takes the power of every dropped member back out.
   */
  method FromValidatorCtx(o: Oracle, ctx: ValidatorCtx, createTime: nat, index: nat)
    returns (r: Result<SignatorySet>)
    ensures r.Ok? ==> r == FromValidators(o, ctx, createTime, index)
    ensures r.Err? ==> FromValidators(o, ctx, createTime, index).Err?
  {
    var possibleVp, presentVp, signatories := 0, 0, [];
    var vals := ctx.validators;
    for i := 0 to |vals|
      invariant Present(o, ctx, vals[..i], index) == Ok(signatories)
      invariant possibleVp == Sum(vals[..i], ValidatorPower)
      invariant presentVp == Sum(signatories, SignatoryPower)
      invariant 0 <= presentVp <= possibleVp < U64
    {
      assert vals[..i + 1][..i] == vals[..i];
      SumSnoc(vals[..i], vals[i], ValidatorPower);
      assert vals[..i + 1] == vals[..i] + [vals[i]];
      SumPrefix(vals, i + 1, ValidatorPower);
      if possibleVp + vals[i].power >= U64 {
        return Err(Overflow);
      }
      possibleVp := possibleVp + vals[i].power;
      if vals[i].consensusKey in ctx.xpubs {
        var key := o.derive(ctx.xpubs[vals[i].consensusKey], index);
        if key.None? {
          PresentFails(o, ctx, vals, i + 1, index);
          return Err(Rejected);
        }
        SumSnoc(signatories, Signatory(vals[i].power, key.value), SignatoryPower);
        presentVp := presentVp + vals[i].power;
        signatories := signatories + [Signatory(vals[i].power, key.value)];
      }
    }
    assert vals[..|vals|] == vals;
    presentVp, signatories := SortAndTruncate(presentVp, signatories);
    return Ok(SignatorySet(createTime, presentVp, possibleVp, index, signatories));
  }

  lemma {:induction false} PresentFails(o: Oracle, ctx: ValidatorCtx, vals: seq<Validator>, i: nat, index: nat)
    requires i <= |vals| && Present(o, ctx, vals[..i], index).Err?
    ensures Present(o, ctx, vals, index).Err?
  {
    if i == |vals| {
      assert vals[..i] == vals;
    } else {
      assert vals[..|vals| - 1][..i] == vals[..i];
      PresentFails(o, ctx, vals[..|vals| - 1], i, index);
    }
  }
}
