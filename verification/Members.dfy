/**
  Which validators a signatory set is made of: the twenty most powerful of those that have
  submitted a key, each with its power and its key derived at the index of the set.
 */
module Members {
  import opened Common
  import opened BitcoinTypes
  import opened Ordering
  import opened SignatorySets

  /** Counts a signatory. */
  function Same(x: Signatory): Signatory -> int {
    (s: Signatory) => if s == x then 1 else 0
  }

  /** Counts the validators that a set with this index lists as `x`. */
  function Listed(o: Oracle, ctx: ValidatorCtx, index: nat, x: Signatory): Validator -> int {
    (v: Validator) =>
      if v.consensusKey in ctx.xpubs && o.derive(ctx.xpubs[v.consensusKey], index) == Some(x.key) && v.power == x.power
      then 1 else 0
  }

  /** The members and those left out are the validators with a submitted key, none left out unless
      twenty are in, and then none more powerful than a member; members come most powerful first. */
  ghost predicate Chosen(o: Oracle, ctx: ValidatorCtx, index: nat, members: seq<Signatory>, rest: seq<Signatory>) {
    && |members| <= 20 && (rest != [] ==> |members| == 20)
    && (forall x :: Sum(members, Same(x)) + Sum(rest, Same(x)) == Sum(ctx.validators, Listed(o, ctx, index, x)))
    && (forall i, j :: 0 <= i < |members| && 0 <= j < |rest| ==> Le(rest[j], members[i]))
    && (forall i, j :: 0 <= i < j < |members| ==> Le(members[j], members[i]))
  }

  lemma {:induction false} PresentListed(o: Oracle, ctx: ValidatorCtx, vals: seq<Validator>, index: nat, x: Signatory)
    requires Present(o, ctx, vals, index).Ok?
    ensures Sum(Present(o, ctx, vals, index).value, Same(x)) == Sum(vals, Listed(o, ctx, index, x))
  {
    if vals != [] {
      var n := |vals| - 1;
      var v := vals[n];
      PresentListed(o, ctx, vals[..n], index, x);
      SumSnoc(vals[..n], v, Listed(o, ctx, index, x));
      assert vals == vals[..n] + [v];
      if v.consensusKey in ctx.xpubs {
        var key := o.derive(ctx.xpubs[v.consensusKey], index).value;
        SumSnoc(Present(o, ctx, vals[..|vals| - 1], index).value, Signatory(v.power, key), Same(x));
      }
    }
  }

  lemma SplitSum(s: seq<Signatory>, kept: seq<Signatory>, rest: seq<Signatory>, f: Signatory -> int)
    requires s == kept + rest
    ensures Sum(kept, f) + Sum(rest, f) == Sum(s, f)
  {
    SumConcat(kept, rest, f);
  }

  /** The set built for an index at some time: its members, its two totals, its number and time. */
  lemma SetChosen(o: Oracle, ctx: ValidatorCtx, createTime: nat, index: nat) returns (rest: seq<Signatory>)
    requires FromValidators(o, ctx, createTime, index).Ok?
    ensures var s := FromValidators(o, ctx, createTime, index).value;
            && Chosen(o, ctx, index, s.signatories, rest)
            && s.presentVp == Sum(s.signatories, SignatoryPower) && s.possibleVp == Sum(ctx.validators, ValidatorPower)
            && s.index == index && s.createTime == createTime
  {
    var all := Present(o, ctx, ctx.validators, index).value;
    var s := Reverse(Sort(all, Id));
    SortedMembers(all, SignatoryPower);
    var kept := Take(s, MAX_SIGNATORIES);
    rest := s[|kept|..];
    assert s == kept + rest;
    forall x ensures Sum(kept, Same(x)) + Sum(rest, Same(x)) == Sum(ctx.validators, Listed(o, ctx, index, x)) {
      SortedMembers(all, Same(x));
      PresentListed(o, ctx, ctx.validators, index, x);
      SplitSum(s, kept, rest, Same(x));
    }
  }

  /** A count above zero is somebody. */
  lemma {:induction false} Somebody<T>(s: seq<T>, n: nat, f: T -> int) returns (k: nat)
    requires n <= |s| && SumTo(s, n, f) > 0
    ensures k < n && f(s[k]) > 0
  {
    if f(s[n - 1]) > 0 {
      k := n - 1;
    } else {
      k := Somebody(s, n - 1, f);
    }
  }

  lemma {:induction false} CountsItself(s: seq<Signatory>, n: nat, i: nat)
    requires i < n <= |s|
    ensures SumTo(s, n, Same(s[i])) > 0
  {
    SumToNonNegative(s, n - 1, Same(s[i]));
    if i < n - 1 {
      CountsItself(s, n - 1, i);
    }
  }

  /** Every member is some validator with its power and its key derived at this index. */
  lemma MemberIsValidator(o: Oracle, ctx: ValidatorCtx, index: nat, members: seq<Signatory>, rest: seq<Signatory>, i: nat)
    returns (k: nat)
    requires Chosen(o, ctx, index, members, rest) && i < |members|
    ensures k < |ctx.validators|
    ensures var v := ctx.validators[k];
            && v.consensusKey in ctx.xpubs && v.power == members[i].power
            && o.derive(ctx.xpubs[v.consensusKey], index) == Some(members[i].key)
  {
    var x := members[i];
    CountsItself(members, |members|, i);
    SumNonNegative(rest, Same(x));
    k := Somebody(ctx.validators, |ctx.validators|, Listed(o, ctx, index, x));
  }
}
