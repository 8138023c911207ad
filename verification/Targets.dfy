/** Proof-of-work targets: the compact form, work, and retargeting. */
module Targets {
  import opened Common

  const U256: nat := 0x1_0000_0000_0000_0000_0000_0000_0000_0000_0000_0000_0000_0000_0000_0000_0000_0000

  // ----- the compact form -----

  /** `x` times 256 to the `k`. */
  function ShiftUp(x: nat, k: nat): nat {
    if k == 0 then x else 256 * ShiftUp(x, k - 1)
  }

  function ShiftDown(x: nat, k: nat): nat {
    if k == 0 then x else ShiftDown(x, k - 1) / 256
  }

  /** The number of bytes of `x`. */
  function Size(x: nat): nat {
    if x == 0 then 0 else 1 + Size(x / 256)
  }

  datatype Compact = Compact(size: nat, mantissa: nat)

  /** `u256_from_compact_target`; a mantissa with its sign bit set stands for zero. */
  function FromCompact(c: Compact): nat {
    var mantissa := if c.size <= 3 then ShiftDown(c.mantissa, 3 - c.size) else c.mantissa;
    if mantissa > 0x7f_ffff then 0
    else if c.size <= 3 then mantissa
    else ShiftUp(mantissa, c.size - 3)
  }

  /** `compact_target_from_u256`. */
  function ToCompact(x: nat): Compact {
    var size := Size(x);
    var mantissa := if size <= 3 then ShiftUp(x, 3 - size) else ShiftDown(x, size - 3);
    if mantissa >= 0x80_0000 then Compact(size + 1, mantissa / 256) else Compact(size, mantissa)
  }

  lemma {:induction false} ShiftUpDown(x: nat, k: nat)
    ensures ShiftUp(ShiftDown(x, k), k) <= x
  {
    if k > 0 {
      ShiftUpDown(x, k - 1);
      ShiftUpMonotone(256 * ShiftDown(x, k), ShiftDown(x, k - 1), k - 1);
      ShiftUpOne(ShiftDown(x, k), k - 1);
    }
  }

  lemma {:induction false} ShiftUpMonotone(a: nat, b: nat, k: nat)
    requires a <= b
    ensures ShiftUp(a, k) <= ShiftUp(b, k)
  {
    if k > 0 {
      ShiftUpMonotone(a, b, k - 1);
    }
  }

  lemma {:induction false} ShiftUpOne(x: nat, k: nat)
    ensures ShiftUp(256 * x, k) == ShiftUp(x, k + 1)
  {
    if k > 0 {
      ShiftUpOne(x, k - 1);
    }
  }

  lemma {:induction false} ShiftDownUp(x: nat, k: nat)
    ensures ShiftDown(ShiftUp(x, k), k) == x
  {
    if k > 0 {
      ShiftDownUp(x, k - 1);
      ShiftDownOne(ShiftUp(x, k - 1), k - 1);
    }
  }

  lemma {:induction false} ShiftDownOne(x: nat, k: nat)
    ensures ShiftDown(256 * x, k + 1) == ShiftDown(x, k)
  {
    if k > 0 {
      ShiftDownOne(x, k - 1);
    } else {
      assert ShiftDown(256 * x, 1) == ShiftDown(256 * x, 0) / 256;
    }
  }

  /** Going through the compact form rounds down. */
  lemma CompactRoundsDown(x: nat)
    ensures FromCompact(ToCompact(x)) <= x
  {
    var size := Size(x);
    if size <= 3 {
      SmallRoundsDown(x);
    } else {
      var mantissa := ShiftDown(x, size - 3);
      ShiftUpDown(x, size - 3);
      if mantissa >= 0x80_0000 {
        ShiftUpOne(mantissa / 256, size - 3);
        ShiftUpMonotone(256 * (mantissa / 256), mantissa, size - 3);
      }
    }
  }

  lemma SmallRoundsDown(x: nat)
    requires Size(x) <= 3
    ensures FromCompact(ToCompact(x)) <= x
  {
    var k := 3 - Size(x);
    if ShiftUp(x, k) < 0x80_0000 {
      SmallExact(x, k);
    } else if k == 0 {
      ThreeBytes(x);
    } else {
      SmallExact(x, k - 1);
      assert ShiftUp(x, k) == 256 * ShiftUp(x, k - 1);
    }
  }

  lemma SmallExact(x: nat, k: nat)
    requires k <= 3
    ensures FromCompact(Compact(3 - k, ShiftUp(x, k))) <= x
  {
    ShiftDownUp(x, k);
  }

  lemma ThreeBytes(x: nat)
    ensures FromCompact(Compact(4, x / 256)) <= x
  {
    assert ShiftUp(x / 256, 1) == 256 * ShiftUp(x / 256, 0);
  }

  lemma {:induction false} SizeDown(x: nat, k: nat)
    requires k <= Size(x)
    ensures Size(ShiftDown(x, k)) == Size(x) - k
  {
    if k > 0 {
      SizeDown(x, k - 1);
    }
  }

  lemma {:induction false} SizeUp(x: nat, k: nat)
    requires x > 0
    ensures Size(ShiftUp(x, k)) == Size(x) + k
  {
    if k > 0 {
      SizeUp(x, k - 1);
    }
  }

  lemma SizeThree(m: nat)
    requires Size(m) == 3
    ensures 0x1_0000 <= m < 0x100_0000
  {
    assert Size(m / 256) == 2 && Size(m / 256 / 256) == 1 && Size(m / 256 / 256 / 256) == 0;
  }

  lemma {:induction false} ShiftUpAbove(x: nat, k: nat)
    ensures x < ShiftUp(ShiftDown(x, k) + 1, k)
  {
    if k > 0 {
      ShiftUpAbove(x, k - 1);
      var q := ShiftDown(x, k);
      ShiftUpMonotone(ShiftDown(x, k - 1) + 1, 256 * (q + 1), k - 1);
      ShiftUpOne(q + 1, k - 1);
    }
  }

  lemma {:induction false} ShiftUpNext(x: nat, k: nat)
    ensures ShiftUp(x + 1, k) == ShiftUp(x, k) + ShiftUp(1, k)
  {
    if k > 0 {
      ShiftUpNext(x, k - 1);
    }
  }

  /** What one step of the mantissa is worth. */
  function Unit(c: Compact): nat {
    if c.size <= 3 then 1 else ShiftUp(1, c.size - 3)
  }

  /** Three bytes of mantissa with its sign bit clear, and no byte more than needed wasted. */
  lemma MantissaFull(x: nat)
    requires x > 0
    ensures 0x8000 <= ToCompact(x).mantissa <= 0x7f_ffff
  {
    var size := Size(x);
    if size <= 3 {
      SizeUp(x, 3 - size);
      SizeThree(ShiftUp(x, 3 - size));
    } else {
      SizeDown(x, size - 3);
      SizeThree(ShiftDown(x, size - 3));
    }
  }

  lemma SmallKept(x: nat)
    requires Size(x) <= 3 && ToCompact(x).mantissa <= 0x7f_ffff
    ensures x < FromCompact(ToCompact(x)) + Unit(ToCompact(x))
  {
    var k := 3 - Size(x);
    ShiftDownUp(x, k);
    if ShiftUp(x, k) >= 0x80_0000 && k > 0 {
      assert ShiftUp(x, k) / 256 == ShiftUp(x, k - 1);
      ShiftDownUp(x, k - 1);
    } else if k == 0 && x >= 0x80_0000 {
      assert ShiftUp(x / 256, 1) == 256 * ShiftUp(x / 256, 0) && ShiftUp(1, 1) == 256 * ShiftUp(1, 0);
    }
  }

  lemma LargeKept(x: nat, k: nat, m: nat)
    requires m == ShiftDown(x, k)
    ensures x < ShiftUp(m, k) + ShiftUp(1, k) && x < ShiftUp(m / 256, k + 1) + ShiftUp(1, k + 1)
  {
    ShiftUpAbove(x, k);
    ShiftUpNext(m, k);
    ShiftUpAbove(x, k + 1);
    ShiftUpNext(m / 256, k + 1);
  }

  /** The compact form loses less than one step of its mantissa, which is as long as can be. */
  lemma CompactKeeps(x: nat)
    ensures var c := ToCompact(x);
            && FromCompact(c) <= x < FromCompact(c) + Unit(c)
            && (x > 0 ==> 0x8000 <= c.mantissa <= 0x7f_ffff)
  {
    CompactRoundsDown(x);
    if x > 0 {
      MantissaFull(x);
      if Size(x) <= 3 {
        SmallKept(x);
      } else {
        LargeKept(x, Size(x) - 3, ShiftDown(x, Size(x) - 3));
      }
    }
  }

  // ----- retargeting -----

  datatype TargetConfig = TargetConfig(timespan: nat, maxTarget: Compact)

  /** Mainnet: the period divides by four and the largest target leaves room for the product. */
  predicate Mainnet(cfg: TargetConfig) {
    0 < cfg.timespan < 0x1_0000_0000 && cfg.timespan % 4 == 0 && Times(FromCompact(cfg.maxTarget), 4 * cfg.timespan) < U256
  }

  /** Two weeks, and the compact target 0x1d00ffff. */
  const MAINNET := TargetConfig(1_209_600, Compact(0x1d, 0xffff))

  lemma MainnetIsMainnet()
    ensures Mainnet(MAINNET)
    ensures FromCompact(MAINNET.maxTarget) == 0xffff_0000_0000_0000_0000_0000_0000_0000_0000_0000_0000_0000_0000_0000
  {
    assert ShiftUp(0xffff, 8) == 0xffff * 0x1_0000_0000_0000_0000;
    assert ShiftUp(0xffff, 16) == 0xffff * 0x1_0000_0000_0000_0000_0000_0000_0000_0000;
    assert ShiftUp(0xffff, 26) == 0xffff * 0x1_0000_0000_0000_0000_0000_0000_0000_0000_0000_0000_0000_0000_0000;
  }

  /** The new target before rounding and capping. */
  function Raw(cfg: TargetConfig, target: nat, span: nat): nat
    requires cfg.timespan > 0
  {
    Times(target, span) % U256 / cfg.timespan
  }

  function Retargeted(cfg: TargetConfig, target: nat, span: nat): nat
    requires cfg.timespan > 0
  {
    var rounded := FromCompact(ToCompact(Raw(cfg, target, span)));
    if rounded < FromCompact(cfg.maxTarget) then rounded else FromCompact(cfg.maxTarget)
  }

  lemma TimesAtMost(a: nat, b: nat, c: nat, d: nat)
    requires a <= c && b <= d
    ensures Times(a, b) <= Times(c, d)
  {
    assert a * b <= c * b;
    assert c * b <= c * d;
  }

  lemma TimesRegroup(a: nat, k: nat, d: nat)
    ensures Times(a, k * d) == Times(k * a, d)
  {
  }

  lemma TimesNext(q: nat, d: nat)
    ensures Times(q + 1, d) == Times(q, d) + d
  {
  }

  /** The quotient is what fits into the dividend. */
  lemma QuotientFits(x: nat, d: nat)
    requires d > 0
    ensures Times(x / d, d) <= x < Times(x / d, d) + d
  {
  }

  lemma QuotientAtLeast(x: nat, d: nat, q: nat)
    requires d > 0 && Times(q, d) <= x
    ensures q <= x / d
  {
    QuotientFits(x, d);
    TimesNext(x / d, d);
    if x / d < q {
      TimesAtMost(x / d + 1, d, q, d);
    }
  }

  lemma QuotientAtMost(x: nat, d: nat, q: nat)
    requires d > 0 && x <= Times(q, d)
    ensures x / d <= q
  {
    QuotientFits(x, d);
    TimesNext(q, d);
    if x / d > q {
      TimesAtMost(q + 1, d, x / d, d);
    }
  }

  lemma RawBounds(cfg: TargetConfig, target: nat, span: nat)
    requires Mainnet(cfg) && target <= FromCompact(cfg.maxTarget)
    requires cfg.timespan / 4 <= span <= 4 * cfg.timespan
    ensures Times(target, span) < U256
    ensures Raw(cfg, target, span) == Times(target, span) / cfg.timespan
    ensures target / 4 <= Raw(cfg, target, span) <= 4 * target
  {
    var d := cfg.timespan;
    TimesAtMost(target, span, FromCompact(cfg.maxTarget), 4 * d);
    TimesAtMost(target, span, target, 4 * d);
    TimesRegroup(target, 4, d);
    QuotientAtMost(Times(target, span), d, 4 * target);
    QuarterBelow(target, span, d);
    QuotientAtLeast(Times(target, span), d, target / 4);
  }

  /**
    Retarget bounds: the product fits 256 bits, the new target is at most four times the old
    one and at least a quarter of it before rounding, and never above the maximum.
   */
  lemma RetargetBounds(cfg: TargetConfig, target: nat, span: nat)
    requires Mainnet(cfg) && target <= FromCompact(cfg.maxTarget)
    requires cfg.timespan / 4 <= span <= 4 * cfg.timespan
    ensures Times(target, span) < U256
    ensures Times(Raw(cfg, target, span), cfg.timespan) <= Times(target, span)
          < Times(Raw(cfg, target, span), cfg.timespan) + cfg.timespan
    ensures target / 4 <= Raw(cfg, target, span) <= 4 * target
    ensures Retargeted(cfg, target, span) <= 4 * target
    ensures Retargeted(cfg, target, span) <= FromCompact(cfg.maxTarget)
  {
    RawBounds(cfg, target, span);
    QuotientFits(Times(target, span), cfg.timespan);
    TimesNext(Times(target, span) / cfg.timespan, cfg.timespan);
    CompactRoundsDown(Raw(cfg, target, span));
  }

  lemma QuarterBelow(target: nat, span: nat, d: nat)
    requires d % 4 == 0 && d / 4 <= span
    ensures Times(target / 4, d) <= Times(target, span)
  {
    var q := d / 4;
    TimesRegroup(target / 4, 4, q);
    TimesAtMost(4 * (target / 4), q, target, span);
  }

  /** The expected number of hashes for a target, `2^256 / (target + 1)`. */
  function Work(target: nat): nat {
    if target >= U256 then 1 else (U256 - 1 - target) / (target + 1) + 1
  }

  lemma OneMore(x: nat, d: nat)
    requires d > 0
    ensures Times(x / d + 1, d) <= x + d < Times(x / d + 2, d)
  {
    QuotientFits(x, d);
    TimesNext(x / d, d);
    TimesNext(x / d + 1, d);
  }

  /** It is 2^256 divided by the target plus one, rounded down. */
  lemma WorkMeans(target: nat)
    requires target < U256
    ensures Times(Work(target), target + 1) <= U256 < Times(Work(target) + 1, target + 1)
  {
    OneMore(U256 - 1 - target, target + 1);
  }
}
