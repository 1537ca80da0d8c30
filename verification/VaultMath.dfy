/** Sizing moves toward a target utilization in WAD fixed point, rounding so that none overshoots it. */
module VaultMath {
  import opened Basics

  const WAD := 1_000_000_000_000_000_000

  /** The highest utilization any move is sized toward: 99.9%. */
  const MAX_TARGET_UTILIZATION := 999_000_000_000_000_000

  function WMulDown(x: int, y: int): int {
    x * y / WAD
  }

  function WDivDown(x: int, y: int): int
    requires y > 0
  {
    x * WAD / y
  }

  function ZeroFloorSub(x: int, y: int): int {
    if x > y then x - y else 0
  }

  datatype MarketState = MarketState(supply: int, borrow: int)

  predicate IsMarket(state: MarketState) {
    state.supply >= 0 && state.borrow >= 0
  }

  /** Borrow over supply; 0 for an empty market. */
  function Utilization(state: MarketState): int
    requires IsMarket(state)
  {
    if state.supply == 0 then 0 else WDivDown(state.borrow, state.supply)
  }

  datatype Side = Allocate | Deallocate

  function After(state: MarketState, side: Side, amount: int): MarketState {
    state.(supply := if side.Deallocate? then state.supply - amount else state.supply + amount)
  }

  /** How far the market stands from the target; none for a target of 0, toward which nothing can be sized. */
  function UtilizationRatio(state: MarketState, target: int): Option<int>
    requires IsMarket(state) && target >= 0
  {
    if target == 0 then None else Some(WDivDown(Utilization(state), target))
  }

  function WithdrawalTo(state: MarketState, target: int): int
    requires IsMarket(state) && target >= 0
  {
    var ratio := UtilizationRatio(state, target);
    if ratio.None? then 0 else WMulDown(state.supply, WAD - ratio.value)
  }

  function DepositTo(state: MarketState, target: int): int
    requires IsMarket(state) && target >= 0
  {
    var ratio := UtilizationRatio(state, target);
    if ratio.None? then 0 else WMulDown(state.supply, ratio.value - WAD)
  }

  /** What may leave a market below its target: never more than the vault's own position. */
  function Withdrawable(state: MarketState, vaultAssets: int, target: int): int
    requires IsMarket(state) && target >= 0
  {
    Min(WithdrawalTo(state, target), vaultAssets)
  }

  // ----- Rounding down -----

  lemma DivDown(x: int, y: int)
    requires y > 0
    ensures (x / y) * y <= x < (x / y) * y + y
  {
  }

  lemma Times(a: int, b: int, c: int)
    requires a <= b && c >= 0
    ensures a * c <= b * c
  {
  }

  lemma TimesStrictly(a: int, b: int, c: int)
    requires a < b && c > 0
    ensures a * c < b * c
  {
  }

  lemma Cancel(a: int, b: int, c: int)
    requires c > 0 && a * c < b * c
    ensures a < b
  {
    if a >= b { Times(b, a, c); }
  }

  lemma AtLeastDiv(q: int, x: int, y: int)
    requires y > 0 && q * y <= x
    ensures q <= x / y
  {
    DivDown(x, y);
    if x / y < q { Times(x / y + 1, q, y); }
  }

  // ----- Deposits -----

  /** With every step rounded down, what is deposited stays within what the target allows. */
  lemma DepositFits(s: int, b: int, u: int, t: int, ratio: int, d: int)
    requires s > 0 && t > 0 && u == b * WAD / s && ratio == u * WAD / t && d <= s * (ratio - WAD) / WAD
    ensures t * (s + d) <= b * WAD
  {
    DivDown(b * WAD, s);
    DivDown(u * WAD, t);
    DivDown(s * (ratio - WAD), WAD);
    Times(d, s * (ratio - WAD) / WAD, WAD);
    assert (s + d) * WAD <= s * ratio by { assert s * (ratio - WAD) + s * WAD == s * ratio; }
    Times((s + d) * WAD, s * ratio, t);
    Times(ratio * t, u * WAD, s);
    Times(u * s, b * WAD, WAD);
    Regrouped(s, d, t, ratio, u, b);
  }

  lemma Regrouped(s: int, d: int, t: int, ratio: int, u: int, b: int)
    requires (s + d) * WAD * t <= s * ratio * t && ratio * t * s <= u * WAD * s && u * s * WAD <= b * WAD * WAD
    ensures t * (s + d) <= b * WAD
  {
    assert s * ratio * t == ratio * t * s;
    assert u * WAD * s == u * s * WAD;
    assert (s + d) * WAD * t == (t * (s + d)) * WAD;
    assert b * WAD * WAD == (b * WAD) * WAD;
  }

  /**
   * Depositing any amount up to what is sized for a target below the market's utilization never leaves the
   * market under that target, exactly, whatever was lost to rounding.
   */
  lemma DepositsNeverUndershoot(state: MarketState, target: int, amount: int)
    requires IsMarket(state) && 0 < target < Utilization(state) && 0 <= amount <= DepositTo(state, target)
    ensures Utilization(After(state, Allocate, amount)) >= target
  {
    var s, b := state.supply, state.borrow;
    var u := Utilization(state);
    DepositFits(s, b, u, target, u * WAD / target, amount);
    AtLeastDiv(target, b * WAD, s + amount);
  }

  lemma DepositRoom(s: int, ratio: int)
    ensures s * ratio <= (s + s * (ratio - WAD) / WAD + 1) * WAD
  {
    DivDown(s * (ratio - WAD), WAD);
    assert s * (ratio - WAD) == s * ratio - s * WAD;
  }

  /** Nor is the whole of what is sized much less than the target allows: it lands as close as the roundings let it. */
  lemma DepositsReachTheirTarget(state: MarketState, target: int)
    requires IsMarket(state) && state.supply > 0 && 0 < target <= WAD && target < Utilization(state)
    ensures state.borrow * WAD < target * (state.supply + DepositTo(state, target) + 1) + 2 * state.supply
  {
    var s, b, u := state.supply, state.borrow, Utilization(state);
    var ratio := u * WAD / target;
    DivDown(b * WAD, s);
    DivDown(u * WAD, target);
    DepositRoom(s, ratio);
    TimesStrictly(u * WAD, ratio * target + target, s);
    Times(s * ratio, (s + DepositTo(state, target) + 1) * WAD, target);
    Times(target, WAD, s);
    BoundRegrouped(s, -DepositTo(state, target) - 1, target, ratio, u);
  }

  // ----- Withdrawals -----

  lemma WithdrawalRoom(s: int, ratio: int, w: int)
    requires w <= s * (WAD - ratio) / WAD
    ensures s * ratio <= (s - w) * WAD
  {
    DivDown(s * (WAD - ratio), WAD);
    Times(w, s * (WAD - ratio) / WAD, WAD);
    assert s * (WAD - ratio) == s * WAD - s * ratio;
  }

  /** Two roundings down lose less than two supplies' worth of utilization between them. */
  lemma WithdrawalBound(s: int, b: int, u: int, t: int, ratio: int, w: int)
    requires s > 0 && 0 < t <= WAD && u == b * WAD / s && ratio == u * WAD / t && w <= s * (WAD - ratio) / WAD
    ensures b * WAD < t * (s - w) + 2 * s
  {
    DivDown(b * WAD, s);
    DivDown(u * WAD, t);
    WithdrawalRoom(s, ratio, w);
    assert b * WAD < u * s + s;
    TimesStrictly(u * WAD, ratio * t + t, s);
    Times(s * ratio, (s - w) * WAD, t);
    Times(t, WAD, s);
    BoundRegrouped(s, w, t, ratio, u);
  }

  lemma BoundRegrouped(s: int, w: int, t: int, ratio: int, u: int)
    requires u * WAD * s < (ratio * t + t) * s && s * ratio * t <= (s - w) * WAD * t && t * s <= WAD * s
    ensures u * s < t * (s - w) + s
  {
    assert (ratio * t + t) * s == s * ratio * t + t * s;
    assert u * WAD * s == (u * s) * WAD;
    assert (s - w) * WAD * t + WAD * s == (t * (s - w) + s) * WAD;
    assert (u * s) * WAD < (t * (s - w) + s) * WAD;
  }

  /**
   * Withdrawing any amount up to what is sized for a target of at most 100% leaves the market's borrow
   * within that target of its supply, but for less than two units of utilization per unit it held; and no
   * bound so strict holds of an empty market.
   */
  lemma WithdrawalsBarelyOvershoot(state: MarketState, vaultAssets: int, target: int, amount: int)
    requires IsMarket(state) && 0 < target <= WAD && Utilization(state) < target
    requires 0 <= amount <= Withdrawable(state, vaultAssets, target)
    ensures state.borrow * WAD < target * After(state, Deallocate, amount).supply + 2 * state.supply <==> state.supply > 0
  {
    var u := Utilization(state);
    if state.supply > 0 {
      WithdrawalBound(state.supply, state.borrow, u, target, u * WAD / target, amount);
    } else {
      NothingToWithdraw(state, vaultAssets, target);
    }
  }

  lemma NothingToWithdraw(state: MarketState, vaultAssets: int, target: int)
    requires IsMarket(state) && state.supply == 0 && target > 0
    ensures Withdrawable(state, vaultAssets, target) <= 0
  {
  }

  /**
   * A withdrawal aimed no higher than the ceiling leaves a market that is borrowed from free liquidity, unless
   * the market has no supply at all.
   */
  lemma WithdrawalsLeaveLiquidity(state: MarketState, vaultAssets: int, target: int, amount: int)
    requires IsMarket(state) && 0 < target <= MAX_TARGET_UTILIZATION && Utilization(state) < target
    requires 0 <= amount <= Withdrawable(state, vaultAssets, target) && state.borrow * WAD >= 2000 * state.supply
    ensures After(state, Deallocate, amount).supply > state.borrow <==> state.supply > 0
  {
    if state.supply > 0 {
      WithdrawalsBarelyOvershoot(state, vaultAssets, target, amount);
      LiquidityLeft(state.supply, state.borrow, target, state.supply - amount);
    } else {
      NothingToWithdraw(state, vaultAssets, target);
    }
  }

  lemma LiquidityLeft(s: int, b: int, t: int, left: int)
    requires b >= 0 && t <= MAX_TARGET_UTILIZATION && b * WAD < t * left + 2 * s && b * WAD >= 2000 * s && t > 0
    ensures left > b
  {
    Times(t, MAX_TARGET_UTILIZATION, b);
    assert left * t == t * left && b * t == t * b;
    assert 1000 * (b * MAX_TARGET_UTILIZATION) == 999 * (b * WAD);
    Cancel(b, left, t);
  }

  /** A vault never withdraws more than its own position, nor a sound sizing more than the market supplies. */
  lemma WithdrawalsWithinPosition(state: MarketState, vaultAssets: int, target: int)
    requires IsMarket(state) && 0 < target && Utilization(state) < target
    ensures Withdrawable(state, vaultAssets, target) <= vaultAssets
    ensures 0 <= WithdrawalTo(state, target) <= state.supply
  {
    var ratio := Utilization(state) * WAD / target;
    UtilizationNotNegative(state);
    DivDown(Utilization(state) * WAD, target);
    TimesStrictly(Utilization(state), target, WAD);
    RatioBelow(Utilization(state), target, ratio);
    Times(WAD - ratio, WAD, state.supply);
    Times(0, WAD - ratio, state.supply);
    DivDown(state.supply * (WAD - ratio), WAD);
    WithdrawalWithinSupply(state.supply, ratio);
  }

  lemma UtilizationNotNegative(state: MarketState)
    requires IsMarket(state)
    ensures Utilization(state) >= 0
  {
    if state.supply > 0 { AtLeastDiv(0, state.borrow * WAD, state.supply); }
  }

  lemma RatioBelow(u: int, t: int, ratio: int)
    requires 0 <= u < t && ratio * t <= u * WAD < ratio * t + t
    ensures 0 <= ratio <= WAD
  {
    assert 0 <= u * WAD < (ratio + 1) * t;
    Cancel(0, ratio + 1, t);
    Times(u, t, WAD);
    assert ratio * t < (WAD + 1) * t;
    Cancel(ratio, WAD + 1, t);
  }

  lemma WithdrawalWithinSupply(s: int, ratio: int)
    requires s >= 0 && 0 <= ratio <= WAD
    ensures 0 <= s * (WAD - ratio) / WAD <= s
  {
    Times(0, WAD - ratio, s);
    Times(WAD - ratio, WAD, s);
    assert s * (WAD - ratio) <= s * WAD;
    AtLeastDiv(0, s * (WAD - ratio), WAD);
    DivDown(s * (WAD - ratio), WAD);
    assert s * (WAD - ratio) / WAD * WAD < (s + 1) * WAD;
    Cancel(s * (WAD - ratio) / WAD, s + 1, WAD);
  }
}
