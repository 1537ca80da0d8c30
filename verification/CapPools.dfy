/** Shared deposit ceilings: what allocations draw and deallocations free under each cap, never overspent. */
module CapPools {
  import opened Basics
  import opened VaultMath

  /** A cap and what is allocated under it. Its relative part, when it is WAD, caps nothing. */
  datatype Cap = Cap(absolute: int, relative: int, allocation: int)

  datatype Market = Market(collateral: string, vaultAssets: int, cap: Cap)

  datatype VaultData = VaultData(totalAssets: int, adapterCap: Cap, collateralCaps: map<string, Cap>, markets: seq<Market>)

  /** What the tighter part of a cap allows, scaled by the buffer. */
  function BufferedCeiling(cap: Cap, totalAssets: int, buffer: int): (ceiling: int)
    ensures ceiling <= WMulDown(cap.absolute, buffer)
    ensures cap.relative != WAD ==> ceiling <= WMulDown(WMulDown(totalAssets, cap.relative), buffer)
    ensures ceiling == WMulDown(cap.absolute, buffer)
            || (cap.relative != WAD && ceiling == WMulDown(WMulDown(totalAssets, cap.relative), buffer))
  {
    var absolute := WMulDown(cap.absolute, buffer);
    if cap.relative == WAD then absolute else Min(absolute, WMulDown(WMulDown(totalAssets, cap.relative), buffer))
  }

  /** How much more fits under `cap` once `basis` counts as allocated. */
  function CapHeadroom(cap: Cap, basis: int, totalAssets: int, buffer: int): int {
    ZeroFloorSub(BufferedCeiling(cap, totalAssets, buffer), basis)
  }

  /** The allocation true-up a leg applies to every cap it touches: accrual only grows a position. */
  function AccrualDrift(market: Market): (drift: int)
    ensures drift >= 0 && market.cap.allocation + drift == Max(market.cap.allocation, market.vaultAssets)
  {
    ZeroFloorSub(market.vaultAssets, market.cap.allocation)
  }

  /** What may be allocated to a market above its target: within the target and its own cap from its accrued position. */
  function Depositable(state: MarketState, market: Market, totalAssets: int, target: int, buffer: int): int
    requires IsMarket(state) && target >= 0
  {
    Min(DepositTo(state, target), CapHeadroom(market.cap, Max(market.cap.allocation, market.vaultAssets), totalAssets, buffer))
  }

  /** The single-cap vault's form of the same bound. */
  function DepositableUnder(state: MarketState, vaultAssets: int, cap: int, target: int, buffer: int): int
    requires IsMarket(state) && target >= 0
  {
    Min(DepositTo(state, target), ZeroFloorSub(WMulDown(cap, buffer), vaultAssets))
  }

  /** An allocation neither takes the market under its target nor its accrued position over its buffered cap. */
  lemma AllocationsFit(state: MarketState, market: Market, totalAssets: int, target: int, buffer: int, amount: int)
    requires IsMarket(state) && 0 < target < Utilization(state) && 0 < amount <= Depositable(state, market, totalAssets, target, buffer)
    ensures Utilization(After(state, Allocate, amount)) >= target
    ensures Max(market.cap.allocation, market.vaultAssets) + amount <= BufferedCeiling(market.cap, totalAssets, buffer)
  {
    DepositsNeverUndershoot(state, target, amount);
  }

  lemma DepositsFitTheirCap(state: MarketState, vaultAssets: int, cap: int, target: int, buffer: int, amount: int)
    requires IsMarket(state) && 0 < target < Utilization(state) && 0 < amount <= DepositableUnder(state, vaultAssets, cap, target, buffer)
    ensures Utilization(After(state, Allocate, amount)) >= target
    ensures vaultAssets + amount <= WMulDown(cap, buffer)
  {
    DepositsNeverUndershoot(state, target, amount);
  }

  // ----- Rooms -----

  /** What is left under one cap, or how far over it the vault already is. */
  datatype Room = Room(headroom: int, deficit: int)

  function RoomOf(cap: Cap, basis: int, totalAssets: int, buffer: int): Room {
    var ceiling := BufferedCeiling(cap, totalAssets, buffer);
    Room(ZeroFloorSub(ceiling, basis), ZeroFloorSub(basis, ceiling))
  }

  /** Freed capacity repays what was over the cap before any of it becomes headroom. */
  function Credited(room: Room, amount: int): Room {
    var repaid := Min(amount, room.deficit);
    Room(room.headroom + (amount - repaid), room.deficit - repaid)
  }

  datatype Pools = Pools(adapter: Room, byCollateral: map<string, Room>)

  function RoomAt(pools: Pools, collateral: string): Room {
    if collateral in pools.byCollateral then pools.byCollateral[collateral] else Room(0, 0)
  }

  function CreditedPools(pools: Pools, collateral: string, amount: int): Pools {
    Pools(Credited(pools.adapter, amount), pools.byCollateral[collateral := Credited(RoomAt(pools, collateral), amount)])
  }

  function TakenAmount(pools: Pools, collateral: string, amount: int): int {
    Min(amount, Min(pools.adapter.headroom, RoomAt(pools, collateral).headroom))
  }

  function TakenPools(pools: Pools, collateral: string, amount: int): Pools {
    var taken := TakenAmount(pools, collateral, amount);
    Pools(pools.adapter.(headroom := pools.adapter.headroom - taken),
          if collateral in pools.byCollateral
          then pools.byCollateral[collateral := RoomAt(pools, collateral).(headroom := RoomAt(pools, collateral).headroom - taken)]
          else pools.byCollateral)
  }

  // ----- The drift of a vault's markets -----

  function TotalDrift(markets: seq<Market>): int {
    if markets == [] then 0 else TotalDrift(markets[..|markets| - 1]) + AccrualDrift(markets[|markets| - 1])
  }

  /** The drift of those markets `touched` picks out. */
  function DriftOf(markets: seq<Market>, touched: Market -> bool): int {
    if markets == [] then 0
    else
      var last := markets[|markets| - 1];
      DriftOf(markets[..|markets| - 1], touched) + if touched(last) then AccrualDrift(last) else 0
  }

  function DriftByCollateral(markets: seq<Market>): map<string, int> {
    if markets == [] then map[]
    else
      var before, last := DriftByCollateral(markets[..|markets| - 1]), markets[|markets| - 1];
      before[last.collateral := (if last.collateral in before then before[last.collateral] else 0) + AccrualDrift(last)]
  }

  function DriftAt(drifts: map<string, int>, collateral: string): int {
    if collateral in drifts then drifts[collateral] else 0
  }

  function PoolsOf(vault: VaultData, buffer: int): Pools {
    var drifts := DriftByCollateral(vault.markets);
    Pools(RoomOf(vault.adapterCap, vault.adapterCap.allocation + TotalDrift(vault.markets), vault.totalAssets, buffer),
          map token | token in vault.collateralCaps :: CollateralRoom(vault, drifts, token, buffer))
  }

  function CollateralRoom(vault: VaultData, drifts: map<string, int>, token: string, buffer: int): Room
    requires token in vault.collateralCaps
  {
    var cap := vault.collateralCaps[token];
    RoomOf(cap, cap.allocation + DriftAt(drifts, token), vault.totalAssets, buffer)
  }

  /** Each collateral's drift is that of its own markets. */
  lemma {:induction false} DriftsByCollateral(markets: seq<Market>, collateral: string)
    ensures DriftAt(DriftByCollateral(markets), collateral) == DriftOf(markets, (m: Market) => m.collateral == collateral)
  {
    if markets != [] { DriftsByCollateral(markets[..|markets| - 1], collateral); }
  }

  function SumOf(drifts: map<string, int>, collaterals: seq<string>): int {
    if collaterals == [] then 0
    else SumOf(drifts, collaterals[..|collaterals| - 1]) + DriftAt(drifts, collaterals[|collaterals| - 1])
  }

  lemma {:induction false} SumWithOneMore(before: map<string, int>, after: map<string, int>, collaterals: seq<string>, changed: string, added: int)
    requires (forall c :: c != changed ==> DriftAt(after, c) == DriftAt(before, c)) && DriftAt(after, changed) == DriftAt(before, changed) + added
    requires forall a, b :: 0 <= a < b < |collaterals| ==> collaterals[a] != collaterals[b]
    ensures SumOf(after, collaterals) == SumOf(before, collaterals) + if changed in collaterals then added else 0
  {
    if collaterals != [] {
      var init, last := collaterals[..|collaterals| - 1], collaterals[|collaterals| - 1];
      assert collaterals == init + [last];
      SumWithOneMore(before, after, init, changed, added);
      assert last !in init;
    }
  }

  /** The collaterals' drifts add up to the adapter's, over any list naming every collateral once. */
  lemma {:induction false} DriftsAddUp(markets: seq<Market>, collaterals: seq<string>)
    requires forall k :: 0 <= k < |markets| ==> markets[k].collateral in collaterals
    requires forall a, b :: 0 <= a < b < |collaterals| ==> collaterals[a] != collaterals[b]
    ensures SumOf(DriftByCollateral(markets), collaterals) == TotalDrift(markets)
    decreases |markets|
  {
    if markets == [] {
      NoDrift(collaterals);
    } else {
      var init, last := markets[..|markets| - 1], markets[|markets| - 1];
      DriftsAddUp(init, collaterals);
      SumWithOneMore(DriftByCollateral(init), DriftByCollateral(markets), collaterals, last.collateral, AccrualDrift(last));
    }
  }

  lemma {:induction false} NoDrift(collaterals: seq<string>)
    ensures SumOf(map[], collaterals) == 0
  {
    if collaterals != [] { NoDrift(collaterals[..|collaterals| - 1]); }
  }

  /** Whichever markets a plan touches, no pool's basis is below what truing those up makes its allocation. */
  lemma {:induction false} BasisCoversAnyTouched(markets: seq<Market>, touched: Market -> bool, collateral: string)
    ensures 0 <= DriftOf(markets, touched) <= TotalDrift(markets)
    ensures DriftOf(markets, (m: Market) => m.collateral == collateral && touched(m)) <= DriftAt(DriftByCollateral(markets), collateral)
  {
    DriftsByCollateral(markets, collateral);
    DriftGrows(markets, touched, (m: Market) => true);
    DriftGrows(markets, (m: Market) => m.collateral == collateral && touched(m), (m: Market) => m.collateral == collateral);
    AllDrift(markets);
  }

  lemma {:induction false} DriftGrows(markets: seq<Market>, fewer: Market -> bool, more: Market -> bool)
    requires forall m :: fewer(m) ==> more(m)
    ensures 0 <= DriftOf(markets, fewer) <= DriftOf(markets, more)
  {
    if markets != [] { DriftGrows(markets[..|markets| - 1], fewer, more); }
  }

  lemma {:induction false} AllDrift(markets: seq<Market>)
    ensures DriftOf(markets, (m: Market) => true) == TotalDrift(markets)
  {
    if markets != [] { AllDrift(markets[..|markets| - 1]); }
  }

  // ----- Over whole plans -----

  datatype Leg = Credit(collateral: string, amount: nat) | Take(collateral: string, amount: nat)

  function AfterLeg(pools: Pools, leg: Leg): Pools {
    match leg
    case Credit(collateral, amount) => CreditedPools(pools, collateral, amount)
    case Take(collateral, amount) => TakenPools(pools, collateral, amount)
  }

  /** The pools a plan has reached, with what it has credited and taken, in all and of each collateral. */
  datatype Books = Books(pools: Pools, credited: int, taken: int, creditedTo: map<string, int>, takenOf: map<string, int>)

  function Opened(pools: Pools): Books {
    Books(pools, 0, 0, map[], map[])
  }

  function At(sums: map<string, int>, collateral: string): int {
    if collateral in sums then sums[collateral] else 0
  }

  function Posted(books: Books, leg: Leg): Books {
    var c := leg.collateral;
    match leg
    case Credit(_, amount) =>
      books.(pools := AfterLeg(books.pools, leg), credited := books.credited + amount,
             creditedTo := books.creditedTo[c := At(books.creditedTo, c) + amount])
    case Take(_, amount) =>
      var taken := TakenAmount(books.pools, c, amount);
      books.(pools := AfterLeg(books.pools, leg), taken := books.taken + taken, takenOf := books.takenOf[c := At(books.takenOf, c) + taken])
  }

  function Ran(pools: Pools, legs: seq<Leg>): Books {
    if legs == [] then Opened(pools) else Posted(Ran(pools, legs[..|legs| - 1]), legs[|legs| - 1])
  }

  /** A room that has been credited and drawn on, from a start `slack` under its ceiling, or over it if negative. */
  ghost predicate Balanced(room: Room, slack: int, credited: int, taken: int) {
    && room.headroom >= 0 && room.deficit >= 0 && (room.headroom == 0 || room.deficit == 0)
    && room.headroom - room.deficit == slack + credited - taken
    && taken >= 0 && (taken > 0 ==> room.deficit == 0)
  }

  /** The adapter's pool and that of `c` balance, with what has been credited and taken of them. */
  ghost predicate AccountsBalance(start: Pools, books: Books, c: string) {
    && Balanced(books.pools.adapter, SlackOf(start.adapter), books.credited, books.taken)
    && BalancedAt(books, SlackOf(RoomAt(start, c)), c)
  }

  ghost predicate BalancedAt(books: Books, slack: int, c: string) {
    Balanced(RoomAt(books.pools, c), slack, At(books.creditedTo, c), At(books.takenOf, c))
  }

  function SlackOf(room: Room): int {
    room.headroom - room.deficit
  }

  predicate IsFresh(room: Room) {
    room.headroom >= 0 && room.deficit >= 0 && (room.headroom == 0 || room.deficit == 0)
  }

  lemma CreditingBalances(room: Room, slack: int, credited: int, taken: int, amount: nat)
    requires Balanced(room, slack, credited, taken)
    ensures Balanced(Credited(room, amount), slack, credited + amount, taken)
  {
  }

  lemma TakingBalances(room: Room, slack: int, credited: int, taken: int, amount: nat)
    requires Balanced(room, slack, credited, taken) && amount <= room.headroom
    ensures Balanced(room.(headroom := room.headroom - amount), slack, credited, taken + amount)
  {
  }

  /** A leg moves its own collateral's room and sums, and no other's. */
  lemma PostedElsewhere(books: Books, leg: Leg, after: Books, c: string)
    requires after == Posted(books, leg) && c != leg.collateral
    ensures RoomAt(after.pools, c) == RoomAt(books.pools, c) && At(after.creditedTo, c) == At(books.creditedTo, c)
    ensures At(after.takenOf, c) == At(books.takenOf, c)
  {
  }

  lemma PostedCredit(books: Books, d: string, amount: nat, after: Books)
    requires after == Posted(books, Credit(d, amount))
    ensures RoomAt(after.pools, d) == Credited(RoomAt(books.pools, d), amount) && At(after.creditedTo, d) == At(books.creditedTo, d) + amount
    ensures At(after.takenOf, d) == At(books.takenOf, d)
    ensures after.pools.adapter == Credited(books.pools.adapter, amount) && after.credited == books.credited + amount && after.taken == books.taken
  {
  }

  lemma PostedTake(books: Books, d: string, amount: nat, after: Books, taken: int)
    requires after == Posted(books, Take(d, amount)) && taken == TakenAmount(books.pools, d, amount)
    requires books.pools.adapter.headroom >= 0 && RoomAt(books.pools, d).headroom >= 0
    ensures 0 <= taken <= books.pools.adapter.headroom && taken <= RoomAt(books.pools, d).headroom
    ensures RoomAt(after.pools, d) == RoomAt(books.pools, d).(headroom := RoomAt(books.pools, d).headroom - taken)
    ensures At(after.creditedTo, d) == At(books.creditedTo, d) && At(after.takenOf, d) == At(books.takenOf, d) + taken
    ensures after.pools.adapter == books.pools.adapter.(headroom := books.pools.adapter.headroom - taken)
    ensures after.credited == books.credited && after.taken == books.taken + taken
  {
  }

  lemma CreditBalances(books: Books, d: string, amount: nat, after: Books, slack: int, slackAt: int)
    requires after == Posted(books, Credit(d, amount))
    requires Balanced(books.pools.adapter, slack, books.credited, books.taken) && BalancedAt(books, slackAt, d)
    ensures Balanced(after.pools.adapter, slack, after.credited, after.taken)
    ensures BalancedAt(after, slackAt, d)
  {
    PostedCredit(books, d, amount, after);
    CreditingBalances(books.pools.adapter, slack, books.credited, books.taken, amount);
    CreditingBalances(RoomAt(books.pools, d), slackAt, At(books.creditedTo, d), At(books.takenOf, d), amount);
  }

  lemma TakeBalances(books: Books, d: string, amount: nat, after: Books, slack: int, slackAt: int)
    requires after == Posted(books, Take(d, amount))
    requires Balanced(books.pools.adapter, slack, books.credited, books.taken) && BalancedAt(books, slackAt, d)
    ensures Balanced(after.pools.adapter, slack, after.credited, after.taken)
    ensures BalancedAt(after, slackAt, d)
  {
    var taken := TakenAmount(books.pools, d, amount);
    PostedTake(books, d, amount, after, taken);
    TakingBalances(books.pools.adapter, slack, books.credited, books.taken, taken);
    TakingBalances(RoomAt(books.pools, d), slackAt, At(books.creditedTo, d), At(books.takenOf, d), taken);
  }

  lemma PostingBalancesIts(books: Books, leg: Leg, after: Books, slack: int, slackAt: int)
    requires after == Posted(books, leg) && Balanced(books.pools.adapter, slack, books.credited, books.taken)
    requires BalancedAt(books, slackAt, leg.collateral)
    ensures Balanced(after.pools.adapter, slack, after.credited, after.taken)
    ensures BalancedAt(after, slackAt, leg.collateral)
  {
    match leg {
      case Credit(d, amount) => CreditBalances(books, d, amount, after, slack, slackAt);
      case Take(d, amount) => TakeBalances(books, d, amount, after, slack, slackAt);
    }
  }

  lemma PostingElsewhereBalances(books: Books, leg: Leg, after: Books, c: string, slack: int)
    requires after == Posted(books, leg) && c != leg.collateral && BalancedAt(books, slack, c)
    ensures BalancedAt(after, slack, c)
  {
    PostedElsewhere(books, leg, after, c);
  }

  ghost predicate Fresh(pools: Pools) {
    IsFresh(pools.adapter) && forall c :: c in pools.byCollateral ==> IsFresh(pools.byCollateral[c])
  }

  lemma PoolsStartFresh(vault: VaultData, buffer: int)
    ensures Fresh(PoolsOf(vault, buffer))
  {
  }

  lemma OpenedBalances(pools: Pools, c: string)
    requires Fresh(pools)
    ensures AccountsBalance(pools, Opened(pools), c)
  {
  }

  lemma PostingBalances(start: Pools, books: Books, leg: Leg, after: Books, c: string)
    requires AccountsBalance(start, books, c) && AccountsBalance(start, books, leg.collateral) && after == Posted(books, leg)
    ensures AccountsBalance(start, after, c)
  {
    PostingBalancesIts(books, leg, after, SlackOf(start.adapter), SlackOf(RoomAt(start, leg.collateral)));
    if c != leg.collateral { PostingElsewhereBalances(books, leg, after, c, SlackOf(RoomAt(start, c))); }
  }

  /**
   * Over any plan of credits and takes, every pool keeps its headroom less its deficit equal to its ceiling
   * less its basis, plus what was credited, less what was taken; with one of headroom and deficit zero, and
   * no deficit once anything was taken.
   */
  lemma {:induction false} PoolsBalance(start: Pools, legs: seq<Leg>, books: Books, c: string)
    requires Fresh(start) && books == Ran(start, legs)
    ensures AccountsBalance(start, books, c)
    decreases |legs|
  {
    if legs == [] {
      OpenedBalances(start, c);
    } else {
      var init, leg := legs[..|legs| - 1], legs[|legs| - 1];
      var before := Ran(start, init);
      PoolsBalance(start, init, before, c);
      PoolsBalance(start, init, before, leg.collateral);
      PostingBalances(start, before, leg, books, c);
    }
  }

  lemma PlansBalance(vault: VaultData, buffer: int, start: Pools, legs: seq<Leg>, books: Books, c: string)
    requires start == PoolsOf(vault, buffer) && books == Ran(start, legs)
    ensures AccountsBalance(start, books, c)
  {
    PoolsStartFresh(vault, buffer);
    PoolsBalance(start, legs, books, c);
  }

  /** A pool starts as far under its ceiling as its basis is. */
  lemma StartingSlack(vault: VaultData, buffer: int, start: Pools)
    requires start == PoolsOf(vault, buffer)
    ensures SlackOf(start.adapter)
            == BufferedCeiling(vault.adapterCap, vault.totalAssets, buffer) - vault.adapterCap.allocation - TotalDrift(vault.markets)
  {
  }

  lemma StartingSlackAt(vault: VaultData, buffer: int, start: Pools, c: string)
    requires start == PoolsOf(vault, buffer) && c in vault.collateralCaps
    ensures SlackOf(RoomAt(start, c)) == BufferedCeiling(vault.collateralCaps[c], vault.totalAssets, buffer)
                                         - vault.collateralCaps[c].allocation - DriftAt(DriftByCollateral(vault.markets), c)
  {
    assert RoomAt(start, c) == CollateralRoom(vault, DriftByCollateral(vault.markets), c, buffer);
  }

  lemma AccountsStayWithin(start: Pools, books: Books, c: string)
    requires AccountsBalance(start, books, c)
    ensures books.taken > 0 ==> books.taken <= SlackOf(start.adapter) + books.credited
    ensures At(books.takenOf, c) > 0 ==> At(books.takenOf, c) <= SlackOf(RoomAt(start, c)) + At(books.creditedTo, c)
  {
  }

  /**
   * A plan over a vault never overspends: once anything is taken, the adapter's effective allocation after
   * the plan is within its buffered caps.
   */
  lemma PlansNeverOverspendAdapter(vault: VaultData, buffer: int, start: Pools, legs: seq<Leg>, books: Books)
    requires start == PoolsOf(vault, buffer) && books == Ran(start, legs)
    ensures books.taken > 0 ==> vault.adapterCap.allocation + TotalDrift(vault.markets) - books.credited + books.taken
                                <= BufferedCeiling(vault.adapterCap, vault.totalAssets, buffer)
  {
    PlansBalance(vault, buffer, start, legs, books, "");
    StartingSlack(vault, buffer, start);
    AccountsStayWithin(start, books, "");
  }

  /** Nor does it overspend a listed collateral's cap, once anything is taken of that collateral. */
  lemma PlansNeverOverspendCollateral(vault: VaultData, buffer: int, start: Pools, legs: seq<Leg>, books: Books, c: string)
    requires c in vault.collateralCaps && start == PoolsOf(vault, buffer) && books == Ran(start, legs)
    ensures At(books.takenOf, c) > 0 ==>
              vault.collateralCaps[c].allocation + DriftAt(DriftByCollateral(vault.markets), c) - At(books.creditedTo, c) + At(books.takenOf, c)
              <= BufferedCeiling(vault.collateralCaps[c], vault.totalAssets, buffer)
  {
    PlansBalance(vault, buffer, start, legs, books, c);
    StartingSlackAt(vault, buffer, start, c);
    AccountsStayWithin(start, books, c);
  }

  /** Nothing is ever taken of a collateral no cap lists, until something has been credited to it. */
  lemma UnlistedTakesNothing(pools: Pools, collateral: string, amount: nat)
    requires pools.adapter.headroom >= 0 && collateral !in pools.byCollateral
    ensures TakenAmount(pools, collateral, amount) == 0 && TakenPools(pools, collateral, amount) == pools
  {
  }

  // ----- The pools, updated in place -----

  class CapRoom {
    var headroom: int
    var deficit: int

    constructor (room: Room)
      ensures Now() == room
    {
      headroom, deficit := room.headroom, room.deficit;
    }

    ghost function Now(): Room
      reads this
    {
      Room(headroom, deficit)
    }

    method Credit(amount: int)
      modifies this
      ensures Now() == Credited(old(Now()), amount)
    {
      var repaid := Min(amount, deficit);
      deficit := deficit - repaid;
      headroom := headroom + (amount - repaid);
    }

    method Draw(amount: int)
      modifies this`headroom
      ensures Now() == old(Now()).(headroom := old(headroom) - amount)
    {
      headroom := headroom - amount;
    }
  }

  class DepositPools {
    const adapter: CapRoom
    var byCollateral: map<string, CapRoom>
    /** What the rooms hold, by collateral. */
    ghost var rooms: map<string, Room>

    /** Every pool has a room of its own. */
    ghost predicate Valid()
      reads this, adapter, byCollateral.Values
    {
      && adapter !in byCollateral.Values
      && byCollateral.Keys == rooms.Keys
      && (forall c :: c in byCollateral ==> byCollateral[c].Now() == rooms[c])
      && (forall c, d :: c in byCollateral && d in byCollateral && c != d ==> byCollateral[c] != byCollateral[d])
    }

    ghost function Now(): Pools
      reads this, adapter
    {
      Pools(adapter.Now(), rooms)
    }

    constructor (adapter: CapRoom)
      ensures Valid() && this.adapter == adapter && Now() == Pools(adapter.Now(), map[]) && byCollateral == map[]
    {
      this.adapter := adapter;
      byCollateral, rooms := map[], map[];
    }

    /** Lists one more collateral's pool. */
    method List(collateral: string, room: CapRoom)
      requires Valid() && room != adapter && room !in byCollateral.Values
      modifies this
      ensures Valid() && byCollateral == old(byCollateral)[collateral := room]
      ensures rooms == old(rooms)[collateral := room.Now()]
    {
      byCollateral := byCollateral[collateral := room];
      rooms := rooms[collateral := room.Now()];
    }

    /** Gives back `amount` to two pools: that of the adapter and that of the collateral. */
    method CreditPools(collateral: string, amount: int)
      requires Valid()
      modifies this, adapter, byCollateral.Values
      ensures Valid() && fresh(byCollateral.Values - old(byCollateral.Values))
      ensures Now() == CreditedPools(old(Now()), collateral, amount)
    {
      adapter.Credit(amount);
      var room: CapRoom;
      if collateral in byCollateral {
        room := byCollateral[collateral];
      } else {
        room := new CapRoom(Room(0, 0));
      }
      room.Credit(amount);
      byCollateral := byCollateral[collateral := room];
      rooms := rooms[collateral := room.Now()];
    }

    /** Clamps `amount` to the adapter's and the collateral's pool, draws it from both, and returns it. */
    method TakeFromPools(collateral: string, amount: int) returns (taken: int)
      requires Valid()
      modifies this`rooms, adapter, byCollateral.Values
      ensures Valid()
      ensures taken == TakenAmount(old(Now()), collateral, amount)
      ensures Now() == TakenPools(old(Now()), collateral, amount)
    {
      var headroom := if collateral in byCollateral then byCollateral[collateral].headroom else 0;
      taken := Min(amount, Min(adapter.headroom, headroom));
      adapter.Draw(taken);
      if collateral in byCollateral {
        byCollateral[collateral].Draw(taken);
        rooms := rooms[collateral := byCollateral[collateral].Now()];
      }
    }
  }

  /** The drift of all markets, and of each collateral's. */
  method SumDrifts(markets: seq<Market>) returns (total: int, drifts: map<string, int>)
    ensures total == TotalDrift(markets) && drifts == DriftByCollateral(markets)
  {
    total, drifts := 0, map[];
    for k := 0 to |markets|
      invariant total == TotalDrift(markets[..k]) && drifts == DriftByCollateral(markets[..k])
    {
      assert markets[..k + 1][..k] == markets[..k];
      var drift, key := AccrualDrift(markets[k]), markets[k].collateral;
      total := total + drift;
      drifts := drifts[key := (if key in drifts then drifts[key] else 0) + drift];
    }
    assert markets[..|markets|] == markets;
  }

  /** One pool for the adapter, and one per collateral with a cap, each from its allocation and its markets' drift. */
  method CreateDepositPools(vault: VaultData, buffer: int) returns (pools: DepositPools)
    ensures pools.Valid() && fresh(pools) && fresh(pools.adapter) && fresh(pools.byCollateral.Values)
    ensures pools.Now() == PoolsOf(vault, buffer)
  {
    var total, drifts := SumDrifts(vault.markets);
    var adapter := new CapRoom(RoomOf(vault.adapterCap, vault.adapterCap.allocation + total, vault.totalAssets, buffer));
    pools := new DepositPools(adapter);
    ListAll(vault, drifts, buffer, pools);
    assert pools.rooms == PoolsOf(vault, buffer).byCollateral;
  }

  /** Lists a pool for each collateral with a cap. */
  method ListAll(vault: VaultData, drifts: map<string, int>, buffer: int, pools: DepositPools)
    requires pools.Valid() && pools.byCollateral == map[]
    modifies pools
    ensures pools.Valid() && fresh(pools.byCollateral.Values)
    ensures pools.rooms.Keys == vault.collateralCaps.Keys
    ensures forall token :: token in pools.rooms ==> pools.rooms[token] == CollateralRoom(vault, drifts, token, buffer)
  {
    var left := vault.collateralCaps.Keys;
    while left != {}
      invariant left <= vault.collateralCaps.Keys && pools.Valid() && fresh(pools.byCollateral.Values)
      invariant pools.rooms.Keys == vault.collateralCaps.Keys - left
      invariant forall token :: token in pools.rooms ==> pools.rooms[token] == CollateralRoom(vault, drifts, token, buffer)
      decreases left
    {
      var token :| token in left;
      var start := CollateralRoom(vault, drifts, token, buffer);
      var room := new CapRoom(start);
      assert room.Now() == start;
      ghost var before := pools.byCollateral;
      pools.List(token, room);
      assert pools.byCollateral.Values <= before.Values + {room};
      left := left - {token};
    }
  }
}
