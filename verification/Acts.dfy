/** What an act rests on: the readings of its facts, the block they were read at, and when it stops holding. */
module Acts {
  import opened Basics
  import opened DataValues
  import opened KeyedLevels

  /** A key of a fact, read: what it holds by digest or that it is absent, the block of the read and its deadline. */
  datatype Reading = Reading(version: Option<Data>, block: int, blockHash: string, expiry: Option<int>)

  datatype Defect = NamesNoBlock | RestsOnNothing | NamesNoDeadline

  datatype BlockRef = BlockRef(block: int, blockHash: string)

  /** The block number and hash a read point names; a defect if it names none. */
  function ChainBasis(basis: Data): Result<BlockRef, Defect> {
    var block, blockHash := FieldOf(basis, "block"), FieldOf(basis, "blockHash");
    if block.Some? && block.value.Whole? && IsSafeInteger(block.value.n) && block.value.n >= 0 && blockHash.Some? && blockHash.value.Str?
    then Ok(BlockRef(block.value.n, blockHash.value.s))
    else Err(NamesNoBlock)
  }

  /** What `key` reads as, to be cited by an act; nothing for a key that is unknown or failed. */
  function FactOf(keyed: Option<Keyed<Data>>, key: string): Result<Option<Reading>, Defect> {
    if keyed.None? then Ok(None)
    else
      match RecordAt(keyed.value, key)
      case Unread(_, _) => Ok(None)
      case PresentKey(value, basis, expiry) =>
        var at :- ChainBasis(basis);
        Ok(Some(Reading(Some(value), at.block, at.blockHash, expiry)))
      case AbsentKey(basis, expiry) =>
        var at :- ChainBasis(basis);
        Ok(Some(Reading(None, at.block, at.blockHash, expiry)))
  }

  datatype Grounds = Grounds(basisBlock: int, evidence: seq<Reading>, notAfter: int)

  function Latest(from: int, readings: seq<Reading>): int {
    if readings == [] then from else Max(Latest(from, readings[..|readings| - 1]), readings[|readings| - 1].block)
  }

  function Earliest(from: Option<int>, readings: seq<Reading>): Option<int> {
    if readings == [] then from
    else Earlier(Earliest(from, readings[..|readings| - 1]), readings[|readings| - 1].expiry)
  }

  /** What acting on `restsOn` commits an act to: the newest block of all, and the tightest deadline. */
  function GroundsOf(restsOn: seq<Reading>, readAt: Option<int>, validUntil: Option<int>): Result<Grounds, Defect> {
    if restsOn == [] then Err(RestsOnNothing)
    else
      var notAfter := Earliest(validUntil, restsOn);
      if notAfter.None? then Err(NamesNoDeadline)
      else Ok(Grounds(Latest(if readAt.Some? then readAt.value else 0, restsOn), restsOn, notAfter.value))
  }

  lemma {:induction false} LatestIsMax(from: int, readings: seq<Reading>)
    ensures Latest(from, readings) >= from && forall k :: 0 <= k < |readings| ==> Latest(from, readings) >= readings[k].block
    ensures Latest(from, readings) == from || exists k :: 0 <= k < |readings| && Latest(from, readings) == readings[k].block
  {
    if readings != [] { LatestIsMax(from, readings[..|readings| - 1]); }
  }

  lemma {:induction false} EarliestIsMin(from: Option<int>, readings: seq<Reading>)
    ensures Earliest(from, readings).None? <==> from.None? && forall k :: 0 <= k < |readings| ==> readings[k].expiry.None?
    ensures var e := Earliest(from, readings);
            e.Some? ==> && (from.Some? ==> e.value <= from.value)
                        && (forall k :: 0 <= k < |readings| && readings[k].expiry.Some? ==> e.value <= readings[k].expiry.value)
                        && (e == from || exists k :: 0 <= k < |readings| && readings[k].expiry == e)
  {
    if readings != [] { EarliestIsMin(from, readings[..|readings| - 1]); }
  }

  /**
   * An act is refused exactly when it rests on no fact or on none with a deadline; its block is the newest
   * it read at, and nothing of it leaves after the first of its deadlines.
   */
  lemma GroundsAreTight(restsOn: seq<Reading>, readAt: Option<int>, validUntil: Option<int>)
    ensures GroundsOf(restsOn, readAt, validUntil).Err? <==>
            restsOn == [] || (validUntil.None? && forall k :: 0 <= k < |restsOn| ==> restsOn[k].expiry.None?)
    ensures GroundsOf(restsOn, readAt, validUntil).Ok? ==>
              var grounds := GroundsOf(restsOn, readAt, validUntil).value;
              && (forall k :: 0 <= k < |restsOn| ==> grounds.basisBlock >= restsOn[k].block)
              && (readAt.Some? ==> grounds.basisBlock >= readAt.value)
              && (validUntil.Some? ==> grounds.notAfter <= validUntil.value)
              && (forall k :: 0 <= k < |restsOn| && restsOn[k].expiry.Some? ==> grounds.notAfter <= restsOn[k].expiry.value)
              && (validUntil == Some(grounds.notAfter) || exists k :: 0 <= k < |restsOn| && restsOn[k].expiry == Some(grounds.notAfter))
  {
    LatestIsMax(if readAt.Some? then readAt.value else 0, restsOn);
    EarliestIsMin(validUntil, restsOn);
  }
}
