/** What a push to a source must carry, checked before it is queued. */
module Pushes {
  import opened Basics
  import opened DataValues
  import opened Graphs
  import opened Steps

  datatype Refusal = NotANode | OnlyItsProducer | NotARecord | MalformedExpiry | LacksValueOrBasis

  /** A write to a level: a value with its basis, and perhaps an expiry, or a read that failed or is unknown. */
  function LevelWrite(pushed: Data): (result: Result<Written, Refusal>)
    ensures result.Ok? && result.value.Present? && result.value.expiry.Some? ==> IsSafeInteger(result.value.expiry.value)
  {
    var expiry, status := FieldOf(pushed, "expiry"), FieldOf(pushed, "status");
    if !pushed.Obj? && !pushed.List? then Err(NotARecord)
    else if expiry.Some? && !(expiry.value.Whole? && IsSafeInteger(expiry.value.n)) then Err(Refusal.MalformedExpiry)
    else if status == Some(Str("unknown")) || status == Some(Str("failed")) then
      var reason := FieldOf(pushed, "reason");
      Ok(Blocked(status == Some(Str("failed")), if reason.Some? && reason.value.Str? then Some(reason.value.s) else None))
    else if FieldOf(pushed, "value").None? || FieldOf(pushed, "basis").None? then Err(LacksValueOrBasis)
    else Ok(Present(FieldOf(pushed, "value").value, FieldOf(pushed, "basis"), if expiry.Some? then Some(expiry.value.n) else None))
  }

  predicate IsSource(g: Graph, node: string) {
    node in g.nodes && (g.nodes[node].kind.LevelKind? || g.nodes[node].kind.OccurrenceKind?)
  }

  /** What pushing `pushed` to `node` asks of a step, or why it may not be pushed. */
  function Accept(g: Graph, node: string, pushed: Data): Result<Pending, Refusal> {
    if node !in g.nodes then Err(NotANode)
    else if !IsSource(g, node) then Err(OnlyItsProducer)
    else if g.nodes[node].kind.LevelKind? then
      var written :- LevelWrite(pushed);
      Ok(Pending(node, written))
    else Ok(Pending(node, Present(pushed, None, None)))
  }

  /** A write nobody pushed, of a clock's tick or an effect's answer. */
  function Produced(node: string, value: Data): Pending {
    Pending(node, Present(value, None, None))
  }

  /** What a journaled write is pushed as again: a source's through its checks, a runtime's as it was made. */
  function PendingOf(g: Graph, node: string, value: Data): Result<Pending, Refusal> {
    if IsSource(g, node) then Accept(g, node, value) else Ok(Produced(node, value))
  }
}
