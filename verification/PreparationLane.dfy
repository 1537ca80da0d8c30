/** The lane a family's preparations run in: nothing that happens to it costs one of them its place. */
module PreparationLane {
  import opened Basics
  import opened Intents
  import opened Families
  import opened TaskRuns
  import Lanes
  import LaneRuns

  predicate IsPreparation(event: LaneRuns.Event, effect: nat) {
    event.Requested? && event.request.job.effect == effect
  }

  /** `request` is what the runner makes of the preparation `asked` asks for: its ticket, and its place by number. */
  predicate Carries(asked: Emitted, request: Lanes.Request) {
    asked.Asked? && request.job.identity == asked.request.id && request.position == Some(asked.request.number)
  }

  /**
   * The requests of `effect` among `events` carry preparations among `emitted`, event `n` the one at `at[n]`,
   * in the order they were asked for; anything else may happen in between.
   */
  ghost predicate Delivers(emitted: seq<Emitted>, at: seq<nat>, events: seq<LaneRuns.Event>, effect: nat) {
    && |at| == |events|
    && (forall n :: 0 <= n < |events| && IsPreparation(events[n], effect) ==> at[n] < |emitted| && Carries(emitted[at[n]], events[n].request))
    && (forall m, n :: 0 <= m < n < |events| && IsPreparation(events[m], effect) && IsPreparation(events[n], effect) ==> at[m] < at[n])
  }

  /** What was asked was numbered upwards, each under a ticket of its own. */
  ghost predicate InTurn(emitted: seq<Emitted>) {
    forall a, b :: 0 <= a < b < |emitted| && emitted[a].Asked? && emitted[b].Asked? ==>
      emitted[a].request.number < emitted[b].request.number && emitted[a].request.id != emitted[b].request.id
  }

  lemma RunsAskInTurn(o: Options, steps: seq<Step>)
    requires (o.concurrency.Some? ==> o.concurrency.value >= 0) && Plain(o.runId) && NamesTasks(o)
    ensures InTurn(Ran(o, steps).1)
  {
    var emitted := Ran(o, steps).1;
    forall a, b | 0 <= a < b < |emitted| && emitted[a].Asked? && emitted[b].Asked?
      ensures emitted[a].request.number < emitted[b].request.number && emitted[a].request.id != emitted[b].request.id
    {
      IssuedOnce(o, steps, a, b);
    }
  }

  lemma KnownInTurn(emitted: seq<Emitted>, v: Lanes.View, effect: nat, at: seq<nat>, events: seq<LaneRuns.Event>, n: nat)
    requires InTurn(emitted) && Delivers(emitted, at, events, effect) && n < |events| && IsPreparation(events[n], effect)
    requires LaneRuns.KnowsOnly(v, events[..n])
    ensures !Lanes.BelowMark(v, events[n].request)
    ensures forall job :: LaneRuns.Has(v, job) ==> Lanes.NameOf(job) != Lanes.NameOf(events[n].request.job)
  {
    if effect in v.sequenced {
      var m :| 0 <= m < n && LaneRuns.IsMarkOf(events[..n][m], effect, v.sequenced[effect]);
      assert IsPreparation(events[m], effect);
    }
    forall job | LaneRuns.Has(v, job) && job.effect == effect ensures job.identity != events[n].request.job.identity {
      var m :| 0 <= m < n && LaneRuns.IsRequestOf(events[..n][m], job);
      assert IsPreparation(events[m], effect);
    }
  }

  /**
   * However a lane's requests, starts, settlements, drops and last drain interleave with a run's preparations,
   * the runner refuses none of those for its number or its ticket, only for a full lane.
   */
  lemma PreparationsKeepTheirPlace(o: Options, steps: seq<Step>, lane: Lanes.Lane, effect: nat, at: seq<nat>,
                                   events: seq<LaneRuns.Event>, n: nat)
    requires (o.concurrency.Some? ==> o.concurrency.value >= 0) && Plain(o.runId) && NamesTasks(o)
    requires Delivers(Ran(o, steps).1, at, events, effect) && n < |events| && IsPreparation(events[n], effect)
    ensures var refusal := Lanes.RefusalOf(lane, LaneRuns.AfterAll(lane, LaneRuns.Empty(), events[..n]), events[n].request);
            refusal.None? || refusal == Some(Lanes.Overflow)
  {
    RunsAskInTurn(o, steps);
    LaneRuns.LanesKnowOnlyRequests(lane, events[..n]);
    KnownInTurn(Ran(o, steps).1, LaneRuns.AfterAll(lane, LaneRuns.Empty(), events[..n]), effect, at, events, n);
  }
}
