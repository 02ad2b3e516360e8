/** Waiting for a bite: after the post-cast cooldown, the first polling
    iteration whose drained batch holds a `sound_detected` ends the wait;
    the wait gives up after 300 seconds or when the bot is stopped or paused. */
module BiteWait {
  import opened Events

  /** The hard limit on a wait, in seconds. */
  const BiteTimeout: real := 300.0

  /** The iteration drains the queue (the cooldown is over) and finds a bite in it.
      Every iteration that goes on empties the queue, so the batch it drains is
      exactly what arrived since the previous iteration. */
  predicate BiteAt(cfg: Config, start: real, t: Tick) {
    t.now - start > cfg.cooldownAfterCast && HasSound(t.arrived)
  }

  predicate TimedOutAt(start: real, t: Tick) {
    t.now - start > BiteTimeout
  }

  /** The iteration neither returns nor finds the loop guard false. */
  predicate WaitContinues(cfg: Config, start: real, t: Tick) {
    Live(t) && !BiteAt(cfg, start, t) && !TimedOutAt(start, t)
  }

  /** The index of the iteration on which the wait ends: the first one that does
      not continue, or the length of the trace when the trace ends first (the end
      of the trace stands for a stop request). */
  function WaitEnd(cfg: Config, start: real, ticks: seq<Tick>, i: nat): nat
    requires i <= |ticks|
    decreases |ticks| - i
  {
    if i == |ticks| || !WaitContinues(cfg, start, ticks[i]) then i
    else WaitEnd(cfg, start, ticks, i + 1)
  }

  /** The value `wait_for_bite` returns. */
  predicate BiteFound(cfg: Config, start: real, ticks: seq<Tick>) {
    var k := WaitEnd(cfg, start, ticks, 0);
    k < |ticks| && Live(ticks[k]) && BiteAt(cfg, start, ticks[k])
  }

  /** What the wait leaves on the queue. The loop guard does not touch the
      queue, so a stop or pause it sees leaves what arrived since the previous
      iteration; a bite clears the queue, and a timeout comes right after the
      iteration drained or cleared it. */
  function WaitLeftover(cfg: Config, start: real, ticks: seq<Tick>): seq<AudioEvent> {
    var k := WaitEnd(cfg, start, ticks, 0);
    if k < |ticks| && !Live(ticks[k]) then ticks[k].arrived else []
  }

  /** A wait that returns True leaves the queue empty; one that leaves entries
      behind returned False on a stop or pause, and what it leaves is exactly
      what arrived for that iteration, after every earlier iteration went on. */
  lemma LeftoverOnlyOnStop(cfg: Config, start: real, ticks: seq<Tick>)
    ensures BiteFound(cfg, start, ticks) ==> WaitLeftover(cfg, start, ticks) == []
    ensures WaitLeftover(cfg, start, ticks) != [] ==>
      !BiteFound(cfg, start, ticks)
      && exists k :: 0 <= k < |ticks| && !Live(ticks[k])
           && WaitLeftover(cfg, start, ticks) == ticks[k].arrived
           && forall j :: 0 <= j < k ==> WaitContinues(cfg, start, ticks[j])
  {
    WaitEndIsFirstStop(cfg, start, ticks, 0);
  }

  /** The wait ends on the first iteration that does not continue: every earlier
      iteration continued, and a True result means a bite after the cooldown. */
  lemma {:induction false} WaitEndIsFirstStop(cfg: Config, start: real, ticks: seq<Tick>, i: nat)
    requires i <= |ticks|
    ensures var k := WaitEnd(cfg, start, ticks, i);
      && i <= k <= |ticks|
      && (forall j :: i <= j < k ==> WaitContinues(cfg, start, ticks[j]))
      && (k < |ticks| ==> !WaitContinues(cfg, start, ticks[k]))
    decreases |ticks| - i
  {
    if i < |ticks| && WaitContinues(cfg, start, ticks[i]) {
      WaitEndIsFirstStop(cfg, start, ticks, i + 1);
    }
  }

  /** Both directions: the wait returns True exactly when some iteration after the
      cooldown drains a `sound_detected`, while running and not paused, and every
      earlier iteration went on without a bite, a timeout, a stop or a pause. */
  lemma BiteFoundIff(cfg: Config, start: real, ticks: seq<Tick>)
    ensures BiteFound(cfg, start, ticks) <==>
      exists k :: 0 <= k < |ticks| && Live(ticks[k])
        && ticks[k].now - start > cfg.cooldownAfterCast && HasSound(ticks[k].arrived)
        && forall j :: 0 <= j < k ==> WaitContinues(cfg, start, ticks[j])
  {
    WaitEndIsFirstStop(cfg, start, ticks, 0);
    var e := WaitEnd(cfg, start, ticks, 0);
    forall k | 0 <= k < |ticks| && Live(ticks[k]) && BiteAt(cfg, start, ticks[k])
        && (forall j :: 0 <= j < k ==> WaitContinues(cfg, start, ticks[j]))
      ensures k == e
    {
    }
  }

  /** No iteration after an iteration past the 300-second limit is reached. */
  lemma {:induction false} WaitTimeoutBound(cfg: Config, start: real, ticks: seq<Tick>, i: nat, j: nat)
    requires i <= j < |ticks| && ticks[j].now - start > BiteTimeout
    ensures WaitEnd(cfg, start, ticks, i) <= j
    decreases j - i
  {
    if i < j && WaitContinues(cfg, start, ticks[i]) {
      WaitTimeoutBound(cfg, start, ticks, i + 1, j);
    }
  }

  /** A stop or a pause observed on the iteration the wait ends on means False. */
  lemma StopMeansNoBite(cfg: Config, start: real, ticks: seq<Tick>)
    requires WaitEnd(cfg, start, ticks, 0) < |ticks| && !Live(ticks[WaitEnd(cfg, start, ticks, 0)])
    ensures !BiteFound(cfg, start, ticks)
  {
  }

  /** Events that arrive during the post-cast cooldown are discarded, not
      deferred: replacing what arrived on a cooldown iteration by anything else
      changes neither where the wait ends nor what it returns. */
  lemma {:induction false} CooldownArrivalsDiscarded(cfg: Config, start: real, ticks: seq<Tick>,
                                                       j: nat, other: seq<AudioEvent>, i: nat)
    requires j < |ticks| && ticks[j].now - start <= cfg.cooldownAfterCast && i <= |ticks|
    ensures var ticks' := ticks[j := ticks[j].(arrived := other)];
      && WaitEnd(cfg, start, ticks', i) == WaitEnd(cfg, start, ticks, i)
      && (WaitEnd(cfg, start, ticks, i) < |ticks| ==>
            (BiteAt(cfg, start, ticks'[WaitEnd(cfg, start, ticks', i)])
             <==> BiteAt(cfg, start, ticks[WaitEnd(cfg, start, ticks, i)])))
    decreases |ticks| - i
  {
    var ticks' := ticks[j := ticks[j].(arrived := other)];
    if i < |ticks| {
      assert WaitContinues(cfg, start, ticks'[i]) == WaitContinues(cfg, start, ticks[i]);
      if WaitContinues(cfg, start, ticks[i]) {
        CooldownArrivalsDiscarded(cfg, start, ticks, j, other, i + 1);
      }
    }
  }

  /** Corollary: the result of the whole wait ignores cooldown arrivals. */
  lemma CooldownSoundIgnored(cfg: Config, start: real, ticks: seq<Tick>, j: nat, other: seq<AudioEvent>)
    requires j < |ticks| && ticks[j].now - start <= cfg.cooldownAfterCast
    ensures BiteFound(cfg, start, ticks[j := ticks[j].(arrived := other)]) == BiteFound(cfg, start, ticks)
  {
    CooldownArrivalsDiscarded(cfg, start, ticks, j, other, 0);
  }

  /** The scan of one drained batch (the `for` loop over `events_to_process`):
      it reports whether the batch holds a `sound_detected`. */
  method FindSound(batch: seq<AudioEvent>) returns (found: bool)
    ensures found <==> HasSound(batch)
  {
    var i := 0;
    while i < |batch|
      invariant 0 <= i <= |batch|
      invariant forall j :: 0 <= j < i ==> !batch[j].SoundDetected?
    {
      if batch[i].SoundDetected? {
        return true;
      }
      i := i + 1;
    }
    return false;
  }
}
