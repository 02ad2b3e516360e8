/** The bot object: the audio queue shared by the sampler, the state machine
    and the display, the chart's volume history and the trace of synthetic key
    events, with the operations of the bot that read and change them. */
module Bot {
  import opened Events
  import opened Sampler
  import opened BiteWait
  import opened Reel
  import opened Display
  import opened Cycle

  class FishingBot {
    const cfg: Config
    /** `audio_queue`, front first. */
    var queue: seq<AudioEvent>
    /** `volume_history`, oldest first. */
    var history: seq<real>
    /** Every synthetic event of the fishing key sent so far. */
    var keys: seq<KeyEvent>

    /** The chart keeps at most `MaxHistory` values and the key is never left held. */
    ghost predicate Valid()
      reads this
    {
      |history| <= MaxHistory && KeysMatched(keys)
    }

    constructor (cfg: Config)
      ensures Valid()
      ensures this.cfg == cfg && queue == [] && history == [] && keys == []
    {
      this.cfg := cfg;
      queue := [];
      history := [];
      keys := [];
    }

    /** Empties the queue one entry at a time. */
    method ClearQueue()
      modifies this
      ensures queue == [] && history == old(history) && keys == old(keys)
    {
      while queue != []
        invariant history == old(history) && keys == old(keys)
        decreases |queue|
      {
        queue := queue[1..];
      }
    }

    /** Takes every entry off the queue, in order. */
    method DrainAll() returns (batch: seq<AudioEvent>)
      modifies this
      ensures batch == old(queue)
      ensures queue == [] && history == old(history) && keys == old(keys)
    {
      batch := [];
      while queue != []
        invariant batch + queue == old(queue)
        invariant history == old(history) && keys == old(keys)
        decreases |queue|
      {
        batch := batch + [queue[0]];
        queue := queue[1..];
      }
    }

    /** The monitoring thread: without an audio session it returns at once;
        otherwise every reading appends one `volume_update` and, on a spike
        outside the cooldown, one `sound_detected`, exactly as `SamplerRun`
        describes, until the bot is stopped. */
    method MonitorAudio(hasSession: bool, samples: seq<Sample>)
      modifies this
      ensures queue == old(queue) + (if hasSession then SamplerRun(cfg, InitialState, samples).events else [])
      ensures history == old(history) && keys == old(keys)
    {
      if !hasSession {
        assert old(queue) + [] == old(queue);
        return;
      }
      var smoothed := 0.0;
      var lastSpike := 0.0;
      var i := 0;
      while i < |samples| && samples[i].running
        invariant 0 <= i <= |samples|
        invariant queue + SamplerRun(cfg, SamplerState(smoothed, lastSpike), samples[i..]).events
               == old(queue) + SamplerRun(cfg, InitialState, samples).events
        invariant history == old(history) && keys == old(keys)
      {
        var s := samples[i];
        ghost var st := SamplerState(smoothed, lastSpike);
        ghost var q0 := queue;
        smoothed := Smooth(smoothed, s.peak, cfg.smoothingAlpha);
        queue := queue + [VolumeUpdate(smoothed)];
        ghost var fired := false;
        if smoothed > cfg.audioThreshold {
          if s.now - lastSpike > cfg.spikeCooldown {
            queue := queue + [SoundDetected(smoothed)];
            lastSpike := s.now;
            fired := true;
          }
        }
        assert fired == Fires(cfg, st, smoothed, s.now);
        assert queue == q0 + TickEvents(smoothed, fired);
        assert queue + SamplerRun(cfg, SamplerState(smoothed, lastSpike), samples[i + 1..]).events
            == q0 + SamplerRun(cfg, st, samples[i..]).events by {
          SamplerRunStep(cfg, st, samples, i);
          Assoc(q0, TickEvents(smoothed, fired), SamplerRun(cfg, SamplerState(smoothed, lastSpike), samples[i + 1..]).events);
        }
        i := i + 1;
      }
      assert SamplerRun(cfg, SamplerState(smoothed, lastSpike), samples[i..]).events == [];
    }

    /** `cast_fishing_line`: when the game window can be activated, one press of
        the key (held for `castDuration`); the result says whether it was sent. */
    method CastLine(activated: bool) returns (ok: bool)
      requires Valid()
      modifies this
      ensures Valid()
      ensures ok == activated
      ensures keys == old(keys) + (if activated then [KeyDown, KeyUp] else [])
      ensures queue == old(queue) && history == old(history)
    {
      if !activated {
        assert old(keys) + [] == old(keys);
        return false;
      }
      keys := keys + [KeyDown];
      keys := keys + [KeyUp];
      assert keys == old(keys) + [KeyDown, KeyUp];
      assert KeysMatched([KeyDown, KeyUp]) by {
        assert [KeyDown, KeyUp][2..] == [];
      }
      KeysMatchedAppend(old(keys), [KeyDown, KeyUp]);
      return true;
    }

    /** `wait_for_bite`: clears the queue, then polls it; `ticks[i].arrived` is
        the net change the other threads made to the queue before iteration i.
        The result is the one `BiteFound` describes; a stop or pause leaves that
        iteration's arrivals on the queue, and every other exit leaves it empty. */
    method WaitForBite(start: real, ticks: seq<Tick>) returns (bite: bool)
      modifies this
      ensures bite == BiteFound(cfg, start, ticks)
      ensures queue == WaitLeftover(cfg, start, ticks)
      ensures history == old(history) && keys == old(keys)
    {
      ClearQueue();
      var i := 0;
      while i < |ticks|
        invariant 0 <= i <= |ticks|
        invariant queue == []
        invariant WaitEnd(cfg, start, ticks, 0) == WaitEnd(cfg, start, ticks, i)
        invariant history == old(history) && keys == old(keys)
      {
        var t := ticks[i];
        if !Live(t) {
          queue := queue + t.arrived;
          return false;
        }
        queue := queue + t.arrived;
        var elapsed := t.now - start;
        if elapsed > cfg.cooldownAfterCast {
          var batch := DrainAll();
          assert batch == t.arrived;
          var found := FindSound(batch);
          if found {
            ClearQueue();
            return true;
          }
        } else {
          ClearQueue();
        }
        if elapsed > BiteTimeout {
          return false;
        }
        i := i + 1;
      }
      return false;
    }

    /** `reel_in_fish`: when the window can be activated, holds the key down and
        polls the queue until the music has been over for `additionalWait`, the
        120-second limit, or a stop or pause; then releases the key and clears
        the queue. The result is the one `Reeling` describes. Entries already
        on the queue stay there through the grace period: the display
        consumer's removals show only in what the first draining poll gets. */
    method ReelInFish(activated: bool, start: real, ticks: seq<Tick>) returns (caught: bool)
      requires Valid()
      modifies this
      ensures Valid()
      ensures caught == (activated && Reeling(cfg, start, old(queue), ticks).caught)
      ensures keys == old(keys) + (if activated then [KeyDown, KeyUp] else [])
      ensures queue == (if activated then [] else old(queue)) && history == old(history)
    {
      if !activated {
        assert old(keys) + [] == old(keys);
        return false;
      }
      keys := keys + [KeyDown];
      ghost var outcome := Reeling(cfg, start, queue, ticks);
      var music := false;
      var last := start;
      caught := false;
      var i := 0;
      while i < |ticks| && Live(ticks[i])
        invariant 0 <= i <= |ticks|
        invariant outcome == ReelRun(cfg, start, ReelState(music, last, queue), ticks, i)
        invariant !caught
        invariant keys == old(keys) + [KeyDown] && history == old(history)
      {
        var t := ticks[i];
        queue := queue + t.arrived;
        var elapsed := t.now - start;
        if elapsed >= cfg.minReelTime {
          var batch := DrainAll();
          var current, m, l := ScanBatch(batch, cfg.musicThreshold, t.now, music, last);
          music, last := m, l;
          if current > cfg.musicThreshold {
            last := t.now;
            if !music {
              music := true;
            }
          }
          if music && t.now - last > cfg.additionalWait {
            caught := true;
            assert outcome.caught;
            break;
          }
        }
        if elapsed > ReelTimeout {
          assert !outcome.caught;
          break;
        }
        i := i + 1;
      }
      assert caught == outcome.caught;
      keys := keys + [KeyUp];
      assert keys == old(keys) + [KeyDown, KeyUp];
      assert KeysMatched([KeyDown, KeyUp]) by {
        assert [KeyDown, KeyUp][2..] == [];
      }
      KeysMatchedAppend(old(keys), [KeyDown, KeyUp]);
      ClearQueue();
    }

    /** The history part of `update_volume_visualization`. */
    method UpdateVolumeHistory(v: real)
      requires Valid()
      modifies this
      ensures Valid()
      ensures history == AppendBounded(old(history), v)
      ensures queue == old(queue) && keys == old(keys)
    {
      history := history + [v];
      if |history| > MaxHistory {
        history := history[1..];
      }
    }

    /** One pass of the display loop with `budget` entries left to take: a
        `volume_update` at the head goes to the chart; any other entry is
        moved to the tail and the pass reports that the loop stops. */
    method DisplayStep(ghost budget: nat) returns (took: bool)
      requires Valid() && queue != [] && budget > 0
      modifies this
      ensures Valid()
      ensures took == old(queue)[0].VolumeUpdate?
      ensures took ==> queue == old(queue)[1..] && history == AppendBounded(old(history), old(queue)[0].value)
      ensures took ==> DrainForDisplay(old(queue), budget).volumes
                       == [old(queue)[0].value] + DrainForDisplay(queue, budget - 1).volumes
      ensures took ==> DrainForDisplay(old(queue), budget).rest == DrainForDisplay(queue, budget - 1).rest
      ensures !took ==> history == old(history) && DrainForDisplay(old(queue), budget) == Taken([], queue)
      ensures keys == old(keys)
    {
      var e := queue[0];
      queue := queue[1..];
      if e.VolumeUpdate? {
        UpdateVolumeHistory(e.value);
        took := true;
      } else {
        queue := queue + [e];
        took := false;
      }
    }

    /** `process_audio_queue`: takes up to ten `volume_update` entries off the
        front for the chart and moves the first other entry to the tail, as
        `DrainForDisplay` describes. */
    method ProcessAudioQueue()
      requires Valid()
      modifies this
      ensures Valid()
      ensures queue == DrainForDisplay(old(queue), MaxPerCall).rest
      ensures history == AppendAll(old(history), DrainForDisplay(old(queue), MaxPerCall).volumes)
      ensures keys == old(keys)
    {
      ghost var goal := DrainForDisplay(old(queue), MaxPerCall);
      var count: nat := 0;
      ghost var taken: seq<real> := [];
      while queue != [] && count < MaxPerCall
        invariant Valid() && count == |taken| <= MaxPerCall
        invariant goal.volumes == taken + DrainForDisplay(queue, MaxPerCall - count).volumes
        invariant goal.rest == DrainForDisplay(queue, MaxPerCall - count).rest
        invariant history == AppendAll(old(history), taken)
        invariant keys == old(keys)
        decreases |queue|
      {
        ghost var v := queue[0].value;
        var took := DisplayStep(MaxPerCall - count);
        if !took {
          assert taken + [] == taken;
          return;
        }
        assert goal.volumes == (taken + [v]) + DrainForDisplay(queue, MaxPerCall - (count + 1)).volumes by {
          Assoc(taken, [v], DrainForDisplay(queue, MaxPerCall - (count + 1)).volumes);
        }
        assert history == AppendAll(old(history), taken + [v]) by {
          AppendAllSnoc(old(history), taken, v);
        }
        count := count + 1;
        taken := taken + [v];
      }
      assert queue == goal.rest && goal.volumes == taken by {
        DrainExit(queue, MaxPerCall - count);
        assert taken + [] == taken;
      }
    }

    /** One iteration of the outer loop, for a running bot: a pause skips it,
        otherwise it casts, waits for a bite and reels, as `CycleStep` describes. */
    method CycleIteration(c: CycleInput) returns (started: bool, ghost r: CycleResult)
      requires Valid()
      modifies this
      ensures Valid()
      ensures r == CycleStep(cfg, c) && started == !r.Skipped?
      ensures keys == old(keys) + CycleKeys(r)
      ensures queue == QueueAfterStep(old(queue), r)
      ensures history == old(history)
    {
      if c.paused {
        assert old(keys) + [] == old(keys);
        return false, Skipped;
      }
      var cast := CastLine(c.castActivates);
      if !cast {
        assert old(keys) + [] == old(keys);
        return true, CastFailed;
      }
      var bite := WaitForBite(c.biteStart, c.biteTicks);
      if !bite {
        return true, Missed(WaitLeftover(cfg, c.biteStart, c.biteTicks));
      }
      var caught := ReelInFish(c.reelActivates, c.reelStart, c.reelTicks);
      assert keys == old(keys) + ([KeyDown, KeyUp] + (if c.reelActivates then [KeyDown, KeyUp] else []));
      return true, Reeled(c.reelActivates, caught);
    }

    /** `fishing_cycle`: the outer loop until the bot is stopped; the key trace,
        the cycle count and the queue are those of the iterations `CyclesFrom`
        describes. */
    method FishingCycle(inputs: seq<CycleInput>) returns (cycleCount: nat)
      requires Valid()
      modifies this
      ensures Valid()
      ensures cycleCount == Started(CyclesFrom(cfg, inputs, 0))
      ensures keys == old(keys) + SessionKeys(CyclesFrom(cfg, inputs, 0))
      ensures queue == QueueAfter(old(queue), CyclesFrom(cfg, inputs, 0))
      ensures history == old(history)
    {
      cycleCount := 0;
      ghost var results: seq<CycleResult> := [];
      var i := 0;
      while i < |inputs| && inputs[i].running
        invariant 0 <= i <= |inputs|
        invariant results + CyclesFrom(cfg, inputs, i) == CyclesFrom(cfg, inputs, 0)
        invariant |history| <= MaxHistory
        invariant cycleCount == Started(results)
        invariant keys == old(keys) + SessionKeys(results)
        invariant queue == QueueAfter(old(queue), results)
        invariant history == old(history)
      {
        ghost var q := queue;
        assert Valid() by {
          SessionKeysMatched(results);
          KeysMatchedAppend(old(keys), SessionKeys(results));
        }
        var started, r := CycleIteration(inputs[i]);
        if started {
          cycleCount := cycleCount + 1;
        }
        assert cycleCount == Started(results + [r]) by {
          ResultsSnoc(results, r);
        }
        assert keys == old(keys) + SessionKeys(results + [r]) by {
          ResultsSnoc(results, r);
          Assoc(old(keys), SessionKeys(results), CycleKeys(r));
        }
        assert queue == QueueAfter(old(queue), results + [r]) by {
          QueueAfterSnoc(old(queue), results, r, q);
        }
        assert (results + [r]) + CyclesFrom(cfg, inputs, i + 1) == CyclesFrom(cfg, inputs, 0) by {
          CyclesFromStep(cfg, inputs, results, i);
        }
        results := results + [r];
        i := i + 1;
      }
      assert results == CyclesFrom(cfg, inputs, 0) by {
        assert CyclesFrom(cfg, inputs, i) == [];
        assert results + [] == results;
      }
      assert Valid() by {
        SessionKeysMatched(results);
        KeysMatchedAppend(old(keys), SessionKeys(results));
      }
    }
  }

  lemma CyclesFromStep(cfg: Config, inputs: seq<CycleInput>, rs: seq<CycleResult>, i: nat)
    requires i < |inputs| && inputs[i].running
    ensures rs + CyclesFrom(cfg, inputs, i) == (rs + [CycleStep(cfg, inputs[i])]) + CyclesFrom(cfg, inputs, i + 1)
  {
  }

  lemma SamplerRunStep(cfg: Config, st: SamplerState, samples: seq<Sample>, i: nat)
    requires i < |samples| && samples[i].running
    ensures var v := Smooth(st.smoothed, samples[i].peak, cfg.smoothingAlpha);
      var fire := Fires(cfg, st, v, samples[i].now);
      SamplerRun(cfg, st, samples[i..]).events
        == TickEvents(v, fire) + SamplerRun(cfg, SamplerState(v, if fire then samples[i].now else st.lastSpike), samples[i + 1..]).events
  {
    assert samples[i..][0] == samples[i] && samples[i..][1..] == samples[i + 1..];
  }

  lemma QueueAfterSnoc(q: seq<AudioEvent>, rs: seq<CycleResult>, r: CycleResult, cur: seq<AudioEvent>)
    requires cur == QueueAfter(q, rs)
    ensures QueueAfter(q, rs + [r]) == QueueAfterStep(cur, r)
  {
    assert (rs + [r])[..|rs|] == rs;
  }

  lemma DrainExit(q: seq<AudioEvent>, budget: nat)
    requires q == [] || budget == 0
    ensures DrainForDisplay(q, budget) == Taken([], q)
  {
  }

  lemma AppendAllSnoc(h: seq<real>, vs: seq<real>, v: real)
    ensures AppendAll(h, vs + [v]) == AppendBounded(AppendAll(h, vs), v)
  {
    assert (vs + [v])[..|vs|] == vs;
  }

  /** The per-session summaries of `Cycle` extend by one iteration at a time. */
  lemma ResultsSnoc(rs: seq<CycleResult>, r: CycleResult)
    ensures Started(rs + [r]) == Started(rs) + (if r.Skipped? then 0 else 1)
    ensures SessionKeys(rs + [r]) == SessionKeys(rs) + CycleKeys(r)
  {
    assert (rs + [r])[..|rs|] == rs;
  }
}
