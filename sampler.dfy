/** The per-tick audio sampler: an exponential moving average of the peak
    meter with multiplicative decay on silence, and a debounced detector that
    turns the smoothed signal into queue events. */
module Sampler {
  import opened Events

  /** Peaks at or below this level count as silence. */
  const SilenceThreshold: real := 0.001
  /** The factor a silent tick multiplies the smoothed volume by. */
  const DecayFactor: real := 0.95

  /** One smoothing step: an EMA of the new peak when it is above the silence
      floor, otherwise a decay of the previous value. */
  function Smooth(prev: real, peak: real, alpha: real): real {
    if peak > SilenceThreshold then alpha * peak + (1.0 - alpha) * prev
    else prev * DecayFactor
  }

  /** Above the silence floor the new value lies between the previous value and the peak. */
  lemma SmoothBetween(prev: real, peak: real, alpha: real)
    requires 0.0 <= alpha <= 1.0 && peak > SilenceThreshold
    ensures prev <= peak ==> prev <= Smooth(prev, peak, alpha) <= peak
    ensures peak <= prev ==> peak <= Smooth(prev, peak, alpha) <= prev
  {
    var d := peak - prev;
    assert Smooth(prev, peak, alpha) - prev == alpha * d;
    assert peak - Smooth(prev, peak, alpha) == (1.0 - alpha) * d;
    if d >= 0.0 {
      MulNonNegative(alpha, d);
      MulNonNegative(1.0 - alpha, d);
    } else {
      MulNonNegative(alpha, -d);
      MulNonNegative(1.0 - alpha, -d);
    }
  }

  lemma MulNonNegative(a: real, b: real)
    requires a >= 0.0 && b >= 0.0
    ensures a * b >= 0.0
  {
  }

  /** With the coefficient and both inputs in [0,1] the smoothed value stays in [0,1]. */
  lemma SmoothInUnit(prev: real, peak: real, alpha: real)
    requires 0.0 <= alpha <= 1.0 && 0.0 <= prev <= 1.0 && 0.0 <= peak <= 1.0
    ensures 0.0 <= Smooth(prev, peak, alpha) <= 1.0
  {
    if peak > SilenceThreshold {
      SmoothBetween(prev, peak, alpha);
    }
  }

  /** A silent tick yields exactly 0.95 times the previous value, so a positive
      value strictly decreases and stays positive. */
  lemma SilentStepDecays(prev: real, peak: real, alpha: real)
    requires peak <= SilenceThreshold
    ensures Smooth(prev, peak, alpha) == DecayFactor * prev
    ensures prev > 0.0 ==> 0.0 < Smooth(prev, peak, alpha) < prev
  {
  }

  /** One reading of the monitoring loop: the clock, the `running` flag at the
      loop test, and the value the peak meter returned. */
  datatype Sample = Sample(now: real, running: bool, peak: real)

  /** The loop's locals: `smoothed_volume` and `last_spike_time`. */
  datatype SamplerState = SamplerState(smoothed: real, lastSpike: real)

  /** Both locals start at zero; `last_spike_time` is a point on the wall clock. */
  const InitialState := SamplerState(0.0, 0.0)

  /** What a run of the loop produces: the events it enqueued in order, the
      times at which it emitted `sound_detected`, and its final locals. */
  datatype Run = Run(events: seq<AudioEvent>, spikes: seq<real>, final: SamplerState)

  /** The debounced detector: loud enough, and the cooldown since the last emission has passed. */
  predicate Fires(cfg: Config, st: SamplerState, v: real, now: real) {
    v > cfg.audioThreshold && now - st.lastSpike > cfg.spikeCooldown
  }

  function TickEvents(v: real, fire: bool): seq<AudioEvent> {
    [VolumeUpdate(v)] + if fire then [SoundDetected(v)] else []
  }

  /** The monitoring loop as a function of its readings; it stops at the first
      reading whose `running` flag is false. */
  function SamplerRun(cfg: Config, st: SamplerState, samples: seq<Sample>): Run
    decreases |samples|
  {
    if samples == [] || !samples[0].running then Run([], [], st)
    else
      var s := samples[0];
      var v := Smooth(st.smoothed, s.peak, cfg.smoothingAlpha);
      var fire := Fires(cfg, st, v, s.now);
      var rest := SamplerRun(cfg, SamplerState(v, if fire then s.now else st.lastSpike), samples[1..]);
      Run(TickEvents(v, fire) + rest.events, (if fire then [s.now] else []) + rest.spikes, rest.final)
  }

  /** The number of readings before the first one with `running` false. */
  function RunLength(samples: seq<Sample>): nat {
    if samples == [] || !samples[0].running then 0 else 1 + RunLength(samples[1..])
  }

  /** Every tick enqueues exactly one `volume_update` followed by at most one
      `sound_detected` of the same value, which is above the threshold; the
      `sound_detected` entries are exactly the recorded emissions. */
  lemma {:induction false} RunEventShape(cfg: Config, st: SamplerState, samples: seq<Sample>)
    ensures var r := SamplerRun(cfg, st, samples);
      && (|r.events| > 0 ==> r.events[0].VolumeUpdate?)
      && (forall k :: 0 <= k < |r.events| && r.events[k].SoundDetected? ==>
            k > 0 && r.events[k - 1] == VolumeUpdate(r.events[k].value) && r.events[k].value > cfg.audioThreshold)
    decreases |samples|
  {
    if samples != [] && samples[0].running {
      var s := samples[0];
      var v := Smooth(st.smoothed, s.peak, cfg.smoothingAlpha);
      var fire := Fires(cfg, st, v, s.now);
      var next := SamplerState(v, if fire then s.now else st.lastSpike);
      var rest := SamplerRun(cfg, next, samples[1..]);
      var chunk := TickEvents(v, fire);
      RunEventShape(cfg, next, samples[1..]);
      var ev := chunk + rest.events;
      assert ev == SamplerRun(cfg, st, samples).events;
      forall k | 0 <= k < |ev| && ev[k].SoundDetected?
        ensures k > 0 && ev[k - 1] == VolumeUpdate(ev[k].value) && ev[k].value > cfg.audioThreshold
      {
        if k >= |chunk| {
          assert ev[k] == rest.events[k - |chunk|];
          if k - |chunk| > 0 {
            assert ev[k - 1] == rest.events[k - |chunk| - 1];
          }
        }
      }
    }
  }

  /** One `volume_update` per reading taken, one `sound_detected` per spike. */
  lemma {:induction false} RunEventCounts(cfg: Config, st: SamplerState, samples: seq<Sample>)
    ensures var r := SamplerRun(cfg, st, samples);
      && |Volumes(r.events)| == RunLength(samples)
      && |Sounds(r.events)| == |r.spikes|
    decreases |samples|
  {
    if samples != [] && samples[0].running {
      var s := samples[0];
      var v := Smooth(st.smoothed, s.peak, cfg.smoothingAlpha);
      var fire := Fires(cfg, st, v, s.now);
      var next := SamplerState(v, if fire then s.now else st.lastSpike);
      var rest := SamplerRun(cfg, next, samples[1..]);
      var chunk := TickEvents(v, fire);
      RunEventCounts(cfg, next, samples[1..]);
      assert chunk + rest.events == SamplerRun(cfg, st, samples).events;
      VolumesAppend(chunk, rest.events);
      SoundsAppend(chunk, rest.events);
      TickEventsSummary(v, fire);
    }
  }

  lemma TickEventsSummary(v: real, fire: bool)
    ensures Volumes(TickEvents(v, fire)) == [v]
    ensures Sounds(TickEvents(v, fire)) == if fire then multiset{SoundDetected(v)} else multiset{}
  {
    var t := TickEvents(v, fire);
    assert t[0] == VolumeUpdate(v);
    if fire {
      var u := [SoundDetected(v)];
      assert t[1..] == u && u[1..] == [];
      assert Volumes(u) == [] + Volumes(u[1..]);
      assert Sounds(u) == multiset{SoundDetected(v)} + Sounds(u[1..]);
    } else {
      assert t[1..] == [];
    }
  }

  lemma {:induction false} RunSpikesSpaced(cfg: Config, st: SamplerState, samples: seq<Sample>)
    ensures var r := SamplerRun(cfg, st, samples);
      && (|r.spikes| > 0 ==> r.spikes[0] - st.lastSpike > cfg.spikeCooldown)
      && (forall k :: 0 < k < |r.spikes| ==> r.spikes[k] - r.spikes[k - 1] > cfg.spikeCooldown)
      && r.final.lastSpike == (if r.spikes == [] then st.lastSpike else r.spikes[|r.spikes| - 1])
    decreases |samples|
  {
    if samples != [] && samples[0].running {
      var s := samples[0];
      var v := Smooth(st.smoothed, s.peak, cfg.smoothingAlpha);
      var fire := Fires(cfg, st, v, s.now);
      var next := SamplerState(v, if fire then s.now else st.lastSpike);
      RunSpikesSpaced(cfg, next, samples[1..]);
      var rest := SamplerRun(cfg, next, samples[1..]);
      var head := if fire then [s.now] else [];
      var sp := head + rest.spikes;
      assert sp == SamplerRun(cfg, st, samples).spikes;
      forall k | 0 < k < |sp| ensures sp[k] - sp[k - 1] > cfg.spikeCooldown {
        assert sp[k] == rest.spikes[k - |head|];
        if k - |head| > 0 {
          assert sp[k - 1] == rest.spikes[k - |head| - 1];
        }
      }
    }
  }

  /** A sequence whose consecutive gaps exceed a non-negative bound has all gaps above it. */
  lemma {:induction false} GapsPairwise(s: seq<real>, c: real)
    requires c >= 0.0
    requires forall k :: 0 < k < |s| ==> s[k] - s[k - 1] > c
    ensures forall i, j :: 0 <= i < j < |s| ==> s[j] - s[i] > c
    decreases |s|
  {
    if |s| > 1 {
      var p := s[..|s| - 1];
      GapsPairwise(p, c);
      forall i | 0 <= i < |s| - 1 ensures s[|s| - 1] - s[i] > c {
        if i < |s| - 2 {
          assert p[i] == s[i] && p[|s| - 2] == s[|s| - 2];
        }
      }
    }
  }

  /** With a non-negative cooldown, ANY two emissions of a run are more than
      `spike_cooldown` apart, whatever the clock does. */
  lemma SpikesPairwiseApart(cfg: Config, st: SamplerState, samples: seq<Sample>)
    requires cfg.spikeCooldown >= 0.0
    ensures var sp := SamplerRun(cfg, st, samples).spikes;
      forall i, j :: 0 <= i < j < |sp| ==> sp[j] - sp[i] > cfg.spikeCooldown
  {
    RunSpikesSpaced(cfg, st, samples);
    GapsPairwise(SamplerRun(cfg, st, samples).spikes, cfg.spikeCooldown);
  }

  /** With the coefficient, the starting value and every peak in [0,1], every
      value the loop enqueues and its final smoothed value lie in [0,1]. */
  lemma {:induction false} RunVolumesInUnit(cfg: Config, st: SamplerState, samples: seq<Sample>)
    requires 0.0 <= cfg.smoothingAlpha <= 1.0 && 0.0 <= st.smoothed <= 1.0
    requires forall i :: 0 <= i < |samples| ==> 0.0 <= samples[i].peak <= 1.0
    ensures var r := SamplerRun(cfg, st, samples);
      && (forall k :: 0 <= k < |r.events| ==> 0.0 <= r.events[k].value <= 1.0)
      && 0.0 <= r.final.smoothed <= 1.0
    decreases |samples|
  {
    if samples != [] && samples[0].running {
      var s := samples[0];
      var v := Smooth(st.smoothed, s.peak, cfg.smoothingAlpha);
      SmoothInUnit(st.smoothed, s.peak, cfg.smoothingAlpha);
      var fire := Fires(cfg, st, v, s.now);
      var next := SamplerState(v, if fire then s.now else st.lastSpike);
      assert forall i :: 0 <= i < |samples[1..]| ==> samples[1..][i] == samples[i + 1];
      RunVolumesInUnit(cfg, next, samples[1..]);
      var rest := SamplerRun(cfg, next, samples[1..]);
      var chunk := TickEvents(v, fire);
      var ev := chunk + rest.events;
      forall k | 0 <= k < |ev| ensures 0.0 <= ev[k].value <= 1.0 {
        if k >= |chunk| {
          assert ev[k] == rest.events[k - |chunk|];
        }
      }
    }
  }

  /** The value left after n silent ticks starting from x. */
  function Decayed(x: real, n: nat): real
    decreases n
  {
    if n == 0 then x else Decayed(x * DecayFactor, n - 1)
  }

  function Pow(b: real, n: nat): real {
    if n == 0 then 1.0 else b * Pow(b, n - 1)
  }

  /** A run of silent readings multiplies the smoothed value by 0.95 per tick:
      the k-th `volume_update` carries the value after k+1 decays, and the
      final value is the value after n decays. */
  lemma {:induction false} SilentRunDecays(cfg: Config, st: SamplerState, samples: seq<Sample>)
    requires forall i :: 0 <= i < |samples| ==> samples[i].running && samples[i].peak <= SilenceThreshold
    ensures var r := SamplerRun(cfg, st, samples);
      && |Volumes(r.events)| == |samples|
      && (forall k :: 0 <= k < |samples| ==> Volumes(r.events)[k] == Decayed(st.smoothed, k + 1))
      && r.final.smoothed == Decayed(st.smoothed, |samples|)
    decreases |samples|
  {
    if samples != [] {
      var v := st.smoothed * DecayFactor;
      var fire := Fires(cfg, st, v, samples[0].now);
      var next := SamplerState(v, if fire then samples[0].now else st.lastSpike);
      var tail := samples[1..];
      assert forall i :: 0 <= i < |tail| ==> tail[i] == samples[i + 1];
      SilentRunDecays(cfg, next, tail);
      SilentRunUnfold(cfg, st, samples);
      var ts := Volumes(SamplerRun(cfg, next, tail).events);
      var vs := [v] + ts;
      forall k | 0 <= k < |samples| ensures vs[k] == Decayed(st.smoothed, k + 1) {
        if k > 0 {
          assert vs[k] == ts[k - 1];
        }
      }
    }
  }

  /** The first tick of a silent run. */
  lemma SilentRunUnfold(cfg: Config, st: SamplerState, samples: seq<Sample>)
    requires samples != [] && samples[0].running && samples[0].peak <= SilenceThreshold
    ensures var v := st.smoothed * DecayFactor;
      var fire := Fires(cfg, st, v, samples[0].now);
      var rest := SamplerRun(cfg, SamplerState(v, if fire then samples[0].now else st.lastSpike), samples[1..]);
      && Volumes(SamplerRun(cfg, st, samples).events) == [v] + Volumes(rest.events)
      && SamplerRun(cfg, st, samples).final == rest.final
  {
    var v := st.smoothed * DecayFactor;
    var fire := Fires(cfg, st, v, samples[0].now);
    var rest := SamplerRun(cfg, SamplerState(v, if fire then samples[0].now else st.lastSpike), samples[1..]);
    VolumesAppend(TickEvents(v, fire), rest.events);
    assert Volumes(TickEvents(v, fire)) == [v];
  }

  /** n decays multiply by 0.95^n. */
  lemma {:induction false} DecayedIsPower(x: real, n: nat)
    ensures Decayed(x, n) == x * Pow(DecayFactor, n)
    decreases n
  {
    if n > 0 {
      DecayedIsPower(x * DecayFactor, n - 1);
      assert Pow(DecayFactor, n) == DecayFactor * Pow(DecayFactor, n - 1);
    }
  }

  /** Each silent tick strictly lowers a positive value, which stays positive. */
  lemma DecayedDecreasing(x: real, n: nat)
    requires x > 0.0
    ensures 0.0 < Decayed(x, n + 1) < Decayed(x, n)
  {
    DecayedIsPower(x, n);
    DecayedIsPower(x, n + 1);
    DecayBound(n);
    var p := Pow(DecayFactor, n);
    assert Pow(DecayFactor, n + 1) == DecayFactor * p;
    assert x * p > 0.0;
  }

  /** Bernoulli-style bound: 0.95^n * (1 + n/20) <= 1, and 0.95^n is positive. */
  lemma {:induction false} DecayBound(n: nat)
    ensures Pow(DecayFactor, n) > 0.0
    ensures Pow(DecayFactor, n) * (1.0 + 0.05 * n as real) <= 1.0
  {
    if n > 0 {
      DecayBound(n - 1);
      var p := Pow(DecayFactor, n - 1);
      var m := (n - 1) as real;
      assert Pow(DecayFactor, n) == 0.95 * p;
      assert 0.95 * (1.0 + 0.05 * (m + 1.0)) == 0.9975 + 0.0475 * m;
      assert 0.9975 + 0.0475 * m <= 1.0 + 0.05 * m;
      assert p * (0.9975 + 0.0475 * m) <= p * (1.0 + 0.05 * m);
    }
  }

  /** Silence drives any non-negative smoothed value below any positive level. */
  lemma SilenceFades(prev: real, eps: real)
    requires prev >= 0.0 && eps > 0.0
    ensures exists n: nat :: Decayed(prev, n) < eps
  {
    var n: nat := (20.0 * prev / eps).Floor + 1;
    DecayBound(n);
    DecayedIsPower(prev, n);
    var p := Pow(DecayFactor, n);
    var x := n as real;
    assert x > 20.0 * prev / eps;
    assert 0.05 * x * eps > prev;
    assert prev * p * (1.0 + 0.05 * x) <= prev;
    assert (1.0 + 0.05 * x) * eps > prev;
    assert Decayed(prev, n) < eps;
  }

  /** A burst pattern 0, 0, 0.9, 0, 0, 0.9 at 50 ms intervals on the wall
      clock, with threshold 0.5, coefficient 0.3 and the cooldown long past,
      lifts the smoothed value to no more than 0.4405725 at the last reading,
      so the detector emits no `sound_detected` at all. */
  lemma TwoBurstsEmitNothing()
    ensures var cfg := Config(0.5, 5.0, 0.5, 0.01, 1.5, 5.0, 1.0, 0.3);
      var samples := [Sample(1000.0, true, 0.0), Sample(1000.05, true, 0.0), Sample(1000.1, true, 0.9),
                      Sample(1000.15, true, 0.0), Sample(1000.2, true, 0.0), Sample(1000.25, true, 0.9)];
      var run := SamplerRun(cfg, InitialState, samples);
      run.spikes == [] && run.final.smoothed == 0.4405725
  {
    var cfg := Config(0.5, 5.0, 0.5, 0.01, 1.5, 5.0, 1.0, 0.3);
    var r5: seq<Sample> := [Sample(1000.25, true, 0.9)];
    var r4 := [Sample(1000.2, true, 0.0)] + r5;
    var r3 := [Sample(1000.15, true, 0.0)] + r4;
    var r2 := [Sample(1000.1, true, 0.9)] + r3;
    var r1 := [Sample(1000.05, true, 0.0)] + r2;
    var r0 := [Sample(1000.0, true, 0.0)] + r1;
    QuietHead(cfg, SamplerState(0.0, 0.0), Sample(1000.0, true, 0.0), r1);
    QuietHead(cfg, SamplerState(0.0, 0.0), Sample(1000.05, true, 0.0), r2);
    QuietHead(cfg, SamplerState(0.0, 0.0), Sample(1000.1, true, 0.9), r3);
    QuietHead(cfg, SamplerState(0.27, 0.0), Sample(1000.15, true, 0.0), r4);
    QuietHead(cfg, SamplerState(0.2565, 0.0), Sample(1000.2, true, 0.0), r5);
    QuietHead(cfg, SamplerState(0.243675, 0.0), Sample(1000.25, true, 0.9), []);
    assert r5 == [Sample(1000.25, true, 0.9)] + [];
    assert r0 == [Sample(1000.0, true, 0.0), Sample(1000.05, true, 0.0), Sample(1000.1, true, 0.9),
                  Sample(1000.15, true, 0.0), Sample(1000.2, true, 0.0), Sample(1000.25, true, 0.9)];
  }

  /** On the same clock and settings, two full-scale readings lift the smoothed
      value to 0.51 and the second one is emitted: what keeps the bursts above
      silent is the smoothing, not the cooldown. */
  lemma SteadyLoudFires()
    ensures var cfg := Config(0.5, 5.0, 0.5, 0.01, 1.5, 5.0, 1.0, 0.3);
      SamplerRun(cfg, InitialState, [Sample(1000.0, true, 1.0), Sample(1000.05, true, 1.0)]).spikes == [1000.05]
  {
    var cfg := Config(0.5, 5.0, 0.5, 0.01, 1.5, 5.0, 1.0, 0.3);
    var r1: seq<Sample> := [Sample(1000.05, true, 1.0)];
    QuietHead(cfg, InitialState, Sample(1000.0, true, 1.0), r1);
    assert r1[1..] == [];
    assert [Sample(1000.0, true, 1.0), Sample(1000.05, true, 1.0)] == [Sample(1000.0, true, 1.0)] + r1;
  }

  /** A reading that does not fire leaves the spikes to the rest of the run. */
  lemma QuietHead(cfg: Config, st: SamplerState, s: Sample, rest: seq<Sample>)
    requires s.running && !Fires(cfg, st, Smooth(st.smoothed, s.peak, cfg.smoothingAlpha), s.now)
    ensures var after := SamplerRun(cfg, SamplerState(Smooth(st.smoothed, s.peak, cfg.smoothingAlpha), st.lastSpike), rest);
      SamplerRun(cfg, st, [s] + rest).spikes == after.spikes
      && SamplerRun(cfg, st, [s] + rest).final == after.final
  {
    assert ([s] + rest)[0] == s && ([s] + rest)[1..] == rest;
  }


}
