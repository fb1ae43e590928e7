/** Trimming a payload in place: the scans over its samples and the rewriting of its channels. */
module ShotTrimming {
  import opened Prelude
  import opened ShotTail

  class ShotPayload {
    var channels: Payload

    constructor (initial: Payload)
      ensures channels == initial
    {
      channels := initial;
    }

    /** Rewrites every channel that has as many samples as the time axis; returns the cut axis. */
    method TrimSamples(time: seq<real>, keep: nat) returns (cut: seq<real>)
      requires keep <= |time|
      modifies this
      ensures channels == CutChannels(old(channels), |time|, keep) && cut == time[..keep]
    {
      var i := 0;
      ghost var before := channels;
      while i < |KEYS|
        invariant 0 <= i <= |KEYS|
        invariant channels.Keys == before.Keys
        invariant forall key :: key in before ==>
          channels[key] == if key in KEYS[..i] && |before[key]| == |time| then before[key][..keep] else before[key]
      {
        var key := KEYS[i];
        KeysAreDistinct(i);
        if key in channels && |channels[key]| == |time| {
          channels := channels[key := channels[key][..keep]];
        }
        i := i + 1;
      }
      assert KEYS[..i] == KEYS;
      AllKeys();
      assert channels == CutChannels(before, |time|, keep);
      cut := time[..keep];
    }

    /** Looks for the first idle sample after an active one. */
    method InactiveTailKeepCount(n: nat) returns (r: Result<Option<nat>>)
      ensures r == TailKeep(channels, n)
    {
      var found := ControlsOf(channels, n);
      if found.None? {
        return Ok(None);
      }
      var controls := found.value;
      var sawActive, i := false, 0;
      while i < n
        invariant 0 <= i <= n
        invariant FindTail(controls, 0, false) == FindTail(controls, i, sawActive)
      {
        var active := ActiveAt(controls, i);
        if active.Err? {
          return Err(active.why);
        }
        if active.value {
          sawActive := true;
        } else if sawActive {
          var idle := IdleAt(controls, i);
          if idle.Err? {
            return Err(idle.why);
          }
          if idle.value {
            var keep := SettledTailKeepCount(i, n);
            return if keep.Err? then Err(keep.why) else Ok(Some(keep.value));
          }
        }
        i := i + 1;
      }
      return Ok(None);
    }

    /** Follows the weight over at most two samples past the idle one. */
    method SettledTailKeepCount(index: nat, n: nat) returns (r: Result<nat>)
      requires 0 < index < n
      ensures r == SettledKeep(WeightsOf(channels, n), index, n)
    {
      var keep := Max(2, index);
      var weights := WeightsOf(channels, n);
      if weights.None? {
        return Ok(keep);
      }
      var first := OptionalFloat(weights.value[index - 1]);
      if first.Err? {
        return Err(first.why);
      }
      if first.value.Absent? {
        return Ok(keep);
      }
      var previous, settled: nat, cursor := first.value, keep, index;
      var end := Min(n, index + SETTLE_SAMPLES);
      while cursor < end
        invariant index <= cursor <= end
        invariant Settle(weights.value, index, end, first.value, keep) == Settle(weights.value, cursor, end, previous, settled)
      {
        var current := OptionalFloat(weights.value[cursor]);
        if current.Err? {
          return Err(current.why);
        }
        if !current.value.Finite? || !previous.Finite? || Abs(current.value.value - previous.value) > SETTLE_DELTA {
          break;
        }
        settled, previous := cursor + 1, current.value;
        cursor := cursor + 1;
      }
      return Ok(Max(keep, settled));
    }

    method CountSamples(time: seq<real>, cutoff: real) returns (count: nat)
      ensures count == CountUpTo(time, cutoff)
    {
      count := 0;
      var i := 0;
      while i < |time|
        invariant 0 <= i <= |time| && count == CountUpTo(time[..i], cutoff)
      {
        assert time[..i + 1][..i] == time[..i];
        if time[i] <= cutoff {
          count := count + 1;
        }
        i := i + 1;
      }
      assert time[..i] == time;
    }

    /** Cuts what lies after the shot time, then the idle tail; a sample that cannot be read may leave the first cut in place. */
    method TrimToShotTime(time: seq<real>, shotTime: Option<real>) returns (r: Result<seq<real>>)
      modifies this
      ensures var spec := Trim(Recording(old(channels), time), shotTime);
        && (spec.Ok? ==> r == Ok(spec.value.time) && channels == spec.value.payload)
        && (spec.Err? ==> r == Err(spec.why) && channels == CutTime(Recording(old(channels), time), shotTime).payload)
    {
      var axis := time;
      if shotTime.Some? && shotTime.value > 0.0 && |time| >= 2 {
        var cutoff := shotTime.value * 1000.0;
        if time[|time| - 1] > cutoff {
          var keep := CountSamples(time, cutoff);
          keep := Max(2, keep);
          if keep < |time| {
            axis := TrimSamples(time, keep);
          }
        }
      }
      var keep := InactiveTailKeepCount(|axis|);
      if keep.Err? {
        return Err(keep.why);
      }
      if keep.value.Some? && keep.value.value < |axis| {
        axis := TrimSamples(axis, keep.value.value);
      }
      return Ok(axis);
    }
  }

  lemma KeysAreDistinct(i: nat)
    requires i < |KEYS|
    ensures KEYS[i] !in KEYS[..i] && forall key :: key in KEYS[..i + 1] <==> key in KEYS[..i] || key == KEYS[i]
  {
    assert forall j, k :: 0 <= j < k < |KEYS| ==> KEYS[j] != KEYS[k];
  }

  lemma AllKeys()
    ensures forall key: Key :: key in KEYS
  {
    forall key: Key
      ensures key in KEYS
    {
      var i := match key {
        case TimeMs => 0
        case Time => 1
        case Pressure => 2
        case TargetPressure => 3
        case Flow => 4
        case PumpFlow => 5
        case TargetFlow => 6
        case Temperature => 7
        case TargetTemperature => 8
        case PumpTargetMode => 9
        case ValveOpen => 10
        case Weight => 11
        case WeightG => 12
      };
      assert KEYS[i] == key;
    }
  }
}
