/** Cutting the recorded tail off a shot: everything after the shot time, and the samples after the machine went idle. */
module ShotTail {
  import opened Prelude

  /** One decoded value of a channel; whole and fractional numbers are told apart, as the mode channel accepts whole ones only. */
  datatype Cell = Blank | Whole(i: int) | Fraction(r: real) | Infinite | NotANumber | Flag(on: bool) | Malformed

  datatype Key = TimeMs | Time | Pressure | TargetPressure | Flow | PumpFlow | TargetFlow | Temperature | TargetTemperature
               | PumpTargetMode | ValveOpen | Weight | WeightG

  const KEYS := [TimeMs, Time, Pressure, TargetPressure, Flow, PumpFlow, TargetFlow, Temperature, TargetTemperature,
                 PumpTargetMode, ValveOpen, Weight, WeightG]

  /** The channels of a payload that hold a list. */
  type Payload = map<Key, seq<Cell>>

  const SETTLE_SAMPLES := 2
  const SETTLE_DELTA := 1.0
  const ACTIVE_ABOVE := 0.000001

  function Abs(r: real): real { if r < 0.0 then -r else r }

  /** A parsed number: absent, finite, infinite or not a number. */
  datatype Reading = Absent | Finite(value: real) | Unbounded | Undefined

  function OptionalFloat(c: Cell): Result<Reading>
  {
    match c
    case Blank => Ok(Absent)
    case Whole(i) => Ok(Finite(i as real))
    case Fraction(r) => Ok(Finite(r))
    case Infinite => Ok(Unbounded)
    case NotANumber => Ok(Undefined)
    case Flag(_) => Err(MalformedSample)
    case Malformed => Err(MalformedSample)
  }

  function OptionalInt(c: Cell): Result<Option<int>>
  {
    match c
    case Blank => Ok(None)
    case Whole(i) => Ok(Some(i))
    case _ => Err(MalformedSample)
  }

  function OptionalBool(c: Cell): Result<Option<bool>>
  {
    match c
    case Blank => Ok(None)
    case Flag(b) => Ok(Some(b))
    case Whole(i) => if i == 0 || i == 1 then Ok(Some(i == 1)) else Err(MalformedSample)
    case Fraction(r) => if r == 0.0 || r == 1.0 then Ok(Some(r == 1.0)) else Err(MalformedSample)
    case _ => Err(MalformedSample)
  }

  function TargetActive(c: Cell): Result<bool>
  {
    var reading :- OptionalFloat(c);
    Ok(reading.Unbounded? || (reading.Finite? && Abs(reading.value) > ACTIVE_ABOVE))
  }

  /** The control channels of one length that decide whether the machine still works. */
  datatype Controls = Controls(pressure: seq<Cell>, flow: seq<Cell>, mode: Option<seq<Cell>>, valve: Option<seq<Cell>>) {
    predicate Sized(n: nat)
    {
      |pressure| == n && |flow| == n && (mode.Some? ==> |mode.value| == n) && (valve.Some? ==> |valve.value| == n)
    }

    /** The same channels cut to their first k samples. */
    function Cut(k: nat): Controls
      requires exists n :: Sized(n) && k <= n
    {
      Controls(pressure[..k], flow[..k], if mode.Some? then Some(mode.value[..k]) else None,
               if valve.Some? then Some(valve.value[..k]) else None)
    }
  }

  /** A channel counts only when it has as many samples as the time axis. */
  function Channel(p: Payload, key: Key, n: nat): (r: Option<seq<Cell>>)
    ensures r.Some? ==> |r.value| == n
  {
    if key in p && |p[key]| == n then Some(p[key]) else None
  }

  /** None when the payload does not say enough to find an idle tail. */
  function ControlsOf(p: Payload, n: nat): (r: Option<Controls>)
    ensures r.Some? ==> r.value.Sized(n)
  {
    var pressure, flow := Channel(p, TargetPressure, n), Channel(p, TargetFlow, n);
    var mode, valve := Channel(p, PumpTargetMode, n), Channel(p, ValveOpen, n);
    if n < 3 || pressure.None? || flow.None? || (mode.None? && valve.None?) then None
    else Some(Controls(pressure.value, flow.value, mode, valve))
  }

  function ActiveAt(c: Controls, i: nat): Result<bool>
    requires c.Sized(|c.pressure|) && i < |c.pressure|
  {
    var byPressure :- TargetActive(c.pressure[i]);
    if byPressure then Ok(true) else TargetActive(c.flow[i])
  }

  function IdleAt(c: Controls, i: nat): Result<bool>
    requires c.Sized(|c.pressure|) && i < |c.pressure|
  {
    var mode :- if c.mode.Some? then OptionalInt(c.mode.value[i]) else Ok(Some(0));
    var valve :- if c.valve.Some? then OptionalBool(c.valve.value[i]) else Ok(Some(false));
    Ok(mode == Some(0) && valve == Some(false))
  }

  /** The first idle sample from i on that follows an active one. */
  function FindTail(c: Controls, i: nat, sawActive: bool): (r: Result<Option<nat>>)
    requires c.Sized(|c.pressure|) && i <= |c.pressure|
    ensures r.Ok? && r.value.Some? ==> i <= r.value.value < |c.pressure| && (r.value.value == i ==> sawActive)
    decreases |c.pressure| - i
  {
    if i == |c.pressure| then Ok(None)
    else
      var active :- ActiveAt(c, i);
      if active then FindTail(c, i + 1, true)
      else if !sawActive then FindTail(c, i + 1, false)
      else
        var idle :- IdleAt(c, i);
        if idle then Ok(Some(i)) else FindTail(c, i + 1, true)
  }

  /** How far the weight stays settled from the cursor on. */
  function Settle(weights: seq<Cell>, cursor: nat, end: nat, previous: Reading, keep: nat): Result<nat>
    requires end <= |weights|
    decreases end - cursor
  {
    if cursor >= end then Ok(keep)
    else
      var current :- OptionalFloat(weights[cursor]);
      if !current.Finite? || !previous.Finite? || Abs(current.value - previous.value) > SETTLE_DELTA then Ok(keep)
      else Settle(weights, cursor + 1, end, current, cursor + 1)
  }

  function Max(a: nat, b: nat): nat { if a < b then b else a }

  function Min(a: nat, b: nat): nat { if a < b then a else b }

  function WeightsOf(p: Payload, n: nat): Option<seq<Cell>>
  {
    if Channel(p, Weight, n).Some? then Channel(p, Weight, n) else Channel(p, WeightG, n)
  }

  /** How many samples to keep when the machine goes idle at an index: up to two more while the weight settles. */
  function SettledKeep(weights: Option<seq<Cell>>, index: nat, n: nat): Result<nat>
    requires 0 < index < n && (weights.Some? ==> |weights.value| == n)
  {
    var keep := Max(2, index);
    if weights.None? then Ok(keep)
    else
      var previous :- OptionalFloat(weights.value[index - 1]);
      if previous.Absent? then Ok(keep)
      else
        var settled :- Settle(weights.value, index, Min(n, index + SETTLE_SAMPLES), previous, keep);
        Ok(Max(keep, settled))
  }

  /** None when there is no idle tail. */
  function TailKeep(p: Payload, n: nat): Result<Option<nat>>
  {
    var controls := ControlsOf(p, n);
    if controls.None? then Ok(None)
    else
      var index :- FindTail(controls.value, 0, false);
      if index.None? then Ok(None)
      else
        var keep :- SettledKeep(WeightsOf(p, n), index.value, n);
        Ok(Some(keep))
  }

  /** Cuts every channel of the axis' length. */
  function CutChannels(p: Payload, n: nat, keep: nat): Payload
    requires keep <= n
  {
    map key | key in p :: if |p[key]| == n then p[key][..keep] else p[key]
  }

  datatype Recording = Recording(payload: Payload, time: seq<real>)

  function CutTo(r: Recording, keep: nat): Recording
    requires keep <= |r.time|
  {
    Recording(CutChannels(r.payload, |r.time|, keep), r.time[..keep])
  }

  function CutTail(r: Recording): Result<Recording>
  {
    var keep :- TailKeep(r.payload, |r.time|);
    Ok(if keep.None? || keep.value >= |r.time| then r else CutTo(r, keep.value))
  }

  function CountUpTo(time: seq<real>, cutoff: real): (n: nat)
    ensures n <= |time|
  {
    if time == [] then 0 else CountUpTo(time[..|time| - 1], cutoff) + if time[|time| - 1] <= cutoff then 1 else 0
  }

  /** How many samples the shot time allows; at least two. */
  function TimeKeep(time: seq<real>, shotTime: Option<real>): nat
  {
    if shotTime.None? || shotTime.value <= 0.0 || |time| < 2 || time[|time| - 1] <= shotTime.value * 1000.0 then |time|
    else Max(2, CountUpTo(time, shotTime.value * 1000.0))
  }

  function CutTime(r: Recording, shotTime: Option<real>): Recording
  {
    var keep := TimeKeep(r.time, shotTime);
    if keep < |r.time| then CutTo(r, keep) else r
  }

  function Trim(r: Recording, shotTime: Option<real>): Result<Recording> { CutTail(CutTime(r, shotTime)) }

  // ----- laws -----

  predicate Aligned(r: Recording) { forall key :: key in r.payload ==> |r.payload[key]| == |r.time| }

  predicate Increasing(time: seq<real>) { forall i, j :: 0 <= i < j < |time| ==> time[i] < time[j] }

  /** The second recording is the first cut to k samples in every channel. */
  predicate IsCut(r: Recording, s: Recording, k: nat)
  {
    && k <= |r.time| && s.time == r.time[..k] && s.payload.Keys == r.payload.Keys
    && forall key :: key in r.payload ==> |r.payload[key]| >= k && s.payload[key] == r.payload[key][..k]
  }

  lemma CutToIsCut(r: Recording, k: nat)
    requires Aligned(r) && k <= |r.time|
    ensures IsCut(r, CutTo(r, k), k) && Aligned(CutTo(r, k))
  {
  }

  lemma CutOfCut(r: Recording, s: Recording, t: Recording, k: nat, j: nat)
    requires IsCut(r, s, k) && IsCut(s, t, j)
    ensures IsCut(r, t, j)
  {
    assert r.time[..k][..j] == r.time[..j];
    forall key | key in r.payload
      ensures t.payload[key] == r.payload[key][..j]
    {
      assert r.payload[key][..k][..j] == r.payload[key][..j];
    }
  }

  lemma WholeIsCut(r: Recording)
    requires Aligned(r)
    ensures IsCut(r, r, |r.time|)
  {
    assert r.time[..|r.time|] == r.time;
    forall key | key in r.payload
      ensures r.payload[key] == r.payload[key][..|r.time|]
    {
    }
  }

  lemma {:induction false} CountIsPrefix(time: seq<real>, cutoff: real)
    requires Increasing(time)
    ensures forall i :: 0 <= i < |time| ==> (time[i] <= cutoff <==> i < CountUpTo(time, cutoff))
  {
    if time != [] {
      var init := time[..|time| - 1];
      CountIsPrefix(init, cutoff);
      assert forall i :: 0 <= i < |init| ==> init[i] == time[i];
      if time[|time| - 1] <= cutoff && |init| > 0 {
        assert init[|init| - 1] <= cutoff;
      }
    }
  }

  /** A target a machine works towards: not absent, and more than a millionth away from zero. */
  predicate IsTarget(c: Cell)
  {
    match c
    case Whole(i) => i != 0
    case Fraction(r) => r > 0.000001 || r < -0.000001
    case Infinite => true
    case _ => false
  }

  predicate Readable(c: Cell) { !c.Flag? && !c.Malformed? }

  /** A sample is active when pressure or flow has a target; both are read only as far as needed. */
  lemma ActiveMeans(c: Controls, i: nat)
    requires c.Sized(|c.pressure|) && i < |c.pressure|
    ensures ActiveAt(c, i) == Ok(true) <==> IsTarget(c.pressure[i]) || (Readable(c.pressure[i]) && IsTarget(c.flow[i]))
    ensures ActiveAt(c, i) == Ok(false) <==>
      Readable(c.pressure[i]) && Readable(c.flow[i]) && !IsTarget(c.pressure[i]) && !IsTarget(c.flow[i])
  {
  }

  /** The valve is known to be closed. */
  predicate IsClosed(c: Cell) { c == Flag(false) || c == Whole(0) || c == Fraction(0.0) }

  /** A sample is idle when every channel that is recorded says so: no pump target and a closed valve. */
  lemma IdleMeans(c: Controls, i: nat)
    requires c.Sized(|c.pressure|) && i < |c.pressure|
    ensures IdleAt(c, i) == Ok(true) <==>
      (c.mode.Some? ==> c.mode.value[i] == Whole(0)) && (c.valve.Some? ==> IsClosed(c.valve.value[i]))
  {
  }

  /** An idle tail is looked for exactly when there are three samples, both targets and one of pump mode and valve, each as long as the
      time axis; a channel of another length counts as missing. */
  lemma ControlsMean(p: Payload, n: nat)
    ensures ControlsOf(p, n).Some? <==>
      && n >= 3 && TargetPressure in p && |p[TargetPressure]| == n && TargetFlow in p && |p[TargetFlow]| == n
      && ((PumpTargetMode in p && |p[PumpTargetMode]| == n) || (ValveOpen in p && |p[ValveOpen]| == n))
    ensures ControlsOf(p, n).Some? ==>
      var c := ControlsOf(p, n).value;
      && c.pressure == p[TargetPressure] && c.flow == p[TargetFlow]
      && c.mode == (if PumpTargetMode in p && |p[PumpTargetMode]| == n then Some(p[PumpTargetMode]) else None)
      && c.valve == (if ValveOpen in p && |p[ValveOpen]| == n then Some(p[ValveOpen]) else None)
  {
  }

  /** The weight changed by a gram at most from the sample before. */
  predicate IsSettled(weights: seq<Cell>, j: nat)
    requires 0 < j < |weights|
  {
    var a, b := Grams(weights[j - 1]), Grams(weights[j]);
    a.Some? && b.Some? && -1.0 <= b.value - a.value <= 1.0
  }

  function Grams(c: Cell): Option<real>
  {
    match c
    case Whole(i) => Some(i as real)
    case Fraction(r) => Some(r)
    case _ => None
  }

  lemma {:induction false} SettleMeans(weights: seq<Cell>, cursor: nat, end: nat, previous: Reading, keep: nat)
    requires 0 < cursor <= end <= |weights| && OptionalFloat(weights[cursor - 1]) == Ok(previous)
    requires Settle(weights, cursor, end, previous, keep).Ok?
    ensures exists m: nat :: cursor <= m <= end && SettledFrom(weights, cursor, end, m)
                             && Settle(weights, cursor, end, previous, keep).value == if m == cursor then keep else m
    decreases end - cursor
  {
    if cursor < end && IsSettled(weights, cursor) {
      var current := OptionalFloat(weights[cursor]).value;
      SettleMeans(weights, cursor + 1, end, current, cursor + 1);
      var m: nat :| cursor + 1 <= m <= end && SettledFrom(weights, cursor + 1, end, m)
                    && Settle(weights, cursor + 1, end, current, cursor + 1).value == if m == cursor + 1 then cursor + 1 else m;
      assert SettledFrom(weights, cursor, end, m);
    } else {
      assert SettledFrom(weights, cursor, end, cursor);
    }
  }

  /** The weight stays settled from a sample up to m and no further. */
  predicate SettledFrom(weights: seq<Cell>, from: nat, end: nat, m: nat)
    requires 0 < from && end <= |weights|
  {
    && from <= m <= end && (forall j :: from <= j < m ==> IsSettled(weights, j)) && (m < end ==> !IsSettled(weights, m))
  }

  /** How much is kept when the machine goes idle: everything before, and of the next two samples as many as the weight stays settled
      for; two samples at least. */
  lemma SettledKeepMeans(weights: seq<Cell>, index: nat) returns (m: nat)
    requires 0 < index < |weights| && SettledKeep(Some(weights), index, |weights|).Ok?
    ensures index <= m && SettledFrom(weights, index, Min(|weights|, index + 2), m)
    ensures SettledKeep(Some(weights), index, |weights|) == Ok(Max(2, m))
  {
    var end := Min(|weights|, index + 2);
    var previous := OptionalFloat(weights[index - 1]).value;
    if previous.Absent? {
      m := index;
    } else {
      SettleMeans(weights, index, end, previous, Max(2, index));
      m :| index <= m <= end && SettledFrom(weights, index, end, m)
           && Settle(weights, index, end, previous, Max(2, index)).value == if m == index then Max(2, index) else m;
    }
  }

  /** Weights are taken from the first of the two weight channels that has a sample for every time. */
  lemma WeightsMean(p: Payload, n: nat)
    ensures WeightsOf(p, n) ==
      if Weight in p && |p[Weight]| == n then Some(p[Weight]) else if WeightG in p && |p[WeightG]| == n then Some(p[WeightG]) else None
  {
  }

  /** The idle sample is found where it first appears after an active one. */
  lemma {:induction false} FindTailIsFirst(c: Controls, i: nat, sawActive: bool)
    requires c.Sized(|c.pressure|) && i <= |c.pressure| && FindTail(c, i, sawActive).Ok?
    ensures var r := FindTail(c, i, sawActive).value;
      var end := if r.Some? then r.value else |c.pressure|;
      && (r.Some? ==> ActiveAt(c, end) == Ok(false) && IdleAt(c, end) == Ok(true) && (sawActive || exists j :: i <= j < end && ActiveAt(c, j) == Ok(true)))
      && forall k :: i <= k < end && (sawActive || exists j :: i <= j < k && ActiveAt(c, j) == Ok(true)) ==>
           ActiveAt(c, k) == Ok(true) || IdleAt(c, k) == Ok(false)
    decreases |c.pressure| - i
  {
    if i < |c.pressure| {
      var active := ActiveAt(c, i).value;
      if active || !sawActive || !IdleAt(c, i).value {
        FindTailIsFirst(c, i + 1, sawActive || active);
      }
    }
  }

  lemma {:induction false} FindTailInPrefix(c: Controls, k: nat, i: nat, sawActive: bool)
    requires c.Sized(|c.pressure|) && i <= k <= |c.pressure| && FindTail(c, i, sawActive).Ok?
    ensures c.Cut(k).Sized(k)
    ensures var r := FindTail(c, i, sawActive).value;
      FindTail(c.Cut(k), i, sawActive) == Ok(if r.Some? && r.value < k then r else None)
    decreases k - i
  {
    if i < k {
      var d := c.Cut(k);
      assert ActiveAt(d, i) == ActiveAt(c, i);
      var active := ActiveAt(c, i).value;
      if active || !sawActive {
        FindTailInPrefix(c, k, i + 1, sawActive || active);
      } else {
        assert IdleAt(d, i) == IdleAt(c, i);
        if !IdleAt(c, i).value {
          FindTailInPrefix(c, k, i + 1, true);
        }
      }
    }
  }

  lemma {:induction false} SettleBounds(weights: seq<Cell>, cursor: nat, end: nat, previous: Reading, keep: nat)
    requires end <= |weights| && Settle(weights, cursor, end, previous, keep).Ok?
    ensures var s := Settle(weights, cursor, end, previous, keep).value; s == keep || cursor < s <= end
    decreases end - cursor
  {
    if cursor < end {
      var current := OptionalFloat(weights[cursor]).value;
      if current.Finite? && previous.Finite? && Abs(current.value - previous.value) <= SETTLE_DELTA {
        SettleBounds(weights, cursor + 1, end, current, cursor + 1);
      }
    }
  }

  /** Settling again on what was kept settles at the same sample. */
  lemma {:induction false} SettleInPrefix(weights: seq<Cell>, k: nat, cursor: nat, end: nat, previous: Reading, keep: nat)
    requires end <= |weights| && Settle(weights, cursor, end, previous, keep).Ok?
    requires Settle(weights, cursor, end, previous, keep).value <= k <= |weights|
    ensures Settle(weights[..k], cursor, Min(k, end), previous, keep) == Settle(weights, cursor, end, previous, keep)
    decreases end - cursor
  {
    if cursor < Min(k, end) {
      var current := OptionalFloat(weights[cursor]).value;
      if current.Finite? && previous.Finite? && Abs(current.value - previous.value) <= SETTLE_DELTA {
        SettleInPrefix(weights, k, cursor + 1, end, current, cursor + 1);
      }
    } else if cursor < end {
      SettleBounds(weights, cursor, end, previous, keep);
    }
  }

  lemma SettledKeepBounds(weights: Option<seq<Cell>>, index: nat, n: nat)
    requires 2 < n && 0 < index < n && (weights.Some? ==> |weights.value| == n) && SettledKeep(weights, index, n).Ok?
    ensures Max(2, index) <= SettledKeep(weights, index, n).value <= Min(n, index + 2)
  {
    if weights.Some? {
      var previous := OptionalFloat(weights.value[index - 1]).value;
      if !previous.Absent? {
        SettleBounds(weights.value, index, Min(n, index + SETTLE_SAMPLES), previous, Max(2, index));
      }
    }
  }

  lemma SettledKeepAgain(weights: Option<seq<Cell>>, index: nat, n: nat)
    requires 2 < n && 0 < index < n && (weights.Some? ==> |weights.value| == n) && SettledKeep(weights, index, n).Ok?
    ensures var k := SettledKeep(weights, index, n).value;
      index < k <= n ==> SettledKeep(if weights.Some? then Some(weights.value[..k]) else None, index, k) == Ok(k)
  {
    SettledKeepBounds(weights, index, n);
    var k := SettledKeep(weights, index, n).value;
    if index < k && weights.Some? {
      var previous := OptionalFloat(weights.value[index - 1]).value;
      if !previous.Absent? {
        var end := Min(n, index + SETTLE_SAMPLES);
        SettleInPrefix(weights.value, k, index, end, previous, Max(2, index));
        assert Min(k, end) == Min(k, index + SETTLE_SAMPLES);
      }
    }
  }

  /** The tail pass keeps every sample before the first idle one and at most two from it on, and changes nothing without one. */
  lemma TailKeepsTheShot(r: Recording)
    requires Aligned(r) && CutTail(r).Ok?
    ensures var controls := ControlsOf(r.payload, |r.time|);
      var index := if controls.Some? then FindTail(controls.value, 0, false).value else None;
      if index.None? then CutTail(r).value == r
      else exists k :: Max(2, index.value) <= k <= index.value + 2 && k <= |r.time| && IsCut(r, CutTail(r).value, k)
  {
    var n := |r.time|;
    var controls := ControlsOf(r.payload, n);
    if controls.Some? && FindTail(controls.value, 0, false).value.Some? {
      var index := FindTail(controls.value, 0, false).value.value;
      SettledKeepBounds(WeightsOf(r.payload, n), index, n);
      var k := SettledKeep(WeightsOf(r.payload, n), index, n).value;
      WholeIsCut(r);
      CutToIsCut(r, k);
      assert IsCut(r, CutTail(r).value, k);
    }
  }

  lemma ControlsOfCut(p: Payload, q: Payload, n: nat, k: nat)
    requires k <= n && q.Keys == p.Keys && forall key :: key in p ==> |p[key]| == n && q[key] == p[key][..k]
    ensures ControlsOf(p, n).Some? && k >= 3 ==> ControlsOf(q, k) == Some(ControlsOf(p, n).value.Cut(k))
    ensures ControlsOf(p, n).None? || k < 3 ==> ControlsOf(q, k).None?
    ensures WeightsOf(q, k) == if WeightsOf(p, n).Some? then Some(WeightsOf(p, n).value[..k]) else None
  {
  }

  /** Once cut, the tail stays as it is. */
  lemma CutTailIsIdempotent(r: Recording)
    requires Aligned(r) && CutTail(r).Ok?
    ensures CutTail(CutTail(r).value) == Ok(CutTail(r).value)
  {
    var n := |r.time|;
    var keep := TailKeep(r.payload, n).value;
    if keep.Some? && keep.value < n {
      var k := keep.value;
      var s := CutTo(r, k);
      var controls := ControlsOf(r.payload, n).value;
      var index := FindTail(controls, 0, false).value.value;
      CutToIsCut(r, k);
      ControlsOfCut(r.payload, s.payload, n, k);
      if k >= 3 {
        FindTailInPrefix(controls, k, 0, false);
        SettledKeepAgain(WeightsOf(r.payload, n), index, n);
      }
    }
  }

  /** Cutting a prefix of an uncut tail leaves it uncut. */
  lemma TimeStaysCut(r: Recording, s: Recording, k: nat, shotTime: Option<real>)
    requires Increasing(r.time) && IsCut(CutTime(r, shotTime), s, k)
    ensures CutTime(s, shotTime) == s
  {
    if shotTime.Some? && shotTime.value > 0.0 && |s.time| >= 2 {
      CountIsPrefix(r.time, shotTime.value * 1000.0);
      CountIsPrefix(s.time, shotTime.value * 1000.0);
    }
  }

  /** The sample lies within the shot time, in milliseconds, or no shot time is known. */
  predicate Timely(at: real, shotTime: Option<real>) { shotTime.None? || shotTime.value <= 0.0 || at <= 1000.0 * shotTime.value }

  /** The first pass keeps exactly the samples within the shot time, and the first two. */
  lemma TimeKeepsTheShot(r: Recording, shotTime: Option<real>)
    requires Aligned(r) && Increasing(r.time)
    ensures var t := CutTime(r, shotTime);
      && IsCut(r, t, |t.time|) && Aligned(t)
      && forall i :: 0 <= i < |r.time| ==> (i < |t.time| <==> i < 2 || Timely(r.time[i], shotTime))
  {
    WholeIsCut(r);
    if shotTime.Some? && shotTime.value > 0.0 {
      CountIsPrefix(r.time, shotTime.value * 1000.0);
      if TimeKeep(r.time, shotTime) < |r.time| {
        CutToIsCut(r, TimeKeep(r.time, shotTime));
      }
    }
  }

  /** The first idle sample after an active one, among the samples that are kept so far. */
  function IdleFrom(t: Recording): Option<nat>
  {
    var controls := ControlsOf(t.payload, |t.time|);
    if controls.Some? && FindTail(controls.value, 0, false).Ok? then FindTail(controls.value, 0, false).value else None
  }

  /** A trim keeps the samples within the shot time, and the first two; of these it keeps all before the first idle one, and two
      from it on at most. Nothing else goes. */
  lemma TrimKeepsTheShot(r: Recording, shotTime: Option<real>) returns (n: nat, k: nat)
    requires Aligned(r) && Increasing(r.time) && Trim(r, shotTime).Ok?
    ensures k <= n <= |r.time| && IsCut(r, CutTo(r, n), n) && IsCut(r, Trim(r, shotTime).value, k)
    ensures forall i :: 0 <= i < |r.time| ==> (i < n <==> i < 2 || Timely(r.time[i], shotTime))
    ensures match IdleFrom(CutTo(r, n)) case None => k == n case Some(index) => Max(2, index) <= k <= index + 2
  {
    var t := CutTime(r, shotTime);
    n := |t.time|;
    TimeKeepsTheShot(r, shotTime);
    CutToIsCut(r, n);
    SameCut(r, t, CutTo(r, n), n);
    TailKeepsTheShot(t);
    WholeIsCut(t);
    var s := Trim(r, shotTime).value;
    if IdleFrom(t).None? {
      k := n;
    } else {
      k :| Max(2, IdleFrom(t).value) <= k <= IdleFrom(t).value + 2 && k <= n && IsCut(t, s, k);
    }
    CutOfCut(r, t, s, n, k);
  }

  /** There is only one cut to a length. */
  lemma SameCut(r: Recording, s: Recording, t: Recording, k: nat)
    requires IsCut(r, s, k) && IsCut(r, t, k)
    ensures s == t
  {
    assert s.payload == t.payload;
  }

  /** Trimming cuts every channel to one common prefix of at least two samples, or all of fewer, and a second trim changes nothing. */
  lemma TrimIsAlignedAndIdempotent(r: Recording, shotTime: Option<real>)
    requires Aligned(r) && Increasing(r.time) && Trim(r, shotTime).Ok?
    ensures var s := Trim(r, shotTime).value;
      && Trim(s, shotTime) == Ok(s)
      && exists k :: Min(2, |r.time|) <= k <= |r.time| && IsCut(r, s, k)
  {
    var t := CutTime(r, shotTime);
    var keep := TimeKeep(r.time, shotTime);
    WholeIsCut(r);
    if keep < |r.time| {
      CutToIsCut(r, keep);
    }
    assert IsCut(r, t, |t.time|) && Aligned(t);
    var s := CutTail(t).value;
    TailKeepsTheShot(t);
    WholeIsCut(t);
    var k :| Min(2, |t.time|) <= k && IsCut(t, s, k);
    CutOfCut(r, t, s, |t.time|, k);
    assert IsCut(r, s, k);
    TimeStaysCut(r, s, k, shotTime);
    CutTailIsIdempotent(t);
  }
}
