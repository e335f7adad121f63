/** The latency buffer: a bounded FIFO of time-stamped orientation samples that
    answers with the newest sample or with a blend of the two newest, the compass
    heading taking the short way round the circle. */
module WebSocket {
  import opened Common
  import opened MathEngine

  /** A reading's angles by key ("alpha", "beta", "gamma"; others pass through). */
  type SensorDict = map<string, real>

  /** One buffered reading with its timestamp in milliseconds. */
  datatype Sample = Sample(data: SensorDict, timestamp: real)

  /** The keys a blended reading carries, in the order they are computed. */
  const AngleKeys: seq<string> := ["alpha", "beta", "gamma"]

  /** `d.get(key, 0)`: a missing key reads as 0. */
  function Get(d: SensorDict, key: string): real {
    if key in d then d[key] else 0.0
  }

  /** The newest sample's data, if any. */
  function Latest(samples: seq<Sample>): (r: Option<SensorDict>)
    ensures r.None? <==> samples == []
  {
    if samples == [] then None else Some(samples[|samples| - 1].data)
  }

  /** The blend parameter: how far the target lies from t1 towards t2, as a
      fraction of the interval, clamped into [0, 1.5] so it extrapolates at most
      half an interval past t2. Timestamps out of order (t2 before t1) are
      measured the same way, in the other direction. */
  function Factor(t1: real, t2: real, target: real): (f: real)
    requires t2 - t1 != 0.0
    ensures 0.0 <= f <= 1.5
    ensures t1 < t2 && target <= t1 ==> f == 0.0
    ensures t1 < t2 && t1 <= target <= t1 + 1.5 * (t2 - t1) ==> f * (t2 - t1) == target - t1
    ensures t1 < t2 && t1 + 1.5 * (t2 - t1) <= target ==> f == 1.5
    ensures t2 < t1 && t1 <= target ==> f == 0.0
    ensures t2 < t1 && t1 + 1.5 * (t2 - t1) <= target <= t1 ==> f * (t2 - t1) == target - t1
    ensures t2 < t1 && target <= t1 + 1.5 * (t2 - t1) ==> f == 1.5
  {
    var q := (target - t1) / (t2 - t1);
    QuotientBounds(target - t1, t2 - t1, q);
    Clamp(q, 0.0, 1.5)
  }

  function Lerp(a: real, b: real, f: real): real {
    a + (b - a) * f
  }

  /** The heading endpoints after the wrap-around correction: when the headings
      are more than 180 apart, 360 is added to the lower one. */
  function AlphaEndpoints(v1: real, v2: real): (real, real) {
    var diff := v2 - v1;
    if Abs(diff) > 180.0 then
      if diff > 0.0 then (v1 + 360.0, v2) else (v1, v2 + 360.0)
    else (v1, v2)
  }

  /** The blended value of one key. The heading is reduced into [0, 360); any
      other key moves from the older value (factor 0) to the newer one (factor
      1) and stays between them for a factor in [0, 1]. */
  function BlendKey(key: string, d1: SensorDict, d2: SensorDict, f: real): (r: real)
    ensures key == "alpha" ==> 0.0 <= r < 360.0
    ensures key != "alpha" && f == 0.0 ==> r == Get(d1, key)
    ensures key != "alpha" && f == 1.0 ==> r == Get(d2, key)
    ensures key != "alpha" && 0.0 <= f <= 1.0 ==> Between(r, Get(d1, key), Get(d2, key))
  {
    var v1, v2 := Get(d1, key), Get(d2, key);
    assert 0.0 <= f <= 1.0 ==> Between(Lerp(v1, v2, f), v1, v2) by {
      if 0.0 <= f <= 1.0 { LerpBetween(v1, v2, f); }
    }
    if key == "alpha" then
      var e := AlphaEndpoints(v1, v2);
      Mod360(Lerp(e.0, e.1, f))
    else Lerp(v1, v2, f)
  }

  /** The blended reading: exactly the three angle keys, whatever else the
      readings carry, with the heading in [0, 360). */
  function Blend(d1: SensorDict, d2: SensorDict, f: real): (r: map<string, real>)
    ensures r.Keys == {"alpha", "beta", "gamma"}
    ensures 0.0 <= r["alpha"] < 360.0
  {
    assert "alpha" in AngleKeys && "beta" in AngleKeys && "gamma" in AngleKeys;
    map key | key in AngleKeys :: BlendKey(key, d1, d2, f)
  }

  /** What `get_interpolated(target)` answers for a buffer holding `samples`:
      nothing when empty, the only sample's data unchanged, the newest sample's
      data when the two newest share a timestamp, and otherwise the blend of the
      two newest samples. Older samples are never consulted. */
  function Interpolated(samples: seq<Sample>, target: real): (r: Option<SensorDict>)
    ensures r.None? <==> samples == []
    ensures |samples| == 1 ==> r == Some(samples[0].data)
    ensures |samples| >= 2 && samples[|samples| - 1].timestamp == samples[|samples| - 2].timestamp
      ==> r == Some(samples[|samples| - 1].data)
    ensures |samples| >= 2 && samples[|samples| - 1].timestamp != samples[|samples| - 2].timestamp
      ==> r.Some? && r.value.Keys == {"alpha", "beta", "gamma"} && 0.0 <= r.value["alpha"] < 360.0
  {
    if |samples| == 0 then None
    else if |samples| == 1 then Some(samples[0].data)
    else
      var s1, s2 := samples[|samples| - 2], samples[|samples| - 1];
      if s2.timestamp - s1.timestamp == 0.0 then Some(s2.data)
      else Some(Blend(s1.data, s2.data, Factor(s1.timestamp, s2.timestamp, target)))
  }

  /** The per-key loop of `get_interpolated`: it walks the three angle keys,
      correcting the heading endpoints and filling the blended reading. */
  method BlendReadings(d1: SensorDict, d2: SensorDict, factor: real) returns (interpolated: map<string, real>)
    ensures interpolated == Blend(d1, d2, factor)
  {
    interpolated := map[];
    for i := 0 to |AngleKeys|
      invariant forall k :: k in interpolated <==> k in AngleKeys[..i]
      invariant forall k :: k in interpolated ==> interpolated[k] == BlendKey(k, d1, d2, factor)
    {
      var key := AngleKeys[i];
      var v1 := Get(d1, key);
      var v2 := Get(d2, key);
      if key == "alpha" {
        var diff := v2 - v1;
        if Abs(diff) > 180.0 {
          if diff > 0.0 {
            v1 := v1 + 360.0;
          } else {
            v2 := v2 + 360.0;
          }
        }
      }
      assert key == "alpha" ==> (v1, v2) == AlphaEndpoints(Get(d1, key), Get(d2, key));
      var value := v1 + (v2 - v1) * factor;
      assert value == Lerp(v1, v2, factor);
      if key == "alpha" {
        value := Mod360(value);
      }
      assert value == BlendKey(key, d1, d2, factor);
      assert AngleKeys[..i + 1] == AngleKeys[..i] + [key];
      interpolated := interpolated[key := value];
    }
    assert AngleKeys[..|AngleKeys|] == AngleKeys;
    assert interpolated == Blend(d1, d2, factor);
  }

  class LatencyBuffer {
    /** The deque's `maxlen`. */
    const bufferSize: nat
    /** The buffered samples, oldest first. */
    var samples: seq<Sample>

    /** The deque never holds more than `maxlen` samples. */
    predicate Valid()
      reads this
    {
      |samples| <= bufferSize
    }

    constructor (bufferSize: nat)
      ensures this.bufferSize == bufferSize && samples == [] && Valid()
    {
      this.bufferSize := bufferSize;
      samples := [];
    }

    /** `add_sample`: append; a full buffer drops its oldest sample first, and a
        buffer of size 0 keeps nothing. */
    method AddSample(data: SensorDict, timestamp: real)
      requires Valid()
      modifies this
      ensures Valid()
      ensures |old(samples)| < bufferSize ==> samples == old(samples) + [Sample(data, timestamp)]
      ensures 0 < |old(samples)| == bufferSize ==> samples == old(samples)[1..] + [Sample(data, timestamp)]
      ensures bufferSize == 0 ==> samples == []
      ensures bufferSize > 0 ==> GetLatest() == Some(data)
    {
      samples := samples + [Sample(data, timestamp)];
      if |samples| > bufferSize {
        samples := samples[1..];
      }
    }

    /** `get_latest`: the most recently added sample's data, or nothing when
        the buffer is empty. */
    function GetLatest(): (r: Option<SensorDict>)
      reads this
      ensures r.None? <==> samples == []
      ensures r.Some? ==> r.value == samples[|samples| - 1].data
    {
      Latest(samples)
    }

    /** `get_interpolated(target)`, with the target time supplied by the caller. */
    method GetInterpolated(targetTime: real) returns (r: Option<SensorDict>)
      ensures r == Interpolated(samples, targetTime)
    {
      if |samples| == 0 {
        return None;
      }
      if |samples| == 1 {
        return Some(samples[0].data);
      }
      var sample1 := samples[|samples| - 2];
      var sample2 := samples[|samples| - 1];
      var t1 := sample1.timestamp;
      var t2 := sample2.timestamp;
      if t2 - t1 == 0.0 {
        return Some(sample2.data);
      }
      var factor := (targetTime - t1) / (t2 - t1);
      factor := Clamp(factor, 0.0, 1.5);
      assert factor == Factor(t1, t2, targetTime);
      var interpolated := BlendReadings(sample1.data, sample2.data, factor);
      return Some(interpolated);
    }

    /** `clear`: the buffer becomes empty. */
    method Clear()
      modifies this
      ensures samples == [] && Size() == 0 && GetLatest() == None
      ensures Valid()
    {
      samples := [];
    }

    /** `size`: the number of buffered samples, never above the buffer size. */
    function Size(): (r: nat)
      reads this
      ensures r == |samples|
      ensures Valid() ==> r <= bufferSize
    {
      |samples|
    }
  }

  class WebSocketHandler {
    const latencyBuffer: LatencyBuffer

    constructor (bufferSize: nat)
      ensures fresh(latencyBuffer)
      ensures latencyBuffer.bufferSize == bufferSize && latencyBuffer.samples == [] && latencyBuffer.Valid()
    {
      latencyBuffer := new LatencyBuffer(bufferSize);
    }

    /** `get_buffered_sensor_data`: the blended reading at the current time `now`
        (the clock read is the caller's) or the latest reading. */
    method GetBufferedSensorData(useInterpolation: bool, now: real) returns (r: Option<SensorDict>)
      ensures useInterpolation ==> r == Interpolated(latencyBuffer.samples, now)
      ensures !useInterpolation ==> r == Latest(latencyBuffer.samples)
      ensures r.None? <==> latencyBuffer.samples == []
    {
      if useInterpolation {
        r := latencyBuffer.GetInterpolated(now);
      } else {
        r := latencyBuffer.GetLatest();
      }
    }

    /** `clear_buffer`. */
    method ClearBuffer()
      modifies latencyBuffer
      ensures latencyBuffer.samples == [] && latencyBuffer.Valid()
    {
      latencyBuffer.Clear();
    }
  }

  // ---------------------------------------------------------------------------
  // Properties of the interpolation
  // ---------------------------------------------------------------------------

  /** With two or more samples, only the two newest are consulted: older
      samples never change the answer. */
  lemma InterpolatedUsesTwoNewest(samples: seq<Sample>, target: real)
    requires |samples| >= 2
    ensures Interpolated(samples, target) == Interpolated(samples[|samples| - 2..], target)
  {
  }

  /** For two headings in [0, 360] the corrected endpoints are at most 180 apart
      and each differs from its heading by 0 or a full turn: the blend follows
      the shorter arc. */
  lemma {:induction false} AlphaShortestPath(v1: real, v2: real)
    requires 0.0 <= v1 <= 360.0 && 0.0 <= v2 <= 360.0
    ensures Abs(AlphaEndpoints(v1, v2).1 - AlphaEndpoints(v1, v2).0) <= 180.0
    ensures AlphaEndpoints(v1, v2).0 - v1 in {0.0, 360.0}
    ensures AlphaEndpoints(v1, v2).1 - v2 in {0.0, 360.0}
  {
  }

  /** Adding a whole turn does not change `% 360`. */
  lemma Mod360Turn(x: real)
    ensures Mod360(x + 360.0) == Mod360(x)
  {
    var r := Mod360(x);
    var k := ((x - r) / 360.0).Floor;
    assert (x - r) / 360.0 == k as real;
    assert (x + 360.0 - r) / 360.0 == (k + 1) as real;
    Mod360Unique(x + 360.0, r);
  }

  /** At factor 0 the blend is the older reading, at factor 1 the newer one (the
      heading reduced into [0, 360)). */
  lemma BlendEndpoints(d1: SensorDict, d2: SensorDict)
    ensures BlendKey("beta", d1, d2, 0.0) == Get(d1, "beta") && BlendKey("gamma", d1, d2, 0.0) == Get(d1, "gamma")
    ensures BlendKey("beta", d1, d2, 1.0) == Get(d2, "beta") && BlendKey("gamma", d1, d2, 1.0) == Get(d2, "gamma")
    ensures BlendKey("alpha", d1, d2, 0.0) == Mod360(Get(d1, "alpha"))
    ensures BlendKey("alpha", d1, d2, 1.0) == Mod360(Get(d2, "alpha"))
  {
    var v1, v2 := Get(d1, "alpha"), Get(d2, "alpha");
    var e := AlphaEndpoints(v1, v2);
    if e.0 != v1 { Mod360Turn(v1); }
    if e.1 != v2 { Mod360Turn(v2); }
  }

  /** A target at or before the older timestamp yields the older sample's pitch
      and roll. */
  lemma TargetBeforeOlderSample(s1: Sample, s2: Sample, target: real)
    requires s1.timestamp < s2.timestamp && target <= s1.timestamp
    ensures var r := Interpolated([s1, s2], target);
      r.Some? && r.value["beta"] == Get(s1.data, "beta") && r.value["gamma"] == Get(s1.data, "gamma")
  {
    BlendEndpoints(s1.data, s2.data);
    assert "beta" in AngleKeys && "gamma" in AngleKeys;
  }

  /** Half an interval past the newer timestamp the blend extrapolates: pitch and
      roll continue past the newer reading by half of the last change. */
  lemma ExtrapolatesHalfInterval(s1: Sample, s2: Sample)
    requires s1.timestamp < s2.timestamp
    ensures var r := Interpolated([s1, s2], s2.timestamp + (s2.timestamp - s1.timestamp) / 2.0);
      && r.Some?
      && r.value["beta"] == Get(s2.data, "beta") + (Get(s2.data, "beta") - Get(s1.data, "beta")) / 2.0
      && r.value["gamma"] == Get(s2.data, "gamma") + (Get(s2.data, "gamma") - Get(s1.data, "gamma")) / 2.0
  {
    var t1, t2 := s1.timestamp, s2.timestamp;
    assert Factor(t1, t2, t2 + (t2 - t1) / 2.0) == 1.5;
    assert "beta" in AngleKeys && "gamma" in AngleKeys;
  }

  /** Extrapolation stops half an interval past the newer timestamp: any later
      target gives the same reading. */
  lemma ExtrapolationCapped(s1: Sample, s2: Sample, target: real)
    requires s1.timestamp < s2.timestamp
    requires target >= s2.timestamp + (s2.timestamp - s1.timestamp) / 2.0
    ensures Interpolated([s1, s2], target)
         == Interpolated([s1, s2], s2.timestamp + (s2.timestamp - s1.timestamp) / 2.0)
  {
    var t1, t2 := s1.timestamp, s2.timestamp;
    assert Factor(t1, t2, target) == 1.5;
    assert Factor(t1, t2, t2 + (t2 - t1) / 2.0) == 1.5;
  }

  lemma MulNonneg(x: real, y: real)
    requires x >= 0.0 && y >= 0.0
    ensures x * y >= 0.0
  {
  }

  lemma MulPos(x: real, y: real)
    requires x > 0.0 && y > 0.0
    ensures x * y > 0.0
  {
  }

  /** A factor that scales a positive gap to at most the gap is at most one. */
  lemma FractionAtMostOne(f: real, g: real, x: real)
    requires g > 0.0 && f * g == x && x <= g
    ensures f <= 1.0
  {
    if f > 1.0 {
      MulPos(f - 1.0, g);
    }
  }

  /** Scaling by a non-zero g keeps the order of q and c when g is positive and
      reverses it when g is negative. */
  lemma ScaledOrder(q: real, g: real, c: real)
    requires g != 0.0
    ensures g > 0.0 ==> (q * g <= c * g <==> q <= c) && (c * g <= q * g <==> c <= q)
    ensures g < 0.0 ==> (q * g <= c * g <==> c <= q) && (c * g <= q * g <==> q <= c)
  {
    assert q * g - c * g == (q - c) * g;
    if q > c {
      if g > 0.0 { MulPos(q - c, g); } else { MulPos(q - c, -g); }
    } else if q < c {
      if g > 0.0 { MulPos(c - q, g); } else { MulPos(c - q, -g); }
    }
  }

  /** Where the quotient q = x / g falls against 0 and 1.5, read off x and g. */
  lemma QuotientBounds(x: real, g: real, q: real)
    requires g != 0.0 && q == x / g
    ensures q * g == x
    ensures g > 0.0 ==> (x <= 0.0 ==> q <= 0.0) && (x >= 1.5 * g ==> q >= 1.5)
    ensures g < 0.0 ==> (x >= 0.0 ==> q <= 0.0) && (x <= 1.5 * g ==> q >= 1.5)
  {
    assert q * g == x;
    ScaledOrder(q, g, 0.0);
    assert 0.0 * g == 0.0;
    ScaledOrder(q, g, 1.5);
  }

  lemma MulCongruent(x: real, y: real, f: real)
    requires x == y
    ensures x * f == y * f
  {
  }

  /** A fraction in [0, 1] of a gap lies between 0 and the gap. */
  lemma ScaledGap(g: real, f: real)
    requires 0.0 <= f <= 1.0
    ensures Between(g * f, 0.0, g)
  {
    if g >= 0.0 {
      MulNonneg(g, f);
      MulNonneg(g, 1.0 - f);
      assert g * (1.0 - f) == g - g * f;
    } else {
      var h := -g;
      MulNonneg(h, f);
      MulNonneg(h, 1.0 - f);
      assert h * (1.0 - f) == h - h * f;
      assert g * f == -(h * f);
    }
  }

  /** With a factor in [0, 1], pitch and roll lie between the two readings. */
  lemma {:induction false} LerpBetween(a: real, b: real, f: real)
    requires 0.0 <= f <= 1.0
    ensures Between(Lerp(a, b, f), a, b)
  {
    var g := b - a;
    var m := g * f;
    ScaledGap(g, f);
    assert Lerp(a, b, f) == a + m;
    if g >= 0.0 {
      assert 0.0 <= m <= g;
      assert a <= a + m <= b;
    } else {
      assert g <= m <= 0.0;
      assert b <= a + m <= a;
    }
  }

  /** Blending at a target between the two timestamps keeps pitch and roll between
      the sampled values. */
  lemma BlendBetween(s1: Sample, s2: Sample, target: real)
    requires s1.timestamp < s2.timestamp && s1.timestamp <= target <= s2.timestamp
    ensures var r := Interpolated([s1, s2], target);
      && r.Some?
      && Between(r.value["beta"], Get(s1.data, "beta"), Get(s2.data, "beta"))
      && Between(r.value["gamma"], Get(s1.data, "gamma"), Get(s2.data, "gamma"))
  {
    var t1, t2 := s1.timestamp, s2.timestamp;
    var f := Factor(t1, t2, target);
    FractionAtMostOne(f, t2 - t1, target - t1);
    assert "beta" in AngleKeys && "gamma" in AngleKeys;
    LerpBetween(Get(s1.data, "beta"), Get(s2.data, "beta"), f);
    LerpBetween(Get(s1.data, "gamma"), Get(s2.data, "gamma"), f);
  }

  /** The textbook shortest-delta rule, an independent reference for the
      short-arc correction: `delta = ((b - a + 540) % 360) - 180`, then
      `(a + delta * f) % 360`. */
  function ShortestDeltaBlend(a: real, b: real, f: real): real {
    Mod360(a + ShortestDelta(a, b) * f)
  }

  /** The signed shortest turn from `a` to `b`, in [-180, 180). */
  function ShortestDelta(a: real, b: real): real {
    Mod360(b - a + 540.0) - 180.0
  }

  /** For headings in [0, 360] the wrap-around correction agrees with the
      shortest-delta rule, except when the newer heading is exactly 180 more than
      the older one. */
  lemma {:induction false} AlphaBlendMatchesShortestDelta(a: real, b: real, f: real)
    requires 0.0 <= a <= 360.0 && 0.0 <= b <= 360.0
    requires b - a != 180.0
    ensures BlendKey("alpha", map["alpha" := a], map["alpha" := b], f) == ShortestDeltaBlend(a, b, f)
  {
    var diff := b - a;
    assert Get(map["alpha" := a], "alpha") == a && Get(map["alpha" := b], "alpha") == b;
    if diff > 180.0 {
      assert AlphaEndpoints(a, b) == (a + 360.0, b);
      ShortestDeltaForward(a, b, f);
    } else if diff < -180.0 {
      assert AlphaEndpoints(a, b) == (a, b + 360.0);
      ShortestDeltaBackward(a, b, f);
    } else {
      assert AlphaEndpoints(a, b) == (a, b);
      ShortestDeltaNear(a, b, f);
    }
  }

  /** The newer heading more than 180 ahead: the older one is raised a turn. */
  lemma ShortestDeltaForward(a: real, b: real, f: real)
    requires 180.0 < b - a <= 360.0
    ensures Mod360(Lerp(a + 360.0, b, f)) == ShortestDeltaBlend(a, b, f)
  {
    var diff := b - a;
    Mod360Unique(diff + 540.0, diff - 180.0);
    assert ShortestDelta(a, b) == diff - 360.0;
    MulCongruent(b - (a + 360.0), ShortestDelta(a, b), f);
    assert Lerp(a + 360.0, b, f) == (a + ShortestDelta(a, b) * f) + 360.0;
    Mod360Turn(a + ShortestDelta(a, b) * f);
  }

  /** The newer heading more than 180 behind: it is raised a turn. */
  lemma ShortestDeltaBackward(a: real, b: real, f: real)
    requires -360.0 <= b - a < -180.0
    ensures Mod360(Lerp(a, b + 360.0, f)) == ShortestDeltaBlend(a, b, f)
  {
    var diff := b - a;
    Mod360InRange(diff + 540.0);
    assert ShortestDelta(a, b) == diff + 360.0;
    MulCongruent(b + 360.0 - a, ShortestDelta(a, b), f);
    assert Lerp(a, b + 360.0, f) == a + ShortestDelta(a, b) * f;
  }

  /** Headings within 180 of each other (short of a forward half turn) blend
      directly. */
  lemma ShortestDeltaNear(a: real, b: real, f: real)
    requires -180.0 <= b - a < 180.0
    ensures Mod360(Lerp(a, b, f)) == ShortestDeltaBlend(a, b, f)
  {
    var diff := b - a;
    Mod360Unique(diff + 540.0, diff + 180.0);
    assert ShortestDelta(a, b) == diff;
    MulCongruent(b - a, ShortestDelta(a, b), f);
    assert Lerp(a, b, f) == a + ShortestDelta(a, b) * f;
  }

  /** At a gap of exactly 180 the code goes forward and the shortest-delta rule
      goes backward: from 0 to 180 at the midpoint they answer 90 and 270. */
  lemma HalfTurnTie()
    ensures BlendKey("alpha", map["alpha" := 0.0], map["alpha" := 180.0], 0.5) == 90.0
    ensures ShortestDeltaBlend(0.0, 180.0, 0.5) == 270.0
  {
    Mod360InRange(90.0);
    Mod360Unique(720.0, 0.0);
    Mod360Unique(-90.0, 270.0);
  }

  /** A blend is determined by its three values. */
  lemma ExampleBlend(d1: SensorDict, d2: SensorDict, f: real, a: real, b: real, g: real)
    requires BlendKey("alpha", d1, d2, f) == a && BlendKey("beta", d1, d2, f) == b && BlendKey("gamma", d1, d2, f) == g
    ensures Blend(d1, d2, f) == map["alpha" := a, "beta" := b, "gamma" := g]
  {
  }

  /** Midway from heading 350 to heading 10 is heading 0. */
  lemma HeadingAcrossNorth(d1: SensorDict, d2: SensorDict)
    requires Get(d1, "alpha") == 350.0 && Get(d2, "alpha") == 10.0
    ensures BlendKey("alpha", d1, d2, 0.5) == 0.0
  {
    assert AlphaEndpoints(350.0, 10.0) == (350.0, 370.0);
    assert Lerp(350.0, 370.0, 0.5) == 360.0;
    Mod360Unique(360.0, 0.0);
  }

  /** The blend of the two wrap-around readings at the midpoint. */
  lemma WrapAroundBlend(d1: SensorDict, d2: SensorDict)
    requires d1 == map["alpha" := 350.0, "beta" := 0.0, "gamma" := 0.0]
    requires d2 == map["alpha" := 10.0, "beta" := 0.0, "gamma" := 0.0]
    ensures Blend(d1, d2, 0.5) == map["alpha" := 0.0, "beta" := 0.0, "gamma" := 0.0]
  {
    assert Get(d1, "alpha") == 350.0 && Get(d2, "alpha") == 10.0;
    HeadingAcrossNorth(d1, d2);
    assert Get(d1, "beta") == 0.0 && Get(d2, "beta") == 0.0;
    assert Get(d1, "gamma") == 0.0 && Get(d2, "gamma") == 0.0;
    ExampleBlend(d1, d2, 0.5, 0.0, 0.0, 0.0);
  }

  /** From 350 to 10 at the midpoint the heading crosses north and gives 0, not
      180. */
  lemma WrapAroundExample()
    ensures Interpolated([Sample(map["alpha" := 350.0, "beta" := 0.0, "gamma" := 0.0], 1000.0),
                          Sample(map["alpha" := 10.0, "beta" := 0.0, "gamma" := 0.0], 2000.0)], 1500.0)
         == Some(map["alpha" := 0.0, "beta" := 0.0, "gamma" := 0.0])
  {
    var d1 := map["alpha" := 350.0, "beta" := 0.0, "gamma" := 0.0];
    var d2 := map["alpha" := 10.0, "beta" := 0.0, "gamma" := 0.0];
    assert Factor(1000.0, 2000.0, 1500.0) == 0.5;
    WrapAroundBlend(d1, d2);
  }

  /** From (0, 0, 0) to (100, 50, 10) at the midpoint the blend is (50, 25, 5). */
  lemma MidpointExample()
    ensures Interpolated([Sample(map["alpha" := 0.0, "beta" := 0.0, "gamma" := 0.0], 1000.0),
                          Sample(map["alpha" := 100.0, "beta" := 50.0, "gamma" := 10.0], 2000.0)], 1500.0)
         == Some(map["alpha" := 50.0, "beta" := 25.0, "gamma" := 5.0])
  {
    var d1 := map["alpha" := 0.0, "beta" := 0.0, "gamma" := 0.0];
    var d2 := map["alpha" := 100.0, "beta" := 50.0, "gamma" := 10.0];
    assert Factor(1000.0, 2000.0, 1500.0) == 0.5;
    assert Get(d1, "alpha") == 0.0 && Get(d2, "alpha") == 100.0;
    assert AlphaEndpoints(0.0, 100.0) == (0.0, 100.0);
    Mod360InRange(50.0);
    assert BlendKey("alpha", d1, d2, 0.5) == 50.0;
    assert Get(d1, "beta") == 0.0 && Get(d2, "beta") == 50.0;
    assert Get(d1, "gamma") == 0.0 && Get(d2, "gamma") == 10.0;
    ExampleBlend(d1, d2, 0.5, 50.0, 25.0, 5.0);
    assert Interpolated([Sample(d1, 1000.0), Sample(d2, 2000.0)], 1500.0) == Some(Blend(d1, d2, 0.5));
  }
}
