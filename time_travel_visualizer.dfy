/**
 * The time-travel page: a generated monthly history of pollution readings from
 * January 2019 up to the current month of 2025, and a playback that steps
 * through it once a second.
 */
module TimeTravelVisualizer {
  import opened Wrappers
  import Text
  import Bands

  datatype Location = Location(lat: real, lng: real, hmpi: real)

  datatype TimePoint = TimePoint(year: int, month: int, locations: seq<Location>, averageHMPI: real)

  /**
   * The random draws for one location: a base reading, latitude, longitude and
   * noise, already scaled to the ranges the page draws them from.
   */
  datatype Sample = Sample(baseHMPI: real, lat: real, lng: real, noise: real)

  /** The random draws, by year, month and location number. */
  type Sampler = (int, int, nat) -> Sample

  /** `Math.sin((month / 12) * 2 * Math.PI) * 10`, by month. */
  type Seasonal = int -> real

  const FirstYear: int := 2019
  const LastYear: int := 2025
  const LocationsPerPoint: nat := 50

  // ----- generated history -----

  function Max0(x: real): (r: real)
    ensures r >= 0.0 && r >= x && (r == x || r == 0.0)
  {
    if x > 0.0 then x else 0.0
  }

  function MakeLocation(year: int, month: int, s: Sample, seasonal: Seasonal): Location {
    var trend := ((year - FirstYear) * 5) as real + seasonal(month);
    Location(s.lat, s.lng, Max0(s.baseHMPI + trend + s.noise))
  }

  function SumHmpi(locations: seq<Location>): real {
    if locations == [] then 0.0 else locations[0].hmpi + SumHmpi(locations[1..])
  }

  ghost predicate AllNonNegative(locations: seq<Location>) {
    forall k :: 0 <= k < |locations| ==> locations[k].hmpi >= 0.0
  }

  /** A sum of non-negative readings is non-negative. */
  lemma {:induction false} SumHmpiNonNegative(locations: seq<Location>)
    requires AllNonNegative(locations)
    ensures SumHmpi(locations) >= 0.0
  {
    if locations != [] {
      assert AllNonNegative(locations[1..]) by {
        forall k | 0 <= k < |locations[1..]| ensures locations[1..][k].hmpi >= 0.0 {
          assert locations[1..][k] == locations[k + 1];
        }
      }
      SumHmpiNonNegative(locations[1..]);
    }
  }

  /** The point for one month: fifty locations and the mean of their readings. */
  function MakeTimePoint(year: int, month: int, sample: Sampler, seasonal: Seasonal): (p: TimePoint)
    ensures p.year == year && p.month == month
    ensures |p.locations| == LocationsPerPoint && AllNonNegative(p.locations)
    ensures p.averageHMPI == SumHmpi(p.locations) / (LocationsPerPoint as real)
  {
    var locations := seq(LocationsPerPoint, k requires 0 <= k < LocationsPerPoint => MakeLocation(year, month, sample(year, month, k), seasonal));
    assert forall k :: 0 <= k < |locations| ==> locations[k] == MakeLocation(year, month, sample(year, month, k), seasonal);
    TimePoint(year, month, locations, SumHmpi(locations) / (LocationsPerPoint as real))
  }

  /** The `i`-th generated point: month `i % 12 + 1` of year `2019 + i / 12`. */
  function PointAt(i: nat, sample: Sampler, seasonal: Seasonal): TimePoint {
    MakeTimePoint(FirstYear + i / 12, i % 12 + 1, sample, seasonal)
  }

  lemma IndexOfMonth(y: nat, m: int)
    requires 1 <= m <= 12
    ensures (y * 12 + m - 1) / 12 == y && (y * 12 + m - 1) % 12 == m - 1
  {
  }

  /**
   * The nested year and month loops: every month from January 2019, stopping in
   * 2025 after `currentMonth`, the month of the clock (1 to 12).
   */
  method GenerateHistoricalData(currentMonth: int, sample: Sampler, seasonal: Seasonal) returns (data: seq<TimePoint>)
    requires 1 <= currentMonth <= 12
    ensures |data| == (LastYear - FirstYear) * 12 + currentMonth
    ensures forall i :: 0 <= i < |data| ==> data[i] == PointAt(i, sample, seasonal)
  {
    data := [];
    var year := FirstYear;
    while year <= LastYear
      invariant FirstYear <= year <= LastYear + 1
      invariant year <= LastYear ==> |data| == (year - FirstYear) * 12
      invariant year == LastYear + 1 ==> |data| == (LastYear - FirstYear) * 12 + currentMonth
      invariant forall i :: 0 <= i < |data| ==> data[i] == PointAt(i, sample, seasonal)
    {
      var month := 1;
      while month <= 12
        invariant 1 <= month <= 13
        invariant |data| == (year - FirstYear) * 12 + month - 1
        invariant year == LastYear ==> month <= currentMonth + 1
        invariant forall i :: 0 <= i < |data| ==> data[i] == PointAt(i, sample, seasonal)
      {
        if year == LastYear && month > currentMonth {
          break;
        }
        IndexOfMonth(year - FirstYear, month);
        data := data + [MakeTimePoint(year, month, sample, seasonal)];
        month := month + 1;
      }
      year := year + 1;
    }
  }

  /** Generated points run strictly forward in time, one month apart, starting in January 2019. */
  lemma PointsInTimeOrder(sample: Sampler, seasonal: Seasonal, i: nat, j: nat)
    requires i < j
    ensures var p, q := PointAt(i, sample, seasonal), PointAt(j, sample, seasonal);
      p.year < q.year || (p.year == q.year && p.month < q.month)
    ensures PointAt(0, sample, seasonal).year == FirstYear && PointAt(0, sample, seasonal).month == 1
    ensures 1 <= PointAt(i, sample, seasonal).month <= 12
  {
    if i / 12 == j / 12 {
      assert i % 12 < j % 12;
    } else {
      assert i / 12 < j / 12;
    }
  }

  /** Every generated reading is non-negative, and so is every month's average. */
  lemma ReadingsNonNegative(sample: Sampler, seasonal: Seasonal, i: nat)
    ensures var p := PointAt(i, sample, seasonal);
      |p.locations| == 50 && AllNonNegative(p.locations) && p.averageHMPI >= 0.0
  {
    SumHmpiNonNegative(PointAt(i, sample, seasonal).locations);
  }

  // ----- labels and colours -----

  const MonthNames: seq<string> := ["Jan", "Feb", "Mar", "Apr", "May", "Jun", "Jul", "Aug", "Sep", "Oct", "Nov", "Dec"]

  /** `monthNames[month - 1]` inside a template: "undefined" for a month outside 1 to 12. */
  function MonthName(month: int): string {
    if 1 <= month <= 12 then MonthNames[month - 1] else "undefined"
  }

  function FormatTimeLabel(point: Option<TimePoint>): (caption: string)
    ensures point.None? <==> caption == ""
  {
    match point
    case None => ""
    case Some(p) => MonthName(p.month) + " " + Text.IntToString(p.year)
  }

  /** A generated point is labelled with its month's abbreviation and its year. */
  lemma GeneratedLabel(sample: Sampler, seasonal: Seasonal, i: nat)
    ensures FormatTimeLabel(Some(PointAt(i, sample, seasonal))) == MonthNames[i % 12] + " " + Text.IntToString(FirstYear + i / 12)
  {
  }

  const MarkerCuts: seq<real> := [50.0, 100.0]

  const MarkerColours: seq<string> := ["#4caf50", "#ff9800", "#f44336"]

  function GetMarkerColor(hmpi: real): string {
    if hmpi > 100.0 then "#f44336"
    else if hmpi > 50.0 then "#ff9800"
    else "#4caf50"
  }

  /** Green up to 50, orange up to 100, red above. */
  lemma MarkerColourBand(hmpi: real)
    ensures GetMarkerColor(hmpi) == MarkerColours[Bands.Exceeded(MarkerCuts, hmpi)]
  {
    Bands.Exceeded2(50.0, 100.0, hmpi);
  }

  // ----- playback -----

  /** The last index the playback may show: `max(0, length - 1)`. */
  function LastIndex(length: nat): nat {
    if length == 0 then 0 else length - 1
  }

  datatype PlayState = PlayState(index: int, playing: bool)

  /** One interval tick: advance while before the last point, otherwise stay and stop. */
  function TickStep(length: nat, s: PlayState): PlayState {
    if s.index >= length - 1 then PlayState(s.index, false) else PlayState(s.index + 1, s.playing)
  }

  /** `n` interval ticks; the interval is cleared once playing stops. */
  function Run(length: nat, s: PlayState, n: nat): PlayState
    decreases n
  {
    if n == 0 || !s.playing then s else Run(length, TickStep(length, s), n - 1)
  }

  /**
   * Playing from index `i` advances one point per tick and, once at the last point,
   * stops there: after `n` ticks the index is `min(i + n, last)`, and playing has
   * stopped exactly when more ticks than remaining points have passed.
   */
  lemma {:induction false} PlaybackRun(length: nat, i: nat, n: nat)
    requires i <= LastIndex(length)
    ensures var last := LastIndex(length);
      Run(length, PlayState(i, true), n) ==
        if n <= last - i then PlayState(i + n, true) else PlayState(last, false)
    decreases n
  {
    if n > 0 {
      if i >= length - 1 {
        assert Run(length, PlayState(i, true), n) == Run(length, PlayState(i, false), n - 1);
      } else {
        PlaybackRun(length, i + 1, n - 1);
      }
    }
  }

  class Playback {
    var timePoints: seq<TimePoint>
    var currentTimeIndex: int
    var isPlaying: bool

    /** The shown index never leaves `0 .. max(0, length - 1)`. */
    predicate Valid()
      reads this
    {
      0 <= currentTimeIndex <= LastIndex(|timePoints|)
    }

    constructor ()
      ensures Valid() && timePoints == [] && currentTimeIndex == 0 && !isPlaying
    {
      timePoints, currentTimeIndex, isPlaying := [], 0, false;
    }

    /** `timePoints[currentTimeIndex]`: the point on screen, if there is one. */
    function CurrentTime(): Option<TimePoint>
      reads this
    {
      if 0 <= currentTimeIndex < |timePoints| then Some(timePoints[currentTimeIndex]) else None
    }

    /** Play is disabled at the last point. */
    predicate PlayDisabled()
      reads this
    {
      currentTimeIndex >= |timePoints| - 1
    }

    /** The history generated at mount replaces the (empty) list. */
    method LoadTimePoints(data: seq<TimePoint>)
      requires Valid() && currentTimeIndex <= LastIndex(|data|)
      modifies this
      ensures Valid() && timePoints == data
      ensures currentTimeIndex == old(currentTimeIndex) && isPlaying == old(isPlaying)
    {
      timePoints := data;
    }

    method Tick()
      requires Valid() && isPlaying
      modifies this
      ensures Valid() && timePoints == old(timePoints)
      ensures PlayState(currentTimeIndex, isPlaying) == TickStep(|timePoints|, old(PlayState(currentTimeIndex, isPlaying)))
    {
      if currentTimeIndex >= |timePoints| - 1 {
        isPlaying := false;
      } else {
        currentTimeIndex := currentTimeIndex + 1;
      }
    }

    method TogglePlay()
      requires Valid()
      modifies this
      ensures Valid() && isPlaying == !old(isPlaying)
      ensures timePoints == old(timePoints) && currentTimeIndex == old(currentTimeIndex)
    {
      isPlaying := !isPlaying;
    }

    method Stop()
      requires Valid()
      modifies this
      ensures Valid() && !isPlaying && currentTimeIndex == 0 && timePoints == old(timePoints)
    {
      isPlaying := false;
      currentTimeIndex := 0;
    }

    /** The slider only offers indices of existing points. */
    method Seek(index: int)
      requires Valid() && 0 <= index < |timePoints|
      modifies this
      ensures timePoints == old(timePoints) && isPlaying == old(isPlaying)
      ensures Valid() && currentTimeIndex == index && CurrentTime() == Some(timePoints[index])
    {
      currentTimeIndex := index;
    }
  }

  /** Pressing play and letting every tick run ends at the last point with playback stopped. */
  method PlayToEnd(p: Playback)
    requires p.Valid() && !p.isPlaying && !p.PlayDisabled()
    modifies p
    ensures p.Valid() && !p.isPlaying && p.currentTimeIndex == LastIndex(|p.timePoints|)
    ensures p.timePoints == old(p.timePoints)
  {
    p.TogglePlay();
    while p.isPlaying
      invariant p.Valid() && p.timePoints == old(p.timePoints)
      invariant !p.isPlaying ==> p.currentTimeIndex == LastIndex(|p.timePoints|)
      decreases LastIndex(|p.timePoints|) - p.currentTimeIndex, p.isPlaying
    {
      p.Tick();
    }
  }
}
