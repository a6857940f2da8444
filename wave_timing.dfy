/** How long a wave update took: from the earliest start of the matching EPM
    builds to the latest finish of the matching FPA builds, in whole minutes
    rounded up (`find_first_started`, `find_last_finished` and the
    expression printed by `get_group_update_time` / `get_system_update_time`).
    Times are integer epoch seconds; Python 2's `/` on integers floors, which
    for the positive divisors used here is Dafny's `/`. */
module WaveTiming {
  import opened PyJson
  import opened Builds
  import opened BuildFilters

  /** `sys.maxint` on a 64-bit Python 2, the start value of the minimum. */
  const MaxInt := 9223372036854775807

  /** The first epoch second `datetime.fromtimestamp` cannot turn into a date
      (year 10000, taken in UTC). */
  const DatetimeLimit := 253402300800

  /** `build['timestamp'] / 1000`. */
  function Started(b: Build): int {
    b.timestamp / 1000
  }

  /** `(long(build['timestamp']) + build['duration']) / 1000`. */
  function Finished(b: Build): int {
    (b.timestamp + b.duration) / 1000
  }

  /** The value `find_first_started` accumulates: `min` from `sys.maxint`. */
  function EarliestStart(builds: seq<Build>): (t: int)
    ensures t <= MaxInt
    ensures forall i :: 0 <= i < |builds| ==> t <= Started(builds[i])
    ensures t == MaxInt || exists i :: 0 <= i < |builds| && t == Started(builds[i])
  {
    if builds == [] then MaxInt
    else
      var prev := EarliestStart(builds[..|builds| - 1]);
      var started := Started(builds[|builds| - 1]);
      if started < prev then started else prev
  }

  /** The value `find_last_finished` accumulates: `max` from 0. */
  function LatestFinish(builds: seq<Build>): (t: int)
    ensures 0 <= t
    ensures forall i :: 0 <= i < |builds| ==> Finished(builds[i]) <= t
    ensures t == 0 || exists i :: 0 <= i < |builds| && t == Finished(builds[i])
  {
    if builds == [] then 0
    else
      var prev := LatestFinish(builds[..|builds| - 1]);
      var finished := Finished(builds[|builds| - 1]);
      if finished > prev then finished else prev
  }

  /** When some build starts within `sys.maxint`, the minimum is a start of
      one of the builds. */
  lemma EarliestStartAttained(builds: seq<Build>, k: nat)
    requires k < |builds| && Started(builds[k]) <= MaxInt
    ensures exists i :: 0 <= i < |builds| && EarliestStart(builds) == Started(builds[i])
  {
    assert EarliestStart(builds) <= Started(builds[k]);
  }

  /** The loop of `find_first_started` (the date conversion, the tracked
      first build and the print are not modelled). */
  method FirstStarted(builds: seq<Build>) returns (firstStarted: int)
    ensures firstStarted == EarliestStart(builds)
  {
    firstStarted := MaxInt;
    for i := 0 to |builds|
      invariant firstStarted == EarliestStart(builds[..i])
    {
      assert builds[..i + 1][..i] == builds[..i];
      var started := builds[i].timestamp / 1000;
      firstStarted := if started < firstStarted then started else firstStarted;
    }
    assert builds[..|builds|] == builds;
  }

  /** The loop of `find_last_finished`. */
  method LastFinished(builds: seq<Build>) returns (lastFinished: int)
    ensures lastFinished == LatestFinish(builds)
  {
    lastFinished := 0;
    for i := 0 to |builds|
      invariant lastFinished == LatestFinish(builds[..i])
    {
      assert builds[..i + 1][..i] == builds[..i];
      var finished := (builds[i].timestamp + builds[i].duration) / 1000;
      lastFinished := if finished > lastFinished then finished else lastFinished;
    }
    assert builds[..|builds|] == builds;
  }

  /** `math.ceil(seconds / 60)` on a whole number of seconds: the least
      number of minutes that covers them. */
  function CeilMinutes(seconds: int): (m: int)
    ensures 60 * (m - 1) < seconds <= 60 * m
  {
    -((-seconds) / 60)
  }

  /** The ceiling is the only such number. */
  lemma CeilMinutesUnique(seconds: int, m: int)
    requires 60 * (m - 1) < seconds <= 60 * m
    ensures m == CeilMinutes(seconds)
  {
    var c := CeilMinutes(seconds);
    assert 60 * (c - 1) < 60 * m && 60 * (m - 1) < 60 * c;
  }

  /** The first epoch second `datetime.fromtimestamp` can turn into a date
      (1 January of year 1, taken in UTC). */
  const DatetimeStart := -62135596800

  /** Epoch seconds that `datetime.fromtimestamp` accepts; outside, it raises
      a ValueError. The bounds are those of a POSIX C library, whose
      `localtime` covers years 1 to 9999; the Windows C runtime fails outside
      1970 to 3000, so there the ValueError range is wider. */
  predicate Representable(t: int) {
    DatetimeStart <= t < DatetimeLimit
  }

  /** The elapsed minutes exactly as `get_group_update_time` and
      `get_system_update_time` compute them: the emptiness test only prints,
      and `fromtimestamp(sys.maxint)` raises a ValueError. */
  function MinutesAsWritten(fpa: seq<Build>, epm: seq<Build>): (r: Result<int, PyError>)
    ensures r.Err? <==> !Representable(EarliestStart(epm)) || !Representable(LatestFinish(fpa))
    ensures r.Err? ==> r.error == ValueError
    ensures r.Ok? ==> 60 * (r.value - 1) < LatestFinish(fpa) - EarliestStart(epm) <= 60 * r.value
  {
    var firstEpm := EarliestStart(epm);
    var lastFpa := LatestFinish(fpa);
    if !Representable(firstEpm) || !Representable(lastFpa) then Err(ValueError)
    else Ok(CeilMinutes(lastFpa - firstEpm))
  }

  /** With no EPM build the computation as written raises. */
  lemma AsWrittenEmptyEpmRaises(fpa: seq<Build>)
    ensures MinutesAsWritten(fpa, []) == Err(ValueError)
  {
  }

  /** With no FPA build it measures from 1970 and reports a negative or zero
      duration instead of failing. */
  lemma AsWrittenEmptyFpa(epm: seq<Build>)
    requires epm != []
    requires forall i :: 0 <= i < |epm| ==> 0 <= epm[i].timestamp && Started(epm[i]) < DatetimeLimit
    ensures MinutesAsWritten([], epm).Ok? && MinutesAsWritten([], epm).value <= 0
  {
    assert EarliestStart(epm) <= Started(epm[0]);
    var i :| 0 <= i < |epm| && EarliestStart(epm) == Started(epm[i]);
  }

  /** One EPM build of May 2017 and no FPA build: -24916666 minutes. */
  lemma AsWrittenNegativeExample()
    ensures MinutesAsWritten([], [Build(1, 1495000000000, 0, [], map[])]) == Ok(-24916666)
  {
    var b := Build(1, 1495000000000, 0, [], map[]);
    assert [b][..0] == [];
    assert EarliestStart([b]) == 1495000000;
  }

  /** Why no elapsed time could be given. */
  datatype WaveError = Raised(error: PyError) | NoBuilds

  /** The elapsed minutes as intended: an empty filtered set is an error
      rather than a number. */
  function UpdateMinutes(fpa: seq<Build>, epm: seq<Build>): (r: Result<int, WaveError>)
    ensures r == Err(NoBuilds) <==> fpa == [] || epm == []
    ensures r.Err? && r != Err(NoBuilds) ==> r == Err(Raised(ValueError))
    ensures r.Ok? ==> 60 * (r.value - 1) < LatestFinish(fpa) - EarliestStart(epm) <= 60 * r.value
    ensures r.Ok? ==> exists e :: 0 <= e < |epm| && EarliestStart(epm) == Started(epm[e])
  {
    if fpa == [] || epm == [] then Err(NoBuilds)
    else
      var firstEpm := EarliestStart(epm);
      var lastFpa := LatestFinish(fpa);
      if !Representable(firstEpm) || !Representable(lastFpa) then Err(Raised(ValueError))
      else Ok(CeilMinutes(lastFpa - firstEpm))
  }

  /** For builds that finish after 1970, the minutes span from the start of
      an EPM build no later than any other to the finish of an FPA build no
      earlier than any other. */
  lemma UpdateWindow(fpa: seq<Build>, epm: seq<Build>)
    requires UpdateMinutes(fpa, epm).Ok?
    requires forall j :: 0 <= j < |fpa| ==> 0 <= Finished(fpa[j])
    ensures exists e, f :: 0 <= e < |epm| && 0 <= f < |fpa|
              && 60 * (UpdateMinutes(fpa, epm).value - 1) < Finished(fpa[f]) - Started(epm[e]) <= 60 * UpdateMinutes(fpa, epm).value
              && (forall i :: 0 <= i < |epm| ==> Started(epm[e]) <= Started(epm[i]))
              && (forall j :: 0 <= j < |fpa| ==> Finished(fpa[j]) <= Finished(fpa[f]))
  {
    var e :| 0 <= e < |epm| && EarliestStart(epm) == Started(epm[e]);
    var f: nat;
    if LatestFinish(fpa) == 0 {
      assert 0 <= Finished(fpa[0]) <= 0;
      f := 0;
    } else {
      f :| 0 <= f < |fpa| && LatestFinish(fpa) == Finished(fpa[f]);
    }
    assert Finished(fpa[f]) == LatestFinish(fpa);
  }

  /** On non-empty sets the intended value is the value as written. */
  lemma IntendedAgreesOnNonEmpty(fpa: seq<Build>, epm: seq<Build>)
    requires fpa != [] && epm != []
    ensures UpdateMinutes(fpa, epm).Ok? <==> MinutesAsWritten(fpa, epm).Ok?
    ensures UpdateMinutes(fpa, epm).Ok? ==> UpdateMinutes(fpa, epm).value == MinutesAsWritten(fpa, epm).value
    ensures UpdateMinutes(fpa, epm).Err? ==> UpdateMinutes(fpa, epm) == Err(Raised(MinutesAsWritten(fpa, epm).error))
  {
  }

  /** The value as written, in the result type of the intended one. */
  function AsWrittenResult(fpa: seq<Build>, epm: seq<Build>): Result<int, WaveError> {
    var m := MinutesAsWritten(fpa, epm);
    if m.Ok? then Ok(m.value) else Err(Raised(m.error))
  }

  /** The FPA finish and EPM start behind the result, each computed by its
      loop. The guard on empty sets is the corrected one; on non-empty sets
      the result is the value as written. */
  method Measure(fpa: seq<Build>, epm: seq<Build>) returns (r: Result<int, WaveError>)
    ensures r == UpdateMinutes(fpa, epm)
    ensures r == Err(NoBuilds) <==> fpa == [] || epm == []
    ensures fpa != [] && epm != [] ==> r == AsWrittenResult(fpa, epm)
  {
    if fpa == [] || epm == [] {
      return Err(NoBuilds);
    }
    IntendedAgreesOnNonEmpty(fpa, epm);
    var firstEpm := FirstStarted(epm);
    var lastFpa := LastFinished(fpa);
    if !Representable(firstEpm) || !Representable(lastFpa) {
      return Err(Raised(ValueError));
    }
    r := Ok(-((firstEpm - lastFpa) / 60));
  }

  /** `get_group_update_time`: both build lists filtered by the group, each
      with its own version; an empty filtered set is the corrected NoBuilds. */
  method GroupUpdateTime(fpaBuilds: seq<Build>, fpaVer: string, epmBuilds: seq<Build>, epmVer: string,
                         groupInfo: map<string, seq<Json>>, group: string)
      returns (r: Result<int, WaveError>)
    ensures group !in groupInfo ==> r == Err(Raised(KeyError))
    ensures group in groupInfo ==>
              r == UpdateMinutes(Select(fpaBuilds, GroupVersion(groupInfo[group], fpaVer)),
                                 Select(epmBuilds, GroupVersion(groupInfo[group], epmVer)))
    ensures group in groupInfo ==>
              var fpa := Select(fpaBuilds, GroupVersion(groupInfo[group], fpaVer));
              var epm := Select(epmBuilds, GroupVersion(groupInfo[group], epmVer));
              (r == Err(NoBuilds) <==> fpa == [] || epm == [])
              && (fpa != [] && epm != [] ==> r == AsWrittenResult(fpa, epm))
  {
    var fpa := FilterByGroupVersion(fpaBuilds, groupInfo, group, fpaVer);
    if fpa.Err? {
      return Err(Raised(fpa.error));
    }
    var epm := FilterByGroupVersion(epmBuilds, groupInfo, group, epmVer);
    r := Measure(fpa.value.matched, epm.value.matched);
  }

  /** `get_system_update_time`: both build lists filtered by the instance; an
      empty filtered set is the corrected NoBuilds. */
  method SystemUpdateTime(fpaBuilds: seq<Build>, fpaVer: string, epmBuilds: seq<Build>, epmVer: string, ins: string)
      returns (r: Result<int, WaveError>)
    ensures r == Err(Raised(KeyError)) <==>
              (exists k :: 0 <= k < |fpaBuilds| && RaisesOnSystem(fpaBuilds[k], ins))
              || (exists k :: 0 <= k < |epmBuilds| && RaisesOnSystem(epmBuilds[k], ins))
    ensures r != Err(Raised(KeyError)) ==>
              r == UpdateMinutes(Select(fpaBuilds, SystemVersion(ins, fpaVer)), Select(epmBuilds, SystemVersion(ins, epmVer)))
    ensures r != Err(Raised(KeyError)) ==>
              var fpa := Select(fpaBuilds, SystemVersion(ins, fpaVer));
              var epm := Select(epmBuilds, SystemVersion(ins, epmVer));
              (r == Err(NoBuilds) <==> fpa == [] || epm == [])
              && (fpa != [] && epm != [] ==> r == AsWrittenResult(fpa, epm))
  {
    var fpa := FilterBySystemVersion(fpaBuilds, ins, fpaVer);
    if fpa.Err? {
      return Err(Raised(fpa.error));
    }
    var epm := FilterBySystemVersion(epmBuilds, ins, epmVer);
    if epm.Err? {
      return Err(Raised(epm.error));
    }
    r := Measure(fpa.value, epm.value);
  }
}
