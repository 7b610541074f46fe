/** The per-day join of `fetchAndOrganizeData` (backend/ouraDataFetcher.js):
    five category arrays from the wearable-data API become one flat record per
    sleep day. The network request itself is left out; only its outcome is modelled. */
module OuraDataFetcher {
  import opened Wrappers

  // ---------------------------------------------------------------------------
  // Upstream data
  // ---------------------------------------------------------------------------

  /** One element of a category's `data` array. `fields` holds the numeric
      properties of the object (`score`, `vascular_age`, `stress_high`, ...);
      a key that is absent stands for a property that is `undefined`, `null` or a
      falsy non-number (`NaN`, `""`, `false`).
      `contributors` is the nested object of a sleep entry, `None` when the
      property is absent or `null`. */
  datatype Entry = Entry(day: string, fields: map<string, int>, contributors: Option<map<string, int>>)

  /** What `fetchData` hands to the join for one category: the `data` array of
      the response body, or `Missing` when the body has no array there. */
  datatype Payload = Data(entries: seq<Entry>) | Missing

  /** The outcome of the upstream request for one category. */
  datatype Response = Failed | Received(body: Payload)

  /** The flat record built for one sleep day (the object literal returned by
      the `map` callback). */
  datatype DailyRecord = DailyRecord(
    day: string,
    sleepTotal: int,
    sleepDeep: int,
    sleepRem: int,
    sleepEfficiency: int,
    sleepLatency: int,
    sleepRestfulness: int,
    sleepScore: int,
    readinessScore: int,
    activityScore: int,
    cardiovascularAge: int,
    stressSeconds: int)

  /** The single message with which the organize step fails. */
  const OrganizeError: string := "Failed to fetch and organize Oura data."

  /** The property each category contributes to a record. */
  const ScoreKey: string := "score"
  const VascularAgeKey: string := "vascular_age"
  const StressHighKey: string := "stress_high"

  // ---------------------------------------------------------------------------
  // fetchData: only its outcome
  // ---------------------------------------------------------------------------

  /** `fetchData`: a failed request becomes the empty array; otherwise the response body's `data` property is passed on as it is. */
  function FetchData(response: Response): (p: Payload)
    ensures response.Failed? ==> p == Data([])
    ensures response.Received? ==> p == response.body
  {
    match response
    case Failed => Data([])
    case Received(body) => body
  }

  // ---------------------------------------------------------------------------
  // Property access with the `|| 0` default
  // ---------------------------------------------------------------------------

  /** Reading property `key` of an object: `undefined` when it is absent. */
  function Get(m: map<string, int>, key: string): Option<int>
  {
    if key in m then Some(m[key]) else None
  }

  /** JavaScript's `v || 0` on a number that may be `undefined`: a missing or
      falsy value becomes `0`, any other value is kept. */
  function OrZero(v: Option<int>): (r: int)
    ensures r == 0 <==> v == None || v == Some(0)
    ensures r != 0 ==> v == Some(r)
  {
    if v.None? || v.value == 0 then 0 else v.value
  }

  /** `sleepEntry.contributors?.<key> || 0`. */
  function Contributor(sleep: Entry, key: string): int
  {
    OrZero(match sleep.contributors
           case None => None
           case Some(c) => Get(c, key))
  }

  // ---------------------------------------------------------------------------
  // Array.prototype.find by day
  // ---------------------------------------------------------------------------

  /** `j` is the position of the first entry whose `day` is `d`. */
  ghost predicate IsFirstOnDay(entries: seq<Entry>, d: string, j: int)
  {
    && 0 <= j < |entries|
    && entries[j].day == d
    && forall k :: 0 <= k < j ==> entries[k].day != d
  }

  /** `entries.find((entry) => entry.day === d)`: the first entry of that day,
      or `None` (JavaScript `undefined`) when there is none. */
  function FindByDay(entries: seq<Entry>, d: string): (r: Option<Entry>)
    ensures r.None? <==> forall j :: 0 <= j < |entries| ==> entries[j].day != d
    ensures r.Some? ==> exists j :: IsFirstOnDay(entries, d, j) && entries[j] == r.value
  {
    if entries == [] then None
    else if entries[0].day == d then
      assert IsFirstOnDay(entries, d, 0);
      Some(entries[0])
    else
      var r := FindByDay(entries[1..], d);
      assert r.Some? ==> exists j :: IsFirstOnDay(entries, d, j) && entries[j] == r.value by {
        if r.Some? {
          var j :| IsFirstOnDay(entries[1..], d, j) && entries[1..][j] == r.value;
          assert IsFirstOnDay(entries, d, j + 1);
        }
      }
      r
  }

  /** `entries.find((entry) => entry.day === d)?.<key> || 0`. */
  function Lookup(entries: seq<Entry>, d: string, key: string): int
  {
    OrZero(match FindByDay(entries, d)
           case None => None
           case Some(e) => Get(e.fields, key))
  }

  /** The first position of a day is unique. */
  lemma FirstOnDayUnique(entries: seq<Entry>, d: string, i: int, j: int)
    requires IsFirstOnDay(entries, d, i) && IsFirstOnDay(entries, d, j)
    ensures i == j
  {
  }

  // ---------------------------------------------------------------------------
  // The join
  // ---------------------------------------------------------------------------

  /** The object literal of the `map` callback, given the sleep entry and the
      four values looked up in the other categories. */
  function RecordFor(sleep: Entry, readiness: int, activity: int, cardiovascular: int, stress: int): DailyRecord
  {
    DailyRecord(
      day := sleep.day,
      sleepTotal := Contributor(sleep, "total_sleep"),
      sleepDeep := Contributor(sleep, "deep_sleep"),
      sleepRem := Contributor(sleep, "rem_sleep"),
      sleepEfficiency := Contributor(sleep, "efficiency"),
      sleepLatency := Contributor(sleep, "latency"),
      sleepRestfulness := Contributor(sleep, "restfulness"),
      sleepScore := OrZero(Get(sleep.fields, ScoreKey)),
      readinessScore := readiness,
      activityScore := activity,
      cardiovascularAge := cardiovascular,
      stressSeconds := stress)
  }

  /** The property names of that object literal, in the order it lists them. */
  const RecordKeys: seq<string> := [
    "day",
    "sleep_total",
    "sleep_deep",
    "sleep_rem",
    "sleep_efficiency",
    "sleep_latency",
    "sleep_restfulness",
    "sleep_score",
    "readiness_score",
    "activity_score",
    "cardiovascular_age",
    "stress_seconds"
  ]

  /** The `map` callback: one record for one sleep entry. */
  function BuildRecord(sleep: Entry, readiness: seq<Entry>, activity: seq<Entry>,
                       cardiovascular: seq<Entry>, stress: seq<Entry>): DailyRecord
  {
    var d := sleep.day;
    RecordFor(sleep, Lookup(readiness, d, ScoreKey), Lookup(activity, d, ScoreKey),
              Lookup(cardiovascular, d, VascularAgeKey), Lookup(stress, d, StressHighKey))
  }

  /** `sleepData.map(...)`: a left join keyed by the sleep entries' days. */
  function Join(sleep: seq<Entry>, readiness: seq<Entry>, activity: seq<Entry>,
                cardiovascular: seq<Entry>, stress: seq<Entry>): (out: seq<DailyRecord>)
    ensures |out| == |sleep|
    ensures forall i :: 0 <= i < |sleep| ==> out[i].day == sleep[i].day
  {
    seq(|sleep|, i requires 0 <= i < |sleep| => BuildRecord(sleep[i], readiness, activity, cardiovascular, stress))
  }

  /** The organize step together with its `catch`: `sleepData.map` throws when the
      sleep payload is not an array; each `find` throws when its category's payload
      is not an array, but only once the callback runs, that is, when there is at
      least one sleep entry. Every throw is reported as the one generic error. */
  function Organize(sleep: Payload, readiness: Payload, activity: Payload,
                    cardiovascular: Payload, stress: Payload): (r: Result<seq<DailyRecord>>)
    ensures r.Err? <==>
              sleep.Missing? ||
              (|sleep.entries| > 0 &&
               (readiness.Missing? || activity.Missing? || cardiovascular.Missing? || stress.Missing?))
    ensures r.Err? ==> r.message == OrganizeError
    ensures sleep == Data([]) ==> r == Ok([])
    ensures r.Ok? ==> |r.value| == |sleep.entries|
    ensures r.Ok? ==> forall i :: 0 <= i < |sleep.entries| ==> r.value[i].day == sleep.entries[i].day
  {
    match sleep
    case Missing => Err(OrganizeError)
    case Data(s) =>
      if |s| == 0 then Ok([])
      else if readiness.Missing? || activity.Missing? || cardiovascular.Missing? || stress.Missing? then
        Err(OrganizeError)
      else
        Ok(Join(s, readiness.entries, activity.entries, cardiovascular.entries, stress.entries))
  }

  /** `fetchAndOrganizeData`, with the five requests replaced by their outcomes. */
  function FetchAndOrganize(sleep: Response, readiness: Response, activity: Response,
                            cardiovascular: Response, stress: Response): Result<seq<DailyRecord>>
  {
    Organize(FetchData(sleep), FetchData(readiness), FetchData(activity),
             FetchData(cardiovascular), FetchData(stress))
  }

  // ---------------------------------------------------------------------------
  // What a record holds, stated without FindByDay
  // ---------------------------------------------------------------------------

  /** `v` is what a category contributes for day `d` through property `key`: the
      value of the first entry of that day (after `|| 0`), or `0` if no entry
      has that day. */
  ghost predicate FirstMatchValue(entries: seq<Entry>, d: string, key: string, v: int)
  {
    || ((forall j :: 0 <= j < |entries| ==> entries[j].day != d) && v == 0)
    || (exists j :: IsFirstOnDay(entries, d, j) && v == OrZero(Get(entries[j].fields, key)))
  }

  /** At most one value meets FirstMatchValue, so it pins a record field down. */
  lemma FirstMatchValueUnique(entries: seq<Entry>, d: string, key: string, v: int, w: int)
    requires FirstMatchValue(entries, d, key, v) && FirstMatchValue(entries, d, key, w)
    ensures v == w
  {
  }

  lemma LookupMeetsFirstMatchValue(entries: seq<Entry>, d: string, key: string)
    ensures FirstMatchValue(entries, d, key, Lookup(entries, d, key))
  {
  }

  /** Every record of a successful organize step: its day is that of the sleep
      entry at the same position, its seven sleep fields come from that entry's
      contributors and score (`0` when absent or falsy), and each of the other four
      fields is the first-match value of its category for that day. */
  lemma OrganizeRecordSpec(sleep: seq<Entry>, readiness: seq<Entry>, activity: seq<Entry>,
                           cardiovascular: seq<Entry>, stress: seq<Entry>, i: int)
    requires 0 <= i < |sleep|
    ensures Organize(Data(sleep), Data(readiness), Data(activity), Data(cardiovascular), Data(stress)).Ok?
    ensures var rec := Organize(Data(sleep), Data(readiness), Data(activity), Data(cardiovascular), Data(stress)).value[i];
            var s := sleep[i];
            && rec.day == s.day
            && rec.sleepTotal == OrZero(if s.contributors.Some? then Get(s.contributors.value, "total_sleep") else None)
            && rec.sleepDeep == OrZero(if s.contributors.Some? then Get(s.contributors.value, "deep_sleep") else None)
            && rec.sleepRem == OrZero(if s.contributors.Some? then Get(s.contributors.value, "rem_sleep") else None)
            && rec.sleepEfficiency == OrZero(if s.contributors.Some? then Get(s.contributors.value, "efficiency") else None)
            && rec.sleepLatency == OrZero(if s.contributors.Some? then Get(s.contributors.value, "latency") else None)
            && rec.sleepRestfulness == OrZero(if s.contributors.Some? then Get(s.contributors.value, "restfulness") else None)
            && rec.sleepScore == OrZero(Get(s.fields, ScoreKey))
            && FirstMatchValue(readiness, s.day, ScoreKey, rec.readinessScore)
            && FirstMatchValue(activity, s.day, ScoreKey, rec.activityScore)
            && FirstMatchValue(cardiovascular, s.day, VascularAgeKey, rec.cardiovascularAge)
            && FirstMatchValue(stress, s.day, StressHighKey, rec.stressSeconds)
  {
  }

  // ---------------------------------------------------------------------------
  // Days
  // ---------------------------------------------------------------------------

  function Days(sleep: seq<Entry>): set<string>
  {
    set i | 0 <= i < |sleep| :: sleep[i].day
  }

  function RecordDays(out: seq<DailyRecord>): set<string>
  {
    set i | 0 <= i < |out| :: out[i].day
  }

  /** The days of the result are exactly the sleep days: a day found only in the
      readiness, activity, cardiovascular or stress data never appears. */
  lemma OrganizeKeepsSleepDays(sleep: seq<Entry>, readiness: Payload, activity: Payload,
                               cardiovascular: Payload, stress: Payload)
    requires Organize(Data(sleep), readiness, activity, cardiovascular, stress).Ok?
    ensures RecordDays(Organize(Data(sleep), readiness, activity, cardiovascular, stress).value) == Days(sleep)
  {
  }

  // ---------------------------------------------------------------------------
  // Failed fetches
  // ---------------------------------------------------------------------------

  /** A category whose request failed arrives as `[]`: the organize step still
      succeeds, and that category's field is `0` in every record. A failed sleep
      request gives no records at all. */
  lemma FailedFetchDefaultsToZero(sleep: Response, readiness: Response, activity: Response,
                                  cardiovascular: Response, stress: Response)
    requires sleep.Failed? || sleep.body.Data?
    requires readiness.Failed? || readiness.body.Data?
    requires activity.Failed? || activity.body.Data?
    requires cardiovascular.Failed? || cardiovascular.body.Data?
    requires stress.Failed? || stress.body.Data?
    ensures var r := FetchAndOrganize(sleep, readiness, activity, cardiovascular, stress);
            && r.Ok?
            && (sleep.Failed? ==> r.value == [])
            && (readiness.Failed? ==> forall i :: 0 <= i < |r.value| ==> r.value[i].readinessScore == 0)
            && (activity.Failed? ==> forall i :: 0 <= i < |r.value| ==> r.value[i].activityScore == 0)
            && (cardiovascular.Failed? ==> forall i :: 0 <= i < |r.value| ==> r.value[i].cardiovascularAge == 0)
            && (stress.Failed? ==> forall i :: 0 <= i < |r.value| ==> r.value[i].stressSeconds == 0)
  {
  }

  // ---------------------------------------------------------------------------
  // Entries on other days do not matter
  // ---------------------------------------------------------------------------

  /** The entries whose day is one of `days`, in their original order. */
  function OnDays(entries: seq<Entry>, days: set<string>): seq<Entry>
  {
    if entries == [] then []
    else if entries[0].day in days then [entries[0]] + OnDays(entries[1..], days)
    else OnDays(entries[1..], days)
  }

  lemma {:induction false} FindOnDays(entries: seq<Entry>, days: set<string>, d: string)
    requires d in days
    ensures FindByDay(OnDays(entries, days), d) == FindByDay(entries, d)
  {
    if entries != [] {
      FindOnDays(entries[1..], days, d);
      if entries[0].day in days {
        assert OnDays(entries, days) == [entries[0]] + OnDays(entries[1..], days);
        assert ([entries[0]] + OnDays(entries[1..], days))[1..] == OnDays(entries[1..], days);
      }
    }
  }

  /** Adding, removing or reordering entries whose day is not a sleep day, in any
      of the four other categories, leaves the result unchanged: only the entries
      on sleep days, in their relative order, matter. */
  lemma OrganizeIgnoresOtherDays(sleep: seq<Entry>,
                                 readiness: seq<Entry>, readiness': seq<Entry>,
                                 activity: seq<Entry>, activity': seq<Entry>,
                                 cardiovascular: seq<Entry>, cardiovascular': seq<Entry>,
                                 stress: seq<Entry>, stress': seq<Entry>)
    requires OnDays(readiness, Days(sleep)) == OnDays(readiness', Days(sleep))
    requires OnDays(activity, Days(sleep)) == OnDays(activity', Days(sleep))
    requires OnDays(cardiovascular, Days(sleep)) == OnDays(cardiovascular', Days(sleep))
    requires OnDays(stress, Days(sleep)) == OnDays(stress', Days(sleep))
    ensures Organize(Data(sleep), Data(readiness), Data(activity), Data(cardiovascular), Data(stress))
         == Organize(Data(sleep), Data(readiness'), Data(activity'), Data(cardiovascular'), Data(stress'))
  {
    JoinIgnoresOtherDays(sleep, readiness, readiness', activity, activity',
                         cardiovascular, cardiovascular', stress, stress');
    OrganizeOfEqualJoins(sleep, readiness, readiness', activity, activity',
                         cardiovascular, cardiovascular', stress, stress');
  }

  lemma OrganizeOfEqualJoins(sleep: seq<Entry>,
                             readiness: seq<Entry>, readiness': seq<Entry>,
                             activity: seq<Entry>, activity': seq<Entry>,
                             cardiovascular: seq<Entry>, cardiovascular': seq<Entry>,
                             stress: seq<Entry>, stress': seq<Entry>)
    requires Join(sleep, readiness, activity, cardiovascular, stress)
          == Join(sleep, readiness', activity', cardiovascular', stress')
    ensures Organize(Data(sleep), Data(readiness), Data(activity), Data(cardiovascular), Data(stress))
         == Organize(Data(sleep), Data(readiness'), Data(activity'), Data(cardiovascular'), Data(stress'))
  {
  }

  lemma JoinIgnoresOtherDays(sleep: seq<Entry>,
                             readiness: seq<Entry>, readiness': seq<Entry>,
                             activity: seq<Entry>, activity': seq<Entry>,
                             cardiovascular: seq<Entry>, cardiovascular': seq<Entry>,
                             stress: seq<Entry>, stress': seq<Entry>)
    requires OnDays(readiness, Days(sleep)) == OnDays(readiness', Days(sleep))
    requires OnDays(activity, Days(sleep)) == OnDays(activity', Days(sleep))
    requires OnDays(cardiovascular, Days(sleep)) == OnDays(cardiovascular', Days(sleep))
    requires OnDays(stress, Days(sleep)) == OnDays(stress', Days(sleep))
    ensures Join(sleep, readiness, activity, cardiovascular, stress)
         == Join(sleep, readiness', activity', cardiovascular', stress')
  {
    var days := Days(sleep);
    var out := Join(sleep, readiness, activity, cardiovascular, stress);
    var out' := Join(sleep, readiness', activity', cardiovascular', stress');
    forall i | 0 <= i < |sleep|
      ensures BuildRecord(sleep[i], readiness, activity, cardiovascular, stress)
           == BuildRecord(sleep[i], readiness', activity', cardiovascular', stress')
    {
      assert sleep[i].day in days;
      BuildRecordIgnoresOtherDays(sleep[i], days, readiness, readiness', activity, activity',
                                  cardiovascular, cardiovascular', stress, stress');
    }
    assert out == out';
  }

  lemma BuildRecordIgnoresOtherDays(s: Entry, days: set<string>,
                                    readiness: seq<Entry>, readiness': seq<Entry>,
                                    activity: seq<Entry>, activity': seq<Entry>,
                                    cardiovascular: seq<Entry>, cardiovascular': seq<Entry>,
                                    stress: seq<Entry>, stress': seq<Entry>)
    requires s.day in days
    requires OnDays(readiness, days) == OnDays(readiness', days)
    requires OnDays(activity, days) == OnDays(activity', days)
    requires OnDays(cardiovascular, days) == OnDays(cardiovascular', days)
    requires OnDays(stress, days) == OnDays(stress', days)
    ensures BuildRecord(s, readiness, activity, cardiovascular, stress)
         == BuildRecord(s, readiness', activity', cardiovascular', stress')
  {
    LookupOnDays(readiness, readiness', days, s.day, ScoreKey);
    LookupOnDays(activity, activity', days, s.day, ScoreKey);
    LookupOnDays(cardiovascular, cardiovascular', days, s.day, VascularAgeKey);
    LookupOnDays(stress, stress', days, s.day, StressHighKey);
  }

  lemma LookupOnDays(entries: seq<Entry>, entries': seq<Entry>, days: set<string>, d: string, key: string)
    requires OnDays(entries, days) == OnDays(entries', days)
    requires d in days
    ensures Lookup(entries, d, key) == Lookup(entries', d, key)
  {
    FindOnDays(entries, days, d);
    FindOnDays(entries', days, d);
  }

  /** Entries on days outside `days` are exactly what OnDays drops, wherever
      they are inserted. */
  lemma {:induction false} OnDaysDropsOtherDays(front: seq<Entry>, extra: seq<Entry>, back: seq<Entry>, days: set<string>)
    requires forall j :: 0 <= j < |extra| ==> extra[j].day !in days
    ensures OnDays(front + extra + back, days) == OnDays(front + back, days)
  {
    if front == [] {
      assert front + extra + back == extra + back;
      assert front + back == back;
      OnDaysSkips(extra, back, days);
    } else {
      OnDaysDropsOtherDays(front[1..], extra, back, days);
      assert (front + extra + back)[1..] == front[1..] + extra + back;
      assert (front + back)[1..] == front[1..] + back;
    }
  }

  lemma {:induction false} OnDaysSkips(extra: seq<Entry>, back: seq<Entry>, days: set<string>)
    requires forall j :: 0 <= j < |extra| ==> extra[j].day !in days
    ensures OnDays(extra + back, days) == OnDays(back, days)
  {
    if extra != [] {
      assert (extra + back)[0] == extra[0] && extra[0].day !in days;
      assert (extra + back)[1..] == extra[1..] + back;
      assert OnDays(extra + back, days) == OnDays(extra[1..] + back, days);
      OnDaysSkips(extra[1..], back, days);
    } else {
      assert extra + back == back;
    }
  }

  // ---------------------------------------------------------------------------
  // The keyed-lookup formulation: one index per category, built once
  // ---------------------------------------------------------------------------

  /** Day -> first entry of that day. Later entries are inserted first, so an
      earlier entry of the same day overrides them. */
  function FirstByDay(entries: seq<Entry>): (index: map<string, Entry>)
    ensures forall d :: d in index ==> index[d].day == d
  {
    if entries == [] then map[]
    else FirstByDay(entries[1..])[entries[0].day := entries[0]]
  }

  /** A linear `find` and a lookup in the index give the same answer. */
  lemma {:induction false} FindAgreesWithIndex(entries: seq<Entry>, d: string)
    ensures FindByDay(entries, d) == if d in FirstByDay(entries) then Some(FirstByDay(entries)[d]) else None
  {
    if entries != [] {
      FindAgreesWithIndex(entries[1..], d);
    }
  }

  function LookupIn(index: map<string, Entry>, d: string, key: string): int
  {
    OrZero(if d in index then Get(index[d].fields, key) else None)
  }

  /** The join written against the four indexes. */
  function JoinIndexed(sleep: seq<Entry>, readiness: map<string, Entry>, activity: map<string, Entry>,
                       cardiovascular: map<string, Entry>, stress: map<string, Entry>): seq<DailyRecord>
  {
    seq(|sleep|, i requires 0 <= i < |sleep| =>
      var d := sleep[i].day;
      RecordFor(sleep[i], LookupIn(readiness, d, ScoreKey), LookupIn(activity, d, ScoreKey),
                LookupIn(cardiovascular, d, VascularAgeKey), LookupIn(stress, d, StressHighKey)))
  }

  /** Replacing the repeated linear scans by indexes built once per category
      computes the same records. */
  lemma JoinAgreesWithIndexedJoin(sleep: seq<Entry>, readiness: seq<Entry>, activity: seq<Entry>,
                                  cardiovascular: seq<Entry>, stress: seq<Entry>)
    ensures Join(sleep, readiness, activity, cardiovascular, stress)
         == JoinIndexed(sleep, FirstByDay(readiness), FirstByDay(activity),
                        FirstByDay(cardiovascular), FirstByDay(stress))
  {
    var out := Join(sleep, readiness, activity, cardiovascular, stress);
    var out' := JoinIndexed(sleep, FirstByDay(readiness), FirstByDay(activity),
                            FirstByDay(cardiovascular), FirstByDay(stress));
    forall i | 0 <= i < |sleep| ensures out[i] == out'[i] {
      var d := sleep[i].day;
      FindAgreesWithIndex(readiness, d);
      FindAgreesWithIndex(activity, d);
      FindAgreesWithIndex(cardiovascular, d);
      FindAgreesWithIndex(stress, d);
    }
  }

  // ---------------------------------------------------------------------------
  // Worked scenarios
  // ---------------------------------------------------------------------------

  /** One sleep entry with all six contributors and every other category empty:
      the six sleep fields and the score are filled in, the other four are `0`. */
  lemma SingleSleepDayScenario()
    ensures
      var contributors := map["total_sleep" := 80, "deep_sleep" := 20, "rem_sleep" := 15,
                              "efficiency" := 90, "latency" := 5, "restfulness" := 60];
      var s := Entry("2025-01-16", map["score" := 70], Some(contributors));
      Organize(Data([s]), Data([]), Data([]), Data([]), Data([]))
        == Ok([DailyRecord("2025-01-16", 80, 20, 15, 90, 5, 60, 70, 0, 0, 0, 0)])
  {
    var contributors := map["total_sleep" := 80, "deep_sleep" := 20, "rem_sleep" := 15,
                            "efficiency" := 90, "latency" := 5, "restfulness" := 60];
    var s := Entry("2025-01-16", map["score" := 70], Some(contributors));
    var out := Join([s], [], [], [], []);
    assert out[0] == BuildRecord(s, [], [], [], []);
    assert Contributor(s, "total_sleep") == 80;
    assert Contributor(s, "deep_sleep") == 20;
    assert Contributor(s, "rem_sleep") == 15;
    assert Contributor(s, "efficiency") == 90;
    assert Contributor(s, "latency") == 5;
    assert Contributor(s, "restfulness") == 60;
    assert out == [DailyRecord("2025-01-16", 80, 20, 15, 90, 5, 60, 70, 0, 0, 0, 0)];
  }

  /** A readiness entry of the same day with score 87 gives readiness_score 87,
      even when a later readiness entry repeats the day. */
  lemma ReadinessScenario()
    ensures
      var s := Entry("2025-01-16", map[], None);
      var r1 := Entry("2025-01-15", map["score" := 55], None);
      var r2 := Entry("2025-01-16", map["score" := 87], None);
      var r3 := Entry("2025-01-16", map["score" := 12], None);
      Organize(Data([s]), Data([r1, r2, r3]), Data([]), Data([]), Data([]))
        == Ok([DailyRecord("2025-01-16", 0, 0, 0, 0, 0, 0, 0, 87, 0, 0, 0)])
  {
    var r1 := Entry("2025-01-15", map["score" := 55], None);
    var r2 := Entry("2025-01-16", map["score" := 87], None);
    var r3 := Entry("2025-01-16", map["score" := 12], None);
    var s := Entry("2025-01-16", map[], None);
    assert [r1, r2, r3][1..] == [r2, r3];
    assert FindByDay([r1, r2, r3], "2025-01-16") == Some(r2);
    var out := Join([s], [r1, r2, r3], [], [], []);
    assert out[0] == BuildRecord(s, [r1, r2, r3], [], [], []);
    assert out == [DailyRecord("2025-01-16", 0, 0, 0, 0, 0, 0, 0, 87, 0, 0, 0)];
  }
}
