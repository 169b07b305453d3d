/** The live-train side: the refresh cycle that mirrors the live snapshot into
    the train store, and the search and listing endpoints over that store. */
module Trains {
  import opened Common
  import opened Gtfs

  /** A parsed live train. The store keys its records by id. */
  datatype Train = Train(id: string, number: int, name: string, railroad: string, nextStation: string,
                         arrivalEpoch: int, scheduledArrival: Option<string>)

  /** The collaborators the refresh cycle calls but whose code is not modelled:
      the "hh:mm a" rendering of an epoch second in a zone, and the element the
      station lookup's hash set hands out first. */
  datatype Clock = Clock(formatEpoch: (int, string) -> string, pick: set<Station> -> Station)

  /** Reading the snapshot failed (an I/O or URI error). */
  datatype FetchError = FetchError

  /** The store operations, in the order they were issued. */
  datatype StoreCall = MarkAllInactive | Upsert(id: string) | DeleteInactive

  /** The store queries the search endpoint uses; their matching rules live in
      the store and are not modelled. */
  datatype Queries = Queries(byName: string -> seq<Train>, byNumber: int -> seq<Train>,
                             byRailroad: string -> seq<Train>)

  // ---------------------------------------------------------------------
  // Refresh cycle specification

  /** A train as the cycle hands it to the store: None when no station code
      contains the next-station code, otherwise the train with its scheduled
      arrival rendered in the zone of the station the lookup hands out. */
  function Scheduled(t: Train, stations: seq<Station>, clock: Clock): Option<Train> {
    var found := StationsByCode(stations, t.nextStation);
    if found == {} then None
    else Some(t.(scheduledArrival := Some(clock.formatEpoch(t.arrivalEpoch, clock.pick(found).timeZone))))
  }

  /** When the lookup's set hands out one of its own elements, a scheduled
      arrival is rendered in the zone of a station whose code contains the
      train's next-station code. */
  lemma ScheduledZoneOfMatch(t: Train, stations: seq<Station>, clock: Clock)
    requires forall found: set<Station> :: found != {} ==> clock.pick(found) in found
    ensures Scheduled(t, stations, clock).Some? ==>
      exists s :: s in stations && ContainsIgnoreCase(s.code, t.nextStation) &&
        Scheduled(t, stations, clock).value.scheduledArrival == Some(clock.formatEpoch(t.arrivalEpoch, s.timeZone))
  {
    var found := StationsByCode(stations, t.nextStation);
    if found != {} {
      var s := clock.pick(found);
      assert s in found;
    }
  }

  /** The trains passed to addTrain, in snapshot order. */
  function Upserts(snapshot: seq<Train>, stations: seq<Station>, clock: Clock): (r: seq<Train>)
    ensures |r| <= |snapshot|
    decreases |snapshot|
  {
    if snapshot == [] then []
    else
      var prefix := Upserts(snapshot[..|snapshot| - 1], stations, clock);
      match Scheduled(snapshot[|snapshot| - 1], stations, clock)
      case None => prefix
      case Some(t) => prefix + [t]
  }

  /** The response list of the update endpoint: every snapshot train, scheduled
      when its lookup succeeded and as parsed otherwise. */
  function Responses(snapshot: seq<Train>, stations: seq<Station>, clock: Clock): (r: seq<Train>)
    decreases |snapshot|
  {
    if snapshot == [] then []
    else
      var t := snapshot[|snapshot| - 1];
      Responses(snapshot[..|snapshot| - 1], stations, clock)
        + [match Scheduled(t, stations, clock) case None => t case Some(s) => s]
  }

  /** The ids of the given trains. */
  function Ids(trains: seq<Train>): set<string>
    decreases |trains|
  {
    if trains == [] then {} else Ids(trains[..|trains| - 1]) + {trains[|trains| - 1].id}
  }

  /** The store after a sequence of upserts: each one replaces the record with its id. */
  function ApplyUpserts(m: map<string, Train>, ups: seq<Train>): map<string, Train>
    decreases |ups|
  {
    if ups == [] then m
    else ApplyUpserts(m, ups[..|ups| - 1])[ups[|ups| - 1].id := ups[|ups| - 1]]
  }

  /** The addTrain calls for the given upserts, in order. */
  function UpsertCalls(ups: seq<Train>): (r: seq<StoreCall>)
    decreases |ups|
  {
    if ups == [] then [] else UpsertCalls(ups[..|ups| - 1]) + [Upsert(ups[|ups| - 1].id)]
  }

  /** The store calls one cycle issues: one mark, the upserts, one delete. */
  function CycleCalls(ups: seq<Train>): seq<StoreCall> {
    [MarkAllInactive] + UpsertCalls(ups) + [DeleteInactive]
  }

  /** The records whose ids are in keep. */
  function Restrict(m: map<string, Train>, keep: set<string>): map<string, Train> {
    map id | id in m && id in keep :: m[id]
  }

  /** The store's contents as one value: records, active ids and the calls made. */
  datatype StoreState = StoreState(trains: map<string, Train>, active: set<string>, calls: seq<StoreCall>)

  /** The store after one upsert. */
  function Upserted(st: StoreState, t: Train): StoreState {
    StoreState(st.trains[t.id := t], st.active + {t.id}, st.calls + [Upsert(t.id)])
  }

  /** The store after a sequence of upserts. */
  function AfterUpserts(st: StoreState, ups: seq<Train>): StoreState {
    StoreState(ApplyUpserts(st.trains, ups), st.active + Ids(ups), st.calls + UpsertCalls(ups))
  }

  // ---------------------------------------------------------------------
  // The store

  /** TrainService's store: records by id, the ids currently marked active,
      and (as ghost state) the calls made on it. */
  class TrainStore {
    var trains: map<string, Train>
    var active: set<string>
    ghost var calls: seq<StoreCall>

    predicate Valid()
      reads this
    {
      active <= trains.Keys
    }

    ghost function State(): StoreState
      reads this
    {
      StoreState(trains, active, calls)
    }

    constructor ()
      ensures Valid() && trains == map[] && active == {} && calls == []
    {
      trains, active, calls := map[], {}, [];
    }

    method SetAllInactive()
      requires Valid()
      modifies this
      ensures Valid()
      ensures trains == old(trains) && active == {} && calls == old(calls) + [MarkAllInactive]
    {
      active := {};
      calls := calls + [MarkAllInactive];
    }

    /** Upsert, as active. */
    method AddTrain(t: Train)
      requires Valid()
      modifies this
      ensures Valid()
      ensures trains == old(trains)[t.id := t] && active == old(active) + {t.id}
      ensures calls == old(calls) + [Upsert(t.id)]
    {
      trains := trains[t.id := t];
      active := active + {t.id};
      calls := calls + [Upsert(t.id)];
    }

    method DeleteInactiveTrains()
      requires Valid()
      modifies this
      ensures Valid()
      ensures trains == Restrict(old(trains), old(active)) && active == old(active)
      ensures trains.Keys == active
      ensures calls == old(calls) + [DeleteInactive]
    {
      trains := Restrict(trains, active);
      calls := calls + [DeleteInactive];
    }
  }

  // ---------------------------------------------------------------------
  // The two refresh entry points

  /** The loop both entry points share: every snapshot train whose station
      lookup succeeds is scheduled and upserted, in order; the response list
      gets every train. */
  method UpsertSnapshot(store: TrainStore, snapshot: seq<Train>, stations: seq<Station>, clock: Clock)
    returns (responses: seq<Train>)
    requires store.Valid()
    modifies store
    ensures store.Valid()
    ensures responses == Responses(snapshot, stations, clock)
    ensures var ups := Upserts(snapshot, stations, clock);
      && store.trains == ApplyUpserts(old(store.trains), ups)
      && store.active == old(store.active) + Ids(ups)
      && store.calls == old(store.calls) + UpsertCalls(ups)
  {
    ghost var start := store.State();
    assert AfterUpserts(start, []) == start;
    responses := [];
    var i := 0;
    while i < |snapshot|
      invariant 0 <= i <= |snapshot|
      invariant responses == Responses(snapshot[..i], stations, clock)
      invariant store.Valid() && store.State() == AfterUpserts(start, Upserts(snapshot[..i], stations, clock))
    {
      var response := UpsertStep(store, snapshot, i, stations, clock, start);
      responses := responses + [response];
      i := i + 1;
    }
    assert snapshot[..i] == snapshot;
  }

  /** One turn of the loop: the next snapshot train is scheduled and upserted. */
  method UpsertStep(store: TrainStore, snapshot: seq<Train>, i: nat, stations: seq<Station>, clock: Clock,
                    ghost start: StoreState)
    returns (response: Train)
    requires i < |snapshot|
    requires store.Valid() && store.State() == AfterUpserts(start, Upserts(snapshot[..i], stations, clock))
    modifies store
    ensures store.Valid() && store.State() == AfterUpserts(start, Upserts(snapshot[..i + 1], stations, clock))
    ensures Responses(snapshot[..i + 1], stations, clock) == Responses(snapshot[..i], stations, clock) + [response]
  {
    SnapshotStep(snapshot, i, stations, clock);
    ghost var ups := Upserts(snapshot[..i], stations, clock);
    ghost var before := store.State();
    response := ScheduleAndUpsert(store, snapshot[i], stations, clock);
    if Scheduled(snapshot[i], stations, clock).Some? {
      AfterUpsertsAppend(start, ups, response);
      assert Upserts(snapshot[..i + 1], stations, clock) == ups + [response];
      assert store.State() == Upserted(before, response);
    } else {
      assert Upserts(snapshot[..i + 1], stations, clock) == ups;
      assert store.State() == before;
    }
  }

  /** The loop body: look up the next station; on success set the scheduled
      arrival and upsert the train. */
  method ScheduleAndUpsert(store: TrainStore, train: Train, stations: seq<Station>, clock: Clock)
    returns (response: Train)
    requires store.Valid()
    modifies store
    ensures store.Valid()
    ensures Scheduled(train, stations, clock).None? ==>
      && response == train
      && store.trains == old(store.trains) && store.active == old(store.active) && store.calls == old(store.calls)
    ensures Scheduled(train, stations, clock).Some? ==> var t := Scheduled(train, stations, clock).value;
      && response == t
      && store.trains == old(store.trains)[t.id := t] && store.active == old(store.active) + {t.id}
      && store.calls == old(store.calls) + [Upsert(t.id)]
  {
    var found := StationsByCode(stations, train.nextStation);
    if found == {} {
      return train;
    }
    var station := clock.pick(found);
    response := train.(scheduledArrival := Some(clock.formatEpoch(train.arrivalEpoch, station.timeZone)));
    store.AddTrain(response);
  }

  /** How one more snapshot train extends the upserts and the responses. */
  lemma SnapshotStep(snapshot: seq<Train>, i: nat, stations: seq<Station>, clock: Clock)
    requires i < |snapshot|
    ensures var t := snapshot[i];
      && Upserts(snapshot[..i + 1], stations, clock)
         == Upserts(snapshot[..i], stations, clock)
            + (match Scheduled(t, stations, clock) case None => [] case Some(s) => [s])
      && Responses(snapshot[..i + 1], stations, clock)
         == Responses(snapshot[..i], stations, clock)
            + [match Scheduled(t, stations, clock) case None => t case Some(s) => s]
  {
    assert snapshot[..i + 1][..i] == snapshot[..i];
  }

  lemma UpsertAppend(m: map<string, Train>, ups: seq<Train>, t: Train)
    ensures Ids(ups + [t]) == Ids(ups) + {t.id}
    ensures UpsertCalls(ups + [t]) == UpsertCalls(ups) + [Upsert(t.id)]
    ensures ApplyUpserts(m, ups + [t]) == ApplyUpserts(m, ups)[t.id := t]
  {
    assert (ups + [t])[..|ups|] == ups;
  }

  /** One more upsert at the end is one more step of the store. */
  lemma AfterUpsertsAppend(st: StoreState, ups: seq<Train>, t: Train)
    ensures AfterUpserts(st, ups + [t]) == Upserted(AfterUpserts(st, ups), t)
  {
    UpsertAppend(st.trains, ups, t);
    assert st.active + (Ids(ups) + {t.id}) == (st.active + Ids(ups)) + {t.id};
    assert st.calls + (UpsertCalls(ups) + [Upsert(t.id)]) == (st.calls + UpsertCalls(ups)) + [Upsert(t.id)];
  }

  /** TrainAPIUpdate.updateTrains: a failed fetch leaves the store untouched;
      otherwise one cycle runs (mark all inactive, upsert, delete inactive). */
  method UpdateTrains(store: TrainStore, fetched: Result<seq<Train>, FetchError>, stations: seq<Station>,
                      clock: Clock)
    requires store.Valid()
    modifies store
    ensures store.Valid()
    ensures fetched.Err? ==>
      store.trains == old(store.trains) && store.active == old(store.active) && store.calls == old(store.calls)
    ensures fetched.Ok? ==> var ups := Upserts(fetched.value, stations, clock);
      && store.trains == Restrict(ApplyUpserts(old(store.trains), ups), Ids(ups))
      && store.active == Ids(ups)
      && store.calls == old(store.calls) + CycleCalls(ups)
  {
    if fetched.Err? {
      return;
    }
    var snapshot := fetched.value;
    store.SetAllInactive();
    var _ := UpsertSnapshot(store, snapshot, stations, clock);
    store.DeleteInactiveTrains();
  }

  /** TrainController.updateAllTrains: the same cycle, returning every snapshot
      train; a failed fetch is returned before the store is touched. */
  method UpdateAllTrains(store: TrainStore, fetched: Result<seq<Train>, FetchError>, stations: seq<Station>,
                         clock: Clock) returns (r: Result<seq<Train>, FetchError>)
    requires store.Valid()
    modifies store
    ensures store.Valid()
    ensures fetched.Err? ==>
      && r == fetched
      && store.trains == old(store.trains) && store.active == old(store.active) && store.calls == old(store.calls)
    ensures fetched.Ok? ==> var ups := Upserts(fetched.value, stations, clock);
      && r == Ok(Responses(fetched.value, stations, clock))
      && store.trains == Restrict(ApplyUpserts(old(store.trains), ups), Ids(ups))
      && store.active == Ids(ups)
      && store.calls == old(store.calls) + CycleCalls(ups)
  {
    var snapshot :- fetched;
    store.SetAllInactive();
    var responses := UpsertSnapshot(store, snapshot, stations, clock);
    store.DeleteInactiveTrains();
    return Ok(responses);
  }

  // ---------------------------------------------------------------------
  // Properties of the cycle

  lemma {:induction false} ApplyUpsertsKeys(m: map<string, Train>, ups: seq<Train>)
    ensures ApplyUpserts(m, ups).Keys == m.Keys + Ids(ups)
    decreases |ups|
  {
    if ups != [] {
      var init := ups[..|ups| - 1];
      ApplyUpsertsKeys(m, init);
      assert ups == init + [ups[|ups| - 1]];
      assert Ids(ups) == Ids(init) + {ups[|ups| - 1].id};
    }
  }

  /** The record an upserted id ends with is the last upsert with that id,
      whatever the store held before. */
  lemma {:induction false} LastUpsertWins(m: map<string, Train>, ups: seq<Train>, j: nat)
    requires j < |ups|
    requires forall k :: j < k < |ups| ==> ups[k].id != ups[j].id
    ensures ups[j].id in ApplyUpserts(m, ups) && ApplyUpserts(m, ups)[ups[j].id] == ups[j]
    decreases |ups|
  {
    if j < |ups| - 1 {
      LastUpsertWins(m, ups[..|ups| - 1], j);
    }
  }

  /** Upserted ids do not depend on the store they are applied to. */
  lemma {:induction false} UpsertedValuesIndependent(m1: map<string, Train>, m2: map<string, Train>, ups: seq<Train>,
                                                    id: string)
    requires id in Ids(ups)
    ensures id in ApplyUpserts(m1, ups) && id in ApplyUpserts(m2, ups)
    ensures ApplyUpserts(m1, ups)[id] == ApplyUpserts(m2, ups)[id]
    decreases |ups|
  {
    var init := ups[..|ups| - 1];
    var last := ups[|ups| - 1];
    if id != last.id {
      UpsertedValuesIndependent(m1, m2, init, id);
    }
  }

  /** After a cycle the store holds exactly the upserted trains, each as its
      last upsert, and nothing from before the cycle survives: the outcome is
      the same whatever the store held. */
  lemma CycleOutcome(m: map<string, Train>, ups: seq<Train>)
    ensures Restrict(ApplyUpserts(m, ups), Ids(ups)) == ApplyUpserts(map[], ups)
    ensures ApplyUpserts(map[], ups).Keys == Ids(ups)
  {
    ApplyUpsertsKeys(m, ups);
    ApplyUpsertsKeys(map[], ups);
    forall id | id in Ids(ups)
      ensures ApplyUpserts(m, ups)[id] == ApplyUpserts(map[], ups)[id]
    {
      UpsertedValuesIndependent(m, map[], ups, id);
    }
  }

  /** An id is upserted exactly when some snapshot train with that id has a
      next-station code that some station code contains. */
  lemma {:induction false} UpsertedIds(snapshot: seq<Train>, stations: seq<Station>, clock: Clock, id: string)
    ensures id in Ids(Upserts(snapshot, stations, clock)) <==>
      exists i :: 0 <= i < |snapshot| && snapshot[i].id == id && StationsByCode(stations, snapshot[i].nextStation) != {}
    decreases |snapshot|
  {
    if snapshot != [] {
      var init := snapshot[..|snapshot| - 1];
      var last := snapshot[|snapshot| - 1];
      UpsertedIds(init, stations, clock, id);
      var prefix := Upserts(init, stations, clock);
      match Scheduled(last, stations, clock)
      case None =>
      case Some(t) =>
        assert Ids(prefix + [t]) == Ids(prefix) + {t.id};
      if exists i :: 0 <= i < |snapshot| && snapshot[i].id == id && StationsByCode(stations, snapshot[i].nextStation) != {} {
        var i :| 0 <= i < |snapshot| && snapshot[i].id == id && StationsByCode(stations, snapshot[i].nextStation) != {};
        if i < |snapshot| - 1 {
          assert init[i] == snapshot[i];
        }
      }
    }
  }

  /** Every upserted train carries a scheduled arrival and comes from a
      snapshot train with the same id, number and next station. */
  lemma {:induction false} UpsertsScheduled(snapshot: seq<Train>, stations: seq<Station>, clock: Clock)
    ensures forall t :: t in Upserts(snapshot, stations, clock) ==>
      t.scheduledArrival.Some? &&
      exists s :: s in snapshot && s.id == t.id && s.number == t.number && s.nextStation == t.nextStation
    decreases |snapshot|
  {
    if snapshot != [] {
      var init := snapshot[..|snapshot| - 1];
      UpsertsScheduled(init, stations, clock);
      forall t | t in Upserts(snapshot, stations, clock)
        ensures t.scheduledArrival.Some? &&
          exists s :: s in snapshot && s.id == t.id && s.number == t.number && s.nextStation == t.nextStation
      {
        if t in Upserts(init, stations, clock) {
          var s :| s in init && s.id == t.id && s.number == t.number && s.nextStation == t.nextStation;
          assert s in snapshot;
        } else {
          assert snapshot[|snapshot| - 1] in snapshot;
        }
      }
    }
  }

  /** A train whose lookup fails, and which has no other snapshot entry whose
      lookup succeeds, is not in the store after the cycle, even if it was
      stored before. */
  lemma SkippedTrainRemoved(m: map<string, Train>, snapshot: seq<Train>, stations: seq<Station>, clock: Clock,
                            id: string)
    requires forall i :: 0 <= i < |snapshot| && snapshot[i].id == id ==>
      StationsByCode(stations, snapshot[i].nextStation) == {}
    ensures id !in Restrict(ApplyUpserts(m, Upserts(snapshot, stations, clock)), Ids(Upserts(snapshot, stations, clock)))
  {
    UpsertedIds(snapshot, stations, clock, id);
  }

  /** Replaying a snapshot: a second cycle over the same snapshot leaves the
      store exactly as the first one did. */
  lemma CycleReplay(m: map<string, Train>, snapshot: seq<Train>, stations: seq<Station>, clock: Clock)
    ensures var ups := Upserts(snapshot, stations, clock);
      var once := Restrict(ApplyUpserts(m, ups), Ids(ups));
      Restrict(ApplyUpserts(once, ups), Ids(ups)) == once
  {
    var ups := Upserts(snapshot, stations, clock);
    CycleOutcome(m, ups);
    CycleOutcome(Restrict(ApplyUpserts(m, ups), Ids(ups)), ups);
  }

  /** One cycle's calls: the mark comes first and only once, the delete last
      and only once, and every call between is an upsert. */
  lemma CycleCallOrder(ups: seq<Train>)
    ensures var c := CycleCalls(ups);
      && |c| == |ups| + 2
      && c[0] == MarkAllInactive && c[|c| - 1] == DeleteInactive
      && forall i :: 0 < i < |c| - 1 ==> c[i] == Upsert(ups[i - 1].id)
  {
    UpsertCallsShape(ups);
  }

  /** One addTrain call per upsert, in upsert order. */
  lemma {:induction false} UpsertCallsShape(ups: seq<Train>)
    ensures |UpsertCalls(ups)| == |ups|
    ensures forall i :: 0 <= i < |ups| ==> UpsertCalls(ups)[i] == Upsert(ups[i].id)
    decreases |ups|
  {
    if ups != [] {
      UpsertCallsShape(ups[..|ups| - 1]);
    }
  }

  /** The response list has one entry per snapshot train, in order: a train
      whose lookup fails appears as parsed, any other one scheduled. */
  lemma {:induction false} ResponsesCoverSnapshot(snapshot: seq<Train>, stations: seq<Station>, clock: Clock)
    ensures var r := Responses(snapshot, stations, clock);
      && |r| == |snapshot|
      && forall i :: 0 <= i < |snapshot| ==>
           r[i] == (if StationsByCode(stations, snapshot[i].nextStation) == {} then snapshot[i]
                    else Scheduled(snapshot[i], stations, clock).value)
    decreases |snapshot|
  {
    if snapshot != [] {
      var init := snapshot[..|snapshot| - 1];
      ResponsesCoverSnapshot(init, stations, clock);
      var r := Responses(snapshot, stations, clock);
      forall i | 0 <= i < |snapshot|
        ensures r[i] == (if StationsByCode(stations, snapshot[i].nextStation) == {} then snapshot[i]
                         else Scheduled(snapshot[i], stations, clock).value)
      {
        if i < |snapshot| - 1 {
          assert init[i] == snapshot[i];
        }
      }
    }
  }

  // ---------------------------------------------------------------------
  // Ordering by train number (a stable sort, as List.sort is)

  predicate SortedByNumber(s: seq<Train>) {
    forall i, j :: 0 <= i < j < |s| ==> s[i].number <= s[j].number
  }

  /** The trains with the given number, in their order in s. */
  function OfNumber(s: seq<Train>, n: int): seq<Train> {
    if s == [] then [] else (if s[0].number == n then [s[0]] else []) + OfNumber(s[1..], n)
  }

  /** Inserts t ahead of the first train whose number is not smaller. */
  function Insert(t: Train, s: seq<Train>): seq<Train> {
    if s == [] || t.number <= s[0].number then [t] + s else [s[0]] + Insert(t, s[1..])
  }

  function SortByNumber(s: seq<Train>): seq<Train> {
    if s == [] then [] else Insert(s[0], SortByNumber(s[1..]))
  }

  lemma {:induction false} InsertPermutes(t: Train, s: seq<Train>)
    ensures multiset(Insert(t, s)) == multiset(s) + multiset{t}
  {
    if s != [] && t.number > s[0].number {
      InsertPermutes(t, s[1..]);
      assert s == [s[0]] + s[1..];
    }
  }

  lemma {:induction false} InsertSorted(t: Train, s: seq<Train>)
    requires SortedByNumber(s)
    ensures SortedByNumber(Insert(t, s))
  {
    if s != [] && t.number > s[0].number {
      InsertSorted(t, s[1..]);
      var rest := Insert(t, s[1..]);
      InsertPermutes(t, s[1..]);
      forall j | 0 <= j < |rest|
        ensures s[0].number <= rest[j].number
      {
        assert rest[j] in multiset(rest);
        if rest[j] != t {
          assert rest[j] in multiset(s[1..]);
          var k :| 0 <= k < |s[1..]| && s[1..][k] == rest[j];
          assert s[k + 1] == rest[j];
        }
      }
    }
  }

  lemma OfNumberCons(x: Train, rest: seq<Train>, n: int)
    ensures OfNumber([x] + rest, n) == (if x.number == n then [x] else []) + OfNumber(rest, n)
  {
    assert ([x] + rest)[1..] == rest;
  }

  /** Insertion puts t ahead of every train with its number. */
  lemma {:induction false} InsertStable(t: Train, s: seq<Train>, n: int)
    ensures OfNumber(Insert(t, s), n) == (if t.number == n then [t] else []) + OfNumber(s, n)
  {
    if s == [] || t.number <= s[0].number {
      OfNumberCons(t, s, n);
    } else {
      var tail := Insert(t, s[1..]);
      InsertStable(t, s[1..], n);
      OfNumberCons(s[0], tail, n);
      OfNumberCons(s[0], s[1..], n);
      assert s == [s[0]] + s[1..];
      var a := if s[0].number == n then [s[0]] else [];
      var b := if t.number == n then [t] else [];
      if s[0].number == n {
        assert t.number != n;
      }
      assert a + (b + OfNumber(s[1..], n)) == b + (a + OfNumber(s[1..], n));
    }
  }

  /** The sort orders by number, keeps every train as often as it occurs, and
      keeps trains with equal numbers in their original order. */
  lemma {:induction false} SortByNumberCorrect(s: seq<Train>)
    ensures SortedByNumber(SortByNumber(s))
    ensures multiset(SortByNumber(s)) == multiset(s)
    ensures forall n :: OfNumber(SortByNumber(s), n) == OfNumber(s, n)
  {
    if s != [] {
      SortByNumberCorrect(s[1..]);
      InsertSorted(s[0], SortByNumber(s[1..]));
      InsertPermutes(s[0], SortByNumber(s[1..]));
      assert s == [s[0]] + s[1..];
      forall n
        ensures OfNumber(SortByNumber(s), n) == OfNumber(s, n)
      {
        InsertStable(s[0], SortByNumber(s[1..]), n);
      }
    }
  }

  // ---------------------------------------------------------------------
  // Listing and search

  /** getAllTrains: the store's listing, sorted by number. */
  method GetAllTrains(listing: seq<Train>) returns (r: seq<Train>)
    ensures SortedByNumber(r) && multiset(r) == multiset(listing)
    ensures forall n :: OfNumber(r, n) == OfNumber(listing, n)
  {
    r := SortByNumber(listing);
    SortByNumberCorrect(listing);
  }

  /** The number search, attempted only for a query that parseInt accepts. */
  function NumberResults(q: Queries, query: string): (r: seq<Train>) {
    match ParseInt(query)
    case None => []
    case Some(n) => q.byNumber(n)
  }

  /** The unsorted result of search: the name results, or the railroad results
      when both the name and the number results are empty, followed by the
      number results. */
  function Merged(q: Queries, query: string): seq<Train> {
    var numbers := NumberResults(q, query);
    (if q.byName(query) == [] && numbers == [] then q.byRailroad(query) else q.byName(query)) + numbers
  }

  /** search. */
  method Search(q: Queries, query: string) returns (r: seq<Train>)
    ensures SortedByNumber(r) && multiset(r) == multiset(Merged(q, query))
    ensures forall n :: OfNumber(r, n) == OfNumber(Merged(q, query), n)
  {
    var parsedTrains := q.byName(query);
    var numberResults: seq<Train>;
    var number := ParseInt(query);
    if number.Some? {
      numberResults := q.byNumber(number.value);
    } else {
      numberResults := [];
    }
    if parsedTrains == [] && numberResults == [] {
      parsedTrains := q.byRailroad(query);
    }
    parsedTrains := parsedTrains + numberResults;
    r := SortByNumber(parsedTrains);
    SortByNumberCorrect(parsedTrains);
  }

  /** The railroad search contributes exactly when the name and number searches
      both find nothing, and then it is the whole result; a query parseInt
      rejects gets no number results. */
  lemma MergedFallback(q: Queries, query: string)
    ensures ParseInt(query).None? ==> NumberResults(q, query) == []
    ensures q.byName(query) == [] && NumberResults(q, query) == [] ==> Merged(q, query) == q.byRailroad(query)
    ensures q.byName(query) != [] || NumberResults(q, query) != [] ==>
      Merged(q, query) == q.byName(query) + NumberResults(q, query)
  {
  }
}
