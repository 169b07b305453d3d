/** Station timeboards: each scheduled stop at a station is matched against
    the real-time trip updates of a GTFS Realtime feed, one row per matching
    entity, and the rows are sorted once at the end. */
module Timeboard {
  import opened Common
  import opened Gtfs
  import ScheduleTime

  /** GTFS Realtime TripUpdate.StopTimeEvent: the predicted epoch second and the
      delay in seconds (0 when the feed leaves it out). */
  datatype StopTimeEvent = StopTimeEvent(time: int, delay: int)

  /** GTFS Realtime TripUpdate.StopTimeUpdate. */
  datatype StopTimeUpdate = StopTimeUpdate(arrival: Option<StopTimeEvent>, departure: Option<StopTimeEvent>)

  /** GTFS Realtime TripUpdate: the trip id of its trip descriptor and its
      stop-time updates, in feed order. */
  datatype TripUpdate = TripUpdate(tripId: string, updates: seq<StopTimeUpdate>)

  /** GTFS Realtime FeedEntity, of which only the trip update is read. */
  datatype FeedEntity = FeedEntity(tripUpdate: Option<TripUpdate>)

  /** One line of a timeboard. Optional fields are the ones left null until a
      real-time update fills them. */
  datatype TimeboardRow = TimeboardRow(
    scheduledArrival: string, scheduledDeparture: string,
    lateArrival: bool, lateDeparture: bool,
    number: int, destination: string, name: string,
    actualTime: Option<int>, date: Option<string>,
    arrival: Option<string>, departure: Option<string>)

  /** Why a timeboard query fails: a schedule time parseTime rejects, or a stop
      sequence below the first index (a negative list position). */
  datatype QueryError = MalformedTime | BadStopIndex

  /** Collaborators the model does not see into: the current hour of day in a
      zone, epoch formatting ("hh:mm a" in a zone, "MM/dd" in the system zone),
      the current instant, the TimeboardRow copy constructor and the
      timeboard's own ordering. */
  datatype Services = Services(
    zoneHour: string -> int,
    formatEpoch: (int, string) -> string,
    formatDate: int -> string,
    now: int,
    copyRow: TimeboardRow -> TimeboardRow,
    sortRows: seq<TimeboardRow> -> seq<TimeboardRow>)

  /** The stored static schedule: stations, trips and routes by id, stop times. */
  datatype Schedule = Schedule(stations: seq<Station>, trips: map<string, Trip>,
                               routes: map<string, Route>, stopTimes: seq<StopTime>)

  const ReferenceZone: string := "America/New_York"
  const AmtrakAlias: string := "_AMTK_"
  const ShiftedRoute: string := "SJ2"

  /** The zone of the stop's station, or the reference zone when it is not stored. */
  function StopZone(stations: seq<Station>, stopId: string): string {
    match FindById(stations, stopId)
    case Some(s) => s.timeZone
    case None => ReferenceZone
  }

  /** The list position of the stop's update: the 1-based stop sequence made
      0-based, with SJ2 trips shifted back up by one, both steps in Java int
      arithmetic. */
  function StopIndex(trip: Trip, st: StopTime): int {
    var index := Wrap32(st.stopSequence - 1);
    if trip.routeId == ShiftedRoute then Wrap32(index + 1) else index
  }

  /** The trip-id test: equal, or the Amtrak feed's "<prefix>_AMTK_<id>" alias. */
  predicate MatchesTrip(feedTripId: string, tripId: string) {
    feedTripId == tripId || Contains(feedTripId, AmtrakAlias + tripId)
  }

  /** An entity the loop does not skip: it has a trip update for the trip whose
      update list is longer than the stop index. */
  predicate Candidate(e: FeedEntity, tripId: string, index: int) {
    && e.tripUpdate.Some?
    && MatchesTrip(e.tripUpdate.value.tripId, tripId)
    && |e.tripUpdate.value.updates| > index
  }

  /** The row one stop-time update produces from the row it starts with. */
  function Fill(row: TimeboardRow, u: StopTimeUpdate, zone: string, svc: Services): TimeboardRow {
    var afterArrival :=
      match u.arrival
      case None => row
      case Some(a) => row.(actualTime := Some(a.time), date := Some(svc.formatDate(a.time)),
                           arrival := Some(svc.formatEpoch(a.time, zone)),
                           lateArrival := row.lateArrival || a.delay > 0);
    var afterDeparture :=
      match u.departure
      case None => afterArrival
      case Some(d) =>
        var dated := if afterArrival.date.None?
          then afterArrival.(actualTime := Some(d.time), date := Some(svc.formatDate(d.time)))
          else afterArrival;
        dated.(departure := Some(svc.formatEpoch(d.time, zone)),
               lateDeparture := dated.lateDeparture || d.delay > 0);
    if u.arrival.None? && u.departure.None? then afterDeparture.(date := Some(svc.formatDate(svc.now)))
    else afterDeparture
  }

  /** A dated row is copied before it is filled again; an undated one is reused. */
  function Start(row: TimeboardRow, svc: Services): TimeboardRow {
    if row.date.Some? then svc.copyRow(row) else row
  }

  /** The rows the entity loop appends, starting from the given row, and the
      error that ends it, if any. */
  function MatchRows(entities: seq<FeedEntity>, tripId: string, index: int, row: TimeboardRow,
                     zone: string, svc: Services): (seq<TimeboardRow>, Option<QueryError>)
    decreases |entities|
  {
    if entities == [] then ([], None)
    else if !Candidate(entities[0], tripId, index) then MatchRows(entities[1..], tripId, index, row, zone, svc)
    else if index < 0 then ([], Some(BadStopIndex))
    else
      var filled := Fill(Start(row, svc), entities[0].tripUpdate.value.updates[index], zone, svc);
      var (rest, err) := MatchRows(entities[1..], tripId, index, filled, zone, svc);
      ([filled] + rest, err)
  }

  /** The row buildRow starts from: schedule times and the trip's and route's
      fields, nothing real-time yet. */
  function BaseRow(arrival: string, departure: string, trip: Trip, route: Route): TimeboardRow {
    TimeboardRow(arrival, departure, false, false, trip.number, trip.destination, route.routeName,
                 None, None, None, None)
  }

  /** The rows buildRow appends for one stop time, and its error, if any. */
  function BuildRowOf(sched: Schedule, feed: seq<FeedEntity>, st: StopTime, svc: Services): (seq<TimeboardRow>, Option<QueryError>) {
    var zone := StopZone(sched.stations, st.stopId);
    var offset := svc.zoneHour(zone) - svc.zoneHour(ReferenceZone);
    var arrival := ScheduleTime.ScheduleTimeOf(st.arrivalTime, offset);
    var departure := ScheduleTime.ScheduleTimeOf(st.departureTime, offset);
    if arrival.None? || departure.None? then ([], Some(MalformedTime))
    else if st.tripId !in sched.trips then ([], None)
    else
      var trip := sched.trips[st.tripId];
      if trip.routeId !in sched.routes then ([], None)
      else
        var row := BaseRow(arrival.value, departure.value, trip, sched.routes[trip.routeId]);
        MatchRows(feed, trip.tripId, StopIndex(trip, st), row, zone, svc)
  }

  /** What buildRow yields for one stop time: the rows it adds, and the
      exception it throws, if any. */
  type RowOutcome = (seq<TimeboardRow>, Option<QueryError>)

  /** The outcome of buildRow for each stop time, in order. */
  function RowOutcomes(sched: Schedule, feed: seq<FeedEntity>, stops: seq<StopTime>, svc: Services): (r: seq<RowOutcome>)
    ensures |r| == |stops|
  {
    seq(|stops|, k requires 0 <= k < |stops| => BuildRowOf(sched, feed, stops[k], svc))
  }

  /** The rows of the outcomes up to the first failing one, and its exception. */
  function UpToFirstError(outcomes: seq<RowOutcome>): RowOutcome
    decreases |outcomes|
  {
    if outcomes == [] then ([], None)
    else if outcomes[0].1.Some? then outcomes[0]
    else
      var rest := UpToFirstError(outcomes[1..]);
      (outcomes[0].0 + rest.0, rest.1)
  }

  /** The rows for a list of stop times, in order, up to the first error. */
  function StationRows(sched: Schedule, feed: seq<FeedEntity>, stops: seq<StopTime>, svc: Services): RowOutcome {
    UpToFirstError(RowOutcomes(sched, feed, stops, svc))
  }

  /** findAllByStop_Id: the stored stop times at the station, in stored order. */
  function StopsAt(stops: seq<StopTime>, stationId: string): (r: seq<StopTime>)
    ensures forall s :: s in r <==> s in stops && s.stopId == stationId
  {
    if stops == [] then []
    else (if stops[0].stopId == stationId then [stops[0]] else []) + StopsAt(stops[1..], stationId)
  }

  /** The timeboard of one station. */
  class StationTimeboard {
    const code: string
    const name: string
    const website: string
    const adminArea: string
    var rows: seq<TimeboardRow>

    constructor (code: string, name: string, website: string, adminArea: string)
      ensures this.code == code && this.name == name && this.website == website && this.adminArea == adminArea
      ensures rows == []
    {
      this.code, this.name, this.website, this.adminArea := code, name, website, adminArea;
      rows := [];
    }

    method AddRow(row: TimeboardRow)
      modifies this
      ensures rows == old(rows) + [row]
    {
      rows := rows + [row];
    }

    method SortTimeboard(svc: Services)
      modifies this
      ensures rows == svc.sortRows(old(rows))
    {
      rows := svc.sortRows(rows);
    }

    /** buildRow: matches one stop time against the feed and appends its rows. */
    method BuildRow(sched: Schedule, feed: seq<FeedEntity>, st: StopTime, svc: Services) returns (err: Option<QueryError>)
      modifies this
      ensures var (added, e) := BuildRowOf(sched, feed, st, svc);
        rows == old(rows) + added && err == e
    {
      var zone := StopZone(sched.stations, st.stopId);
      var offset := svc.zoneHour(zone) - svc.zoneHour(ReferenceZone);
      var arrival := ScheduleTime.ParseTime(st.arrivalTime, offset);
      var departure := ScheduleTime.ParseTime(st.departureTime, offset);
      if arrival.None? || departure.None? {
        return Some(MalformedTime);
      }
      if st.tripId !in sched.trips {
        return None;
      }
      var trip := sched.trips[st.tripId];
      if trip.routeId !in sched.routes {
        return None;
      }
      var row := BaseRow(arrival.value, departure.value, trip, sched.routes[trip.routeId]);
      var index := Wrap32(st.stopSequence - 1);
      if trip.routeId == ShiftedRoute {
        index := Wrap32(index + 1);
      }
      err := MatchFeed(feed, trip.tripId, index, row, zone, svc);
    }

    /** buildRow for the i-th stop time, as the i-th outcome. */
    method BuildRowAt(sched: Schedule, feed: seq<FeedEntity>, stops: seq<StopTime>, i: nat, svc: Services,
                      ghost outcomes: seq<RowOutcome>)
      returns (err: Option<QueryError>)
      requires i < |stops| && |outcomes| == |stops|
      requires forall k {:trigger BuildRowOf(sched, feed, stops[k], svc)} :: 0 <= k < |stops| ==>
        outcomes[k] == BuildRowOf(sched, feed, stops[k], svc)
      modifies this
      ensures rows == old(rows) + outcomes[i].0 && err == outcomes[i].1
    {
      err := BuildRow(sched, feed, stops[i], svc);
    }

    /** The loop over the station's stop times: rows for each in order; the
        first exception ends the loop. The outcomes are those of buildRow for
        each stop time. */
    method BuildRows(sched: Schedule, feed: seq<FeedEntity>, stops: seq<StopTime>, svc: Services,
                     ghost outcomes: seq<RowOutcome>)
      returns (err: Option<QueryError>)
      requires rows == [] && |outcomes| == |stops|
      requires forall k {:trigger BuildRowOf(sched, feed, stops[k], svc)} :: 0 <= k < |stops| ==>
        outcomes[k] == BuildRowOf(sched, feed, stops[k], svc)
      modifies this
      ensures err == UpToFirstError(outcomes).1
      ensures err.None? ==> rows == UpToFirstError(outcomes).0
    {
      var i := 0;
      assert outcomes[i..] == outcomes;
      assert rows + UpToFirstError(outcomes).0 == UpToFirstError(outcomes).0;
      while i < |stops|
        invariant 0 <= i <= |stops|
        invariant UpToFirstError(outcomes).0 == rows + UpToFirstError(outcomes[i..]).0
        invariant UpToFirstError(outcomes).1 == UpToFirstError(outcomes[i..]).1
      {
        assert outcomes[i..][1..] == outcomes[i + 1..];
        ghost var before := rows;
        err := BuildRowAt(sched, feed, stops, i, svc, outcomes);
        if err.Some? {
          return;
        }
        ghost var rest := UpToFirstError(outcomes[i + 1..]);
        assert before + (outcomes[i].0 + rest.0) == rows + rest.0;
        i := i + 1;
      }
      assert rows + UpToFirstError(outcomes[i..]).0 == rows;
      return None;
    }

    /** The entity loop of buildRow: every entity for the trip whose update list
        reaches the stop index fills one row and appends it. */
    method MatchFeed(feed: seq<FeedEntity>, tripId: string, index: int, start: TimeboardRow,
                     zone: string, svc: Services) returns (err: Option<QueryError>)
      modifies this
      ensures var (added, e) := MatchRows(feed, tripId, index, start, zone, svc);
        rows == old(rows) + added && err == e
    {
      var row := start;
      ghost var added: seq<TimeboardRow> := [];
      err := None;
      var i := 0;
      assert feed[i..] == feed;
      assert added + MatchRows(feed, tripId, index, row, zone, svc).0 == MatchRows(feed, tripId, index, row, zone, svc).0;
      while i < |feed|
        invariant 0 <= i <= |feed|
        invariant rows == old(rows) + added
        invariant MatchRows(feed, tripId, index, start, zone, svc)
          == (added + MatchRows(feed[i..], tripId, index, row, zone, svc).0,
              MatchRows(feed[i..], tripId, index, row, zone, svc).1)
      {
        var entity := feed[i];
        assert feed[i..][1..] == feed[i + 1..];
        if entity.tripUpdate.Some? {
          var tu := entity.tripUpdate.value;
          if tu.tripId != tripId && !Contains(tu.tripId, AmtrakAlias + tripId) {
            i := i + 1;
            continue;
          }
          if |tu.updates| <= index {
            i := i + 1;
            continue;
          }
          if index < 0 {
            return Some(BadStopIndex);
          }
          var update := tu.updates[index];
          ghost var before := row;
          if row.date.Some? {
            row := svc.copyRow(row);
          }
          row := Fill(row, update, zone, svc);
          assert Candidate(feed[i..][0], tripId, index);
          assert row == Fill(Start(before, svc), feed[i..][0].tripUpdate.value.updates[index], zone, svc);
          ghost var rest := MatchRows(feed[i + 1..], tripId, index, row, zone, svc);
          assert MatchRows(feed[i..], tripId, index, before, zone, svc) == ([row] + rest.0, rest.1);
          assert added + ([row] + rest.0) == (added + [row]) + rest.0;
          AddRow(row);
          added := added + [row];
        }
        i := i + 1;
      }
    }
  }

  /** getTrainsAtStation: null (here: no board and no error) for an unknown
      code; otherwise every stop time at the station is matched against the
      Amtrak feed when the code has three characters and the VIA feed
      otherwise, and the rows are sorted once at the end. */
  method GetTrainsAtStation(sched: Schedule, amtrakFeed: seq<FeedEntity>, viaFeed: seq<FeedEntity>,
                            code: string, svc: Services) returns (board: StationTimeboard?, err: Option<QueryError>)
    ensures FindByCode(sched.stations, code).None? ==> board == null && err.None?
    ensures FindByCode(sched.stations, code).Some? ==>
      var station := FindByCode(sched.stations, code).value;
      var feed := if |code| == 3 then amtrakFeed else viaFeed;
      var (rows, e) := StationRows(sched, feed, StopsAt(sched.stopTimes, station.id), svc);
      && err == e
      && (e.Some? ==> board == null)
      && (e.None? ==> board != null && fresh(board) && board.rows == svc.sortRows(rows)
                      && board.code == code && board.name == station.name
                      && board.website == station.website && board.adminArea == station.adminArea)
  {
    var found := FindByCode(sched.stations, code);
    if found.None? {
      return null, None;
    }
    var station := found.value;
    var tb := new StationTimeboard(code, station.name, station.website, station.adminArea);
    var stops := StopsAt(sched.stopTimes, station.id);
    var feed := if |code| == 3 then amtrakFeed else viaFeed;
    var e := tb.BuildRows(sched, feed, stops, svc, RowOutcomes(sched, feed, stops, svc));
    if e.Some? {
      return null, e;
    }
    tb.SortTimeboard(svc);
    return tb, None;
  }

  /** The first failing outcome decides the error. */
  lemma {:induction false} FirstErrorAt(outcomes: seq<RowOutcome>, k: nat)
    requires k < |outcomes|
    requires forall j :: 0 <= j < k ==> outcomes[j].1.None?
    requires outcomes[k].1.Some?
    ensures UpToFirstError(outcomes).1 == outcomes[k].1
    decreases k
  {
    if k > 0 {
      FirstErrorAt(outcomes[1..], k - 1);
    }
  }

  /** No error comes out exactly when no outcome failed. */
  lemma {:induction false} NoErrorIff(outcomes: seq<RowOutcome>)
    ensures UpToFirstError(outcomes).1.None? <==> forall j :: 0 <= j < |outcomes| ==> outcomes[j].1.None?
    decreases |outcomes|
  {
    if outcomes != [] {
      NoErrorIff(outcomes[1..]);
      assert forall j :: 1 <= j < |outcomes| ==> outcomes[j] == outcomes[1..][j - 1];
    }
  }

  /** The first stop time whose row building fails decides the query's error:
      an exception ends the whole query. */
  lemma StationRowsFirstError(sched: Schedule, feed: seq<FeedEntity>, stops: seq<StopTime>, k: nat, svc: Services)
    requires k < |stops|
    requires forall j :: 0 <= j < k ==> BuildRowOf(sched, feed, stops[j], svc).1.None?
    requires BuildRowOf(sched, feed, stops[k], svc).1.Some?
    ensures StationRows(sched, feed, stops, svc).1 == BuildRowOf(sched, feed, stops[k], svc).1
  {
    FirstErrorAt(RowOutcomes(sched, feed, stops, svc), k);
  }

  /** When the row building of every stop time succeeds, so does the query. */
  lemma StationRowsSucceed(sched: Schedule, feed: seq<FeedEntity>, stops: seq<StopTime>, svc: Services)
    requires forall j :: 0 <= j < |stops| ==> BuildRowOf(sched, feed, stops[j], svc).1.None?
    ensures StationRows(sched, feed, stops, svc).1.None?
  {
    NoErrorIff(RowOutcomes(sched, feed, stops, svc));
  }

  /** The entities the loop does not skip, in feed order. */
  function Candidates(entities: seq<FeedEntity>, tripId: string, index: int): (r: seq<FeedEntity>)
    ensures forall k :: 0 <= k < |r| ==> Candidate(r[k], tripId, index)
    ensures forall e :: e in r <==> e in entities && Candidate(e, tripId, index)
    ensures |r| <= |entities|
  {
    if entities == [] then []
    else (if Candidate(entities[0], tripId, index) then [entities[0]] else []) + Candidates(entities[1..], tripId, index)
  }

  /** How one update fills a row: an arrival sets the actual time, the date
      and the arrival text; a departure sets the actual time and the date only
      on an undated row and always the departure text; with neither, the date
      is today; a lateness flag is raised by a positive delay and never lowered;
      in every case the row leaves dated. */
  lemma FillRules(row: TimeboardRow, u: StopTimeUpdate, zone: string, svc: Services)
    ensures var r := Fill(row, u, zone, svc);
      && r.date.Some?
      && (u.arrival.Some? ==>
            var a := u.arrival.value;
            r.date == Some(svc.formatDate(a.time)) && r.actualTime == Some(a.time)
            && r.arrival == Some(svc.formatEpoch(a.time, zone)))
      && (u.arrival.None? && u.departure.Some? ==>
            var d := u.departure.value;
            && r.date == (if row.date.Some? then row.date else Some(svc.formatDate(d.time)))
            && r.actualTime == (if row.date.Some? then row.actualTime else Some(d.time)))
      && (u.departure.Some? ==> r.departure == Some(svc.formatEpoch(u.departure.value.time, zone)))
      && (u.arrival.None? && u.departure.None? ==> r.date == Some(svc.formatDate(svc.now)))
      && r.lateArrival == (row.lateArrival || (u.arrival.Some? && u.arrival.value.delay > 0))
      && r.lateDeparture == (row.lateDeparture || (u.departure.Some? && u.departure.value.delay > 0))
      && (u.arrival.None? ==> r.arrival == row.arrival)
      && (u.departure.None? ==> r.departure == row.departure)
      && (u.arrival.None? && u.departure.None? ==> r.actualTime == row.actualTime)
      && r.scheduledArrival == row.scheduledArrival && r.scheduledDeparture == row.scheduledDeparture
      && r.number == row.number && r.destination == row.destination && r.name == row.name
  {
  }

  /** Every fill leaves the row dated. */
  lemma FillDated(row: TimeboardRow, u: StopTimeUpdate, zone: string, svc: Services)
    ensures Fill(row, u, zone, svc).date.Some?
  {
  }

  /** The row the k-th appended row is filled from. */
  function Predecessor(rows: seq<TimeboardRow>, k: nat, row: TimeboardRow, svc: Services): TimeboardRow
    requires k <= |rows|
  {
    if k == 0 then Start(row, svc) else svc.copyRow(rows[k - 1])
  }

  /** With a usable stop index nothing fails, each entity that is not skipped
      appends one row, and every appended row is dated. */
  lemma {:induction false} MatchRowsCount(entities: seq<FeedEntity>, tripId: string, index: int, row: TimeboardRow,
                                         zone: string, svc: Services)
    requires index >= 0
    ensures MatchRows(entities, tripId, index, row, zone, svc).1.None?
    ensures |MatchRows(entities, tripId, index, row, zone, svc).0| == |Candidates(entities, tripId, index)|
    ensures forall k :: 0 <= k < |MatchRows(entities, tripId, index, row, zone, svc).0| ==>
      MatchRows(entities, tripId, index, row, zone, svc).0[k].date.Some?
    decreases |entities|
  {
    if entities != [] {
      var e := entities[0];
      if Candidate(e, tripId, index) {
        var filled := Fill(Start(row, svc), e.tripUpdate.value.updates[index], zone, svc);
        FillDated(Start(row, svc), e.tripUpdate.value.updates[index], zone, svc);
        MatchRowsCount(entities[1..], tripId, index, filled, zone, svc);
      } else {
        MatchRowsCount(entities[1..], tripId, index, row, zone, svc);
      }
    }
  }

  /** The k-th appended row is filled, from its predecessor, with the k-th
      non-skipped entity's update for the stop. */
  lemma {:induction false} MatchRowsAt(entities: seq<FeedEntity>, tripId: string, index: int, row: TimeboardRow,
                                      zone: string, svc: Services, k: nat)
    requires index >= 0
    requires k < |MatchRows(entities, tripId, index, row, zone, svc).0|
    ensures k < |Candidates(entities, tripId, index)|
    ensures var rows := MatchRows(entities, tripId, index, row, zone, svc).0;
      rows[k] == Fill(Predecessor(rows, k, row, svc),
                      Candidates(entities, tripId, index)[k].tripUpdate.value.updates[index], zone, svc)
    decreases |entities|
  {
    MatchRowsCount(entities, tripId, index, row, zone, svc);
    var tail := entities[1..];
    var rows := MatchRows(entities, tripId, index, row, zone, svc).0;
    var cs := Candidates(entities, tripId, index);
    if Candidate(entities[0], tripId, index) {
      var u := entities[0].tripUpdate.value.updates[index];
      var filled := Fill(Start(row, svc), u, zone, svc);
      var rest := MatchRows(tail, tripId, index, filled, zone, svc).0;
      assert rows == [filled] + rest;
      assert cs == [entities[0]] + Candidates(tail, tripId, index);
      if k > 0 {
        MatchRowsAt(tail, tripId, index, filled, zone, svc, k - 1);
        FillDated(Start(row, svc), u, zone, svc);
        assert Predecessor(rows, k, row, svc) == Predecessor(rest, k - 1, filled, svc);
      }
    } else {
      MatchRowsAt(tail, tripId, index, row, zone, svc, k);
    }
  }

  /** The rows of one stop time, entity by entity: with a usable stop index,
      each entity that is not skipped appends exactly one row, in feed order;
      the first is filled from the starting row, and every later one from a
      copy of the row before it, which is always dated. */
  lemma MatchRowsShape(entities: seq<FeedEntity>, tripId: string, index: int, row: TimeboardRow,
                       zone: string, svc: Services)
    requires index >= 0
    ensures var (rows, err) := MatchRows(entities, tripId, index, row, zone, svc);
      && err.None?
      && |rows| == |Candidates(entities, tripId, index)|
      && (forall k :: 0 <= k < |rows| ==> rows[k].date.Some?)
      && (forall k :: 0 <= k < |rows| ==>
            rows[k] == Fill(Predecessor(rows, k, row, svc),
                            Candidates(entities, tripId, index)[k].tripUpdate.value.updates[index], zone, svc))
  {
    MatchRowsCount(entities, tripId, index, row, zone, svc);
    var rows := MatchRows(entities, tripId, index, row, zone, svc).0;
    forall k | 0 <= k < |rows|
      ensures rows[k] == Fill(Predecessor(rows, k, row, svc),
                              Candidates(entities, tripId, index)[k].tripUpdate.value.updates[index], zone, svc)
    {
      MatchRowsAt(entities, tripId, index, row, zone, svc, k);
    }
  }

  /** A negative stop index is harmless while no entity gets past the trip and
      length tests, and an exception as soon as one does. */
  lemma {:induction false} MatchRowsNegativeIndex(entities: seq<FeedEntity>, tripId: string, index: int,
                                                 row: TimeboardRow, zone: string, svc: Services)
    requires index < 0
    ensures MatchRows(entities, tripId, index, row, zone, svc) ==
      if Candidates(entities, tripId, index) == [] then ([], None) else ([], Some(BadStopIndex))
    decreases |entities|
  {
    if entities != [] {
      MatchRowsNegativeIndex(entities[1..], tripId, index, row, zone, svc);
    }
  }

  /** No row is added for a stop time whose trip or route is not stored. */
  lemma BuildRowDanglingReferences(sched: Schedule, feed: seq<FeedEntity>, st: StopTime, svc: Services)
    ensures var (rows, err) := BuildRowOf(sched, feed, st, svc);
      (st.tripId !in sched.trips || sched.trips[st.tripId].routeId !in sched.routes) ==> rows == []
    ensures BuildRowOf(sched, feed, st, svc).1.Some? ==> BuildRowOf(sched, feed, st, svc).0 == []
    ensures var zone := StopZone(sched.stations, st.stopId);
      var offset := svc.zoneHour(zone) - svc.zoneHour(ReferenceZone);
      && ScheduleTime.ScheduleTimeOf(st.arrivalTime, offset).Some?
      && ScheduleTime.ScheduleTimeOf(st.departureTime, offset).Some?
      && (st.tripId !in sched.trips || sched.trips[st.tripId].routeId !in sched.routes)
      ==> BuildRowOf(sched, feed, st, svc) == ([], None)
  {
    var zone := StopZone(sched.stations, st.stopId);
    var offset := svc.zoneHour(zone) - svc.zoneHour(ReferenceZone);
    if st.tripId in sched.trips && sched.trips[st.tripId].routeId in sched.routes
       && ScheduleTime.ScheduleTimeOf(st.arrivalTime, offset).Some?
       && ScheduleTime.ScheduleTimeOf(st.departureTime, offset).Some? {
      var trip := sched.trips[st.tripId];
      var index := StopIndex(trip, st);
      var row := BaseRow(ScheduleTime.ScheduleTimeOf(st.arrivalTime, offset).value,
                         ScheduleTime.ScheduleTimeOf(st.departureTime, offset).value, trip, sched.routes[trip.routeId]);
      if index < 0 {
        MatchRowsNegativeIndex(feed, trip.tripId, index, row, zone, svc);
      } else {
        MatchRowsShape(feed, trip.tripId, index, row, zone, svc);
      }
    }
  }

  /** The first row a stop time adds carries the stop's scheduled times and its
      trip's number, destination and route name, as the starting row holds them. */
  lemma FirstRowKeepsSchedule(entities: seq<FeedEntity>, tripId: string, index: int, row: TimeboardRow,
                              zone: string, svc: Services)
    requires index >= 0 && row.date.None?
    requires MatchRows(entities, tripId, index, row, zone, svc).0 != []
    ensures var first := MatchRows(entities, tripId, index, row, zone, svc).0[0];
      && first.scheduledArrival == row.scheduledArrival && first.scheduledDeparture == row.scheduledDeparture
      && first.number == row.number && first.destination == row.destination && first.name == row.name
  {
    MatchRowsAt(entities, tripId, index, row, zone, svc, 0);
    FillRules(row, Candidates(entities, tripId, index)[0].tripUpdate.value.updates[index], zone, svc);
  }

  /** Two entities of one trip (two service days) give two rows, both dated,
      the second filled from a copy of the first rather than overwriting it. */
  lemma TwoServiceDays(e1: FeedEntity, e2: FeedEntity, tripId: string, index: int, row: TimeboardRow,
                       zone: string, svc: Services)
    requires index >= 0 && Candidate(e1, tripId, index) && Candidate(e2, tripId, index)
    ensures var rows := MatchRows([e1, e2], tripId, index, row, zone, svc).0;
      && |rows| == 2 && rows[0].date.Some? && rows[1].date.Some?
      && rows[1] == Fill(svc.copyRow(rows[0]), e2.tripUpdate.value.updates[index], zone, svc)
  {
    MatchRowsShape([e1, e2], tripId, index, row, zone, svc);
    assert [e1, e2][1..] == [e2];
    assert Candidates([e2], tripId, index) == [e2];
    assert Candidates([e1, e2], tripId, index) == [e1, e2];
  }

  /** Candidates keeps feed order: filtering a concatenation filters each part. */
  lemma {:induction false} CandidatesAppend(a: seq<FeedEntity>, b: seq<FeedEntity>, tripId: string, index: int)
    ensures Candidates(a + b, tripId, index) == Candidates(a, tripId, index) + Candidates(b, tripId, index)
    decreases |a|
  {
    if a != [] {
      assert (a + b)[1..] == a[1..] + b;
      CandidatesAppend(a[1..], b, tripId, index);
    } else {
      assert a + b == b;
    }
  }

  /** The stop index in Java int arithmetic: SJ2 keeps the stop sequence, any
      other route takes one less, except that one less than the smallest int
      wraps around to the largest. It is negative exactly for SJ2 sequences
      below 0 and for other routes' sequences from MinInt + 1 to 0. */
  lemma StopIndexCases(trip: Trip, st: StopTime)
    requires MinInt <= st.stopSequence <= MaxInt
    ensures trip.routeId == ShiftedRoute ==> StopIndex(trip, st) == st.stopSequence
    ensures trip.routeId != ShiftedRoute && st.stopSequence != MinInt ==> StopIndex(trip, st) == st.stopSequence - 1
    ensures trip.routeId != ShiftedRoute && st.stopSequence == MinInt ==> StopIndex(trip, st) == MaxInt
    ensures StopIndex(trip, st) < 0 <==>
      if trip.routeId == ShiftedRoute then st.stopSequence < 0 else MinInt < st.stopSequence <= 0
  {
    if st.stopSequence == MinInt {
      assert Wrap32(st.stopSequence - 1) == MaxInt;
      assert Wrap32(MaxInt + 1) == MinInt;
    }
  }

  /** A stop sequence of MinInt on a route other than SJ2 wraps to the largest
      index, which no update list of int size reaches: every entity is skipped,
      no row is added and nothing is thrown. */
  lemma {:induction false} WrappedStopIndexSkipped(entities: seq<FeedEntity>, trip: Trip, st: StopTime,
                                                  row: TimeboardRow, zone: string, svc: Services)
    requires trip.routeId != ShiftedRoute && st.stopSequence == MinInt
    requires forall k :: 0 <= k < |entities| && entities[k].tripUpdate.Some? ==>
      |entities[k].tripUpdate.value.updates| <= MaxInt
    ensures MatchRows(entities, trip.tripId, StopIndex(trip, st), row, zone, svc) == ([], None)
    decreases |entities|
  {
    StopIndexCases(trip, st);
    if entities != [] {
      assert !Candidate(entities[0], trip.tripId, StopIndex(trip, st));
      WrappedStopIndexSkipped(entities[1..], trip, st, row, zone, svc);
    }
  }

  /** An update list no longer than the stop index gets the entity skipped:
      for a stop at sequence n on a route other than SJ2, an entity with fewer
      than n updates adds no row. */
  lemma ShortUpdateListSkipped(e: FeedEntity, trip: Trip, st: StopTime, row: TimeboardRow, zone: string, svc: Services)
    requires trip.routeId != ShiftedRoute && 1 <= st.stopSequence <= MaxInt
    requires e.tripUpdate.Some? && |e.tripUpdate.value.updates| < st.stopSequence
    ensures MatchRows([e], trip.tripId, StopIndex(trip, st), row, zone, svc) == ([], None)
  {
    StopIndexCases(trip, st);
  }
}
