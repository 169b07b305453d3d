/** The static-schedule importer: one row mapper per source format, the
    header-skipping loop over each archive entry, the curated station list,
    and the three-source refresh that feeds the repositories. */
module Importer {
  import opened Common
  import opened Gtfs

  /** Why an import stops: a read timeout on the archive, a row shorter than a
      column the mapper reads, an integer column that is not an int, or a
      hyphenated VIA train number with no token before the end. */
  datatype ImportError = Timeout | IndexOutOfBounds | NumberFormat | NoSuchElement

  /** The three archive layouts (type 0, 1 and 2). */
  datatype SourceFormat = Amtrak | Via | SanJoaquin

  /** What one CSV row turns into. */
  datatype Mapped = MappedStopTime(stopTime: StopTime) | MappedRoute(route: Route) | MappedTrip(trip: Trip) | NoRecord

  /** The three lists the mappers append to. */
  datatype Tables = Tables(stopTimes: seq<StopTime>, routes: seq<Route>, trips: seq<Trip>)

  /** One entry of a downloaded archive: its file name and its CSV lines. */
  datatype Entry = Entry(name: string, lines: seq<seq<string>>)

  const StopTimesFile: string := "stop_times.txt"
  const RoutesFile: string := "routes.txt"
  const TripsFile: string := "trips.txt"

  /** line[k], or the ArrayIndexOutOfBoundsException it throws. */
  function Field(line: seq<string>, k: nat): (r: Result<string, ImportError>)
    ensures r.Ok? <==> k < |line|
    ensures r.Ok? ==> r.value == line[k]
    ensures r.Err? ==> r.error == IndexOutOfBounds
  {
    if k < |line| then Ok(line[k]) else Err(IndexOutOfBounds)
  }

  /** Integer.parseInt(line[k]). */
  function IntField(line: seq<string>, k: nat): (r: Result<int, ImportError>)
    ensures r.Ok? <==> k < |line| && ParseInt(line[k]).Some?
    ensures r.Ok? ==> ParseInt(line[k]) == Some(r.value)
  {
    var f :- Field(line, k);
    match ParseInt(f)
    case None => Err(NumberFormat)
    case Some(n) => Ok(n)
  }

  /** getViaRouteName's table of long-distance VIA services. */
  const ViaRouteNames: map<string, string> := map[
    "Vancouver - Toronto" := "Canadian",
    "Montréal - Halifax" := "Ocean",
    "Toronto - New York" := "Maple Leaf",
    "Sudbury - White River" := "Lake Superior",
    "Jasper - Prince Rupert" := "Skeena",
    "Winnipeg - Churchill" := "Hudson Bay",
    "The Pas - Churchill" := "Hudson Bay",
    "Montréal - Senneterre" := "Abitibi",
    "Montréal - Jonquière" := "Saguenay"
  ]

  const CorridorPrefix: string := "Corridor: "

  function ViaRouteName(name: string): string {
    if name in ViaRouteNames then ViaRouteNames[name] else CorridorPrefix + name
  }

  /** getAmtrakStationName's table of renamed stations. */
  const AmtrakStationNames: map<string, string> := map[
    "BON" := "Boston North Station",
    "BOS" := "Boston South Station",
    "BBY" := "Boston Back Bay Station",
    "NYP" := "New York Moynihan Train Hall at Penn Station",
    "BFX" := "Buffalo Exchange Street Station",
    "BUF" := "Buffalo Depew Station"
  ]

  function AmtrakStationName(code: string, defaultName: string): string {
    if code in AmtrakStationNames then AmtrakStationNames[code] else defaultName
  }

  /** updateAmtrakGTFS for one line of the named entry. */
  function MapAmtrak(name: string, line: seq<string>): Result<Mapped, ImportError> {
    if name == StopTimesFile then
      var tripId :- Field(line, 0);
      var arrival :- Field(line, 1);
      var departure :- Field(line, 2);
      var stop :- Field(line, 3);
      var sequence :- IntField(line, 4);
      Ok(MappedStopTime(StopTime(tripId, arrival, departure, stop, sequence)))
    else if name == RoutesFile then
      var routeId :- Field(line, 0);
      var routeName :- Field(line, 3);
      Ok(MappedRoute(Route(routeId, routeName)))
    else if name == TripsFile then
      var tripId :- Field(line, 2);
      var routeId :- Field(line, 0);
      var number :- IntField(line, 3);
      var destination :- Field(line, 6);
      Ok(MappedTrip(Trip(tripId, routeId, number, destination)))
    else Ok(NoRecord)
  }

  /** The VIA trip-number column: empty is 0, a hyphenated value is the int
      before the first hyphen, anything else is parsed whole. */
  function ViaTripNumber(f: string): Result<int, ImportError> {
    if f == [] then Ok(0)
    else if '-' in f then
      var toks := Tokens(f, '-');
      if toks == [] then Err(NoSuchElement)
      else match ParseInt(toks[0])
        case None => Err(NumberFormat)
        case Some(n) => Ok(n)
    else match ParseInt(f)
      case None => Err(NumberFormat)
      case Some(n) => Ok(n)
  }

  /** updateViaGTFS for one line of the named entry. */
  function MapVia(name: string, line: seq<string>): Result<Mapped, ImportError> {
    if name == StopTimesFile then
      var tripId :- Field(line, 0);
      var arrival :- Field(line, 1);
      var departure :- Field(line, 2);
      var stop :- Field(line, 3);
      var sequence :- IntField(line, 4);
      Ok(MappedStopTime(StopTime(tripId, arrival, departure, stop, sequence)))
    else if name == RoutesFile then
      var routeId :- Field(line, 0);
      var routeName :- Field(line, 2);
      Ok(MappedRoute(Route(routeId, ViaRouteName(routeName))))
    else if name == TripsFile then
      var tripId :- Field(line, 2);
      var routeId :- Field(line, 0);
      var numberField :- Field(line, 4);
      var number :- ViaTripNumber(numberField);
      var destination :- Field(line, 5);
      Ok(MappedTrip(Trip(tripId, routeId, number, destination)))
    else Ok(NoRecord)
  }

  const SanJoaquinRoute: string := "SJ2"
  const SanJoaquinName: string := "San Joaquins"

  /** updateSanJGTFS for one line of the named entry: only three-character trip
      ids and only route SJ2 are kept. */
  function MapSanJoaquin(name: string, line: seq<string>): Result<Mapped, ImportError> {
    if name == StopTimesFile then
      var first :- Field(line, 0);
      if |first| == 3 then
        var stop :- Field(line, 2);
        var arrival :- Field(line, 3);
        var departure :- Field(line, 4);
        var sequence :- IntField(line, 1);
        Ok(MappedStopTime(StopTime(first, arrival, departure, stop, sequence)))
      else Ok(NoRecord)
    else if name == RoutesFile then
      var first :- Field(line, 0);
      if first == SanJoaquinRoute then Ok(MappedRoute(Route(first, SanJoaquinName))) else Ok(NoRecord)
    else if name == TripsFile then
      var first :- Field(line, 0);
      if |first| == 3 then
        var routeId :- Field(line, 1);
        var number :- IntField(line, 0);
        var destination :- Field(line, 3);
        Ok(MappedTrip(Trip(first, routeId, number, destination)))
      else Ok(NoRecord)
    else Ok(NoRecord)
  }

  function MapLine(format: SourceFormat, name: string, line: seq<string>): Result<Mapped, ImportError> {
    match format
    case Amtrak => MapAmtrak(name, line)
    case Via => MapVia(name, line)
    case SanJoaquin => MapSanJoaquin(name, line)
  }

  /** Appending one mapped row to the lists. */
  function Append(t: Tables, m: Mapped): Tables {
    match m
    case MappedStopTime(s) => t.(stopTimes := t.stopTimes + [s])
    case MappedRoute(r) => t.(routes := t.routes + [r])
    case MappedTrip(p) => t.(trips := t.trips + [p])
    case NoRecord => t
  }

  /** The lists after mapping the given lines in order, and the error that
      stopped the mapping, if any: the lines before a failing one stay appended. */
  function ImportLines(t: Tables, format: SourceFormat, name: string, lines: seq<seq<string>>): (Tables, Option<ImportError>)
    decreases |lines|
  {
    if lines == [] then (t, None)
    else
      var (before, err) := ImportLines(t, format, name, lines[..|lines| - 1]);
      if err.Some? then (before, err)
      else match MapLine(format, name, lines[|lines| - 1])
        case Err(e) => (before, Some(e))
        case Ok(m) => (Append(before, m), None)
  }

  predicate Imported(name: string) {
    name == StopTimesFile || name == RoutesFile || name == TripsFile
  }

  /** Every line after the first; the first line is the CSV header. */
  function Body(lines: seq<seq<string>>): seq<seq<string>> {
    if lines == [] then [] else lines[1..]
  }

  /** The lists after importing the given archive entries in order. */
  function ImportEntries(t: Tables, format: SourceFormat, entries: seq<Entry>): (Tables, Option<ImportError>)
    decreases |entries|
  {
    if entries == [] then (t, None)
    else
      var (before, err) := ImportEntries(t, format, entries[..|entries| - 1]);
      var e := entries[|entries| - 1];
      if err.Some? || !Imported(e.name) then (before, err)
      else ImportLines(before, format, e.name, Body(e.lines))
  }

  /** The shared lists updateGTFS passes to each source. */
  class GtfsTables {
    var stopTimes: seq<StopTime>
    var routes: seq<Route>
    var trips: seq<Trip>

    function Value(): Tables
      reads this
    {
      Tables(stopTimes, routes, trips)
    }

    constructor ()
      ensures Value() == Tables([], [], [])
    {
      stopTimes, routes, trips := [], [], [];
    }

    /** stopTimes.add / routes.add / trips.add for one mapped row. */
    method Add(m: Mapped)
      modifies this
      ensures Value() == Append(old(Value()), m)
    {
      match m
      case MappedStopTime(s) => stopTimes := stopTimes + [s];
      case MappedRoute(r) => routes := routes + [r];
      case MappedTrip(p) => trips := trips + [p];
      case NoRecord =>
    }

    /** The CSV loop of updateGTFSFromCSV for one archive entry: the first line
        is skipped, every later line goes to the format's mapper. */
    method ImportEntry(format: SourceFormat, name: string, lines: seq<seq<string>>) returns (err: Option<ImportError>)
      modifies this
      ensures (Value(), err) == ImportLines(old(Value()), format, name, Body(lines))
    {
      var firstLine := true;
      var i := 0;
      err := None;
      while i < |lines|
        invariant 0 <= i <= |lines|
        invariant firstLine <==> i == 0
        invariant err.None? && (Value(), err) == ImportLines(old(Value()), format, name, Body(lines[..i]))
      {
        if firstLine {
          firstLine := false;
          i := i + 1;
          continue;
        }
        err := ImportLine(format, name, lines, i, old(Value()));
        if err.Some? {
          BodySplit(lines, i);
          LinesErrorSticks(old(Value()), format, name, Body(lines[..i + 1]), lines[i + 1..]);
          return;
        }
        i := i + 1;
      }
      assert lines[..i] == lines;
    }

    /** One line of the CSV loop after the first: the format's mapper, then
        the add for the record it produced. */
    method ImportLine(format: SourceFormat, name: string, lines: seq<seq<string>>, i: nat, ghost start: Tables)
      returns (err: Option<ImportError>)
      requires 0 < i < |lines|
      requires ImportLines(start, format, name, Body(lines[..i])) == (Value(), None)
      modifies this
      ensures ImportLines(start, format, name, Body(lines[..i + 1])) == (Value(), err)
    {
      BodyExtend(lines, i);
      ghost var body := Body(lines[..i]);
      assert (body + [lines[i]])[..|body|] == body;
      var mapped := MapLine(format, name, lines[i]);
      if mapped.Err? {
        return Some(mapped.error);
      }
      Add(mapped.value);
      return None;
    }

    /** updateGTFSFromCSV once the archive has been fetched: entries other than
        stop_times.txt, routes.txt and trips.txt are closed unread. */
    method ImportArchive(format: SourceFormat, entries: seq<Entry>) returns (err: Option<ImportError>)
      modifies this
      ensures (Value(), err) == ImportEntries(old(Value()), format, entries)
    {
      var i := 0;
      err := None;
      while i < |entries|
        invariant 0 <= i <= |entries|
        invariant err.None? && (Value(), err) == ImportEntries(old(Value()), format, entries[..i])
      {
        err := ImportEntryAt(format, entries, i, old(Value()));
        if err.Some? {
          assert entries == entries[..i + 1] + entries[i + 1..];
          EntriesErrorSticks(old(Value()), format, entries[..i + 1], entries[i + 1..]);
          return;
        }
        i := i + 1;
      }
      assert entries[..i] == entries;
    }

    /** One entry of the archive loop: a file of interest is read, any other
        entry is closed unread. */
    method ImportEntryAt(format: SourceFormat, entries: seq<Entry>, i: nat, ghost start: Tables)
      returns (err: Option<ImportError>)
      requires i < |entries|
      requires ImportEntries(start, format, entries[..i]) == (Value(), None)
      modifies this
      ensures ImportEntries(start, format, entries[..i + 1]) == (Value(), err)
    {
      assert entries[..i + 1][..i] == entries[..i];
      var e := entries[i];
      if Imported(e.name) {
        err := ImportEntry(format, e.name, e.lines);
      } else {
        err := None;
      }
    }
  }

  /** setStations' column layout: id, admin area, code, name, time zone, website. */
  function StationOfLine(line: seq<string>): Result<Station, ImportError> {
    var id :- Field(line, 0);
    var admin :- Field(line, 1);
    var code :- Field(line, 2);
    var name :- Field(line, 3);
    var zone :- Field(line, 4);
    var website :- Field(line, 5);
    Ok(Station(id, admin, code, name, zone, website))
  }

  /** The stations read from the curated station list, or the error that stopped it. */
  function StationsOfLines(lines: seq<seq<string>>): Result<seq<Station>, ImportError>
    decreases |lines|
  {
    if lines == [] then Ok([])
    else
      var before :- StationsOfLines(lines[..|lines| - 1]);
      var s :- StationOfLine(lines[|lines| - 1]);
      Ok(before + [s])
  }

  /** setStations: every line after the header becomes one station. */
  method SetStations(lines: seq<seq<string>>) returns (r: Result<seq<Station>, ImportError>)
    ensures r == StationsOfLines(Body(lines))
  {
    var stations: seq<Station> := [];
    var firstLine := true;
    var i := 0;
    while i < |lines|
      invariant 0 <= i <= |lines|
      invariant firstLine <==> i == 0
      invariant StationsOfLines(Body(lines[..i])) == Ok(stations)
    {
      var line := lines[i];
      if firstLine {
        firstLine := false;
        i := i + 1;
        continue;
      }
      BodyExtend(lines, i);
      var s := StationOfLine(line);
      if s.Err? {
        BodySplit(lines, i);
        StationsErrorSticks(Body(lines[..i + 1]), lines[i + 1..]);
        return Err(s.error);
      }
      stations := stations + [s.value];
      i := i + 1;
    }
    assert lines[..i] == lines;
    r := Ok(stations);
  }

  /** What updateGTFS hands to the repositories. */
  datatype Refresh = Refresh(tables: Tables, stations: seq<Station>)

  /** updateGTFS: the Amtrak, VIA and San Joaquin archives in that order into one
      set of lists, then the station list. The first failure of any kind ends
      the refresh before anything is saved. */
  method UpdateGtfs(amtrak: Result<seq<Entry>, ImportError>, via: Result<seq<Entry>, ImportError>,
                    sanJoaquin: Result<seq<Entry>, ImportError>, stationLines: seq<seq<string>>)
    returns (r: Result<Refresh, ImportError>)
    ensures r == RefreshOf(amtrak, via, sanJoaquin, stationLines)
  {
    var tables := new GtfsTables();
    var sources := [(Amtrak, amtrak), (Via, via), (SanJoaquin, sanJoaquin)];
    var i := 0;
    while i < 3
      invariant 0 <= i <= 3
      invariant RefreshSources(Tables([], [], []), sources[..i]) == Ok(tables.Value())
    {
      var (format, fetched) := sources[i];
      assert sources[..i + 1][..i] == sources[..i];
      assert sources == sources[..i + 1] + sources[i + 1..];
      if fetched.Err? {
        SourcesErrorSticks(Tables([], [], []), sources[..i + 1], sources[i + 1..]);
        return Err(fetched.error);
      }
      var err := tables.ImportArchive(format, fetched.value);
      if err.Some? {
        SourcesErrorSticks(Tables([], [], []), sources[..i + 1], sources[i + 1..]);
        return Err(err.value);
      }
      i := i + 1;
    }
    assert sources[..i] == sources;
    var stations := SetStations(stationLines);
    if stations.Err? {
      return Err(stations.error);
    }
    r := Ok(Refresh(tables.Value(), stations.value));
  }

  function RefreshSources(t: Tables, sources: seq<(SourceFormat, Result<seq<Entry>, ImportError>)>): Result<Tables, ImportError>
    decreases |sources|
  {
    if sources == [] then Ok(t)
    else
      var before :- RefreshSources(t, sources[..|sources| - 1]);
      var (format, fetched) := sources[|sources| - 1];
      var entries :- fetched;
      var (after, err) := ImportEntries(before, format, entries);
      if err.Some? then Err(err.value) else Ok(after)
  }

  function RefreshOf(amtrak: Result<seq<Entry>, ImportError>, via: Result<seq<Entry>, ImportError>,
                     sanJoaquin: Result<seq<Entry>, ImportError>, stationLines: seq<seq<string>>): Result<Refresh, ImportError>
  {
    var tables :- RefreshSources(Tables([], [], []), [(Amtrak, amtrak), (Via, via), (SanJoaquin, sanJoaquin)]);
    var stations :- StationsOfLines(Body(stationLines));
    Ok(Refresh(tables, stations))
  }

  lemma BodyExtend(lines: seq<seq<string>>, i: nat)
    requires 0 < i < |lines|
    ensures Body(lines[..i + 1]) == Body(lines[..i]) + [lines[i]]
  {
    assert lines[..i + 1][1..] == lines[..i][1..] + [lines[i]];
  }

  lemma BodySplit(lines: seq<seq<string>>, i: nat)
    requires i < |lines|
    ensures Body(lines) == Body(lines[..i + 1]) + lines[i + 1..]
  {
    assert lines[1..] == lines[..i + 1][1..] + lines[i + 1..];
  }

  /** Once a line has failed, later lines change nothing: the exception ends the entry. */
  lemma {:induction false} LinesErrorSticks(t: Tables, format: SourceFormat, name: string, xs: seq<seq<string>>, ys: seq<seq<string>>)
    requires ImportLines(t, format, name, xs).1.Some?
    ensures ImportLines(t, format, name, xs + ys) == ImportLines(t, format, name, xs)
    decreases |ys|
  {
    if ys != [] {
      LinesErrorSticks(t, format, name, xs, ys[..|ys| - 1]);
      var p := xs + ys;
      assert p[..|p| - 1] == xs + ys[..|ys| - 1];
      ImportLinesStep(t, format, name, p);
    } else {
      assert xs + ys == xs;
    }
  }

  /** One more line after a failure leaves the result as it was. */
  lemma ImportLinesStep(t: Tables, format: SourceFormat, name: string, lines: seq<seq<string>>)
    requires lines != [] && ImportLines(t, format, name, lines[..|lines| - 1]).1.Some?
    ensures ImportLines(t, format, name, lines) == ImportLines(t, format, name, lines[..|lines| - 1])
  {
  }

  lemma {:induction false} EntriesErrorSticks(t: Tables, format: SourceFormat, xs: seq<Entry>, ys: seq<Entry>)
    requires ImportEntries(t, format, xs).1.Some?
    ensures ImportEntries(t, format, xs + ys) == ImportEntries(t, format, xs)
    decreases |ys|
  {
    if ys != [] {
      EntriesErrorSticks(t, format, xs, ys[..|ys| - 1]);
      var p := xs + ys;
      assert p[..|p| - 1] == xs + ys[..|ys| - 1];
      ImportEntriesStep(t, format, p);
    } else {
      assert xs + ys == xs;
    }
  }

  /** One more entry after a failure leaves the result as it was. */
  lemma ImportEntriesStep(t: Tables, format: SourceFormat, entries: seq<Entry>)
    requires entries != [] && ImportEntries(t, format, entries[..|entries| - 1]).1.Some?
    ensures ImportEntries(t, format, entries) == ImportEntries(t, format, entries[..|entries| - 1])
  {
  }

  lemma {:induction false} StationsErrorSticks(xs: seq<seq<string>>, ys: seq<seq<string>>)
    requires StationsOfLines(xs).Err?
    ensures StationsOfLines(xs + ys) == StationsOfLines(xs)
    decreases |ys|
  {
    if ys != [] {
      StationsErrorSticks(xs, ys[..|ys| - 1]);
      var p := xs + ys;
      assert p[..|p| - 1] == xs + ys[..|ys| - 1];
    } else {
      assert xs + ys == xs;
    }
  }

  lemma {:induction false} SourcesErrorSticks(t: Tables, xs: seq<(SourceFormat, Result<seq<Entry>, ImportError>)>,
                                              ys: seq<(SourceFormat, Result<seq<Entry>, ImportError>)>)
    requires RefreshSources(t, xs).Err?
    ensures RefreshSources(t, xs + ys) == RefreshSources(t, xs)
    decreases |ys|
  {
    if ys != [] {
      SourcesErrorSticks(t, xs, ys[..|ys| - 1]);
      var p := xs + ys;
      assert p[..|p| - 1] == xs + ys[..|ys| - 1];
    } else {
      assert xs + ys == xs;
    }
  }

  predicate HasPrefix(p: string, s: string) {
    |p| <= |s| && s[..|p|] == p
  }

  /** A listed VIA service gets its marketing name, any other route its
      corridor name, and the two kinds of result never look alike. */
  lemma ViaRouteNameCases(name: string)
    ensures name in ViaRouteNames ==> ViaRouteName(name) == ViaRouteNames[name]
    ensures name !in ViaRouteNames ==> ViaRouteName(name) == CorridorPrefix + name
    ensures HasPrefix(CorridorPrefix, ViaRouteName(name)) <==> name !in ViaRouteNames
  {
    if name in ViaRouteNames {
      var v := ViaRouteNames[name];
      assert |v| < |CorridorPrefix| || v[0] != 'C';
    } else {
      assert (CorridorPrefix + name)[..|CorridorPrefix|] == CorridorPrefix;
    }
  }

  lemma ViaRouteNameExamples()
    ensures ViaRouteName("Jasper - Prince Rupert") == "Skeena"
    ensures ViaRouteName("X - Y") == "Corridor: X - Y"
  {
    assert "X - Y" !in ViaRouteNames;
  }

  /** A listed Amtrak code gets the table's name, any other code keeps the feed's name. */
  lemma AmtrakStationNameCases(code: string, defaultName: string)
    ensures code in AmtrakStationNames ==> AmtrakStationName(code, defaultName) == AmtrakStationNames[code]
    ensures code !in AmtrakStationNames ==> AmtrakStationName(code, defaultName) == defaultName
    ensures AmtrakStationName("NYP", defaultName) == "New York Moynihan Train Hall at Penn Station"
  {
  }

  /** VIA train numbers: an empty column is train 0, "<digits>-<anything>" is
      the number before the hyphen, and a plain int column is that int. */
  lemma ViaTripNumberCases(d: string, rest: string)
    requires d != [] && AllDigits(d) && DigitsValue(d) <= MaxInt
    ensures ViaTripNumber("") == Ok(0)
    ensures ViaTripNumber(d + "-" + rest) == Ok(DigitsValue(d) as int)
    ensures ViaTripNumber(d) == Ok(DigitsValue(d) as int)
  {
    assert IsDigit(d[0]);
    var f := d + "-" + rest;
    assert f[|d|] == '-';
    assert '-' in f;
    assert forall j :: 0 <= j < |d| ==> f[j] == d[j] && IsDigit(f[j]);
    var n := TokenEnd(f, '-', 0);
    assert n == |d|;
    assert f[..n] == d;
    assert Tokens(f, '-')[0] == d;
    assert '-' !in d by {
      forall j | 0 <= j < |d| ensures d[j] != '-' {
        assert IsDigit(d[j]);
      }
    }
  }

  /** A hyphen with nothing before the end ("-", "--") has no first token. */
  lemma ViaTripNumberBareHyphen()
    ensures ViaTripNumber("-") == Err(NoSuchElement)
  {
    assert Tokens("-", '-') == Tokens("-"[1..], '-');
  }

  /** What the San Joaquin mapper lets through: stop times and trips only for
      three-character trip ids, trip numbers read from that id, and one route,
      SJ2, always called "San Joaquins". */
  lemma SanJoaquinKeeps(name: string, line: seq<string>)
    ensures var r := MapSanJoaquin(name, line);
      && (r.Ok? && r.value.MappedStopTime? ==> name == StopTimesFile && |r.value.stopTime.tripId| == 3)
      && (r.Ok? && r.value.MappedRoute? ==> r.value.route == Route(SanJoaquinRoute, SanJoaquinName))
      && (r.Ok? && r.value.MappedTrip? ==>
            |r.value.trip.tripId| == 3 && ParseInt(r.value.trip.tripId) == Some(r.value.trip.number))
    ensures |line| > 0 && (name == StopTimesFile || name == TripsFile) && |line[0]| != 3
      ==> MapSanJoaquin(name, line) == Ok(NoRecord)
    ensures |line| > 0 && name == RoutesFile && line[0] != SanJoaquinRoute
      ==> MapSanJoaquin(name, line) == Ok(NoRecord)
  {
  }

  predicate SanJoaquinTables(t: Tables) {
    && (forall i :: 0 <= i < |t.stopTimes| ==> |t.stopTimes[i].tripId| == 3)
    && (forall i :: 0 <= i < |t.routes| ==> t.routes[i] == Route(SanJoaquinRoute, SanJoaquinName))
    && (forall i :: 0 <= i < |t.trips| ==>
          |t.trips[i].tripId| == 3 && ParseInt(t.trips[i].tripId) == Some(t.trips[i].number))
  }

  /** Importing San Joaquin lines keeps the San Joaquin filters on every list. */
  lemma {:induction false} SanJoaquinImportKeepsFilters(t: Tables, name: string, lines: seq<seq<string>>)
    requires SanJoaquinTables(t)
    ensures SanJoaquinTables(ImportLines(t, SanJoaquin, name, lines).0)
    decreases |lines|
  {
    if lines != [] {
      SanJoaquinImportKeepsFilters(t, name, lines[..|lines| - 1]);
      SanJoaquinKeeps(name, lines[|lines| - 1]);
    }
  }

  function Size(t: Tables): nat {
    |t.stopTimes| + |t.routes| + |t.trips|
  }

  /** Each line appends at most one record, and only to the list its entry names. */
  lemma MapLineTargetsEntry(format: SourceFormat, name: string, line: seq<string>)
    ensures var r := MapLine(format, name, line);
      && (r.Ok? && r.value.MappedStopTime? ==> name == StopTimesFile)
      && (r.Ok? && r.value.MappedRoute? ==> name == RoutesFile)
      && (r.Ok? && r.value.MappedTrip? ==> name == TripsFile)
  {
  }

  /** Importing one entry only appends: the lists before it stay as prefixes,
      at most one record per line is added, and lists other than the one the
      entry's name selects are untouched. */
  lemma {:induction false} ImportLinesAppends(t: Tables, format: SourceFormat, name: string, lines: seq<seq<string>>)
    ensures var r := ImportLines(t, format, name, lines).0;
      && t.stopTimes <= r.stopTimes && t.routes <= r.routes && t.trips <= r.trips
      && Size(r) <= Size(t) + |lines|
      && (name != StopTimesFile ==> r.stopTimes == t.stopTimes)
      && (name != RoutesFile ==> r.routes == t.routes)
      && (name != TripsFile ==> r.trips == t.trips)
    decreases |lines|
  {
    if lines != [] {
      ImportLinesAppends(t, format, name, lines[..|lines| - 1]);
      MapLineTargetsEntry(format, name, lines[|lines| - 1]);
    }
  }

  /** updateGTFS saves nothing when any one archive fails: the exception from
      one source ends the whole refresh. */
  lemma RefreshNeedsEverySource(amtrak: Result<seq<Entry>, ImportError>, via: Result<seq<Entry>, ImportError>,
                                sanJoaquin: Result<seq<Entry>, ImportError>, stationLines: seq<seq<string>>)
    ensures amtrak.Err? || via.Err? || sanJoaquin.Err? ==> RefreshOf(amtrak, via, sanJoaquin, stationLines).Err?
    ensures amtrak.Err? ==> RefreshOf(amtrak, via, sanJoaquin, stationLines) == Err(amtrak.error)
  {
    var srcs := [(Amtrak, amtrak), (Via, via), (SanJoaquin, sanJoaquin)];
    var t0 := Tables([], [], []);
    assert srcs[..1][..0] == [];
    assert srcs[..2][..1] == srcs[..1];
    assert srcs[..3][..2] == srcs[..2] && srcs[..3] == srcs;
    if amtrak.Err? {
      assert RefreshSources(t0, srcs[..1]) == Err(amtrak.error);
      SourcesErrorSticks(t0, srcs[..1], srcs[1..]);
      assert srcs[..1] + srcs[1..] == srcs;
    } else if via.Err? {
      assert RefreshSources(t0, srcs[..2]).Err?;
      SourcesErrorSticks(t0, srcs[..2], srcs[2..]);
      assert srcs[..2] + srcs[2..] == srcs;
    }
  }
}
