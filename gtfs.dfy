/** The static-schedule entities and the station directory queries. */
module Gtfs {
  import opened Common

  datatype Station = Station(id: string, adminArea: string, code: string, name: string,
                             timeZone: string, website: string)

  datatype Route = Route(routeId: string, routeName: string)

  datatype Trip = Trip(tripId: string, routeId: string, number: int, destination: string)

  datatype StopTime = StopTime(tripId: string, arrivalTime: string, departureTime: string,
                               stopId: string, stopSequence: int)

  /** findByCode: the stored station whose code is exactly the given one. */
  function FindByCode(stations: seq<Station>, code: string): (r: Option<Station>)
    ensures r.Some? ==> r.value in stations && r.value.code == code
    ensures r.None? ==> forall s :: s in stations ==> s.code != code
  {
    if stations == [] then None
    else if stations[0].code == code then Some(stations[0])
    else FindByCode(stations[1..], code)
  }

  /** findById. */
  function FindById(stations: seq<Station>, id: string): (r: Option<Station>)
    ensures r.Some? ==> r.value in stations && r.value.id == id
    ensures r.None? ==> forall s :: s in stations ==> s.id != id
  {
    if stations == [] then None
    else if stations[0].id == id then Some(stations[0])
    else FindById(stations[1..], id)
  }

  /** getStationByCode: every station whose code contains the query, ignoring case. */
  function StationsByCode(stations: seq<Station>, query: string): set<Station> {
    set s | s in stations && ContainsIgnoreCase(s.code, query)
  }

  function NameMatches(stations: seq<Station>, query: string): set<Station> {
    set s | s in stations && ContainsIgnoreCase(s.name, query)
  }

  /** getStationByName: the name search for the query, together with the name
      search for the query with every 'e' replaced by 'é'. */
  function StationsByName(stations: seq<Station>, query: string): set<Station> {
    NameMatches(stations, query) + NameMatches(stations, ReplaceChar(query, 'e', 'é'))
  }

  /** A station is found by name exactly when its name contains the query or the
      accented query; the plain results are always kept, and a query without an
      'e' gets nothing more than the plain search. */
  lemma StationsByNameMembers(stations: seq<Station>, query: string, s: Station)
    ensures s in StationsByName(stations, query) <==>
      s in stations && (ContainsIgnoreCase(s.name, query) ||
                        ContainsIgnoreCase(s.name, ReplaceChar(query, 'e', 'é')))
    ensures 'e' !in query ==> StationsByName(stations, query) == NameMatches(stations, query)
  {
    if 'e' !in query {
      assert ReplaceChar(query, 'e', 'é') == query;
    }
  }
}
