/** The city / district endpoints of the Flask service
    (`flask_learn/app.py`) over a table of cities. */
module CityApi {
  import opened Wrappers
  import opened Text

  /** One entry of the city table: `il_adi` and its `ilceler`. */
  datatype City = City(name: string, districts: seq<string>)

  /** The JSON bodies the endpoints send. */
  datatype Body =
    | CityList(status: string, cities: seq<string>)
    | Districts(status: string, city: string, districts: seq<string>)
    | Error(status: string, message: string)

  /** A response: the HTTP status code and the body. */
  datatype Response = Response(code: int, body: Body)

  /** `GET /cities`: every city name, in table order. */
  function ListCities(cities: seq<City>): (r: Response)
    ensures r.code == 200 && r.body.CityList? && r.body.status == "success"
    ensures |r.body.cities| == |cities|
    ensures forall i :: 0 <= i < |cities| ==> r.body.cities[i] == cities[i].name
  {
    Response(200, CityList("success", seq(|cities|, i requires 0 <= i < |cities| => cities[i].name)))
  }

  /** The city's name matches the query, ignoring case. */
  predicate NameMatches(c: City, query: string)
    ensures NameMatches(c, query) <==> (|c.name| == |query| &&
      forall i :: 0 <= i < |query| ==> LowerChar(c.name[i]) == LowerChar(query[i]))
  {
    assert Lower(c.name) == Lower(query) <==> (|c.name| == |query| &&
      forall i :: 0 <= i < |query| ==> Lower(c.name)[i] == Lower(query)[i]);
    Lower(c.name) == Lower(query)
  }

  /** Index of the first city from `from` on whose name matches the query. */
  function FirstMatch(cities: seq<City>, query: string, from: nat): (r: Option<nat>)
    ensures r.Some? ==> from <= r.value < |cities| && NameMatches(cities[r.value], query)
    decreases |cities| - from
  {
    if from >= |cities| then None
    else if NameMatches(cities[from], query) then Some(from)
    else FirstMatch(cities, query, from + 1)
  }

  /** The scan finds nothing exactly when no city from `from` on matches,
      and what it finds has no match before it. */
  lemma {:induction false} FirstMatchIsFirst(cities: seq<City>, query: string, from: nat)
    ensures FirstMatch(cities, query, from).None? <==>
            forall i :: from <= i < |cities| ==> !NameMatches(cities[i], query)
    ensures FirstMatch(cities, query, from).Some? ==>
            forall i :: from <= i < FirstMatch(cities, query, from).value ==> !NameMatches(cities[i], query)
    decreases |cities| - from
  {
    if from < |cities| && !NameMatches(cities[from], query) {
      FirstMatchIsFirst(cities, query, from + 1);
    }
  }

  /** `GET /districts?city=…`; `query` is `None` when the parameter is absent. */
  function GetDistricts(cities: seq<City>, query: Option<string>): (r: Response)
    ensures r.code == 400 <==> query.None? || query.value == ""
    ensures r.code == 400 ==> r.body == Error("error", "city parametre zorunlu")
    ensures r.code == 404 ==> r.body == Error("error", "Şehir bulunamadı")
    ensures r.code == 200 || r.code == 400 || r.code == 404
    ensures r.code == 200 ==> r.body.Districts? && r.body.status == "success"
  {
    if query.None? || query.value == "" then Response(400, Error("error", "city parametre zorunlu"))
    else match FirstMatch(cities, query.value, 0)
      case None => Response(404, Error("error", "Şehir bulunamadı"))
      case Some(i) => Response(200, Districts("success", cities[i].name, cities[i].districts))
  }

  /** A non-empty query is answered 404 exactly when no city matches it, and
      otherwise with the stored spelling and the districts of the first
      matching city. */
  lemma GetDistrictsFirstMatch(cities: seq<City>, query: string)
    requires query != ""
    ensures GetDistricts(cities, Some(query)).code == 404 <==>
            forall i :: 0 <= i < |cities| ==> !NameMatches(cities[i], query)
    ensures GetDistricts(cities, Some(query)).code == 200 ==>
            exists i :: 0 <= i < |cities| && NameMatches(cities[i], query)
              && (forall k :: 0 <= k < i ==> !NameMatches(cities[k], query))
              && GetDistricts(cities, Some(query)).body == Districts("success", cities[i].name, cities[i].districts)
  {
    FirstMatchIsFirst(cities, query, 0);
  }

  /** The answer does not depend on the case of the query. */
  lemma GetDistrictsIgnoresCase(cities: seq<City>, query: string)
    ensures GetDistricts(cities, Some(Lower(query))) == GetDistricts(cities, Some(query))
  {
    LowerIdempotent(query);
    if query != [] {
      assert Lower(query) != [];
      FirstMatchSameQuery(cities, Lower(query), query, 0);
    }
  }

  /** Two queries with the same lower case are looked up alike. */
  lemma {:induction false} FirstMatchSameQuery(cities: seq<City>, q1: string, q2: string, from: nat)
    requires Lower(q1) == Lower(q2)
    ensures FirstMatch(cities, q1, from) == FirstMatch(cities, q2, from)
    decreases |cities| - from
  {
    if from < |cities| {
      FirstMatchSameQuery(cities, q1, q2, from + 1);
    }
  }
}
