/** The city/weather service's store (fastapi/city_weather.py): a
    module-level set `cities` of normalised names. The weather and time
    lookups that `get_city` and `get_cities` make for each name are not
    modelled; those handlers answer with the names they would look up. */
module CityWeather {
  import opened Common
  import opened Text

  /** What GET /cities answers before any upstream call. */
  datatype Listing = NoCitiesAvailable | FetchEach(names: set<string>)

  /** `cities`, with one method per handler that touches it. */
  class CityRegistry {
    var cities: set<string>

    /** Every stored name is in the form `strip().lower()` produces, so it
        is its own normalisation (Text.NormalizedIffFixed). */
    ghost predicate Valid()
      reads this
    {
      forall c :: c in cities ==> IsNormalized(c)
    }

    constructor ()
      ensures Valid() && cities == {}
    {
      cities := {};
    }

    /** POST /city/: 400 when the normalised name is already present,
        otherwise adds it and answers with it. */
    method CreateCity(city: string) returns (r: Result<string>)
      requires Valid()
      modifies this
      ensures Valid()
      ensures Normalize(city) in old(cities) ==> r == Err(BadRequest) && cities == old(cities)
      ensures Normalize(city) !in old(cities) ==>
                r == Ok(Normalize(city)) && cities == old(cities) + {Normalize(city)}
    {
      var name := Normalize(city);
      if name in cities {
        return Err(BadRequest);
      }
      NormalizeIsNormalized(city);
      cities := cities + {name};
      return Ok(name);
    }

    /** GET /city/{city}: 404 exactly when the normalised name is absent;
        otherwise the name whose weather and time are fetched. */
    method GetCity(city: string) returns (r: Result<string>)
      ensures r.Err? <==> Normalize(city) !in cities
      ensures r.Err? ==> r.error == NotFound
      ensures r.Ok? ==> r.value == Normalize(city) && r.value in cities
    {
      var name := Normalize(city);
      if name !in cities {
        return Err(NotFound);
      }
      return Ok(name);
    }

    /** DELETE /city/{city}: 404 when the normalised name is absent,
        otherwise removes exactly that name. */
    method DeleteCity(city: string) returns (r: Result<()>)
      requires Valid()
      modifies this
      ensures Valid()
      ensures Normalize(city) !in old(cities) ==> r == Err(NotFound) && cities == old(cities)
      ensures Normalize(city) in old(cities) ==>
                r == Ok(()) && cities == old(cities) - {Normalize(city)}
    {
      var name := Normalize(city);
      if name !in cities {
        return Err(NotFound);
      }
      cities := cities - {name};
      return Ok(());
    }

    /** GET /cities: the "No cities available" message for an empty set,
        otherwise one upstream lookup per stored name. */
    function ListCities(): (r: Listing)
      reads this
      ensures r == NoCitiesAvailable <==> cities == {}
      ensures r.FetchEach? ==> r.names == cities
    {
      if cities == {} then NoCitiesAvailable else FetchEach(cities)
    }
  }

  /** Every name a valid registry holds is its own `strip().lower()`. */
  lemma StoredNamesAreNormalized(registry: CityRegistry)
    requires registry.Valid()
    ensures forall c :: c in registry.cities ==> Normalize(c) == c
  {
  }

  /** Posting a city twice, the second time in another case or with other
      surrounding whitespace, succeeds once and then answers 400; the set
      holds the one normalised name. */
  method PostTwice(first: string, second: string) returns (r1: Result<string>, r2: Result<string>)
    requires Normalize(first) == Normalize(second)
    ensures r1 == Ok(Normalize(first))
    ensures r2 == Err(BadRequest)
  {
    var registry := new CityRegistry();
    r1 := registry.CreateCity(first);
    r2 := registry.CreateCity(second);
    assert registry.cities == {Normalize(first)};
  }

  /** Adding a new city and deleting it under any spelling with the same
      normalised form gives back the set it started from; a later lookup
      answers 404. */
  method CreateThenDelete(registry: CityRegistry, city: string, spelling: string)
    returns (created: Result<string>, deleted: Result<()>, lookup: Result<string>)
    requires registry.Valid() && Normalize(city) !in registry.cities
    requires Normalize(spelling) == Normalize(city)
    modifies registry
    ensures registry.Valid() && registry.cities == old(registry.cities)
    ensures created.Ok? && deleted.Ok? && lookup == Err(NotFound)
  {
    created := registry.CreateCity(city);
    deleted := registry.DeleteCity(spelling);
    lookup := registry.GetCity(city);
  }
}
