/** The city/timezone service's store (fastapi/city.py): a module-level list
    `db` of cities addressed by a 1-based `city_id`, read and popped with
    Python's signed indexing at `city_id - 1`. The time lookup that
    `get_cities` makes for each city is not modelled. */
module CityList {
  import opened Common
  import opened Seqs

  /** The body of POST /cities/ and the stored `city.dict()`. */
  datatype City = City(name: string, timezone: string)

  /** `db`, with one method per handler that touches it. */
  class CityStore {
    var db: seq<City>

    constructor ()
      ensures db == []
    {
      db := [];
    }

    /** GET /cities/{city_id}/: `db[city_id - 1]`. An id outside
        `[1 - len(db), len(db)]` raises IndexError; id 0 and negative ids
        count from the end. */
    method GetCity(cityId: int) returns (r: Result<City>)
      ensures r.Err? <==> !(-|db| <= cityId - 1 < |db|)
      ensures r.Err? ==> r.error == IndexError
      ensures r.Ok? && cityId >= 1 ==> r.value == db[cityId - 1]
      ensures r.Ok? && cityId <= 0 ==> r.value == db[|db| + cityId - 1]
    {
      match PyIndex(cityId - 1, |db|)
      case None => return Err(IndexError);
      case Some(k) => return Ok(db[k]);
    }

    /** POST /cities/: appends the city, with no uniqueness check, and
        answers with `db[-1]`. */
    method AddCity(city: City) returns (r: City)
      modifies this
      ensures db == old(db) + [city]
      ensures r == db[|db| - 1] && r == city
    {
      db := db + [city];
      r := db[|db| - 1];
    }

    /** DELETE /cities/{city_id}/: `db.pop(city_id - 1)`; the cities after
        it move down one place. Out-of-range ids raise IndexError. */
    method DeleteCity(cityId: int) returns (r: Result<()>)
      modifies this
      ensures match PyIndex(cityId - 1, |old(db)|)
              case None => r == Err(IndexError) && db == old(db)
              case Some(k) => r == Ok(()) && db == RemoveAt(old(db), k)
    {
      match PyIndex(cityId - 1, |db|)
      case None => return Err(IndexError);
      case Some(k) =>
        db := RemoveAt(db, k);
        return Ok(());
    }
  }

  /** Posting a city, reading id 1, deleting id 1 and reading id 1 again on
      an empty store: the read returns the posted record, the second read
      raises IndexError. */
  method PostGetDeleteGet(city: City) returns (added: City, got: Result<City>,
                                                deleted: Result<()>, gone: Result<City>)
    ensures added == city && got == Ok(city)
    ensures deleted == Ok(()) && gone == Err(IndexError)
  {
    var store := new CityStore();
    added := store.AddCity(city);
    got := store.GetCity(1);
    deleted := store.DeleteCity(1);
    gone := store.GetCity(1);
  }

  /** The same city posted twice is stored twice, and id 0 reads the last
      one posted. */
  method PostDuplicate(city: City, other: City)
    returns (size: nat, first: Result<City>, second: Result<City>, last: Result<City>)
    ensures size == 3
    ensures first == Ok(city) && second == Ok(city) && last == Ok(other)
  {
    var store := new CityStore();
    var _ := store.AddCity(city);
    var _ := store.AddCity(city);
    var _ := store.AddCity(other);
    size := |store.db|;
    first := store.GetCity(1);
    second := store.GetCity(2);
    last := store.GetCity(0);
  }
}
