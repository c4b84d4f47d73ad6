/** Cars kept in a document store behind a repository, identified by object ids. */
module CarService {
  import opened Common

  datatype Car = Car(make: string, model: string, year: int, color: string)

  /** What a lookup compares the stored object id with. */
  datatype Key = ObjectKey(hex: string) | NumberKey(value: Option<int>)

  /** A stored car, whose id is the hex form of its object id, answers to `key`. */
  predicate Hits(key: Key, hex: string) {
    key == ObjectKey(hex)
  }

  /** The key the routes build from the path parameter: its numeric value
      (`None` when it is not a number), which no object id equals. */
  function AsWrittenKey(toNumber: string -> Option<int>, id: string): (k: Key)
    ensures k.NumberKey?
  {
    NumberKey(toNumber(id))
  }

  /** The key that names the car whose object id is `id`. */
  function LookupKey(id: string): (k: Key)
    ensures Hits(k, id)
    ensures forall hex :: Hits(k, hex) ==> hex == id
  {
    ObjectKey(id)
  }

  /** A numeric key finds no stored car, whatever the path parameter. */
  lemma AsWrittenKeyMissesAll(toNumber: string -> Option<int>, cars: map<string, Car>, id: string)
    ensures forall hex :: hex in cars ==> !Hits(AsWrittenKey(toNumber, id), hex)
  {
  }

  /** The corrected key finds the car stored under it. */
  lemma LookupKeyFindsStored(cars: map<string, Car>, id: string)
    requires id in cars
    ensures exists hex :: hex in cars && Hits(LookupKey(id), hex) && cars[hex] == cars[id]
  {
    assert Hits(LookupKey(id), id);
  }

  const CreatePrefix: string := "BadRequestException creating car: "
  const FetchPrefix: string := "BadRequestException fetching car: "
  const UpdatePrefix: string := "BadRequestException updating car: "
  const RemovePrefix: string := "BadRequestException removing car: "
  const Deleted: string := "Car deleted successfully"

  /** Every failure inside a handler is re-raised as a bad request. */
  function Rethrown(prefix: string, t: Thrown): (e: HttpError)
    ensures e.status == BadRequest && e.message == prefix + t.Message()
  {
    HttpError(BadRequest, prefix + t.Message())
  }

  const Exists: HttpError := HttpError(BadRequest, "Car already exists")
  const CarMissing: HttpError := HttpError(BadRequest, "Car not found")
  const NothingDeleted: HttpError := HttpError(BadRequest, "Car not found or already deleted")

  /** The fields an update may carry; `Object.assign` copies the given ones. */
  datatype CarPatch = CarPatch(make: Option<string>, model: Option<string>, year: Option<int>, color: Option<string>)

  function Merged(c: Car, p: CarPatch): (r: Car)
    ensures p.make.Some? ==> r.make == p.make.value
    ensures p.model.Some? ==> r.model == p.model.value
    ensures p.year.Some? ==> r.year == p.year.value
    ensures p.color.Some? ==> r.color == p.color.value
    ensures p.make.None? ==> r.make == c.make
    ensures p.model.None? ==> r.model == c.model
    ensures p.year.None? ==> r.year == c.year
    ensures p.color.None? ==> r.color == c.color
  {
    Car(p.make.GetOr(c.make), p.model.GetOr(c.model), p.year.GetOr(c.year), p.color.GetOr(c.color))
  }

  /** Some car shares the make and model of `c`. */
  predicate SameKind(cars: map<string, Car>, c: Car) {
    exists hex :: hex in cars && cars[hex].make == c.make && cars[hex].model == c.model
  }

  /** No two cars share a make and a model. */
  predicate UniqueKinds(cars: map<string, Car>) {
    forall a, b :: a in cars && b in cars && cars[a].make == cars[b].make && cars[a].model == cars[b].model ==> a == b
  }

  /** A merge can give a car the make and model of another: `update` checks nothing. */
  lemma MergeCanDuplicate()
    ensures var cars := map["a" := Car("BMW", "X5", 2022, "black"), "b" := Car("BMW", "X6", 2020, "white")];
      UniqueKinds(cars) && !UniqueKinds(cars["b" := Merged(cars["b"], CarPatch(None, Some("X5"), None, None))])
  {
    var cars := map["a" := Car("BMW", "X5", 2022, "black"), "b" := Car("BMW", "X6", 2020, "white")];
    var after := cars["b" := Merged(cars["b"], CarPatch(None, Some("X5"), None, None))];
    assert after["a"].make == after["b"].make && after["a"].model == after["b"].model;
  }

  /** The repository: the stored cars by the hex form of their object ids. */
  class CarRepository {
    var cars: map<string, Car>

    constructor ()
      ensures cars == map[]
    {
      cars := map[];
    }

    /** The car `key` finds, if any. */
    method FindBy(key: Key) returns (r: Option<(string, Car)>)
      ensures r.Some? ==> r.value.0 in cars && Hits(key, r.value.0) && r.value.1 == cars[r.value.0]
      ensures r.None? <==> forall hex :: hex in cars ==> !Hits(key, hex)
    {
      if key.ObjectKey? && key.hex in cars {
        r := Some((key.hex, cars[key.hex]));
      } else {
        r := None;
      }
    }
  }

  /** Stores `dto` as a new car with object id `newId` unless a car of the same
      make and model exists. `save` is the store's verdict; the save is
      returned without being awaited, so its failure escapes the handler. */
  method Create(repo: CarRepository, dto: Car, newId: string, save: Verdict) returns (r: Result<(string, Car)>)
    requires newId !in repo.cars
    modifies repo`cars
    ensures SameKind(old(repo.cars), dto) ==> r == Err(Rethrown(CreatePrefix, Raised(Exists)))
    ensures !SameKind(old(repo.cars), dto) && save.Reject? ==> r == Err(Unhandled)
    ensures !SameKind(old(repo.cars), dto) && save.Accept? ==>
      r == Ok((newId, dto)) && repo.cars == old(repo.cars)[newId := dto]
    ensures r.Err? ==> repo.cars == old(repo.cars)
    ensures UniqueKinds(old(repo.cars)) ==> UniqueKinds(repo.cars)
  {
    if hex :| hex in repo.cars && repo.cars[hex].make == dto.make && repo.cars[hex].model == dto.model {
      r := Err(Rethrown(CreatePrefix, Raised(Exists)));
      return;
    }
    if save.Reject? {
      r := Err(Unhandled);
      return;
    }
    repo.cars := repo.cars[newId := dto];
    r := Ok((newId, dto));
  }

  /** The car with object id `id`. */
  method FindOne(repo: CarRepository, id: string) returns (r: Result<Car>)
    ensures id in repo.cars ==> r == Ok(repo.cars[id])
    ensures id !in repo.cars ==> r == Err(Rethrown(FetchPrefix, Raised(CarMissing)))
  {
    var found := repo.FindBy(LookupKey(id));
    if found.None? {
      r := Err(Rethrown(FetchPrefix, Raised(CarMissing)));
      return;
    }
    r := Ok(found.value.1);
  }

  /** Merges `p` onto the car with object id `id`. `save` is the store's
      verdict; as in `create`, its failure escapes the handler. */
  method Update(repo: CarRepository, id: string, p: CarPatch, save: Verdict) returns (r: Result<Car>)
    modifies repo`cars
    ensures id !in old(repo.cars) ==> r == Err(Rethrown(UpdatePrefix, Raised(CarMissing)))
    ensures id in old(repo.cars) && save.Reject? ==> r == Err(Unhandled)
    ensures id in old(repo.cars) && save.Accept? ==>
      r == Ok(Merged(old(repo.cars)[id], p)) && repo.cars == old(repo.cars)[id := r.value]
    ensures r.Err? ==> repo.cars == old(repo.cars)
  {
    var found := repo.FindBy(LookupKey(id));
    if found.None? {
      r := Err(Rethrown(UpdatePrefix, Raised(CarMissing)));
      return;
    }
    if save.Reject? {
      r := Err(Unhandled);
      return;
    }
    var c := Merged(found.value.1, p);
    repo.cars := repo.cars[id := c];
    r := Ok(c);
  }

  /** Deletes the car with object id `id`; deleting nothing is a failure.
      `delete` is the store's verdict on the delete. */
  method Remove(repo: CarRepository, id: string, delete: Verdict) returns (r: Result<string>)
    modifies repo`cars
    ensures delete.Reject? ==> r == Err(Rethrown(RemovePrefix, StoreError(delete.code, delete.message)))
    ensures delete.Accept? && id !in old(repo.cars) ==> r == Err(Rethrown(RemovePrefix, Raised(NothingDeleted)))
    ensures delete.Accept? && id in old(repo.cars) ==> r == Ok(Deleted) && repo.cars == old(repo.cars) - {id}
    ensures r.Err? ==> repo.cars == old(repo.cars)
  {
    if delete.Reject? {
      r := Err(Rethrown(RemovePrefix, StoreError(delete.code, delete.message)));
      return;
    }
    var affected := if id in repo.cars then 1 else 0;
    repo.cars := repo.cars - {id};
    if affected == 0 {
      r := Err(Rethrown(RemovePrefix, Raised(NothingDeleted)));
      return;
    }
    r := Ok(Deleted);
  }
}
