/** The index handle of the MongoDB client (mongoclient/index.go): a name,
    or a (field, direction, unique) triple, that is looked up among the
    specifications the server lists for a collection. */
module MongoIndex {
  import opened Results
  import opened MongoStore

  /** What a lookup reports about an index. */
  datatype SanitizedIndexSpec = SanitizedIndexSpec(name: string, field: string, direction: int, unique: bool)

  /** The report of a by-name match: the field and direction of the first key
      element (zero values when there is none), and unique only when the
      option is present and true. */
  function Sanitized(spec: IndexSpec): SanitizedIndexSpec {
    SanitizedIndexSpec(
      spec.name,
      if spec.keys == [] then "" else spec.keys[0].0,
      if spec.keys == [] then 0 else spec.keys[0].1,
      spec.unique.Some? && spec.unique.value)
  }

  /** The unique test of the by-field match. */
  predicate UniqueMatches(spec: IndexSpec, unique: bool) {
    (!unique && spec.unique.None?) || (spec.unique.Some? && unique == spec.unique.value)
  }

  predicate HasKey(spec: IndexSpec, field: string, direction: int) {
    exists j :: 0 <= j < |spec.keys| && spec.keys[j] == (field, direction)
  }

  predicate FieldMatches(spec: IndexSpec, field: string, direction: int, unique: bool) {
    UniqueMatches(spec, unique) && HasKey(spec, field, direction)
  }

  /** An absent unique option counts as false: the by-field unique test is
      equality with the option as the server applies it. */
  lemma UniqueMatchesOption(spec: IndexSpec, unique: bool)
    ensures UniqueMatches(spec, unique) <==> UniqueOption(spec.unique) == unique
  {
  }

  /** The position of the first specification the by-field test accepts, or
      the length when there is none. */
  function FirstMatching(specs: seq<IndexSpec>, field: string, direction: int, unique: bool): (k: nat)
    ensures k <= |specs|
    ensures forall j :: 0 <= j < k ==> !FieldMatches(specs[j], field, direction, unique)
    ensures k < |specs| ==> FieldMatches(specs[k], field, direction, unique)
  {
    if specs == [] then 0
    else if FieldMatches(specs[0], field, direction, unique) then 0
    else 1 + FirstMatching(specs[1..], field, direction, unique)
  }

  /** The by-name lookup: the first specification with that name, sanitised. */
  function ByName(specs: seq<IndexSpec>, name: string): (r: Option<SanitizedIndexSpec>)
    ensures r.Some? <==> SomeNamed(specs, name)
    ensures r.Some? ==> r.value.name == name
    ensures r.Some? ==> (exists i :: 0 <= i < |specs| && specs[i].name == name &&
                           (forall j :: 0 <= j < i ==> specs[j].name != name) && r.value == Sanitized(specs[i]))
  {
    var k := FirstNamed(specs, name);
    if k < |specs| then Some(Sanitized(specs[k])) else None
  }

  /** The by-field lookup: the first specification that passes the unique
      test and has the key element (field, direction); the report carries
      that specification's name and the requested field, direction and
      unique. */
  function ByField(specs: seq<IndexSpec>, field: string, direction: int, unique: bool): (r: Option<SanitizedIndexSpec>)
    ensures r.Some? <==> exists i :: 0 <= i < |specs| && FieldMatches(specs[i], field, direction, unique)
    ensures r.Some? ==> r.value.field == field && r.value.direction == direction && r.value.unique == unique
    ensures r.Some? ==> (exists i :: 0 <= i < |specs| && FieldMatches(specs[i], field, direction, unique) &&
                           (forall j :: 0 <= j < i ==> !FieldMatches(specs[j], field, direction, unique)) &&
                           r.value.name == specs[i].name)
  {
    var k := FirstMatching(specs, field, direction, unique);
    if k < |specs| then Some(SanitizedIndexSpec(specs[k].name, field, direction, unique)) else None
  }

  /** `GetSpec`'s choice of lookup: by field when the handle has no name,
      otherwise by name alone. */
  function Lookup(specs: seq<IndexSpec>, name: string, field: string, direction: int, unique: bool): Option<SanitizedIndexSpec> {
    if name == "" then ByField(specs, field, direction, unique) else ByName(specs, name)
  }

  /** The effect of `EnsureExistance` on the server and on the handle's name:
      a handle that already finds its index changes nothing; otherwise an
      unset field or direction is an error, and else the index
      {field: direction} is created under the name the driver generates. */
  function EnsuredIndex(st: Store, d: string, c: string, name: string, field: string, direction: int,
                        unique: bool, generated: string): Result<(Store, string)> {
    if Lookup(Indexes(st, d, c), name, field, direction, unique).Some? then Ok((st, name))
    else if field == "" || direction == 0 then Err("unexpected error: field and direction must be set")
    else CreateIndex(st, d, c, field, direction, unique, generated)
  }

  /** Idempotence: the handle as `EnsureExistance` leaves it finds its index,
      so a second call changes neither the server nor the name. */
  lemma EnsureTwice(st: Store, d: string, c: string, name: string, field: string, direction: int,
                    unique: bool, generated: string, generated2: string)
    requires EnsuredIndex(st, d, c, name, field, direction, unique, generated).Ok?
    ensures var (st', name') := EnsuredIndex(st, d, c, name, field, direction, unique, generated).value;
      EnsuredIndex(st', d, c, name', field, direction, unique, generated2) == Ok((st', name'))
  {
    var (st', name') := EnsuredIndex(st, d, c, name, field, direction, unique, generated).value;
    if Lookup(Indexes(st, d, c), name, field, direction, unique).None? {
      CreatedIsFound(st, d, c, field, direction, unique, generated);
    }
  }

  /** After `EnsureExistance` on a handle built from a field, a fresh handle
      for the same field, direction and unique finds an index, so it adds no
      new one. */
  lemma EnsureThenByField(st: Store, d: string, c: string, field: string, direction: int,
                          unique: bool, generated: string, generated2: string)
    requires EnsuredIndex(st, d, c, "", field, direction, unique, generated).Ok?
    ensures var st' := EnsuredIndex(st, d, c, "", field, direction, unique, generated).value.0;
      EnsuredIndex(st', d, c, "", field, direction, unique, generated2) == Ok((st', ""))
  {
    if Lookup(Indexes(st, d, c), "", field, direction, unique).None? {
      CreatedIsFound(st, d, c, field, direction, unique, generated);
    }
  }

  /** After `EnsureExistance` on a handle built from a field, the server
      holds an index with that key element and unique option. */
  lemma EnsuredIsFound(st: Store, d: string, c: string, field: string, direction: int,
                       unique: bool, generated: string)
    requires EnsuredIndex(st, d, c, "", field, direction, unique, generated).Ok?
    ensures ByField(Indexes(EnsuredIndex(st, d, c, "", field, direction, unique, generated).value.0, d, c),
                    field, direction, unique).Some?
  {
    if ByField(Indexes(st, d, c), field, direction, unique).None? {
      CreatedIsFound(st, d, c, field, direction, unique, generated);
    }
  }

  /** The index CreateOne reports is found both by its name and by its field. */
  lemma CreatedIsFound(st: Store, d: string, c: string, field: string, direction: int, unique: bool, generated: string)
    requires CreateIndex(st, d, c, field, direction, unique, generated).Ok?
    ensures var st' := CreateIndex(st, d, c, field, direction, unique, generated).value.0;
      ByName(Indexes(st', d, c), generated).Some? && ByField(Indexes(st', d, c), field, direction, unique).Some?
  {
    var st' := CreateIndex(st, d, c, field, direction, unique, generated).value.0;
    var specs := Indexes(st', d, c);
    var i :| 0 <= i < |specs| && specs[i].name == generated && specs[i].keys == [(field, direction)] &&
             UniqueOption(specs[i].unique) == unique;
    UniqueMatchesOption(specs[i], unique);
    assert specs[i].keys[0] == (field, direction);
    assert FieldMatches(specs[i], field, direction, unique);
  }

  /** The `Index` handle. Only its name is changed by the client code after
      it is built (`EnsureExistance`), and `Hydrate` overwrites all four
      fields. */
  class Index {
    const client: Client
    const database: string
    const collection: string
    var name: string
    var field: string
    var direction: int
    var unique: bool

    constructor (client: Client, database: string, collection: string, name: string, field: string,
                 direction: int, unique: bool)
      ensures this.client == client && this.database == database && this.collection == collection
      ensures this.name == name && this.field == field && this.direction == direction && this.unique == unique
    {
      this.client := client;
      this.database := database;
      this.collection := collection;
      this.name := name;
      this.field := field;
      this.direction := direction;
      this.unique := unique;
    }

    /** `findIndexByName`: the first specification with that name. */
    method FindIndexByName(name: string, specs: seq<IndexSpec>) returns (r: Option<SanitizedIndexSpec>)
      ensures r == ByName(specs, name)
    {
      for i := 0 to |specs|
        invariant forall j :: 0 <= j < i ==> specs[j].name != name
      {
        if specs[i].name == name {
          var field := "";
          var direction := 0;
          if |specs[i].keys| > 0 {
            field := specs[i].keys[0].0;
            direction := specs[i].keys[0].1;
          }
          var unique := false;
          if specs[i].unique.Some? && specs[i].unique.value {
            unique := true;
          }
          return Some(SanitizedIndexSpec(specs[i].name, field, direction, unique));
        }
      }
      return None;
    }

    /** `findIndexByField`: the first specification that passes the unique
        test and holds the key element (field, direction). */
    method FindIndexByField(field: string, direction: int, unique: bool, specs: seq<IndexSpec>)
      returns (r: Option<SanitizedIndexSpec>)
      ensures r == ByField(specs, field, direction, unique)
    {
      for i := 0 to |specs|
        invariant forall j :: 0 <= j < i ==> !FieldMatches(specs[j], field, direction, unique)
      {
        var spec := specs[i];
        var uniqueMatches := (!unique && spec.unique.None?) || (spec.unique.Some? && unique == spec.unique.value);
        if uniqueMatches {
          for e := 0 to |spec.keys|
            invariant forall j :: 0 <= j < e ==> spec.keys[j] != (field, direction)
          {
            if spec.keys[e].0 == field && spec.keys[e].1 == direction {
              return Some(SanitizedIndexSpec(spec.name, field, direction, unique));
            }
          }
        }
      }
      return None;
    }

    /** `GetSpec`: lists the collection's specifications and looks the handle
        up in them; no match is `None`, not an error. */
    method GetSpec() returns (spec: Option<SanitizedIndexSpec>)
      ensures spec == Lookup(Indexes(client.store, database, collection), name, field, direction, unique)
    {
      var specs := Indexes(client.store, database, collection);
      if name == "" {
        spec := FindIndexByField(field, direction, unique, specs);
      } else {
        spec := FindIndexByName(name, specs);
      }
    }

    /** `Exists`: whether `GetSpec` finds a specification. */
    method Exists() returns (exists_: bool)
      ensures exists_ <==> Lookup(Indexes(client.store, database, collection), name, field, direction, unique).Some?
    {
      var spec := GetSpec();
      exists_ := spec.Some?;
    }

    /** `Hydrate`: copies a report into the handle. */
    method Hydrate(spec: SanitizedIndexSpec)
      modifies this
      ensures name == spec.name && field == spec.field && direction == spec.direction && unique == spec.unique
    {
      name := spec.name;
      field := spec.field;
      direction := spec.direction;
      unique := spec.unique;
    }

    /** `EnsureExistance`, with the name the driver would generate for the
        new index as an input. */
    method EnsureExistance(generated: string) returns (err: Option<string>)
      modifies this`name, client`store
      ensures field == old(field) && direction == old(direction) && unique == old(unique)
      ensures match EnsuredIndex(old(client.store), database, collection, old(name), field, direction, unique, generated)
        case Ok((st, n)) => err.None? && client.store == st && name == n
        case Err(m) => err == Some(m) && client.store == old(client.store) && name == old(name)
    {
      var spec := GetSpec();
      if spec.Some? {
        return None;
      }
      if field == "" || direction == 0 {
        return Some("unexpected error: field and direction must be set");
      }
      var created := CreateIndex(client.store, database, collection, field, direction, unique, generated);
      if created.Err? {
        return Some(created.message);
      }
      client.store := created.value.0;
      name := created.value.1;
      return None;
    }

    /** `Drop`: `DropOne` of the handle's name. */
    method Drop() returns (err: Option<string>)
      modifies client`store
      ensures match DropIndex(old(client.store), database, collection, name)
        case Ok(st) => err.None? && client.store == st
        case Err(m) => err == Some(m) && client.store == old(client.store)
    {
      var dropped := DropIndex(client.store, database, collection, name);
      if dropped.Err? {
        return Some(dropped.message);
      }
      client.store := dropped.value;
      return None;
    }
  }
}
