/** The livestock tables: the species catalogue `animaux_types_catalogue`,
    read only, and the owner-scoped `animaux_elevage_utilisateur`, whose
    `animal_type_id` is an integer column referencing the catalogue. The
    listing and the lookup join the two tables; the count does not. */
module ElevageService {
  import opened Common
  import opened Json
  import opened Http
  import opened Postgres
  import opened Sorting
  import opened Pagination
  import opened SetBuilder

  const InvalidType := "Type d'animal invalide."
  const InvalidTypeOnUpdate := "Type d'animal invalide pour MàJ."
  const NothingToUpdate := "Aucun champ à mettre à jour."

  const TypeNotInCatalogue := DbError(ForeignKeyViolation, "violates foreign key constraint on animal_type_id")

  /** One species of the catalogue. */
  datatype AnimalType = AnimalType(id: nat, species: string, description: Json)

  /** One animal of a user: `typeId` is the stored `animal_type_id`
      (`None` for NULL); the other columns keep the client's values. */
  datatype Animal = Animal(id: nat, owner: nat, typeId: Option<int>, tag: Json, birth: Json, health: Json)

  /** A row of the listing: the animal's columns without its owner, with
      the species name and id from the catalogue. */
  datatype Listed = Listed(id: nat, tag: Json, birth: Json, health: Json, species: string, typeId: int)

  /** A row of the lookup: every column of the animal and the species
      name. */
  datatype Detail = Detail(animal: Animal, species: string)

  /** The species name of the catalogue entry with id `t`. */
  function SpeciesOf(types: seq<AnimalType>, t: int): (r: Option<string>)
    ensures r.Some? <==> exists k :: 0 <= k < |types| && types[k].id == t
    ensures r.Some? ==> exists k :: 0 <= k < |types| && types[k].id == t && types[k].species == r.value
  {
    if types == [] then None
    else if types[0].id == t then Some(types[0].species)
    else
      var r := SpeciesOf(types[1..], t);
      assert forall k :: 0 < k < |types| ==> types[1..][k - 1] == types[k];
      r
  }

  /** `ORDER BY nom_espece`, in code-point order. */
  predicate BySpecies(a: AnimalType, b: AnimalType)
  {
    StrLe(a.species, b.species)
  }

  lemma BySpeciesIsTotalPreorder()
    ensures TotalPreorder(BySpecies)
  {
    forall a: AnimalType, b: AnimalType
      ensures BySpecies(a, b) || BySpecies(b, a)
    {
      StrLeTotal(a.species, b.species);
    }
    forall a: AnimalType, b: AnimalType, c: AnimalType | BySpecies(a, b) && BySpecies(b, c)
      ensures BySpecies(a, c)
    {
      StrLeTransitive(a.species, b.species, c.species);
    }
  }

  /** The database's verdict on the row a statement produces: `engine`
      stands for the constraints other than the type's foreign key, which
      PostgreSQL checks after them; a foreign-key violation is the 400
      with the operation's message. */
  function RowVerdict(types: seq<AnimalType>, a: Animal, engine: Animal -> Option<DbError>, msg: string): (f: Option<Failure>)
    ensures f.None? <==> engine(a).None? && (a.typeId.Some? ==> SpeciesOf(types, a.typeId.value).Some?)
    ensures engine(a).Some? ==> f == Some(ForeignKeyFailure(engine(a).value, msg))
    ensures engine(a).None? && f.Some? ==> f == Some(Raised(400, msg))
  {
    if engine(a).Some? then Some(ForeignKeyFailure(engine(a).value, msg))
    else if a.typeId.Some? && SpeciesOf(types, a.typeId.value).None? then Some(ForeignKeyFailure(TypeNotInCatalogue, msg))
    else None
  }

  /** A value bound to a placeholder of the update. */
  datatype Bound = Value(j: Json) | Key(n: nat)

  /** The four updatable columns in the order the update tests them. */
  function Candidates(data: Json): (c: seq<Candidate<Bound>>)
    ensures |c| == 4
  {
    [Candidate("animal_type_id", "", MapOption(Get(data, "animal_type_id"), j => Value(j))),
     Candidate("identifiant_animal", "", MapOption(Get(data, "identifiant_animal"), j => Value(j))),
     Candidate("date_naissance_approx", "", MapOption(Get(data, "date_naissance_approx"), j => Value(j))),
     Candidate("notes_sante", "", MapOption(Get(data, "notes_sante"), j => Value(j)))]
  }

  const UpdatableKeys: seq<string> :=
    ["animal_type_id", "identifiant_animal", "date_naissance_approx", "notes_sante"]

  /** The update has nothing to set exactly when none of the four keys is
      present. */
  lemma NothingToUpdateIff(data: Json)
    ensures Defined(Candidates(data)) == [] <==>
      forall k :: 0 <= k < |UpdatableKeys| ==> Get(data, UpdatableKeys[k]).None?
  {
    var c := Candidates(data);
    assert forall k :: 0 <= k < 4 ==> (c[k].value.None? <==> Get(data, UpdatableKeys[k]).None?);
  }

  /** What one `SET` clause does to the row. */
  function Assign(row: Animal, column: string, p: Bound): Animal
  {
    match p
    case Value(j) =>
      if column == "animal_type_id" then row.(typeId := Stored(IntegerColumn(Some(j)), row.typeId))
      else if column == "identifiant_animal" then row.(tag := j)
      else if column == "date_naissance_approx" then row.(birth := j)
      else if column == "notes_sante" then row.(health := j)
      else row
    case Key(_) => row
  }

  /** The partial update stated field by field: a present key replaces its
      column, an absent one keeps it. */
  function Patch(row: Animal, data: Json): Animal
  {
    var t := Get(data, "animal_type_id");
    row.(typeId := if t.Some? then Stored(IntegerColumn(t), row.typeId) else row.typeId,
         tag := Or(Get(data, "identifiant_animal"), row.tag),
         birth := Or(Get(data, "date_naissance_approx"), row.birth),
         health := Or(Get(data, "notes_sante"), row.health))
  }

  function Or(v: Option<Json>, otherwise: Json): Json
  {
    if v.Some? then v.value else otherwise
  }

  /** Setting the present fields one after the other is the patch. */
  lemma CandidatesArePatch(row: Animal, data: Json)
    ensures ApplyDefined(Candidates(data), row, Assign) == Patch(row, data)
  {
    var c := Candidates(data);
    assert c == c[..3] + [c[3]];
    assert c[..3] == c[..2] + [c[2]];
    assert c[..2] == c[..1] + [c[1]];
    assert c[..1] == [] + [c[0]];
    ApplyDefinedSnoc([], c[0], row, Assign);
    ApplyDefinedSnoc(c[..1], c[1], row, Assign);
    ApplyDefinedSnoc(c[..2], c[2], row, Assign);
    ApplyDefinedSnoc(c[..3], c[3], row, Assign);
  }

  /** The statement the update builds changes a matching row into exactly
      the field-by-field patch. */
  lemma UpdateIsPatch(data: Json, id: nat, owner: nat, row: Animal)
    requires UpdateOf(Candidates(data), Key(id), Key(owner)).Some?
    ensures forall i :: 0 <= i < |UpdateOf(Candidates(data), Key(id), Key(owner)).value.sets| ==>
      1 <= UpdateOf(Candidates(data), Key(id), Key(owner)).value.sets[i].param <=
           |UpdateOf(Candidates(data), Key(id), Key(owner)).value.values|
    ensures ApplySets(UpdateOf(Candidates(data), Key(id), Key(owner)).value.sets,
                      UpdateOf(Candidates(data), Key(id), Key(owner)).value.values, row, Assign) ==
            Patch(row, data)
  {
    UpdateMeansDefined(Candidates(data), Key(id), Key(owner), row, Assign);
    CandidatesArePatch(row, data);
  }

  /** `updateAnimalUtilisateur`'s query builder: the four tests with the
      running `paramCount`, then the `WHERE` placeholders; no present key
      is the 400 error, thrown before any query. */
  method BuildUpdate(data: Json, id: nat, owner: nat) returns (r: Result<Query<Bound>, Failure>)
    ensures UpdateOf(Candidates(data), Key(id), Key(owner)).None? ==> r == Err(Raised(400, NothingToUpdate))
    ensures UpdateOf(Candidates(data), Key(id), Key(owner)).Some? ==>
      r == Ok(Render(UpdateOf(Candidates(data), Key(id), Key(owner)).value))
  {
    var cands := Candidates(data);
    var setClauses, values, paramIndex := CollectSets(cands);
    var q := Complete(cands, setClauses, values, paramIndex, Key(id), Key(owner));
    if q.None? {
      return Err(Raised(400, NothingToUpdate));
    }
    r := Ok(q.value);
  }

  /** The four tests of the update, in its order. */
  method CollectSets(cands: seq<Candidate<Bound>>) returns (setClauses: seq<string>, values: seq<Bound>, paramIndex: nat)
    requires |cands| == 4
    ensures BuiltUpTo(cands, 4, setClauses, values, paramIndex)
  {
    setClauses, values, paramIndex := [], [], 1;
    assert cands[..0] == [];
    setClauses, values, paramIndex := Test(cands, 0, setClauses, values, paramIndex);
    setClauses, values, paramIndex := Test(cands, 1, setClauses, values, paramIndex);
    setClauses, values, paramIndex := Test(cands, 2, setClauses, values, paramIndex);
    setClauses, values, paramIndex := Test(cands, 3, setClauses, values, paramIndex);
  }

  /** The row a matched `UPDATE` leaves: the statement's clauses run on
      the row, which is the field-by-field patch. */
  function Executed(data: Json, id: nat, owner: nat, row: Animal): (a: Animal)
    requires UpdateOf(Candidates(data), Key(id), Key(owner)).Some?
    ensures a == Patch(row, data)
    ensures a.id == row.id && a.owner == row.owner
  {
    var st := UpdateOf(Candidates(data), Key(id), Key(owner)).value;
    UpdateIsPatch(data, id, owner, row);
    ApplySets(st.sets, st.values, row, Assign)
  }

  /** `ORDER BY aeu.id DESC`. */
  predicate IdDescending(a: Listed, b: Listed)
  {
    a.id >= b.id
  }

  class ElevageTables {
    var types: seq<AnimalType>
    var animals: map<nat, Animal>
    var nextId: nat

    /** Rows are keyed by their id, below the sequence's next value, and a
        non-null type is in the catalogue (the foreign key). */
    ghost predicate Valid()
      reads this
    {
      forall id :: id in animals ==>
        id < nextId && animals[id].id == id &&
        (animals[id].typeId.Some? ==> SpeciesOf(types, animals[id].typeId.value).Some?)
    }

    constructor (catalogue: seq<AnimalType>)
      ensures Valid() && types == catalogue && animals == map[] && nextId == 1
    {
      types := catalogue;
      animals := map[];
      nextId := 1;
    }

    /** `getTypesAnimaux`: the catalogue by species name, page 1 and limit
        20 when not given. */
    function GetTypesAnimaux(page: Option<int>, limit: Option<int>): (r: Result<Page<AnimalType>, DbError>)
      reads this
      requires limit != Some(0)
      ensures var p, l := OrDefault(page, 1), OrDefault(limit, 20);
        (r.Ok? <==> Pageable(p, l)) &&
        (r.Ok? ==>
          var sorted := SortBy(types, BySpecies);
          r.value.pagination == PageInfo(p, CeilDiv(|types|, l), |types|, l) &&
          0 <= Min(|sorted|, (p - 1) * l) <= Min(|sorted|, p * l) <= |sorted| &&
          r.value.data == sorted[Min(|sorted|, (p - 1) * l)..Min(|sorted|, p * l)] &&
          |r.value.data| <= l &&
          SortedBy(r.value.data, BySpecies) &&
          forall t :: t in r.value.data ==> t in types)
    {
      var p, l := OrDefault(page, 1), OrDefault(limit, 20);
      var sorted := SortBy(types, BySpecies);
      var r := Paginate(sorted, |types|, p, l);
      if r.Ok? then
        BySpeciesIsTotalPreorder();
        SortBySorted(types, BySpecies);
        PageOfSorted(sorted, |types|, BySpecies, p, l);
        assert forall t :: t in sorted ==> t in multiset(types);
        r
      else r
    }

    /** `addAnimalUtilisateur`: a body value the type column cannot read
        is refused when the statement is bound, before the sequence moves;
        otherwise the insert takes the sequence's next value, and the row
        is stored unless the database refuses it (`engine` is its verdict
        on the other constraints) or its type is not in the catalogue.
        Either foreign-key violation is the 400. */
    method AddAnimalUtilisateur(owner: nat, data: Json, engine: Animal -> Option<DbError>)
      returns (r: Result<Animal, Failure>)
      requires Valid()
      modifies this
      ensures Valid() && types == old(types)
      ensures IntegerColumn(Get(data, "animal_type_id")).Refused? ==>
        r == Err(Database(IntegerColumn(Get(data, "animal_type_id")).e)) &&
        animals == old(animals) && nextId == old(nextId)
      ensures !IntegerColumn(Get(data, "animal_type_id")).Refused? ==>
        nextId == old(nextId) + 1 &&
        var a := NewAnimal(old(nextId), owner, data);
        match RowVerdict(types, a, engine, InvalidType)
        case Some(f) => r == Err(f) && animals == old(animals)
        case None => r == Ok(a) && animals == old(animals)[a.id := a]
    {
      var column := IntegerColumn(Get(data, "animal_type_id"));
      if column.Refused? {
        return Err(Database(column.e));
      }
      var a := NewAnimal(nextId, owner, data);
      nextId := nextId + 1;
      var failure := RowVerdict(types, a, engine, InvalidType);
      if failure.Some? {
        return Err(failure.value);
      }
      animals := animals[a.id := a];
      r := Ok(a);
    }

    /** The caller's rows below `n` that join a catalogue entry, greatest
        id first. */
    function ListedBelow(owner: nat, n: nat): (vs: seq<Listed>)
      reads this
      ensures forall k :: 0 <= k < |vs| ==> vs[k].id < n && Joined(vs[k].id, owner) && vs[k] == ListedRow(vs[k].id)
      ensures forall k, l :: 0 <= k < l < |vs| ==> vs[k].id > vs[l].id
    {
      if n == 0 then []
      else
        var rest := ListedBelow(owner, n - 1);
        if Joined(n - 1, owner) then [ListedRow(n - 1)] + rest else rest
    }

    /** Every joined row of the caller below `n` is listed. */
    lemma {:induction false} ListingComplete(owner: nat, n: nat)
      ensures forall id: nat :: id < n && Joined(id, owner) ==> ListedRow(id) in ListedBelow(owner, n)
    {
      if n > 0 {
        ListingComplete(owner, n - 1);
      }
    }

    /** The animal `id` is the caller's and its type joins the catalogue. */
    predicate Joined(id: nat, owner: nat)
      reads this
    {
      id in animals && animals[id].owner == owner && animals[id].typeId.Some? &&
      SpeciesOf(types, animals[id].typeId.value).Some?
    }

    function ListedRow(id: nat): (v: Listed)
      reads this
      requires id in animals && animals[id].typeId.Some? && SpeciesOf(types, animals[id].typeId.value).Some?
      ensures v.id == id
    {
      var a := animals[id];
      Listed(id, a.tag, a.birth, a.health, SpeciesOf(types, a.typeId.value).value, a.typeId.value)
    }

    /** `COUNT(*)` of the caller's rows below `n`, joined or not. */
    function CountOwned(owner: nat, n: nat): nat
      reads this
    {
      if n == 0 then 0
      else CountOwned(owner, n - 1) + (if n - 1 in animals && animals[n - 1].owner == owner then 1 else 0)
    }

    /** The count is at least the number of listed rows, and is that
        number exactly when none of the caller's rows has a NULL type. */
    lemma {:induction false} CountCoversListing(owner: nat, n: nat)
      requires Valid()
      ensures CountOwned(owner, n) >= |ListedBelow(owner, n)|
      ensures CountOwned(owner, n) == |ListedBelow(owner, n)| <==> NoNullType(owner, n)
    {
      if n > 0 {
        CountCoversListing(owner, n - 1);
        var id := n - 1;
        var owned := id in animals && animals[id].owner == owner;
        assert Joined(id, owner) <==> owned && animals[id].typeId.Some?;
        assert CountOwned(owner, n) == CountOwned(owner, id) + (if owned then 1 else 0);
        assert |ListedBelow(owner, n)| == |ListedBelow(owner, id)| + (if Joined(id, owner) then 1 else 0);
        assert NoNullType(owner, n) <==> NoNullType(owner, id) && (owned ==> animals[id].typeId.Some?);
      }
    }

    /** None of the caller's rows below `n` has a NULL type. */
    predicate NoNullType(owner: nat, n: nat)
      reads this
    {
      forall id: nat :: id < n && id in animals && animals[id].owner == owner ==> animals[id].typeId.Some?
    }

    /** `getAnimauxUtilisateur`: the caller's joined rows, greatest id
        first, page 1 and limit 10 when not given, with the count of all
        the caller's rows. */
    function GetAnimauxUtilisateur(owner: nat, page: Option<int>, limit: Option<int>): (r: Result<Page<Listed>, DbError>)
      reads this
      requires limit != Some(0)
      ensures var p, l := OrDefault(page, 1), OrDefault(limit, 10);
        (r.Ok? <==> Pageable(p, l)) &&
        (r.Ok? ==>
          var listed := ListedBelow(owner, nextId);
          r.value.pagination == PageInfo(p, CeilDiv(CountOwned(owner, nextId), l), CountOwned(owner, nextId), l) &&
          0 <= Min(|listed|, (p - 1) * l) <= Min(|listed|, p * l) <= |listed| &&
          r.value.data == listed[Min(|listed|, (p - 1) * l)..Min(|listed|, p * l)] &&
          |r.value.data| <= l &&
          SortedBy(r.value.data, IdDescending) &&
          forall v :: v in r.value.data ==> Joined(v.id, owner) && v == ListedRow(v.id))
    {
      var p, l := OrDefault(page, 1), OrDefault(limit, 10);
      var listed := ListedBelow(owner, nextId);
      var r := Paginate(listed, CountOwned(owner, nextId), p, l);
      if r.Ok? then
        PageOfSorted(listed, CountOwned(owner, nextId), IdDescending, p, l);
        r
      else r
    }

    /** `getAnimalUtilisateurById`: the caller's animal with its species,
        or `None`; an animal with a NULL type does not join. */
    function GetAnimalUtilisateurById(id: nat, owner: nat): (r: Option<Detail>)
      reads this
      ensures r.Some? <==> Joined(id, owner)
      ensures r.Some? ==> r.value.animal == animals[id] && SpeciesOf(types, animals[id].typeId.value) == Some(r.value.species)
    {
      if Joined(id, owner) then Some(Detail(animals[id], SpeciesOf(types, animals[id].typeId.value).value)) else None
    }

    /** Under the foreign key, the lookup misses exactly the rows that are
        not the caller's and the caller's rows of NULL type. */
    lemma LookupUnderForeignKey(id: nat, owner: nat)
      requires Valid()
      ensures GetAnimalUtilisateurById(id, owner).Some? <==>
        id in animals && animals[id].owner == owner && animals[id].typeId.Some?
    {
    }

    /** `updateAnimalUtilisateur`: the 400 when no updatable key is present
        (before any query); a type the column cannot read is refused when
        the statement is bound, whether or not a row matches; otherwise
        the caller's row with that id becomes the patch, or nothing
        happens when there is none. A foreign-key violation is the 400 of
        the update. */
    method UpdateAnimalUtilisateur(id: nat, owner: nat, data: Json, engine: Animal -> Option<DbError>)
      returns (r: Result<Option<Animal>, Failure>)
      requires Valid()
      modifies this
      ensures Valid() && types == old(types) && nextId == old(nextId)
      ensures Defined(Candidates(data)) == [] ==> r == Err(Raised(400, NothingToUpdate)) && animals == old(animals)
      ensures Defined(Candidates(data)) != [] && IntegerColumn(Get(data, "animal_type_id")).Refused? ==>
        r == Err(Database(IntegerColumn(Get(data, "animal_type_id")).e)) && animals == old(animals)
      ensures (Defined(Candidates(data)) != [] && !IntegerColumn(Get(data, "animal_type_id")).Refused? &&
               !(id in old(animals) && old(animals)[id].owner == owner)) ==>
        r == Ok(None) && animals == old(animals)
      ensures (Defined(Candidates(data)) != [] && !IntegerColumn(Get(data, "animal_type_id")).Refused? &&
               id in old(animals) && old(animals)[id].owner == owner) ==>
        var a := Patch(old(animals)[id], data);
        match RowVerdict(types, a, engine, InvalidTypeOnUpdate)
        case Some(f) => r == Err(f) && animals == old(animals)
        case None => r == Ok(Some(a)) && animals == old(animals)[id := a]
    {
      var q := BuildUpdate(data, id, owner);
      if q.Err? {
        return Err(q.error);
      }
      var column := IntegerColumn(Get(data, "animal_type_id"));
      if column.Refused? {
        return Err(Database(column.e));
      }
      if !(id in animals && animals[id].owner == owner) {
        return Ok(None);
      }
      var a := Executed(data, id, owner, animals[id]);
      var failure := RowVerdict(types, a, engine, InvalidTypeOnUpdate);
      if failure.Some? {
        return Err(failure.value);
      }
      animals := animals[id := a];
      r := Ok(Some(a));
    }

    /** `deleteAnimalUtilisateur`: true exactly when the caller's animal
        with that id existed, and then that row and only that row is gone. */
    method DeleteAnimalUtilisateur(id: nat, owner: nat) returns (deleted: bool)
      requires Valid()
      modifies this
      ensures Valid() && types == old(types) && nextId == old(nextId)
      ensures deleted <==> id in old(animals) && old(animals)[id].owner == owner
      ensures animals == if deleted then old(animals) - {id} else old(animals)
    {
      deleted := id in animals && animals[id].owner == owner;
      if deleted {
        animals := animals - {id};
      }
    }
  }

  /** The row the insert builds for `id`, the sequence's next value, when
      the type column accepts the body's value. */
  function NewAnimal(id: nat, owner: nat, data: Json): (a: Animal)
    ensures a.id == id && a.owner == owner
    ensures a.typeId == Stored(IntegerColumn(Get(data, "animal_type_id")), None)
    ensures a.tag == Field(data, "identifiant_animal") && a.birth == Field(data, "date_naissance_approx") &&
            a.health == Field(data, "notes_sante")
  {
    Animal(id, owner, Stored(IntegerColumn(Get(data, "animal_type_id")), None),
           Field(data, "identifiant_animal"), Field(data, "date_naissance_approx"), Field(data, "notes_sante"))
  }
}
