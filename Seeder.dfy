/** The start-up seeding of src/services/create_db_service.py: the baseline names
    not yet stored are enriched with one batch lookup per attribute and inserted in
    one bulk insert. Schema creation and logging are not part of this model; the
    configured name list, the pool of address lists and the random draws are
    parameters. */
module Seeder {
  import opened Values
  import opened Records
  import Gateway

  /** How a run ends when it does not raise (the source only logs which). */
  datatype SeedOutcome = AllPresent | EnrichmentFailed(error: Error) | Created(count: nat)

  /** `xs` is `ys` with some elements left out, the rest in their order. */
  predicate IsSubsequence(xs: seq<string>, ys: seq<string>)
    decreases |ys|
  {
    if xs == [] then true
    else if ys == [] then false
    else if xs[0] == ys[0] then IsSubsequence(xs[1..], ys[1..])
    else IsSubsequence(xs, ys[1..])
  }

  /** `[name for name in baseline if name not in existing_names]`. */
  function NewNames(baseline: seq<string>, existing: set<string>): (r: seq<string>)
    ensures forall x :: x in r <==> x in baseline && x !in existing
    ensures IsSubsequence(r, baseline)
    ensures forall x :: x !in existing ==> multiset(r)[x] == multiset(baseline)[x]
    ensures forall x :: x in existing ==> multiset(r)[x] == 0
  {
    if baseline == [] then []
    else
      var rest := NewNames(baseline[1..], existing);
      assert baseline == [baseline[0]] + baseline[1..];
      if baseline[0] in existing then
        assert rest == [] || rest[0] != baseline[0];
        rest
      else
        assert ([baseline[0]] + rest)[1..] == rest;
        [baseline[0]] + rest
  }

  /** A second run after every baseline name is stored finds nothing new. */
  lemma NothingNewOnceStored(baseline: seq<string>, existing: set<string>)
    requires forall b :: b in baseline ==> b in existing
    ensures NewNames(baseline, existing) == []
  {
  }

  /** The record built for one new name: falsy lookup results become "" for gender
      and nationality and 0 for age; the addresses are one list of the pool. */
  function SeedRecord(name: string, gender: Value, nationality: Value, age: Value, mail: seq<string>): (r: PersonCreate)
    ensures r.name == name && r.mail == Some(mail)
    ensures Truthy(gender) ==> r.gender == gender
    ensures !Truthy(gender) ==> r.gender == Str("")
    ensures Truthy(nationality) ==> r.nationality == nationality
    ensures !Truthy(nationality) ==> r.nationality == Str("")
    ensures Truthy(age) ==> r.age == age
    ensures !Truthy(age) ==> r.age == Int(0)
  {
    PersonCreate(name, Or(gender, Str("")), Or(nationality, Str("")), Or(age, Int(0)), Some(mail))
  }

  /** Every index the loop reads exists: each lookup list is at least as long as the
      names, and the pool is not empty when there is a record to build. */
  predicate Aligned(names: seq<string>, genders: seq<Value>, nationalities: seq<Value>, ages: seq<Value>,
                    pool: seq<seq<string>>)
  {
    |genders| >= |names| && |nationalities| >= |names| && |ages| >= |names| && (names == [] || pool != [])
  }

  /** Record `i`: `genders[i]`, `nationalities[i]`, `ages[i]`, and the pool entry the
      `i`-th random draw picks. */
  function RecordAt(names: seq<string>, genders: seq<Value>, nationalities: seq<Value>, ages: seq<Value>,
                    pool: seq<seq<string>>, draw: nat -> nat, i: nat): PersonCreate
    requires Aligned(names, genders, nationalities, ages, pool) && i < |names|
  {
    SeedRecord(names[i], genders[i], nationalities[i], ages[i], pool[draw(i) % |pool|])
  }

  /** The three batch lookups, gender first, then nationality, then age; the first
      failure ends them. */
  function SeedLookups(gw: Gateway.Env, names: seq<string>): (r: Result<(seq<Value>, seq<Value>, seq<Value>)>)
    ensures var g := Gateway.GetBatchInfo(gw, Gateway.GenderHandler, names);
            var n := Gateway.GetBatchInfo(gw, Gateway.NationalityHandler, names);
            var a := Gateway.GetBatchInfo(gw, Gateway.AgeHandler, names);
      && (r.Ok? <==> g.Ok? && n.Ok? && a.Ok?)
      && (r.Ok? ==> r.value == (g.value, n.value, a.value))
      && (g.Err? ==> r == Err(g.error))
      && (g.Ok? && n.Err? ==> r == Err(n.error))
      && (g.Ok? && n.Ok? && a.Err? ==> r == Err(a.error))
  {
    var genders :- Gateway.GetInfo(gw, Gateway.Many(names), "gender");
    var nationalities :- Gateway.GetInfo(gw, Gateway.Many(names), "nationality");
    var ages :- Gateway.GetInfo(gw, Gateway.Many(names), "age");
    Ok((genders.values, nationalities.values, ages.values))
  }

  /** The `people_to_create` loop: one record per name, in order. Reading past the end
      of a lookup list or drawing from an empty pool raises `IndexError`; a record the
      schema rejects raises `ValidationError`. */
  method BuildRecords(names: seq<string>, genders: seq<Value>, nationalities: seq<Value>, ages: seq<Value>,
                      pool: seq<seq<string>>, draw: nat -> nat, schema: PersonCreate -> bool)
    returns (r: Result<seq<PersonCreate>>)
    ensures r.Ok? <==>
      && Aligned(names, genders, nationalities, ages, pool)
      && forall i :: 0 <= i < |names| ==> schema(RecordAt(names, genders, nationalities, ages, pool, draw, i))
    ensures r.Ok? ==> |r.value| == |names|
    ensures r.Ok? ==> forall i :: 0 <= i < |names| ==>
      r.value[i] == RecordAt(names, genders, nationalities, ages, pool, draw, i)
    ensures r.Err? && Aligned(names, genders, nationalities, ages, pool) ==> r.error == ValidationError
    ensures r.Err? ==> r.error == IndexError || r.error == ValidationError
  {
    var people: seq<PersonCreate> := [];
    var idx := 0;
    while idx < |names|
      invariant 0 <= idx <= |names|
      invariant |people| == idx
      invariant idx <= |genders| && idx <= |nationalities| && idx <= |ages| && (idx == 0 || pool != [])
      invariant forall j :: 0 <= j < idx ==>
        people[j] == SeedRecord(names[j], genders[j], nationalities[j], ages[j], pool[draw(j) % |pool|])
      invariant forall j :: 0 <= j < idx ==> schema(people[j])
    {
      if idx >= |genders| || idx >= |nationalities| || idx >= |ages| || pool == [] {
        return Err(IndexError);
      }
      var record := SeedRecord(names[idx], genders[idx], nationalities[idx], ages[idx], pool[draw(idx) % |pool|]);
      if !schema(record) {
        assert Aligned(names, genders, nationalities, ages, pool) ==>
          RecordAt(names, genders, nationalities, ages, pool, draw, idx) == record;
        return Err(ValidationError);
      }
      people := people + [record];
      idx := idx + 1;
    }
    r := Ok(people);
  }

  /** Every record of a run can be built: each index the loop reads exists and the
      schema accepts every record. */
  predicate Buildable(names: seq<string>, looked: (seq<Value>, seq<Value>, seq<Value>), pool: seq<seq<string>>,
                      draw: nat -> nat, schema: PersonCreate -> bool)
  {
    && Aligned(names, looked.0, looked.1, looked.2, pool)
    && forall i :: 0 <= i < |names| ==> schema(RecordAt(names, looked.0, looked.1, looked.2, pool, draw, i))
  }

  /** The bulk insert of one record per name passes the uniqueness constraint: no
      name repeats, and none is held by another session. */
  predicate Insertable(names: seq<string>, foreign: set<string>) {
    && (forall i, j :: 0 <= i < j < |names| ==> names[i] != names[j])
    && (forall i :: 0 <= i < |names| ==> names[i] !in foreign)
  }

  /** For records named after names absent from the visible rows, the bulk insert's
      failure condition is exactly the failure of `Insertable`. */
  lemma BulkInsertClash(rows: seq<Person>, foreign: set<string>, names: seq<string>, people: seq<PersonCreate>)
    requires |people| == |names|
    requires forall i :: 0 <= i < |names| ==> people[i].name == names[i] && names[i] !in Names(rows)
    ensures (!DistinctNames(people) || exists i :: 0 <= i < |people| && (people[i].name in Names(rows) || people[i].name in foreign))
      <==> !Insertable(names, foreign)
  {
  }

  /** The rows a successful run appended: one per new name, in order, with the record
      built from that name's lookup results. */
  ghost predicate SeededRows(rows: seq<Person>, before: seq<Person>, id0: nat, names: seq<string>,
                             looked: (seq<Value>, seq<Value>, seq<Value>), pool: seq<seq<string>>, draw: nat -> nat)
  {
    && Aligned(names, looked.0, looked.1, looked.2, pool)
    && rows == before + NewPeople(id0, seq(|names|, i requires 0 <= i < |names| =>
                                      RecordAt(names, looked.0, looked.1, looked.2, pool, draw, i)))
  }

  /** `initialize_database`, from reading the stored names on. */
  method InitializeDatabase(repo: Store, baseline: seq<string>, pool: seq<seq<string>>, gw: Gateway.Env,
                            draw: nat -> nat, schema: PersonCreate -> bool)
    returns (r: Result<SeedOutcome>)
    requires repo.Valid()
    modifies repo
    ensures repo.Valid()
    ensures var names := NewNames(baseline, Names(old(repo.rows)));
      && (names == [] <==> r == Ok(AllPresent))
      && (names == [] ==> unchanged(repo))
      && (names != [] && SeedLookups(gw, names).Err? ==>
            r == Ok(EnrichmentFailed(SeedLookups(gw, names).error)) && unchanged(repo))
      && (r.Ok? && r.value.Created? ==>
            && SeedLookups(gw, names).Ok?
            && r.value.count == |names|
            && SeededRows(repo.rows, old(repo.rows), old(repo.nextId), names, SeedLookups(gw, names).value, pool, draw))
    ensures var names := NewNames(baseline, Names(old(repo.rows)));
      names != [] && SeedLookups(gw, names).Ok? ==>
        var looked := SeedLookups(gw, names).value;
        && (r.Ok? <==> Buildable(names, looked, pool, draw, schema) && Insertable(names, old(repo.foreign)))
        && (r.Ok? ==> r.value.Created?)
        && (!Aligned(names, looked.0, looked.1, looked.2, pool) ==>
              r.Err? && (r.error == IndexError || r.error == ValidationError))
        && (Aligned(names, looked.0, looked.1, looked.2, pool) && !Buildable(names, looked, pool, draw, schema) ==>
              r == Err(ValidationError))
        && (Buildable(names, looked, pool, draw, schema) && !Insertable(names, old(repo.foreign)) ==>
              r == Err(IntegrityError))
    ensures r.Err? || !r.value.Created? ==> unchanged(repo)
    ensures r.Err? ==> r.error == IndexError || r.error == ValidationError || r.error == IntegrityError
    ensures r.Ok? && (r.value.AllPresent? || r.value.Created?) ==> forall b :: b in baseline ==> b in Names(repo.rows)
  {
    var existing := repo.GetAll();
    var existingNames := set p | p in existing :: p.name;
    assert existingNames == Names(repo.rows);
    var names := NewNames(baseline, existingNames);
    if names == [] {
      return Ok(AllPresent);
    }

    var looked := RunLookups(gw, names);
    if looked.Err? {
      return Ok(EnrichmentFailed(looked.error));
    }
    var created := InsertRecords(repo, names, looked.value, pool, draw, schema);
    if created.Err? {
      return Err(created.error);
    }
    r := Ok(Created(created.value));
  }

  /** The second half of a run, once the lookups succeeded: build one record per new
      name, then insert them all in one bulk insert; either failure is raised and
      leaves the store as it was. */
  method InsertRecords(repo: Store, names: seq<string>, looked: (seq<Value>, seq<Value>, seq<Value>),
                       pool: seq<seq<string>>, draw: nat -> nat, schema: PersonCreate -> bool)
    returns (r: Result<nat>)
    requires repo.Valid()
    requires forall i :: 0 <= i < |names| ==> names[i] !in Names(repo.rows)
    modifies repo
    ensures repo.Valid()
    ensures r.Ok? <==> Buildable(names, looked, pool, draw, schema) && Insertable(names, old(repo.foreign))
    ensures r.Ok? ==>
      && r.value == |names|
      && SeededRows(repo.rows, old(repo.rows), old(repo.nextId), names, looked, pool, draw)
      && Names(repo.rows) == Names(old(repo.rows)) + set x | x in names
    ensures r.Err? ==> unchanged(repo)
    ensures !Aligned(names, looked.0, looked.1, looked.2, pool) ==>
      r.Err? && (r.error == IndexError || r.error == ValidationError)
    ensures Aligned(names, looked.0, looked.1, looked.2, pool) && !Buildable(names, looked, pool, draw, schema) ==>
      r == Err(ValidationError)
    ensures Buildable(names, looked, pool, draw, schema) && !Insertable(names, old(repo.foreign)) ==>
      r == Err(IntegrityError)
    ensures r.Err? ==> r.error == IndexError || r.error == ValidationError || r.error == IntegrityError
  {
    var built := BuildRecords(names, looked.0, looked.1, looked.2, pool, draw, schema);
    if built.Err? {
      return Err(built.error);
    }
    var people := built.value;
    assert people == seq(|names|, i requires 0 <= i < |names| =>
                           RecordAt(names, looked.0, looked.1, looked.2, pool, draw, i));

    BulkInsertClash(repo.rows, repo.foreign, names, people);
    var created := repo.BulkCreate(people);
    if created.Err? {
      return Err(created.error);
    }
    NewPeopleNames(old(repo.nextId), people, names);
    NamesOfAppend(old(repo.rows), NewPeople(old(repo.nextId), people));
    r := Ok(created.value);
  }

  /** The three batch lookups of a run, stopping at the first failure. */
  method RunLookups(gw: Gateway.Env, names: seq<string>) returns (r: Result<(seq<Value>, seq<Value>, seq<Value>)>)
    ensures r == SeedLookups(gw, names)
  {
    var genders := Gateway.GetInfo(gw, Gateway.Many(names), "gender");
    if genders.Err? {
      return Err(genders.error);
    }
    var nationalities := Gateway.GetInfo(gw, Gateway.Many(names), "nationality");
    if nationalities.Err? {
      return Err(nationalities.error);
    }
    var ages := Gateway.GetInfo(gw, Gateway.Many(names), "age");
    if ages.Err? {
      return Err(ages.error);
    }
    r := Ok((genders.value.values, nationalities.value.values, ages.value.values));
  }

  /** The full names of the rows inserted for records built from `names` are `names`. */
  lemma NewPeopleNames(id0: nat, people: seq<PersonCreate>, names: seq<string>)
    requires |people| == |names|
    requires forall i :: 0 <= i < |names| ==> people[i].name == names[i]
    ensures Names(NewPeople(id0, people)) == set x | x in names
  {
    var added := NewPeople(id0, people);
    forall x | x in names ensures x in Names(added) {
      var i :| 0 <= i < |names| && names[i] == x;
      assert added[i] in added;
    }
  }

  /** Idempotence: once a run has stored the baseline (or found it stored), the next
      run creates nothing and leaves the store as it is. */
  method SeedTwice(repo: Store, baseline: seq<string>, pool: seq<seq<string>>, gw: Gateway.Env,
                   draw: nat -> nat, schema: PersonCreate -> bool)
    returns (first: Result<SeedOutcome>, second: Result<SeedOutcome>)
    requires repo.Valid()
    modifies repo
    ensures first.Ok? && (first.value.AllPresent? || first.value.Created?) ==> second == Ok(AllPresent)
  {
    first := InitializeDatabase(repo, baseline, pool, gw, draw, schema);
    if first.Ok? && (first.value.AllPresent? || first.value.Created?) {
      NothingNewOnceStored(baseline, Names(repo.rows));
    }
    second := InitializeDatabase(repo, baseline, pool, gw, draw, schema);
  }
}
