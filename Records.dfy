/** The entities and the record store the person service and the seeder drive. The
    repository class itself is not part of this model: `Store` states, as an in-memory
    table, the contract the callers rely on (lookup by full name, list all, insert
    with a uniqueness constraint, partial update with full e-mail replacement, delete,
    all-or-nothing bulk insert). */
module Records {
  import opened Values

  /** An owned e-mail row. */
  datatype Email = Email(mail: string)

  /** A stored person with its owned e-mail rows. */
  datatype Person = Person(
    id: nat,
    name: string,
    gender: Value,
    nationality: Value,
    age: Value,
    emails: seq<Email>)

  /** The create payload (`PersonCreate`); `mail` is the optional list of addresses. */
  datatype PersonCreate = PersonCreate(
    name: string,
    gender: Value,
    nationality: Value,
    age: Value,
    mail: Option<seq<string>>)

  /** The partial update payload (`PersonUpdate`): each field present with a value, or absent. */
  datatype PersonUpdate = PersonUpdate(
    name: Option<string>,
    gender: Option<Value>,
    nationality: Option<Value>,
    age: Option<Value>,
    mail: Option<seq<string>>)

  /** The addresses of a payload; an absent list is an empty one. */
  function MailOf(mail: Option<seq<string>>): seq<string> {
    match mail
    case None => []
    case Some(ms) => ms
  }

  /** One owned e-mail row per address, in order. */
  function Emails(ms: seq<string>): (es: seq<Email>)
    ensures |es| == |ms|
    ensures forall i :: 0 <= i < |ms| ==> es[i].mail == ms[i]
  {
    seq(|ms|, i requires 0 <= i < |ms| => Email(ms[i]))
  }

  /** The row an insert stores for a payload under a fresh Id. */
  function NewPerson(id: nat, c: PersonCreate): Person {
    Person(id, c.name, c.gender, c.nationality, c.age, Emails(MailOf(c.mail)))
  }

  /** The rows a bulk insert stores, with consecutive Ids from `id0`. */
  function NewPeople(id0: nat, cs: seq<PersonCreate>): (ps: seq<Person>)
    ensures |ps| == |cs|
    ensures forall i :: 0 <= i < |cs| ==> ps[i] == NewPerson(id0 + i, cs[i])
  {
    seq(|cs|, i requires 0 <= i < |cs| => NewPerson(id0 + i, cs[i]))
  }

  /** A row after a partial update: present fields replace, an e-mail list replaces
      the whole set of owned rows. */
  function Applied(p: Person, u: PersonUpdate): Person {
    Person(
      p.id,
      if u.name.Some? then u.name.value else p.name,
      if u.gender.Some? then u.gender.value else p.gender,
      if u.nationality.Some? then u.nationality.value else p.nationality,
      if u.age.Some? then u.age.value else p.age,
      if u.mail.Some? then Emails(u.mail.value) else p.emails)
  }

  function Names(rows: seq<Person>): set<string> {
    set p | p in rows :: p.name
  }

  /** The first row with that full name. */
  function Find(rows: seq<Person>, name: string): (r: Option<Person>)
    ensures r.None? <==> name !in Names(rows)
    ensures r.Some? ==> r.value in rows && r.value.name == name
  {
    if rows == [] then None
    else if rows[0].name == name then Some(rows[0])
    else
      var r := Find(rows[1..], name);
      assert Names(rows) == {rows[0].name} + Names(rows[1..]);
      r
  }

  /** The position of the row with that Id. */
  function IndexOfId(rows: seq<Person>, id: int): (r: Option<nat>)
    ensures r.None? <==> forall i :: 0 <= i < |rows| ==> rows[i].id != id
    ensures r.Some? ==> r.value < |rows| && rows[r.value].id == id
  {
    if rows == [] then None
    else if rows[0].id == id then Some(0)
    else match IndexOfId(rows[1..], id)
      case None => None
      case Some(k) => Some(k + 1)
  }

  predicate DistinctNames(cs: seq<PersonCreate>) {
    forall i, j :: 0 <= i < j < |cs| ==> cs[i].name != cs[j].name
  }

  /** The table's invariant: full names and Ids are unique, every Id is below the
      next one to be assigned, and no visible name is also held by a concurrent
      session's uncommitted-to-us row. */
  predicate Consistent(rows: seq<Person>, nextId: nat, foreign: set<string>) {
    && (forall i, j :: 0 <= i < j < |rows| ==> rows[i].name != rows[j].name && rows[i].id != rows[j].id)
    && (forall i :: 0 <= i < |rows| ==> rows[i].id < nextId && rows[i].name !in foreign)
  }

  /** Whether the update of row `i` to `u` would break the uniqueness of full names. */
  predicate RenameClashes(rows: seq<Person>, foreign: set<string>, i: nat, u: PersonUpdate)
    requires i < |rows|
  {
    u.name.Some? && u.name.value != rows[i].name && (u.name.value in Names(rows) || u.name.value in foreign)
  }

  lemma NamesOfAppend(rows: seq<Person>, more: seq<Person>)
    ensures Names(rows + more) == Names(rows) + Names(more)
  {
    assert forall p :: p in rows + more <==> p in rows || p in more;
  }

  class Store {
    /** The rows this session sees, in the order the table returns them. */
    var rows: seq<Person>
    /** The Id the next insert assigns. */
    var nextId: nat
    /** Full names other sessions have committed that this session has not read:
        invisible to lookups here, but still covered by the uniqueness constraint. */
    var foreign: set<string>

    ghost predicate Valid()
      reads this
    {
      Consistent(rows, nextId, foreign)
    }

    constructor (initial: seq<Person>, next: nat, elsewhere: set<string>)
      requires Consistent(initial, next, elsewhere)
      ensures Valid()
      ensures rows == initial && nextId == next && foreign == elsewhere
    {
      rows := initial;
      nextId := next;
      foreign := elsewhere;
    }

    /** `get_by_surname`: exact match on the full name. */
    method GetBySurname(name: string) returns (r: Option<Person>)
      requires Valid()
      ensures r == Find(rows, name)
    {
      r := Find(rows, name);
    }

    /** `get_all`: every row, in table order. */
    method GetAll() returns (r: seq<Person>)
      ensures r == rows
    {
      r := rows;
    }

    /** `create`: insert one row with a fresh Id; a full name that is taken, here
        or by another session, violates the uniqueness constraint. */
    method Create(c: PersonCreate) returns (r: Result<Person>)
      requires Valid()
      modifies this
      ensures Valid()
      ensures c.name in Names(old(rows)) || c.name in old(foreign) ==>
        r == Err(IntegrityError) && unchanged(this)
      ensures c.name !in Names(old(rows)) && c.name !in old(foreign) ==>
        && r == Ok(NewPerson(old(nextId), c))
        && rows == old(rows) + [r.value]
        && nextId == old(nextId) + 1
        && foreign == old(foreign)
    {
      if c.name in Names(rows) || c.name in foreign {
        return Err(IntegrityError);
      }
      var p := NewPerson(nextId, c);
      assert forall i :: 0 <= i < |rows| ==> rows[i].name != c.name by {
        forall i | 0 <= i < |rows| ensures rows[i].name != c.name {
          assert rows[i] in rows;
        }
      }
      rows := rows + [p];
      nextId := nextId + 1;
      r := Ok(p);
    }

    /** `update`: apply the present fields to the row with that Id. */
    method Update(u: PersonUpdate, id: int) returns (r: Result<Person>)
      requires Valid()
      modifies this
      ensures Valid()
      ensures IndexOfId(old(rows), id).None? ==> r == Err(NotFound) && unchanged(this)
      ensures IndexOfId(old(rows), id).Some? ==>
        var i := IndexOfId(old(rows), id).value;
        if RenameClashes(old(rows), old(foreign), i, u) then
          r == Err(IntegrityError) && unchanged(this)
        else
          && r == Ok(Applied(old(rows)[i], u))
          && rows == old(rows)[i := r.value]
          && nextId == old(nextId) && foreign == old(foreign)
    {
      var found := IndexOfId(rows, id);
      if found.None? {
        return Err(NotFound);
      }
      var i := found.value;
      if RenameClashes(rows, foreign, i, u) {
        return Err(IntegrityError);
      }
      var p := Applied(rows[i], u);
      forall j | 0 <= j < |rows| && j != i ensures rows[j].name != p.name {
        assert rows[j] in rows;
      }
      rows := rows[i := p];
      r := Ok(p);
    }

    /** `delete`: remove the row with that Id together with its e-mail rows. */
    method Delete(id: int) returns (r: Result<()>)
      requires Valid()
      modifies this
      ensures Valid()
      ensures IndexOfId(old(rows), id).None? ==> r == Err(NotFound) && unchanged(this)
      ensures IndexOfId(old(rows), id).Some? ==>
        var i := IndexOfId(old(rows), id).value;
        && r == Ok(())
        && rows == old(rows)[..i] + old(rows)[i + 1..]
        && nextId == old(nextId) && foreign == old(foreign)
      ensures r.Ok? ==> IndexOfId(rows, id).None? && Find(rows, old(rows)[IndexOfId(old(rows), id).value].name).None?
    {
      var found := IndexOfId(rows, id);
      if found.None? {
        return Err(NotFound);
      }
      var i := found.value;
      RemovedRow(rows, nextId, foreign, i);
      rows := rows[..i] + rows[i + 1..];
      r := Ok(());
    }

    /** `bulk_create`: insert all rows in one transaction, or none of them. */
    method BulkCreate(cs: seq<PersonCreate>) returns (r: Result<nat>)
      requires Valid()
      modifies this
      ensures Valid()
      ensures r.Err? <==>
        !DistinctNames(cs) || exists i :: 0 <= i < |cs| && (cs[i].name in Names(old(rows)) || cs[i].name in old(foreign))
      ensures r.Err? ==> r.error == IntegrityError && unchanged(this)
      ensures r.Ok? ==>
        && r.value == |cs|
        && rows == old(rows) + NewPeople(old(nextId), cs)
        && nextId == old(nextId) + |cs|
        && foreign == old(foreign)
    {
      if !DistinctNames(cs) || exists i :: 0 <= i < |cs| && (cs[i].name in Names(rows) || cs[i].name in foreign) {
        return Err(IntegrityError);
      }
      var added := NewPeople(nextId, cs);
      forall i, j | 0 <= i < |rows| && 0 <= j < |cs| ensures rows[i].name != cs[j].name {
        assert rows[i] in rows;
      }
      rows := rows + added;
      nextId := nextId + |cs|;
      r := Ok(|cs|);
    }
  }

  /** Removing row `i` keeps the table consistent and leaves no row with its Id or
      its full name. */
  lemma RemovedRow(rows: seq<Person>, nextId: nat, foreign: set<string>, i: nat)
    requires Consistent(rows, nextId, foreign) && i < |rows|
    ensures var rest := rows[..i] + rows[i + 1..];
      && Consistent(rest, nextId, foreign)
      && IndexOfId(rest, rows[i].id).None?
      && Find(rest, rows[i].name).None?
  {
    var rest := rows[..i] + rows[i + 1..];
    assert forall j :: 0 <= j < |rest| ==> rest[j] == rows[if j < i then j else j + 1];
    forall p | p in rest ensures p.name != rows[i].name {
      var j :| 0 <= j < |rest| && rest[j] == p;
    }
  }
}
