/** The record orchestration of src/services/person_service.py: response mapping,
    reads, and the create, update and delete paths of `PersonService` over the store.
    The e-mail format check and the schema re-validation are parameters. */
module Service {
  import opened Values
  import opened Records
  import Gateway

  const DuplicateName: string := "Person with this name already exists"
  const PersonNotFound: string := "Person not found"
  const IntegrityFailure: string := "Database integrity error"

  /** The external response shape: the person's columns and its addresses. */
  datatype PersonResponse = PersonResponse(
    id: nat,
    name: string,
    gender: Value,
    nationality: Value,
    age: Value,
    emails: seq<string>)

  /** `_to_response`. */
  function ToResponse(p: Person): (r: PersonResponse)
    ensures r.id == p.id && r.name == p.name
    ensures r.gender == p.gender && r.nationality == p.nationality && r.age == p.age
    ensures |r.emails| == |p.emails|
    ensures forall i :: 0 <= i < |p.emails| ==> r.emails[i] == p.emails[i].mail
  {
    PersonResponse(p.id, p.name, p.gender, p.nationality, p.age,
                   seq(|p.emails|, i requires 0 <= i < |p.emails| => p.emails[i].mail))
  }

  /** The response of a freshly inserted row carries exactly the payload's addresses,
      in order. */
  lemma CreatedResponseMail(id: nat, c: PersonCreate)
    ensures ToResponse(NewPerson(id, c)).emails == MailOf(c.mail)
  {
    var es := NewPerson(id, c).emails;
    assert |ToResponse(NewPerson(id, c)).emails| == |MailOf(c.mail)|;
    forall i | 0 <= i < |es| ensures ToResponse(NewPerson(id, c)).emails[i] == MailOf(c.mail)[i] {
    }
  }

  // ---------------------------------------------------------------------------
  // Enrichment of a create payload

  /** The demographic fields that may be filled from the gateway. */
  datatype Field = Gender | Nationality | Age

  /** The fields in the order the create path visits them. */
  const Fields: seq<Field> := [Gender, Nationality, Age]

  function FieldName(f: Field): string {
    match f
    case Gender => "Gender"
    case Nationality => "Nationality"
    case Age => "Age"
  }

  /** `data.get(field)`. */
  function Get(c: PersonCreate, f: Field): Value {
    match f
    case Gender => c.gender
    case Nationality => c.nationality
    case Age => c.age
  }

  /** `data[field] = v`. */
  function Set(c: PersonCreate, f: Field, v: Value): PersonCreate {
    match f
    case Gender => c.(gender := v)
    case Nationality => c.(nationality := v)
    case Age => c.(age := v)
  }

  /** `needs_replacement`: None, a string that strips to nothing, the integer 0
      (`False` included, as Python's `bool` is an `int`), or the client-stub
      placeholder "string". */
  predicate NeedsReplacement(v: Value) {
    || v.Null?
    || (v.Str? && IsBlank(v.s))
    || (v.Int? && v.i == 0)
    || (v.Bool? && !v.b)
    || (v.Str? && v.s == "string")
  }

  /** A client value is kept exactly when it is meaningfully set. */
  lemma NeedsReplacementCases(v: Value)
    ensures !NeedsReplacement(v) <==>
      match v
      case Null => false
      case Bool(b) => b
      case Int(i) => i != 0
      case Str(s) => !IsBlank(s) && s != "string"
      case _ => true
  {
  }

  /** One `get_info` call of the create path. */
  datatype Call = Call(name: string, attribute: string)

  /** The call that fills field `f` of the person named `name`. */
  function CallFor(name: string, f: Field): Call {
    Call(name, Lower(FieldName(f)))
  }

  /** `get_info(name, field.lower())` with a string argument: one single-name lookup. */
  function LookupField(gw: Gateway.Env, name: string, f: Field): Result<Value> {
    var info :- Gateway.GetInfo(gw, Gateway.One(name), Lower(FieldName(f)));
    Ok(info.value)
  }

  /** The lower-cased field name selects the handler of the same attribute, so the
      lookup is that handler's single-name lookup. */
  lemma LookupFieldHandler(gw: Gateway.Env, name: string, f: Field)
    ensures LookupField(gw, name, f) ==
      Gateway.GetSingleInfo(gw, match f
                                case Gender => Gateway.GenderHandler
                                case Nationality => Gateway.NationalityHandler
                                case Age => Gateway.AgeHandler, name)
  {
    LowerFieldName(f);
  }

  /** `field.lower()` of each field name is the handler key of that attribute. */
  lemma LowerFieldName(f: Field)
    ensures Lower(FieldName(f)) == match f
                                   case Gender => "gender"
                                   case Nationality => "nationality"
                                   case Age => "age"
  {
    match f
    case Gender => assert Lower("Gender") == "gender";
    case Nationality => assert Lower("Nationality") == "nationality";
    case Age => assert Lower("Age") == "age";
  }

  /** What the fill loop produced: the filled payload or the exception, and the
      lookups it issued. */
  datatype Enrichment = Enrichment(result: Result<PersonCreate>, calls: seq<Call>)

  /** The fill loop over `fs`, as a function: each field that needs replacement is
      set from a lookup keyed by the full name; the first failed lookup ends it. */
  function Enrich(gw: Gateway.Env, c: PersonCreate, fs: seq<Field>): Enrichment
    decreases |fs|
  {
    if fs == [] then Enrichment(Ok(c), [])
    else if !NeedsReplacement(Get(c, fs[0])) then Enrich(gw, c, fs[1..])
    else
      var call := CallFor(c.name, fs[0]);
      match LookupField(gw, c.name, fs[0])
      case Err(e) => Enrichment(Err(e), [call])
      case Ok(v) =>
        var rest := Enrich(gw, Set(c, fs[0], v), fs[1..]);
        Enrichment(rest.result, [call] + rest.calls)
  }

  /** The lookups a complete fill over `fs` issues: one per field that needs
      replacement, in field order, none for the others. */
  function FlaggedCalls(c: PersonCreate, fs: seq<Field>): seq<Call> {
    if fs == [] then []
    else (if NeedsReplacement(Get(c, fs[0])) then [CallFor(c.name, fs[0])] else []) + FlaggedCalls(c, fs[1..])
  }

  predicate NoRepeats(fs: seq<Field>) {
    forall i, j :: 0 <= i < j < |fs| ==> fs[i] != fs[j]
  }

  /** The value a field ends up with after a complete fill. */
  function Filled(gw: Gateway.Env, c: PersonCreate, f: Field): Value
    requires NeedsReplacement(Get(c, f)) ==> LookupField(gw, c.name, f).Ok?
  {
    if NeedsReplacement(Get(c, f)) then LookupField(gw, c.name, f).value else Get(c, f)
  }

  /** The fill succeeds exactly when every lookup it needs succeeds; then each visited
      field holds the lookup's value if it needed replacement and the client's value
      otherwise, and the name, the addresses and the other fields are untouched. */
  lemma {:induction false} EnrichFills(gw: Gateway.Env, c: PersonCreate, fs: seq<Field>)
    requires NoRepeats(fs)
    decreases |fs|
    ensures var e := Enrich(gw, c, fs);
      && (e.result.Ok? <==> forall f :: f in fs && NeedsReplacement(Get(c, f)) ==> LookupField(gw, c.name, f).Ok?)
      && (e.result.Ok? ==>
            && e.result.value.name == c.name
            && e.result.value.mail == c.mail
            && (forall f :: f in fs ==> Get(e.result.value, f) == Filled(gw, c, f))
            && (forall f :: f !in fs ==> Get(e.result.value, f) == Get(c, f)))
  {
    if fs != [] {
      var f0 := fs[0];
      assert NoRepeats(fs[1..]);
      assert forall f :: f in fs <==> f == f0 || f in fs[1..];
      assert f0 !in fs[1..];
      if !NeedsReplacement(Get(c, f0)) {
        EnrichFills(gw, c, fs[1..]);
      } else if LookupField(gw, c.name, f0).Ok? {
        var v := LookupField(gw, c.name, f0).value;
        var c' := Set(c, f0, v);
        EnrichFills(gw, c', fs[1..]);
        assert forall f :: f != f0 ==> Get(c', f) == Get(c, f);
      }
    }
  }

  /** The lookups issued are a prefix of the flagged ones, and all of them when the
      fill succeeds: at most one lookup per field, none for a field that keeps its
      client value. */
  lemma {:induction false} EnrichCalls(gw: Gateway.Env, c: PersonCreate, fs: seq<Field>)
    requires NoRepeats(fs)
    decreases |fs|
    ensures var e := Enrich(gw, c, fs);
      && e.calls <= FlaggedCalls(c, fs)
      && (e.result.Ok? ==> e.calls == FlaggedCalls(c, fs))
      && (e.result.Err? ==> e.calls != [])
  {
    if fs != [] {
      var f0 := fs[0];
      assert NoRepeats(fs[1..]);
      assert f0 !in fs[1..];
      if !NeedsReplacement(Get(c, f0)) {
        EnrichCalls(gw, c, fs[1..]);
      } else if LookupField(gw, c.name, f0).Ok? {
        var c' := Set(c, f0, LookupField(gw, c.name, f0).value);
        EnrichCalls(gw, c', fs[1..]);
        FlaggedCallsAgree(c, c', fs[1..], f0);
      }
    }
  }

  /** Setting a field outside `fs` does not change which of `fs` are flagged. */
  lemma {:induction false} FlaggedCallsAgree(c: PersonCreate, c': PersonCreate, fs: seq<Field>, f0: Field)
    requires f0 !in fs
    requires c'.name == c.name
    requires forall f :: f != f0 ==> Get(c', f) == Get(c, f)
    ensures FlaggedCalls(c', fs) == FlaggedCalls(c, fs)
  {
    if fs != [] {
      assert fs[0] != f0;
      FlaggedCallsAgree(c, c', fs[1..], f0);
    }
  }

  lemma FieldsNoRepeats()
    ensures NoRepeats(Fields)
  {
  }

  /** The row a successful create stores: the client's name and addresses, each field
      filled from the gateway if it needed replacement and the client's value otherwise. */
  lemma CreatedRow(gw: Gateway.Env, payload: PersonCreate, id: nat)
    requires Enrich(gw, payload, Fields).result.Ok?
    ensures forall f :: NeedsReplacement(Get(payload, f)) ==> LookupField(gw, payload.name, f).Ok?
    ensures NewPerson(id, Enrich(gw, payload, Fields).result.value) ==
      Person(id, payload.name, Filled(gw, payload, Gender), Filled(gw, payload, Nationality),
             Filled(gw, payload, Age), Emails(MailOf(payload.mail)))
  {
    FieldsNoRepeats();
    EnrichFills(gw, payload, Fields);
    assert Gender in Fields && Nationality in Fields && Age in Fields;
    var filled := Enrich(gw, payload, Fields).result.value;
    assert filled.gender == Get(filled, Gender) == Filled(gw, payload, Gender);
    assert filled.nationality == Get(filled, Nationality) == Filled(gw, payload, Nationality);
    assert filled.age == Get(filled, Age) == Filled(gw, payload, Age);
  }

  /** A payload whose three fields are all meaningfully set is passed through with no
      lookup at all. */
  lemma SetFieldsNeedNoLookup(gw: Gateway.Env, c: PersonCreate)
    requires forall f :: !NeedsReplacement(Get(c, f))
    ensures Enrich(gw, c, Fields) == Enrichment(Ok(c), [])
  {
    assert Fields[1..] == [Nationality, Age];
    assert Fields[1..][1..] == [Age];
  }

  /** The position of the first address the format check rejects. */
  function FirstInvalid(ms: seq<string>, emailOk: string -> bool): (r: Option<nat>)
    ensures r.None? <==> forall i :: 0 <= i < |ms| ==> emailOk(ms[i])
    ensures r.Some? ==> r.value < |ms| && !emailOk(ms[r.value])
    ensures r.Some? ==> forall j :: 0 <= j < r.value ==> emailOk(ms[j])
  {
    if ms == [] then None
    else if !emailOk(ms[0]) then Some(0)
    else match FirstInvalid(ms[1..], emailOk)
      case None => None
      case Some(k) => Some(k + 1)
  }

  /** The update argument: a `PersonUpdate` model, or a plain dict that is first
      validated into one. */
  datatype UpdateInput = Model(update: PersonUpdate) | Raw(fields: map<string, Value>)

  function Parsed(input: UpdateInput, parse: map<string, Value> -> Option<PersonUpdate>): Option<PersonUpdate> {
    match input
    case Model(u) => Some(u)
    case Raw(d) => parse(d)
  }

  /** The address loop of the create path: validates each address in order and
      stops at the first one the format check rejects. */
  method CheckEmails(mails: seq<string>, emailOk: string -> bool) returns (bad: Option<nat>)
    ensures bad == FirstInvalid(mails, emailOk)
  {
    var i := 0;
    while i < |mails|
      invariant 0 <= i <= |mails|
      invariant forall j :: 0 <= j < i ==> emailOk(mails[j])
    {
      if !emailOk(mails[i]) {
        return Some(i);
      }
      i := i + 1;
    }
    return None;
  }

  /** The fill loop of the create path: for each of Gender, Nationality and Age in
      turn, a value that needs replacement is overwritten in place by a lookup keyed by
      the full name and the lower-cased field name. */
  method FillMissing(payload: PersonCreate, gw: Gateway.Env) returns (filled: Result<PersonCreate>, calls: seq<Call>)
    ensures Enrichment(filled, calls) == Enrich(gw, payload, Fields)
  {
    var data := payload;
    calls := [];
    var k := 0;
    while k < |Fields|
      invariant 0 <= k <= |Fields|
      invariant data.name == payload.name
      invariant Enrich(gw, payload, Fields) ==
        var rest := Enrich(gw, data, Fields[k..]); Enrichment(rest.result, calls + rest.calls)
    {
      var field := Fields[k];
      assert Fields[k..][1..] == Fields[k + 1..];
      ghost var step := Enrich(gw, data, Fields[k..]);
      if NeedsReplacement(Get(data, field)) {
        var call := CallFor(data.name, field);
        var looked := LookupField(gw, data.name, field);
        if looked.Err? {
          assert step == Enrichment(Err(looked.error), [call]);
          return Err(looked.error), calls + [call];
        }
        data := Set(data, field, looked.value);
        ghost var rest := Enrich(gw, data, Fields[k + 1..]);
        assert step == Enrichment(rest.result, [call] + rest.calls);
        assert calls + ([call] + rest.calls) == (calls + [call]) + rest.calls;
        calls := calls + [call];
      } else {
        assert step == Enrich(gw, data, Fields[k + 1..]);
      }
      k := k + 1;
    }
    filled := Ok(data);
  }

  class PersonService {
    const repository: Store

    constructor (repository: Store)
      ensures this.repository == repository
    {
      this.repository := repository;
    }

    /** `get_person`: the response for the person with that full name, or
        `ValueError("Person not found")`. */
    method GetPerson(surname: string) returns (r: Result<PersonResponse>)
      requires repository.Valid()
      ensures r.Err? <==> surname !in Names(repository.rows)
      ensures r.Err? ==> r.error == ValueError(PersonNotFound)
      ensures r.Ok? ==> exists p :: p in repository.rows && p.name == surname && r.value == ToResponse(p)
    {
      var person := repository.GetBySurname(surname);
      if person.None? {
        return Err(ValueError(PersonNotFound));
      }
      r := Ok(ToResponse(person.value));
    }

    /** `get_all_people`: one response per stored row, in table order. */
    method GetAllPeople() returns (r: seq<PersonResponse>)
      ensures |r| == |repository.rows|
      ensures forall i :: 0 <= i < |r| ==> r[i] == ToResponse(repository.rows[i])
    {
      var people := repository.GetAll();
      r := seq(|people|, i requires 0 <= i < |people| => ToResponse(people[i]));
    }

    /** `create_person`: uniqueness pre-check, address check, fill of the fields that
        need it, re-validation, insert; an integrity failure of the insert becomes
        `ValueError("Database integrity error")`. `calls` lists the lookups issued. */
    method CreatePerson(payload: PersonCreate, gw: Gateway.Env, emailOk: string -> bool,
                        schema: PersonCreate -> bool)
      returns (r: Result<PersonResponse>, calls: seq<Call>)
      requires repository.Valid()
      modifies repository
      ensures repository.Valid()
      ensures payload.name in Names(old(repository.rows)) ==>
        r == Err(ValueError(DuplicateName)) && calls == [] && unchanged(repository)
      ensures payload.name !in Names(old(repository.rows)) && FirstInvalid(MailOf(payload.mail), emailOk).Some? ==>
        && r == Err(InvalidEmail(MailOf(payload.mail)[FirstInvalid(MailOf(payload.mail), emailOk).value]))
        && calls == [] && unchanged(repository)
      ensures payload.name !in Names(old(repository.rows)) && FirstInvalid(MailOf(payload.mail), emailOk).None? ==>
        var e := Enrich(gw, payload, Fields);
        && calls == e.calls
        && (e.result.Err? ==> r == Err(e.result.error) && unchanged(repository))
        && (e.result.Ok? && !schema(e.result.value) ==> r == Err(ValidationError) && unchanged(repository))
        && (e.result.Ok? && schema(e.result.value) && payload.name in old(repository.foreign) ==>
              r == Err(ValueError(IntegrityFailure)) && unchanged(repository))
        && (e.result.Ok? && schema(e.result.value) && payload.name !in old(repository.foreign) ==>
              var p := NewPerson(old(repository.nextId), e.result.value);
              && r == Ok(ToResponse(p))
              && repository.rows == old(repository.rows) + [p]
              && repository.nextId == old(repository.nextId) + 1
              && repository.foreign == old(repository.foreign))
    {
      calls := [];
      var existing := repository.GetBySurname(payload.name);
      if existing.Some? {
        return Err(ValueError(DuplicateName)), calls;
      }

      if payload.mail.Some? && payload.mail.value != [] {
        var bad := CheckEmails(payload.mail.value, emailOk);
        if bad.Some? {
          return Err(InvalidEmail(payload.mail.value[bad.value])), calls;
        }
      }

      var filled;
      filled, calls := FillMissing(payload, gw);
      if filled.Err? {
        return Err(filled.error), calls;
      }
      var data := filled.value;
      FieldsNoRepeats();
      EnrichFills(gw, payload, Fields);
      if !schema(data) {
        return Err(ValidationError), calls;
      }
      var inserted := repository.Create(data);
      match inserted
      case Err(_) =>
        r := Err(ValueError(IntegrityFailure));
      case Ok(person) =>
        r := Ok(ToResponse(person));
    }

    /** `update_person`: pass the fields and `Id=person_id` to the store; an integrity
        failure becomes `ValueError("Database integrity error")`, a missing Id is the
        store's own error. No field is filled from the gateway. */
    method UpdatePerson(personId: int, input: UpdateInput, parse: map<string, Value> -> Option<PersonUpdate>)
      returns (r: Result<PersonResponse>)
      requires repository.Valid()
      modifies repository
      ensures repository.Valid()
      ensures Parsed(input, parse).None? ==> r == Err(ValidationError) && unchanged(repository)
      ensures Parsed(input, parse).Some? && IndexOfId(old(repository.rows), personId).None? ==>
        r == Err(NotFound) && unchanged(repository)
      ensures Parsed(input, parse).Some? && IndexOfId(old(repository.rows), personId).Some? ==>
        var u := Parsed(input, parse).value;
        var i := IndexOfId(old(repository.rows), personId).value;
        if RenameClashes(old(repository.rows), old(repository.foreign), i, u) then
          r == Err(ValueError(IntegrityFailure)) && unchanged(repository)
        else
          var p := Applied(old(repository.rows)[i], u);
          && r == Ok(ToResponse(p))
          && repository.rows == old(repository.rows)[i := p]
          && repository.nextId == old(repository.nextId)
          && repository.foreign == old(repository.foreign)
    {
      var u: PersonUpdate;
      match input {
        case Model(m) =>
          u := m;
        case Raw(d) =>
          var parsed := parse(d);
          if parsed.None? {
            return Err(ValidationError);
          }
          u := parsed.value;
      }
      var updated := repository.Update(u, personId);
      match updated
      case Err(e) =>
        r := if e == IntegrityError then Err(ValueError(IntegrityFailure)) else Err(e);
      case Ok(person) =>
        r := Ok(ToResponse(person));
    }

    /** `delete_person`: remove the row with that Id; the store's errors pass through. */
    method DeletePerson(personId: int) returns (r: Result<()>)
      requires repository.Valid()
      modifies repository
      ensures repository.Valid()
      ensures IndexOfId(old(repository.rows), personId).None? ==> r == Err(NotFound) && unchanged(repository)
      ensures IndexOfId(old(repository.rows), personId).Some? ==>
        var i := IndexOfId(old(repository.rows), personId).value;
        && r == Ok(())
        && repository.rows == old(repository.rows)[..i] + old(repository.rows)[i + 1..]
        && repository.nextId == old(repository.nextId)
        && repository.foreign == old(repository.foreign)
      ensures r.Ok? ==> IndexOfId(repository.rows, personId).None?
    {
      r := repository.Delete(personId);
    }
  }
}
