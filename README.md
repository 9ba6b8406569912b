# People directory: record orchestration, enrichment gateway and seeder

This project models the core of a small people-directory service in Dafny. The service stores
a person's full name (`NameSurnamePatronymic`), their gender, nationality and age, and their
e-mail addresses. When a client leaves a demographic field unset, the service fills it from
external name-inference providers.

The model covers three source files:

- `Service` (`src/services/person_service.py`) is the class `PersonService` over a store.
  - `_to_response` and the reads.
  - The create path, in its fixed order: uniqueness pre-check, address check, the loop that
    fills each field that needs replacement from a lookup, re-validation, insert, and the
    translation of an integrity failure into `ValueError("Database integrity error")`.
  - Update and delete delegation.
- `Gateway` (`src/services/api_service.py`) holds pure functions.
  - First-token name preparation with transliteration of Cyrillic first names.
  - Single and batch request construction.
  - Response reading: `str(age)`, `gender`, first `country_id`.
  - The handler factory and the `get_info` dispatch.
- `Seeder` (`src/services/create_db_service.py`) holds the start-up seeding.
  - The order-preserving difference of baseline names against stored names.
  - The early exits on "nothing new" and on a failed lookup.
  - The loop that builds one record per new name, with falsy-value defaults.
  - The bulk insert and its error propagation.

`Records` holds the entities and `Store`, an in-memory table. `Store` stands for the
repository class and states the contract the callers rely on.

- Full names are unique.
- Inserts assign fresh Ids.
- An update replaces the whole e-mail set.
- Delete removes the row.
- A bulk insert is all-or-nothing.

The store's `foreign` set holds names that other sessions committed but this session has
not read. The uniqueness constraint still covers them. Because of this set, the model can
reach the create path's integrity-error branch without real concurrency.

`Values` holds Python's dynamic values (`None`, `bool`, `int`, `str`, `list`, `dict`), Python
truthiness, `str.isspace`, and the exceptions.

Calls to code outside the model are parameters:

- The HTTP round trip with JSON decoding: `Env.fetch`.
- The transliteration library: `Env.translit`.
- `str()` of a list or dict: `Env.render`.
- The e-mail format check: `emailOk`.
- The pydantic re-validation: `schema`.
- Parsing a raw update dict: `parse`.
- The configured baseline names and address pool.
- The random draws: `draw`.

In these places the model follows what the code actually does:

- A batch lookup returns one value per item of the provider's response. The code never checks
  that count against the number of names. If a list is shorter, the seeder's `genders[idx]`
  raises `IndexError`. That read is outside the `try` around the lookups, so the error
  propagates instead of ending the run quietly.
- The age lookup returns `str(...)` of the provider's value. A null age therefore arrives as
  the string `"None"`, which is truthy, so the seeder's `ages[idx] or 0` default never applies
  to it (`Gateway.AgeIsNonEmptyString`).
- Create reports a duplicate as `ValueError("Person with this name already exists")`. Update
  translates only the integrity error; delete translates nothing. A missing Id reaches the caller as
  the store's own error.
- The three create-time lookups run one after another, in the order Gender, Nationality, Age.
  The first failure ends the create with nothing stored.
- For `needs_replacement`, the model follows Python semantics: `False` counts as the integer
  0, because `bool` is a subclass of `int`.

## Model

| member | source | states |
|---|---|---|
| Service.ToResponse | src/services/person_service.py:17-26 | the response copies Id, full name, Gender, Nationality and Age unchanged; `emails` has one entry per owned e-mail row, the row's `Mail`, in the same order |
| Service.CreatedResponseMail | src/services/person_service.py:25 | the response for a freshly inserted row lists exactly the payload's addresses in order (none when `Mail` is absent) |
| Service.PersonService.GetPerson | src/services/person_service.py:29-33 | fails with `ValueError("Person not found")` iff no stored row has that full name; otherwise it returns the mapping of a stored row with that name |
| Service.PersonService.GetAllPeople | src/services/person_service.py:36-38 | one response per stored row, in table order, each the mapping of that row |
| Service.PersonService.CreatePerson | src/services/person_service.py:41-79 | a taken name: `ValueError` for a duplicate, no lookup, store unchanged; then the first rejected address: `InvalidEmail`, no lookup, store unchanged; then the fill's exception, or `ValidationError`, or an integrity failure turned into `ValueError("Database integrity error")`, each leaving the store unchanged; otherwise exactly one row is appended, holding the filled payload under the next Id, and its response is returned; the store invariant (unique names and Ids) is kept; `calls` are the fill's lookups |
| Service.CheckEmails | src/services/person_service.py:50-52 | the loop stops at the first address the format check rejects, and returns none only when every address passes |
| Service.FirstInvalid | src/services/person_service.py:50-52 | the position returned is the first rejected address: every earlier one passes; none iff all pass |
| Service.NeedsReplacementCases | src/services/person_service.py:60-65 | a field keeps its client value iff it is a true boolean, a non-zero integer, a string that is neither whitespace-only nor "string", or a list or dict; None, blank strings, 0, False and "string" are replaced |
| Service.FillMissing | src/services/person_service.py:57-71 | the in-place loop over Gender, Nationality, Age produces exactly the fill result and the lookups that the spec function `Enrich` defines |
| Service.EnrichFills | src/services/person_service.py:57-71 | the fill succeeds iff every lookup it needs succeeds; then each flagged field holds `get_info(fullName, field.lower())` and every other field, the name and `Mail` are unchanged |
| Service.EnrichCalls | src/services/person_service.py:57-71 | the lookups issued are a prefix of one lookup per flagged field, in field order; on success exactly those; no lookup for a field that keeps its value |
| Service.SetFieldsNeedNoLookup | src/services/person_service.py:57-67 | a payload whose three fields are all meaningfully set passes through unchanged with no lookup |
| Service.CreatedRow | src/services/person_service.py:57-76 | the row a successful create stores under an Id is exactly: that Id, the client's name, one e-mail row per client address in order, and for each of Gender, Nationality, Age the lookup value if it needed replacement (that lookup having succeeded), otherwise the client's value |
| Service.LookupFieldHandler | src/services/person_service.py:68-71 | `field.lower()` selects the handler of the same attribute, so each fill is that handler's single-name lookup |
| Service.LowerFieldName | src/services/person_service.py:56-70 | `field.lower()` turns the loop's field names Gender, Nationality and Age into the handler keys gender, nationality and age |
| Service.PersonService.UpdatePerson | src/services/person_service.py:81-99 | a raw dict is first parsed, and a rejected one gives `ValidationError`; the payload and `Id=person_id` reach the store unchanged; a missing Id gives the store's `NotFound`; a rename into a taken name gives `ValueError("Database integrity error")` and no change; otherwise only that row changes: present fields are replaced and a present address list replaces all e-mail rows; no lookup is made |
| Service.PersonService.DeletePerson | src/services/person_service.py:101-103 | a missing Id gives the store's `NotFound` and no change; otherwise exactly that row is removed, and afterwards no row has that Id |
| Gateway.FirstToken | src/services/api_service.py:21 | `name.split()` is empty (no token) iff the name is empty or all whitespace; a token is non-empty and holds no whitespace |
| Gateway.FirstTokenOf | src/services/api_service.py:21 | after leading whitespace, the run of non-space characters up to the next whitespace or the end is the first token, whatever follows it |
| Gateway.PrepareName | src/services/api_service.py:20-24 | fails with `IndexError` iff the name is empty or all whitespace |
| Gateway.PrepareNameUsesFirstToken | src/services/api_service.py:20-24 | only the first token is used: it is transliterated when it holds a letter of а-я, А-Я, ё or Ё, and returned unchanged otherwise |
| Gateway.PrepareAll | src/services/api_service.py:35 | succeeds iff no name is blank; then one prepared name per input name, in order |
| Gateway.BatchParams | src/services/api_service.py:36 | one `("name[]", n)` parameter per name, same length and order |
| Gateway.SingleRequest | src/services/api_service.py:26-59 | gender and nationality send `{"name": name}` to their URL with the name as given; age sends the prepared name to agify and fails iff the name is blank |
| Gateway.BatchRequest | src/services/api_service.py:34-62 | one bundled request to the handler's URL with one `name[]` parameter per name, in order; age names are prepared first, and the request fails iff some name is blank |
| Gateway.ExtractAll | src/services/api_service.py:38 | the batch result has one value per response item, in order, each being what the handler reads from that item (`str(age)`, `gender`, or the first `country_id`); it fails iff some item cannot be read |
| Gateway.AgeIsNonEmptyString | src/services/api_service.py:32 | an age read from a response is a string; for a null, boolean or integer age it is non-empty, so truthy |
| Gateway.ExtractOne | src/services/api_service.py:32-64 | age reads `item["age"]` and returns `str()` of it; gender returns `item["gender"]`; nationality returns `country_id` of the first entry of `item["country"]` and raises `IndexError` for an empty list; a `"country"` that is not a list is indexed as Python does (`KeyError(0)` for an object, `IndexError` for an empty string, `TypeError` otherwise); a missing `"age"` or `"country"` key raises `KeyError` of that key, a non-object item `TypeError` |
| Gateway.GetSingleInfo | src/services/api_service.py:26-59 | an age lookup of a blank name raises `IndexError` before any request; otherwise one request is sent, a failed request's error is raised, and the answer is what the handler reads from the response |
| Gateway.GetBatchInfo | src/services/api_service.py:34-64 | an age batch with a blank name raises `IndexError`; otherwise one bundled request is sent and its error raised; a response that is not iterable raises `TypeError`; else the result has one value per response item (not per name), in order, each read as in the single lookup, and it fails iff some item cannot be read |
| Gateway.GetHandler | src/services/api_service.py:68-73 | defined exactly for "age", "gender" and "nationality", each returning the handler registered under that key; any other key raises `KeyError` |
| Gateway.GetHandlerKey | src/services/api_service.py:69-73 | every handler is returned for its own key |
| Gateway.GetInfo | src/services/api_service.py:76-80 | an unknown key raises `KeyError`; a list argument gets the batch result of the selected handler, a string argument its single result |
| Seeder.NewNames | src/services/create_db_service.py:19-26 | exactly the baseline names not among the stored names, each as often as in the baseline, in baseline order |
| Seeder.NothingNewOnceStored | src/services/create_db_service.py:20-30 | once every baseline name is stored, the list of new names is empty |
| Seeder.BuildRecords | src/services/create_db_service.py:41-51 | succeeds iff every index read exists and every record passes the schema; then there is exactly one record per new name, and record i has name i, `genders[i] or ""`, `nationalities[i] or ""`, `ages[i] or 0`, and a `Mail` that is one of the pool's lists |
| Seeder.SeedRecord | src/services/create_db_service.py:44-50 | the record keeps the name and the drawn address list; a truthy gender, nationality or age is kept, and a falsy one becomes "", "" or 0 |
| Seeder.SeedLookups | src/services/create_db_service.py:33-36 | the gender, nationality and age batch lookups in that order; the run has all three lists iff all three succeed, and otherwise the first failure's error |
| Seeder.RunLookups | src/services/create_db_service.py:33-39 | the method issues exactly the lookups `SeedLookups` specifies and returns their result |
| Seeder.InsertRecords | src/services/create_db_service.py:41-58 | building and bulk-inserting succeed iff every index exists, the schema accepts every record, and the names are distinct and not held by another session; a short list raises `IndexError` or `ValidationError`, a rejected record `ValidationError`, a name clash `IntegrityError`, each with the store unchanged; on success exactly one row per name is appended, in order |
| Seeder.InitializeDatabase | src/services/create_db_service.py:19-58 | with no new names the run ends as AllPresent and nothing is inserted; a failed batch lookup ends the run as EnrichmentFailed with that error and inserts nothing; after successful lookups the run succeeds iff every index read exists, the schema accepts every record, and the new names are distinct and not held by another session, and success is always Created; a rejected record raises `ValidationError`, a clashing name in the bulk insert raises `IntegrityError`, and a failed run inserts nothing; on success the new rows are exactly the built records, one per new name in order, and every baseline name is stored; the store invariant is kept |
| Seeder.SeedTwice | src/services/create_db_service.py:19-30 | idempotence: after a run that created the missing rows or found none missing, the next run creates nothing |

## Left out

- HTTP requests and JSON decoding: `Env.fetch` stands for them, and any network or decoding
  failure is one error, `RequestFailed`. JSON floats are not modelled.
- The transliteration library: `Env.translit`. `str()` of a list or dict: `Env.render`.
- The repository class is not part of this model. `Store` states the contract its callers
  rely on as an in-memory table. Paging limits and SQL details are not captured.
- `EmailService.validate_email_format` is not part of this model. It is the predicate
  `emailOk`, and its exception is modelled as `InvalidEmail(address)`.
- Pydantic validation of `PersonCreate` and `PersonUpdate` is a yes/no predicate. Type
  coercion (such as the age string "35" becoming 35) is not modelled, and records are
  stored as built.
- Routing, status-code mapping, settings loading, the database engine, sessions and their
  commit/rollback/close, `async`/`await`, schema creation (`create_all`) and `print`
  logging. Each store call is atomic.
- Concurrent sessions are represented only by the names in `Store.foreign`.
- `str.lower` is modelled for ASCII letters only. It is only applied to the constant field
  names.
- Iterating a decoded JSON object whose keys repeat: the model visits every entry, while
  Python visits each key once.
- Seeder.BuildRecords: when indexes run out, the contract says the error is `IndexError` or
  `ValidationError` (whichever index the loop reaches first). It does not say which one.
- Seeder.InitializeDatabase: when a lookup list is shorter than the names, the contract says the
  error is `IndexError` or `ValidationError`, not which one (as for `Seeder.BuildRecords`).
- Seeder.InitializeDatabase: the lookups leave no trace in the model. The contract does not say
  that a run with no new names makes no request.
- Seeder.InsertRecords: when a lookup list is shorter than the names, the contract says the
  error is `IndexError` or `ValidationError`, not which one (as for `Seeder.BuildRecords`).
