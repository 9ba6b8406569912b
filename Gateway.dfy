/** The enrichment gateway of src/services/api_service.py: three attribute handlers
    (age, gender, nationality), each with a single and a batch lookup, a factory that
    selects a handler by its key, and the `get_info` dispatch. The HTTP round trip and
    the transliteration library are parameters (`Env`); everything else is modelled. */
module Gateway {
  import opened Values

  const AgeUrl: string := "https://api.agify.io"
  const GenderUrl: string := "https://api.genderize.io"
  const NationalityUrl: string := "https://api.nationalize.io"

  /** One query-string parameter as `requests` takes it: (key, value). */
  type Param = (string, string)

  /** What the handlers reach outside the process.
      `fetch(url, params)`: `requests.get(url, params=params).json()`, failing with
      `RequestFailed` on a network error or a body that is not JSON.
      `translit(word)`: `translit(word, 'ru', reversed=True)`.
      `render(v)`: `str(v)` for a list or a dict. */
  datatype Env = Env(
    fetch: (string, seq<Param>) -> Result<Value>,
    translit: string -> string,
    render: Value -> string)

  datatype Handler = AgeHandler | GenderHandler | NationalityHandler

  /** The first argument of `get_info`: `Union[str, List[str]]`. */
  datatype NameArg = One(name: string) | Many(names: seq<string>)

  /** The result of `get_info`: `Union[str, List[str]]` (the values are whatever the
      provider's JSON holds, except that ages are passed through `str`). */
  datatype Info = Single(value: Value) | Batch(values: seq<Value>)

  /** An outgoing request: the URL and its query parameters. */
  datatype Request = Request(url: string, params: seq<Param>)

  // ---------------------------------------------------------------------------
  // Name preparation for the age provider

  /** Number of leading whitespace characters of `s`. */
  function LeadingSpaces(s: string): (k: nat)
    ensures k <= |s|
    ensures forall i :: 0 <= i < k ==> IsSpace(s[i])
    ensures k == |s| || !IsSpace(s[k])
  {
    if s == [] || !IsSpace(s[0]) then 0 else 1 + LeadingSpaces(s[1..])
  }

  /** Length of the longest prefix of `s` that holds no whitespace. */
  function WordLength(s: string): (k: nat)
    ensures k <= |s|
    ensures forall i :: 0 <= i < k ==> !IsSpace(s[i])
    ensures k == |s| || IsSpace(s[k])
  {
    if s == [] || IsSpace(s[0]) then 0 else 1 + WordLength(s[1..])
  }

  /** `s.split()[0]`, or `None` where `s.split()` is the empty list. */
  function FirstToken(s: string): (t: Option<string>)
    ensures t.None? <==> IsBlank(s)
    ensures t.Some? ==> t.value != [] && forall i :: 0 <= i < |t.value| ==> !IsSpace(t.value[i])
  {
    var k := LeadingSpaces(s);
    if k == |s| then None else Some(s[k..][..WordLength(s[k..])])
  }

  /** The token that follows leading whitespace and ends at whitespace or at the end
      of the string is the first token, whatever comes after it. */
  lemma FirstTokenOf(lead: string, word: string, rest: string)
    requires IsBlank(lead)
    requires word != [] && forall i :: 0 <= i < |word| ==> !IsSpace(word[i])
    requires rest == [] || IsSpace(rest[0])
    ensures FirstToken(lead + word + rest) == Some(word)
  {
    var s := lead + word + rest;
    assert s[|lead|] == word[0];
    assert forall i :: 0 <= i < |lead| ==> s[i] == lead[i];
    assert LeadingSpaces(s) == |lead|;
    var tail := s[|lead|..];
    assert tail == word + rest;
    assert forall i :: 0 <= i < |word| ==> tail[i] == word[i];
    assert rest != [] ==> tail[|word|] == rest[0];
    assert WordLength(tail) == |word|;
    assert tail[..|word|] == word;
  }

  /** A letter of the class `[а-яА-ЯёЁ]`. */
  predicate IsCyrillic(c: char) {
    || ('\U{0430}' <= c <= '\U{044F}')  // а-я
    || ('\U{0410}' <= c <= '\U{042F}')  // А-Я
    || c == '\U{0451}'                  // ё
    || c == '\U{0401}'                  // Ё
  }

  predicate HasCyrillic(s: string) {
    exists i :: 0 <= i < |s| && IsCyrillic(s[i])
  }

  /** `AgeHandler._prepare_name`: the first token of the name, transliterated to Latin
      script when it holds a Cyrillic letter; `IndexError` when the name has no token. */
  function PrepareName(env: Env, name: string): (r: Result<string>)
    ensures r.Err? <==> IsBlank(name)
    ensures r.Err? ==> r.error == IndexError
  {
    match FirstToken(name)
    case None => Err(IndexError)
    case Some(first) => Ok(if HasCyrillic(first) then env.translit(first) else first)
  }

  /** Only the first token of the name reaches the age provider. */
  lemma PrepareNameUsesFirstToken(env: Env, lead: string, word: string, rest: string)
    requires IsBlank(lead)
    requires word != [] && forall i :: 0 <= i < |word| ==> !IsSpace(word[i])
    requires rest == [] || IsSpace(rest[0])
    ensures PrepareName(env, lead + word + rest) == Ok(if HasCyrillic(word) then env.translit(word) else word)
  {
    FirstTokenOf(lead, word, rest);
  }

  /** `[self._prepare_name(n) for n in names]`, raising at the first name with no token. */
  function PrepareAll(env: Env, names: seq<string>): (r: Result<seq<string>>)
    ensures r.Ok? <==> forall i :: 0 <= i < |names| ==> !IsBlank(names[i])
    ensures r.Ok? ==> |r.value| == |names|
    ensures r.Ok? ==> forall i :: 0 <= i < |names| ==> r.value[i] == PrepareName(env, names[i]).value
    ensures r.Err? ==> r.error == IndexError
  {
    if names == [] then Ok([])
    else
      var first :- PrepareName(env, names[0]);
      var rest :- PrepareAll(env, names[1..]);
      Ok([first] + rest)
  }

  // ---------------------------------------------------------------------------
  // Requests

  /** `[("name[]", name) for name in names]`. */
  function BatchParams(names: seq<string>): (r: seq<Param>)
    ensures |r| == |names|
    ensures forall i :: 0 <= i < |names| ==> r[i] == ("name[]", names[i])
  {
    if names == [] then [] else [("name[]", names[0])] + BatchParams(names[1..])
  }

  function Url(h: Handler): string {
    match h
    case AgeHandler => AgeUrl
    case GenderHandler => GenderUrl
    case NationalityHandler => NationalityUrl
  }

  /** The request a handler's `get_info` sends for one name. */
  function SingleRequest(env: Env, h: Handler, name: string): (r: Result<Request>)
    ensures h != AgeHandler ==> r == Ok(Request(Url(h), [("name", name)]))
    ensures h == AgeHandler ==> (r.Ok? <==> !IsBlank(name))
    ensures h == AgeHandler && r.Ok? ==> r.value == Request(AgeUrl, [("name", PrepareName(env, name).value)])
  {
    var prepared :- if h == AgeHandler then PrepareName(env, name) else Ok(name);
    Ok(Request(Url(h), [("name", prepared)]))
  }

  /** The one bundled request a handler's `get_batch_info` sends for a list of names:
      one `name[]` parameter per name, in order; the age provider gets prepared names. */
  function BatchRequest(env: Env, h: Handler, names: seq<string>): (r: Result<Request>)
    ensures h != AgeHandler ==> r.Ok?
    ensures h == AgeHandler ==> (r.Ok? <==> forall i :: 0 <= i < |names| ==> !IsBlank(names[i]))
    ensures r.Ok? ==> r.value.url == Url(h) && |r.value.params| == |names|
    ensures r.Ok? ==> forall i :: 0 <= i < |names| ==>
      r.value.params[i] == ("name[]", if h == AgeHandler then PrepareName(env, names[i]).value else names[i])
  {
    var prepared :- if h == AgeHandler then PrepareAll(env, names) else Ok(names);
    Ok(Request(Url(h), BatchParams(prepared)))
  }

  // ---------------------------------------------------------------------------
  // Reading the responses

  /** The value of the last entry with key `key`, if any. */
  function LookupEntry(es: seq<(string, Value)>, key: string): Option<Value> {
    if es == [] then None
    else if es[|es| - 1].0 == key then Some(es[|es| - 1].1)
    else LookupEntry(es[..|es| - 1], key)
  }

  /** `v[key]` for a string key. */
  function GetKey(v: Value, key: string): Result<Value> {
    match v
    case Dict(es) => (match LookupEntry(es, key) case Some(x) => Ok(x) case None => Err(KeyError(Str(key))))
    case _ => Err(TypeError)
  }

  /** `v[0]`. */
  function GetFirst(v: Value): Result<Value> {
    match v
    case List(xs) => if xs == [] then Err(IndexError) else Ok(xs[0])
    case Str(s) => if s == [] then Err(IndexError) else Ok(Str([s[0]]))
    case Dict(_) => Err(KeyError(Int(0)))
    case _ => Err(TypeError)
  }

  /** `str(v)`. */
  function PyStr(env: Env, v: Value): string {
    match v
    case Null => "None"
    case Bool(b) => if b then "True" else "False"
    case Int(i) => IntToString(i)
    case Str(s) => s
    case _ => env.render(v)
  }

  /** The items `for item in v` visits: a list's elements, a string's characters, a
      dict's keys; other values are not iterable. */
  function Items(v: Value): Result<seq<Value>> {
    match v
    case List(xs) => Ok(xs)
    case Str(s) => Ok(seq(|s|, i requires 0 <= i < |s| => Str([s[i]])))
    case Dict(es) => Ok(seq(|es|, i requires 0 <= i < |es| => Str(es[i].0)))
    case _ => Err(TypeError)
  }

  /** What a handler reads from one response object: `str(item["age"])`,
      `item["gender"]`, or `item["country"][0]["country_id"]`. */
  function ExtractOne(env: Env, h: Handler, item: Value): (r: Result<Value>)
    ensures h == AgeHandler ==>
      (match GetKey(item, "age") case Ok(a) => r == Ok(Str(PyStr(env, a))) case Err(e) => r == Err(e))
    ensures h == GenderHandler ==> r == GetKey(item, "gender")
    ensures h == NationalityHandler && GetKey(item, "country") == Ok(List([])) ==> r == Err(IndexError)
    ensures h == NationalityHandler && GetKey(item, "country").Ok? && GetKey(item, "country").value.List? &&
            GetKey(item, "country").value.items != [] ==>
      r == GetKey(GetKey(item, "country").value.items[0], "country_id")
    ensures h == NationalityHandler && item.Dict? && LookupEntry(item.entries, "country") == None ==>
      r == Err(KeyError(Str("country")))
    ensures h == NationalityHandler && GetKey(item, "country").Ok? ==>
      r == (match GetFirst(GetKey(item, "country").value)
            case Err(e) => Err(e)
            case Ok(top) => GetKey(top, "country_id"))
    ensures item.Dict? && LookupEntry(item.entries, "age") == None && h == AgeHandler ==> r == Err(KeyError(Str("age")))
    ensures !item.Dict? ==> r == Err(TypeError)
  {
    match h
    case AgeHandler =>
      var age :- GetKey(item, "age");
      Ok(Str(PyStr(env, age)))
    case GenderHandler =>
      GetKey(item, "gender")
    case NationalityHandler =>
      var countries :- GetKey(item, "country");
      var top :- GetFirst(countries);
      GetKey(top, "country_id")
  }

  /** The list comprehension over the batch response: one value per item, in order,
      raising at the first item that cannot be read. */
  function ExtractAll(env: Env, h: Handler, items: seq<Value>): (r: Result<seq<Value>>)
    ensures r.Ok? <==> forall i :: 0 <= i < |items| ==> ExtractOne(env, h, items[i]).Ok?
    ensures r.Ok? ==> |r.value| == |items|
    ensures r.Ok? ==> forall i :: 0 <= i < |items| ==> r.value[i] == ExtractOne(env, h, items[i]).value
  {
    if items == [] then Ok([])
    else
      var first :- ExtractOne(env, h, items[0]);
      var rest :- ExtractAll(env, h, items[1..]);
      Ok([first] + rest)
  }

  /** An age read from a provider response is a string, and for a null, boolean or
      integer age that string is never empty; so the seeder's `ages[idx] or 0`
      never yields 0 for such an age (a null age arrives as the string "None"). */
  lemma AgeIsNonEmptyString(env: Env, item: Value, age: Value)
    requires GetKey(item, "age") == Ok(age)
    requires age.Null? || age.Bool? || age.Int?
    ensures ExtractOne(env, AgeHandler, item).Ok?
    ensures ExtractOne(env, AgeHandler, item).value.Str?
    ensures Truthy(ExtractOne(env, AgeHandler, item).value)
  {
  }

  // ---------------------------------------------------------------------------
  // Handlers, factory and dispatch

  /** `handler.get_info(name)`: one request, one value. */
  function GetSingleInfo(env: Env, h: Handler, name: string): (r: Result<Value>)
    ensures h == AgeHandler && IsBlank(name) ==> r == Err(IndexError)
    ensures h != AgeHandler || !IsBlank(name) ==>
      var req := SingleRequest(env, h, name).value;
      && (env.fetch(req.url, req.params).Err? ==> r == Err(env.fetch(req.url, req.params).error))
      && (env.fetch(req.url, req.params).Ok? ==> r == ExtractOne(env, h, env.fetch(req.url, req.params).value))
  {
    var req :- SingleRequest(env, h, name);
    var response :- env.fetch(req.url, req.params);
    ExtractOne(env, h, response)
  }

  /** `handler.get_batch_info(names)`: one request for all names, one value per item of
      the response (the response's length is not checked against the names'). */
  function GetBatchInfo(env: Env, h: Handler, names: seq<string>): (r: Result<seq<Value>>)
    ensures h == AgeHandler && (exists i :: 0 <= i < |names| && IsBlank(names[i])) ==> r == Err(IndexError)
    ensures BatchRequest(env, h, names).Ok? ==>
      var req := BatchRequest(env, h, names).value;
      var response := env.fetch(req.url, req.params);
      && (response.Err? ==> r == Err(response.error))
      && (response.Ok? && Items(response.value).Err? ==> r == Err(TypeError))
      && (response.Ok? && Items(response.value).Ok? ==>
            var items := Items(response.value).value;
            && (r.Ok? <==> forall i :: 0 <= i < |items| ==> ExtractOne(env, h, items[i]).Ok?)
            && (r.Ok? ==> |r.value| == |items|)
            && (r.Ok? ==> forall i :: 0 <= i < |items| ==> r.value[i] == ExtractOne(env, h, items[i]).value))
  {
    var req :- BatchRequest(env, h, names);
    var response :- env.fetch(req.url, req.params);
    var items :- Items(response);
    ExtractAll(env, h, items)
  }

  /** The key under which the factory registers a handler. */
  function Key(h: Handler): string {
    match h
    case AgeHandler => "age"
    case GenderHandler => "gender"
    case NationalityHandler => "nationality"
  }

  /** `HandlerFactory.get_handler`: a dict lookup, `KeyError` for any other key. */
  function GetHandler(character: string): (r: Result<Handler>)
    ensures r.Ok? <==> character == "age" || character == "gender" || character == "nationality"
    ensures r.Ok? ==> Key(r.value) == character
    ensures r.Err? ==> r.error == KeyError(Str(character))
  {
    if character == "age" then Ok(AgeHandler)
    else if character == "gender" then Ok(GenderHandler)
    else if character == "nationality" then Ok(NationalityHandler)
    else Err(KeyError(Str(character)))
  }

  /** Every handler is reachable through its key. */
  lemma GetHandlerKey(h: Handler)
    ensures GetHandler(Key(h)) == Ok(h)
  {
  }

  /** The module-level `get_info`: a list goes to the batch lookup, a string to the
      single lookup, of the handler the key selects. */
  function GetInfo(env: Env, name: NameArg, character: string): (r: Result<Info>)
    ensures GetHandler(character).Err? ==> r == Err(KeyError(Str(character)))
    ensures r.Ok? ==> (r.value.Batch? <==> name.Many?)
    ensures GetHandler(character).Ok? && name.One? ==>
      r == (match GetSingleInfo(env, GetHandler(character).value, name.name)
            case Ok(v) => Ok(Single(v))
            case Err(e) => Err(e))
    ensures GetHandler(character).Ok? && name.Many? ==>
      r == (match GetBatchInfo(env, GetHandler(character).value, name.names)
            case Ok(vs) => Ok(Batch(vs))
            case Err(e) => Err(e))
  {
    var h :- GetHandler(character);
    match name
    case Many(names) =>
      var vs :- GetBatchInfo(env, h, names);
      Ok(Batch(vs))
    case One(n) =>
      var v :- GetSingleInfo(env, h, n);
      Ok(Single(v))
  }
}
