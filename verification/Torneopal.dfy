/**
 * The Torneopal API wrapper: the query each request would carry, the filters
 * of match and team searches, the local-match table and the selected-match
 * slots, with `localStorage` as a map from keys to strings.
 */
module Torneopal {
  import opened Wrappers
  import opened JsValue

  /** `localStorage`: keys to stored strings. */
  type Storage = map<string, string>

  /** The entries of a URL's `searchParams`, in order. */
  type Query = seq<(string, string)>

  predicate DistinctKeys<T>(entries: seq<(string, T)>) {
    forall i, j | 0 <= i < j < |entries| :: entries[i].0 != entries[j].0
  }

  /** A plain parameter object: its own keys in insertion order, and their values. */
  datatype Object = Object(keys: seq<string>, values: map<string, Value>)

  /** Every listed key has a value and every value's key is listed. */
  type Params = o: Object | (forall i | 0 <= i < |o.keys| :: o.keys[i] in o.values) && (forall k | k in o.values :: k in o.keys)
    witness Object([], map[])

  const ApiKeyItem := "torneopal-api-key"
  const SelectedIdItem := "selected-match-id"
  const SelectedDataItem := "selected-match-data"
  const LocalMatchesItem := "local-matches"
  const LocalMatchId := "local-match"
  const ApiKeyParam := "api_key"

  const ApiKeyRequired := "API key is required"
  const LocalMatchNotFound := "Local match not found"
  const SyntaxError := "SyntaxError: stored text is not JSON"
  const AssignError := "TypeError: cannot create property on a primitive"

  /** `localStorage.getItem(key)`; None for null. */
  function GetItem(storage: Storage, key: string): Option<string> {
    if key in storage then Some(storage[key]) else None
  }

  // ---------------------------------------------------------------------
  // Query strings
  // ---------------------------------------------------------------------

  /** `searchParams.get(name)`: the first entry's value. */
  function QueryGet(q: Query, name: string): Option<string> {
    if q == [] then None
    else if q[0].0 == name then Some(q[0].1)
    else QueryGet(q[1..], name)
  }

  /** The entries without any named `name`. */
  function RemoveAll(q: Query, name: string): Query {
    if q == [] then []
    else if q[0].0 == name then RemoveAll(q[1..], name)
    else [q[0]] + RemoveAll(q[1..], name)
  }

  /** After RemoveAll the name reads as absent and every other name as before. */
  lemma {:induction false} RemoveAllGet(q: Query, name: string, n: string)
    ensures QueryGet(RemoveAll(q, name), n) == if n == name then None else QueryGet(q, n)
  {
    if q != [] {
      RemoveAllGet(q[1..], name, n);
    }
  }

  /** RemoveAll keeps only entries of `q` with other names, and no name twice if `q` had none twice. */
  lemma {:induction false} RemoveAllKeeps(q: Query, name: string)
    ensures forall e | e in RemoveAll(q, name) :: e in q && e.0 != name
    ensures DistinctKeys(q) ==> DistinctKeys(RemoveAll(q, name))
  {
    if q != [] {
      RemoveAllKeeps(q[1..], name);
      var rest := RemoveAll(q[1..], name);
      if q[0].0 != name && DistinctKeys(q) {
        assert DistinctKeys(q[1..]);
        assert forall e | e in rest :: e.0 != q[0].0;
      }
    }
  }

  /**
   * `searchParams.set(name, value)`: the first entry with that name takes the
   * value and the later ones go; with none, the pair is appended.
   */
  function QuerySet(q: Query, name: string, value: string): Query {
    if q == [] then [(name, value)]
    else if q[0].0 == name then [(name, value)] + RemoveAll(q[1..], name)
    else [q[0]] + QuerySet(q[1..], name, value)
  }

  /** After `set`, the name reads as the value and every other name as before. */
  lemma {:induction false} QuerySetGet(q: Query, name: string, value: string, n: string)
    ensures QueryGet(QuerySet(q, name, value), n) == if n == name then Some(value) else QueryGet(q, n)
  {
    if q == [] {
    } else if q[0].0 == name {
      RemoveAllGet(q[1..], name, n);
    } else {
      QuerySetGet(q[1..], name, value, n);
    }
  }

  /** `set` adds no entry but the new pair, and no name twice if `q` had none twice. */
  lemma {:induction false} QuerySetKeeps(q: Query, name: string, value: string)
    ensures forall e | e in QuerySet(q, name, value) :: e in q || e == (name, value)
    ensures DistinctKeys(q) ==> DistinctKeys(QuerySet(q, name, value))
  {
    if q == [] {
    } else if q[0].0 == name {
      RemoveAllKeeps(q[1..], name);
      var rest := RemoveAll(q[1..], name);
      if DistinctKeys(q) {
        assert DistinctKeys(q[1..]);
        assert forall e | e in rest :: e.0 != name;
      }
    } else {
      QuerySetKeeps(q[1..], name, value);
      var rest := QuerySet(q[1..], name, value);
      if DistinctKeys(q) {
        assert DistinctKeys(q[1..]);
        assert forall e | e in rest :: e.0 != q[0].0;
      }
    }
  }

  /** `params[key]`, None for a missing key. */
  function Lookup(params: Params, key: string): Option<Value> {
    if key in params.values then Some(params.values[key]) else None
  }

  /** `params[key] = value`: a new key goes last, an existing one keeps its place. */
  function Assign(params: Params, key: string, value: Value): (r: Params)
    ensures r.values == params.values[key := value]
    ensures key in params.values ==> r.keys == params.keys
    ensures key !in params.values ==> r.keys == params.keys + [key]
  {
    if key in params.values then Object(params.keys, params.values[key := value])
    else Object(params.keys + [key], params.values[key := value])
  }

  /**
   * The query `makeRequest` builds from the first `n` entries of `params`:
   * `api_key` first, then every param that is neither null nor undefined,
   * as a string.
   */
  function BuildQuery(apiKey: string, params: Params, n: nat): (q: Query)
    requires n <= |params.keys|
  {
    if n == 0 then QuerySet([], ApiKeyParam, apiKey)
    else
      var q := BuildQuery(apiKey, params, n - 1);
      var key := params.keys[n - 1];
      var value := params.values[key];
      if Nullish(value) then q else QuerySet(q, key, ToStr(value))
  }

  /** The query never holds a name twice. */
  lemma {:induction false} BuildQueryDistinct(apiKey: string, params: Params, n: nat)
    requires n <= |params.keys|
    ensures DistinctKeys(BuildQuery(apiKey, params, n))
  {
    if n == 0 {
      QuerySetKeeps([], ApiKeyParam, apiKey);
    } else {
      BuildQueryDistinct(apiKey, params, n - 1);
      var key := params.keys[n - 1];
      QuerySetKeeps(BuildQuery(apiKey, params, n - 1), key, ToStr(params.values[key]));
    }
  }

  function FromKey(apiKey: string, name: string): Option<string> {
    if name == ApiKeyParam then Some(apiKey) else None
  }

  /**
   * The query built from all the params holds, under each name, the string
   * form of the param of that name when it is neither null nor undefined,
   * otherwise the API key for `api_key`, otherwise nothing.
   */
  lemma QueryContents(apiKey: string, params: Params)
    ensures Built(apiKey, params, BuildQuery(apiKey, params, |params.keys|))
  {
    forall name
      ensures QueryGet(BuildQuery(apiKey, params, |params.keys|), name) == QueryValue(apiKey, params, name)
    {
      QueryPrefix(apiKey, params, |params.keys|, name);
    }
  }

  lemma {:induction false} QueryPrefix(apiKey: string, params: Params, n: nat, name: string)
    requires n <= |params.keys|
    ensures QueryGet(BuildQuery(apiKey, params, n), name)
         == if name in params.keys[..n] && !Nullish(params.values[name]) then Some(ToStr(params.values[name]))
            else FromKey(apiKey, name)
  {
    if n == 0 {
      QuerySetGet([], ApiKeyParam, apiKey, name);
    } else {
      QueryPrefix(apiKey, params, n - 1, name);
      var key := params.keys[n - 1];
      QuerySetGet(BuildQuery(apiKey, params, n - 1), key, ToStr(params.values[key]), name);
      assert params.keys[..n] == params.keys[..n - 1] + [key];
    }
    if n == |params.keys| {
      assert params.keys[..n] == params.keys;
    }
  }

  /** The request `makeRequest` would issue; fetching and the response are not modelled. */
  datatype ApiRequest = ApiRequest(endpoint: string, query: Query)

  // ---------------------------------------------------------------------
  // Search filters
  // ---------------------------------------------------------------------

  /** The filter object of `getMatches`; an absent field is undefined (None for the limit). */
  datatype MatchFilters = MatchFilters(venueId: Value, teamId: Value, clubId: Value, category: Value,
                                       dateFrom: Value, dateTo: Value, limit: Option<int>,
                                       page: Value, officialOnly: Value)

  /** The filter object of `getTeams`. */
  datatype TeamFilters = TeamFilters(clubId: Value, district: Value, category: Value)

  function Min(a: int, b: int): int {
    if a < b then a else b
  }

  const CompetitionIdParam := "competition_id"
  const CategoryIdParam := "category_id"
  const VenueIdParam := "venue_id"
  const TeamIdParam := "team_id"
  const ClubIdParam := "club_id"
  const CategoryParam := "category"
  const DateFromParam := "date_from"
  const DateToParam := "date_to"
  const PerPageParam := "per_page"
  const PageParam := "page"
  const OfficialOnlyParam := "official_only"
  const DistrictParam := "district"

  /** The parameter names of the searches differ from one another and from `api_key`. */
  lemma ParamNamesDiffer()
    ensures ApiKeyParam != CompetitionIdParam && ApiKeyParam != CategoryIdParam && ApiKeyParam != VenueIdParam
    ensures ApiKeyParam != TeamIdParam && ApiKeyParam != ClubIdParam && ApiKeyParam != CategoryParam
    ensures ApiKeyParam != DateFromParam && ApiKeyParam != DateToParam && ApiKeyParam != PerPageParam
    ensures ApiKeyParam != PageParam && ApiKeyParam != OfficialOnlyParam && ApiKeyParam != DistrictParam
    ensures CompetitionIdParam != CategoryIdParam && CompetitionIdParam != VenueIdParam && CompetitionIdParam != TeamIdParam
    ensures CompetitionIdParam != ClubIdParam && CompetitionIdParam != CategoryParam && CompetitionIdParam != DateFromParam
    ensures CompetitionIdParam != DateToParam && CompetitionIdParam != PerPageParam && CompetitionIdParam != PageParam
    ensures CompetitionIdParam != OfficialOnlyParam
    ensures CategoryIdParam != VenueIdParam && CategoryIdParam != TeamIdParam && CategoryIdParam != ClubIdParam
    ensures CategoryIdParam != CategoryParam && CategoryIdParam != DateFromParam && CategoryIdParam != DateToParam
    ensures CategoryIdParam != PerPageParam && CategoryIdParam != PageParam && CategoryIdParam != OfficialOnlyParam
    ensures VenueIdParam != TeamIdParam && VenueIdParam != ClubIdParam && VenueIdParam != CategoryParam
    ensures VenueIdParam != DateFromParam && VenueIdParam != DateToParam && VenueIdParam != PerPageParam
    ensures VenueIdParam != PageParam && VenueIdParam != OfficialOnlyParam
    ensures TeamIdParam != ClubIdParam && TeamIdParam != CategoryParam && TeamIdParam != DateFromParam
    ensures TeamIdParam != DateToParam && TeamIdParam != PerPageParam && TeamIdParam != PageParam
    ensures TeamIdParam != OfficialOnlyParam
    ensures ClubIdParam != CategoryParam && ClubIdParam != DateFromParam && ClubIdParam != DateToParam
    ensures ClubIdParam != PerPageParam && ClubIdParam != PageParam && ClubIdParam != OfficialOnlyParam
    ensures ClubIdParam != DistrictParam && CategoryParam != DistrictParam
    ensures CategoryParam != DateFromParam && CategoryParam != DateToParam && CategoryParam != PerPageParam
    ensures CategoryParam != PageParam && CategoryParam != OfficialOnlyParam
    ensures DateFromParam != DateToParam && DateFromParam != PerPageParam && DateFromParam != PageParam
    ensures DateFromParam != OfficialOnlyParam
    ensures DateToParam != PerPageParam && DateToParam != PageParam && DateToParam != OfficialOnlyParam
    ensures PerPageParam != PageParam && PerPageParam != OfficialOnlyParam
    ensures PageParam != OfficialOnlyParam
  {
    // names of equal length differ in their first letter
    assert VenueIdParam[0] != CategoryParam[0] && VenueIdParam[0] != PerPageParam[0] && CategoryParam[0] != PerPageParam[0];
    assert TeamIdParam[0] != ClubIdParam[0] && TeamIdParam[0] != DateToParam[0] && ClubIdParam[0] != DateToParam[0];
    assert ApiKeyParam[0] != TeamIdParam[0] && ApiKeyParam[0] != ClubIdParam[0] && ApiKeyParam[0] != DateToParam[0];
    assert ClubIdParam[0] != DistrictParam[0] && CategoryParam[0] != DistrictParam[0];
  }

  /** `api_key` is not among the names of the search filters. */
  lemma ApiKeyNotParam()
    ensures ApiKeyParam != VenueIdParam && ApiKeyParam != TeamIdParam && ApiKeyParam != ClubIdParam
    ensures ApiKeyParam != CategoryParam && ApiKeyParam != DateFromParam && ApiKeyParam != DateToParam
    ensures ApiKeyParam != PageParam && ApiKeyParam != DistrictParam
    ensures ApiKeyParam != CompetitionIdParam && ApiKeyParam != CategoryIdParam
    ensures ApiKeyParam != PerPageParam && ApiKeyParam != OfficialOnlyParam
  {
    assert ApiKeyParam[0] != TeamIdParam[0] && ApiKeyParam[0] != ClubIdParam[0] && ApiKeyParam[0] != DateToParam[0];
  }

  /**
   * One line `if (condition) params.key = value` of a parameter builder: the
   * key, and the value assigned when the condition holds (None when it does not).
   */
  datatype Line = Line(key: string, value: Option<Value>)

  /** The lines run in order, starting from `{}`. */
  function Run(lines: seq<Line>): Params {
    if lines == [] then Object([], map[])
    else
      var params := Run(lines[..|lines| - 1]);
      var line := lines[|lines| - 1];
      if line.value.Some? then Assign(params, line.key, line.value.value) else params
  }

  /** A key no line names stays unset. */
  lemma {:induction false} RunUnset(lines: seq<Line>, key: string)
    requires forall j | 0 <= j < |lines| :: lines[j].key != key
    ensures Lookup(Run(lines), key) == None
  {
    if lines != [] {
      RunUnset(lines[..|lines| - 1], key);
    }
  }

  /** A key named by exactly one line holds what that line assigns, if anything. */
  lemma {:induction false} RunAssigns(lines: seq<Line>, i: nat)
    requires i < |lines|
    requires forall j | 0 <= j < |lines| && j != i :: lines[j].key != lines[i].key
    ensures Lookup(Run(lines), lines[i].key) == lines[i].value
  {
    var prefix := lines[..|lines| - 1];
    if i == |lines| - 1 {
      RunUnset(prefix, lines[i].key);
    } else {
      RunAssigns(prefix, i);
    }
  }

  /** The lines whose keys are `keys` and whose values are `values`, pairwise. */
  function Lines(keys: seq<string>, values: seq<Option<Value>>): (r: seq<Line>)
    requires |keys| == |values|
    ensures |r| == |keys|
    ensures forall i | 0 <= i < |keys| :: r[i] == Line(keys[i], values[i])
  {
    seq(|keys|, i requires 0 <= i < |keys| => Line(keys[i], values[i]))
  }

  /** With distinct keys, each key holds what its own line assigns, if anything. */
  lemma KeyAssigned(keys: seq<string>, values: seq<Option<Value>>, i: nat)
    requires |keys| == |values| && Distinct(keys) && i < |keys|
    ensures Lookup(Run(Lines(keys, values)), keys[i]) == values[i]
  {
    var lines := Lines(keys, values);
    forall j | 0 <= j < |lines| && j != i
      ensures lines[j].key != lines[i].key
    {
      if j < i {
        assert keys[j] != keys[i];
      } else {
        assert keys[i] != keys[j];
      }
    }
    RunAssigns(lines, i);
  }

  /** A key not among the keys stays unset. */
  lemma KeyUnset(keys: seq<string>, values: seq<Option<Value>>, key: string)
    requires |keys| == |values| && key !in keys
    ensures Lookup(Run(Lines(keys, values)), key) == None
  {
    var lines := Lines(keys, values);
    forall j | 0 <= j < |lines|
      ensures lines[j].key != key
    {
      assert lines[j].key == keys[j];
    }
    RunUnset(lines, key);
  }

  /** The names `getMatches` may set, in the order of the source. */
  const MatchKeys := [CompetitionIdParam, CategoryIdParam, VenueIdParam, TeamIdParam, ClubIdParam, CategoryParam,
                      DateFromParam, DateToParam, PerPageParam, PageParam, OfficialOnlyParam]

  /** What `getMatches` assigns to each of those names, if anything. */
  function MatchValues(filters: MatchFilters): seq<Option<Value>> {
    [ Some(Str("sb2025")),
      Some(Num(444)),
      WhenTruthy(filters.venueId),
      WhenTruthy(filters.teamId),
      WhenTruthy(filters.clubId),
      WhenTruthy(filters.category),
      WhenTruthy(filters.dateFrom),
      WhenTruthy(filters.dateTo),
      if filters.limit.Some? && filters.limit.value != 0 then Some(Num(Min(filters.limit.value, 100))) else None,
      WhenTruthy(filters.page),
      if Truthy(filters.officialOnly) then Some(Num(1)) else None ]
  }

  /** When the filter is truthy, its value; otherwise nothing. */
  function WhenTruthy(v: Value): Option<Value> {
    if Truthy(v) then Some(v) else None
  }

  /** The parameter object `getMatches` builds. */
  function MatchParams(filters: MatchFilters): Params {
    Run(Lines(MatchKeys, MatchValues(filters)))
  }

  /** The names `getMatches` may set differ from one another and from `api_key`. */
  lemma MatchKeysDistinct()
    ensures Distinct(MatchKeys) && ApiKeyParam !in MatchKeys
  {
    ParamNamesDiffer();
  }

  /** `getMatches` always asks for competition sb2025 and category 444, and never sets `api_key`. */
  lemma MatchParamsFixed(filters: MatchFilters)
    ensures Lookup(MatchParams(filters), CompetitionIdParam) == Some(Str("sb2025"))
    ensures Lookup(MatchParams(filters), CategoryIdParam) == Some(Num(444))
    ensures Lookup(MatchParams(filters), ApiKeyParam) == None
  {
    MatchKeysDistinct();
    KeyAssigned(MatchKeys, MatchValues(filters), 0);
    KeyAssigned(MatchKeys, MatchValues(filters), 1);
    KeyUnset(MatchKeys, MatchValues(filters), ApiKeyParam);
  }

  /** The venue, team, club and category filters are passed on exactly when truthy. */
  lemma MatchParamsPlace(filters: MatchFilters)
    ensures Lookup(MatchParams(filters), VenueIdParam) == WhenTruthy(filters.venueId)
    ensures Lookup(MatchParams(filters), TeamIdParam) == WhenTruthy(filters.teamId)
    ensures Lookup(MatchParams(filters), ClubIdParam) == WhenTruthy(filters.clubId)
    ensures Lookup(MatchParams(filters), CategoryParam) == WhenTruthy(filters.category)
  {
    MatchKeysDistinct();
    KeyAssigned(MatchKeys, MatchValues(filters), 2);
    KeyAssigned(MatchKeys, MatchValues(filters), 3);
    KeyAssigned(MatchKeys, MatchValues(filters), 4);
    KeyAssigned(MatchKeys, MatchValues(filters), 5);
  }

  /**
   * The date and page filters are passed on exactly when truthy; a non-zero
   * limit becomes `per_page`, capped at 100; `officialOnly` becomes
   * `official_only` = 1.
   */
  lemma MatchParamsPaging(filters: MatchFilters)
    ensures Lookup(MatchParams(filters), DateFromParam) == WhenTruthy(filters.dateFrom)
    ensures Lookup(MatchParams(filters), DateToParam) == WhenTruthy(filters.dateTo)
    ensures Lookup(MatchParams(filters), PerPageParam) ==
      if filters.limit.Some? && filters.limit.value != 0 then Some(Num(Min(filters.limit.value, 100))) else None
    ensures Lookup(MatchParams(filters), PageParam) == WhenTruthy(filters.page)
    ensures Lookup(MatchParams(filters), OfficialOnlyParam) == if Truthy(filters.officialOnly) then Some(Num(1)) else None
  {
    MatchKeysDistinct();
    KeyAssigned(MatchKeys, MatchValues(filters), 6);
    KeyAssigned(MatchKeys, MatchValues(filters), 7);
    KeyAssigned(MatchKeys, MatchValues(filters), 8);
    KeyAssigned(MatchKeys, MatchValues(filters), 9);
    KeyAssigned(MatchKeys, MatchValues(filters), 10);
  }

  /** The names `getTeams` may set. */
  const TeamKeys := [ClubIdParam, DistrictParam, CategoryParam]

  /** What `getTeams` assigns to each of those names, if anything. */
  function TeamValues(filters: TeamFilters): seq<Option<Value>> {
    [WhenTruthy(filters.clubId), WhenTruthy(filters.district), WhenTruthy(filters.category)]
  }

  /** The parameter object `getTeams` builds. */
  function TeamParams(filters: TeamFilters): Params {
    Run(Lines(TeamKeys, TeamValues(filters)))
  }

  /** `getTeams` passes on exactly the truthy filters and nothing else. */
  lemma TeamParamsContents(filters: TeamFilters)
    ensures Lookup(TeamParams(filters), ClubIdParam) == WhenTruthy(filters.clubId)
    ensures Lookup(TeamParams(filters), DistrictParam) == WhenTruthy(filters.district)
    ensures Lookup(TeamParams(filters), CategoryParam) == WhenTruthy(filters.category)
    ensures forall k | k != ClubIdParam && k != DistrictParam && k != CategoryParam :: Lookup(TeamParams(filters), k) == None
  {
    ParamNamesDiffer();
    assert Distinct(TeamKeys);
    KeyAssigned(TeamKeys, TeamValues(filters), 0);
    KeyAssigned(TeamKeys, TeamValues(filters), 1);
    KeyAssigned(TeamKeys, TeamValues(filters), 2);
    forall k | k != ClubIdParam && k != DistrictParam && k != CategoryParam
      ensures Lookup(TeamParams(filters), k) == None
    {
      KeyUnset(TeamKeys, TeamValues(filters), k);
    }
  }

  // ---------------------------------------------------------------------
  // Requests
  // ---------------------------------------------------------------------

  const MatchIdParam := "match_id"

  /**
   * What the query `makeRequest` builds holds under `name`: the string form
   * of the param of that name when it is neither null nor undefined,
   * otherwise the API key for `api_key`, otherwise nothing.
   */
  function QueryValue(apiKey: string, params: Params, name: string): Option<string> {
    if name in params.values && !Nullish(params.values[name]) then Some(ToStr(params.values[name]))
    else FromKey(apiKey, name)
  }

  /** The text a truthy filter contributes to the query. */
  function TextWhenTruthy(v: Value): Option<string> {
    if Truthy(v) then Some(ToStr(v)) else None
  }

  /** The query of `getMatches` for these filters. */
  ghost predicate MatchQuery(apiKey: string, filters: MatchFilters, q: Query) {
    && QueryGet(q, ApiKeyParam) == Some(apiKey)
    && QueryGet(q, CompetitionIdParam) == Some("sb2025")
    && QueryGet(q, CategoryIdParam) == Some("444")
    && QueryGet(q, VenueIdParam) == TextWhenTruthy(filters.venueId)
    && QueryGet(q, TeamIdParam) == TextWhenTruthy(filters.teamId)
    && QueryGet(q, ClubIdParam) == TextWhenTruthy(filters.clubId)
    && QueryGet(q, CategoryParam) == TextWhenTruthy(filters.category)
    && QueryGet(q, DateFromParam) == TextWhenTruthy(filters.dateFrom)
    && QueryGet(q, DateToParam) == TextWhenTruthy(filters.dateTo)
    && QueryGet(q, PerPageParam) ==
         (if filters.limit.Some? && filters.limit.value != 0 then Some(IntToString(Min(filters.limit.value, 100))) else None)
    && QueryGet(q, PageParam) == TextWhenTruthy(filters.page)
    && QueryGet(q, OfficialOnlyParam) == (if Truthy(filters.officialOnly) then Some("1") else None)
  }

  /** The query of `getTeams` for these filters: the truthy ones and the API key, nothing else. */
  ghost predicate TeamQuery(apiKey: string, filters: TeamFilters, q: Query) {
    && QueryGet(q, ApiKeyParam) == Some(apiKey)
    && QueryGet(q, ClubIdParam) == TextWhenTruthy(filters.clubId)
    && QueryGet(q, DistrictParam) == TextWhenTruthy(filters.district)
    && QueryGet(q, CategoryParam) == TextWhenTruthy(filters.category)
    && forall n | n != ApiKeyParam && n != ClubIdParam && n != DistrictParam && n != CategoryParam :: QueryGet(q, n) == None
  }

  lemma NumberTexts()
    ensures IntToString(444) == "444" && IntToString(1) == "1"
  {
    assert NatToString(4) == "4";
    assert NatToString(44) == "44";
  }

  /** `q` is the query `makeRequest` builds from `params` with this key. */
  ghost predicate Built(apiKey: string, params: Params, q: Query) {
    forall name :: QueryGet(q, name) == QueryValue(apiKey, params, name)
  }

  /** A name other than `api_key`: in the query exactly when the param is truthy. */
  lemma BuiltTruthy(apiKey: string, params: Params, q: Query, name: string, v: Value)
    requires Built(apiKey, params, q) && name != ApiKeyParam
    requires Lookup(params, name) == WhenTruthy(v)
    ensures QueryGet(q, name) == TextWhenTruthy(v)
  {
    assert QueryGet(q, name) == QueryValue(apiKey, params, name);
  }

  lemma MatchQueryFixed(apiKey: string, filters: MatchFilters, params: Params, q: Query)
    requires Built(apiKey, params, q)
    requires Lookup(params, CompetitionIdParam) == Some(Str("sb2025"))
    requires Lookup(params, CategoryIdParam) == Some(Num(444))
    requires Lookup(params, ApiKeyParam) == None
    requires Lookup(params, PerPageParam) ==
      if filters.limit.Some? && filters.limit.value != 0 then Some(Num(Min(filters.limit.value, 100))) else None
    requires Lookup(params, OfficialOnlyParam) == if Truthy(filters.officialOnly) then Some(Num(1)) else None
    ensures QueryGet(q, ApiKeyParam) == Some(apiKey)
    ensures QueryGet(q, CompetitionIdParam) == Some("sb2025")
    ensures QueryGet(q, CategoryIdParam) == Some("444")
    ensures QueryGet(q, PerPageParam) ==
      (if filters.limit.Some? && filters.limit.value != 0 then Some(IntToString(Min(filters.limit.value, 100))) else None)
    ensures QueryGet(q, OfficialOnlyParam) == (if Truthy(filters.officialOnly) then Some("1") else None)
  {
    ApiKeyNotParam();
    NumberTexts();
    assert QueryGet(q, ApiKeyParam) == QueryValue(apiKey, params, ApiKeyParam);
    assert QueryGet(q, CompetitionIdParam) == QueryValue(apiKey, params, CompetitionIdParam);
    assert QueryGet(q, CategoryIdParam) == QueryValue(apiKey, params, CategoryIdParam);
    assert QueryGet(q, PerPageParam) == QueryValue(apiKey, params, PerPageParam);
    assert QueryGet(q, OfficialOnlyParam) == QueryValue(apiKey, params, OfficialOnlyParam);
  }


  /**
   * The query of `getMatches` holds the key, the fixed competition and
   * category, each truthy filter as text, and a page size of at most 100.
   */
  lemma MatchQueryHolds(apiKey: string, filters: MatchFilters, q: Query)
    requires Built(apiKey, MatchParams(filters), q)
    ensures MatchQuery(apiKey, filters, q)
  {
    ApiKeyNotParam();
    var params := MatchParams(filters);
    MatchParamsFixed(filters);
    MatchParamsPlace(filters);
    MatchParamsPaging(filters);
    MatchQueryFixed(apiKey, filters, params, q);
    BuiltTruthy(apiKey, params, q, VenueIdParam, filters.venueId);
    BuiltTruthy(apiKey, params, q, TeamIdParam, filters.teamId);
    BuiltTruthy(apiKey, params, q, ClubIdParam, filters.clubId);
    BuiltTruthy(apiKey, params, q, CategoryParam, filters.category);
    BuiltTruthy(apiKey, params, q, DateFromParam, filters.dateFrom);
    BuiltTruthy(apiKey, params, q, DateToParam, filters.dateTo);
    BuiltTruthy(apiKey, params, q, PageParam, filters.page);
  }

  /** The query of `getTeams` holds no name but the key and the three filters. */
  lemma TeamQueryOnly(apiKey: string, filters: TeamFilters, q: Query)
    requires Built(apiKey, TeamParams(filters), q)
    ensures forall n | n != ApiKeyParam && n != ClubIdParam && n != DistrictParam && n != CategoryParam :: QueryGet(q, n) == None
  {
    forall n | n != ApiKeyParam && n != ClubIdParam && n != DistrictParam && n != CategoryParam
      ensures QueryGet(q, n) == None
    {
      TeamParamsContents(filters);
      assert Lookup(TeamParams(filters), n) == None;
      assert QueryGet(q, n) == QueryValue(apiKey, TeamParams(filters), n);
    }
  }

  /** The query of `getTeams` holds the key and the truthy filters, and nothing else. */
  lemma TeamQueryHolds(apiKey: string, filters: TeamFilters, q: Query)
    requires Built(apiKey, TeamParams(filters), q)
    ensures TeamQuery(apiKey, filters, q)
  {
    ApiKeyNotParam();
    TeamParamsContents(filters);
    var params := TeamParams(filters);
    assert Lookup(params, ApiKeyParam) == None;
    assert QueryGet(q, ApiKeyParam) == QueryValue(apiKey, params, ApiKeyParam);
    BuiltTruthy(apiKey, params, q, ClubIdParam, filters.clubId);
    BuiltTruthy(apiKey, params, q, DistrictParam, filters.district);
    BuiltTruthy(apiKey, params, q, CategoryParam, filters.category);
    TeamQueryOnly(apiKey, filters, q);
  }

  /** The query `makeRequest` builds from the params of `getMatches` is as MatchQuery says. */
  lemma MatchQueryBuilt(apiKey: string, filters: MatchFilters)
    ensures MatchQuery(apiKey, filters, BuildQuery(apiKey, MatchParams(filters), |MatchParams(filters).keys|))
  {
    QueryContents(apiKey, MatchParams(filters));
    MatchQueryHolds(apiKey, filters, BuildQuery(apiKey, MatchParams(filters), |MatchParams(filters).keys|));
  }

  /** The query `makeRequest` builds from the params of `getTeams` is as TeamQuery says. */
  lemma TeamQueryBuilt(apiKey: string, filters: TeamFilters)
    ensures TeamQuery(apiKey, filters, BuildQuery(apiKey, TeamParams(filters), |TeamParams(filters).keys|))
  {
    QueryContents(apiKey, TeamParams(filters));
    TeamQueryHolds(apiKey, filters, BuildQuery(apiKey, TeamParams(filters), |TeamParams(filters).keys|));
  }

  /** Where `getMatchEnhanced` found the match. */
  datatype MatchSource = Local(localMatch: Value) | Remote(request: ApiRequest)

  // ---------------------------------------------------------------------
  // The local-match table
  // ---------------------------------------------------------------------

  const SetOnNullishError := "TypeError: cannot set properties of null or undefined"
  const LocalVenue := "Local Venue"
  const LocalCategory := "Local Match"
  const HomeTeam := "Home Team"

  const MatchIdKey := "match_id"
  const DateKey := "date"
  const TimeKey := "time"
  const TeamANameKey := "team_A_name"
  const TeamBNameKey := "team_B_name"
  const ClubACrestKey := "club_A_crest"
  const ClubBCrestKey := "club_B_crest"
  const VenueNameKey := "venue_name"
  const CategoryNameKey := "category_name"
  const IsLocalKey := "is_local"
  const CreatedAtKey := "created_at"
  const HomeTeamIdKey := "home_team_id"
  const HomeTeamDataKey := "home_team_data"

  /** The keys of a local match record differ from one another. */
  lemma RecordKeysDiffer()
    ensures MatchIdKey != DateKey && MatchIdKey != TimeKey && MatchIdKey != TeamANameKey
    ensures MatchIdKey != TeamBNameKey && MatchIdKey != ClubACrestKey && MatchIdKey != ClubBCrestKey
    ensures MatchIdKey != VenueNameKey && MatchIdKey != CategoryNameKey && MatchIdKey != IsLocalKey
    ensures MatchIdKey != CreatedAtKey && MatchIdKey != HomeTeamIdKey && MatchIdKey != HomeTeamDataKey
    ensures DateKey != TimeKey && DateKey != TeamANameKey && DateKey != TeamBNameKey
    ensures DateKey != ClubACrestKey && DateKey != ClubBCrestKey && DateKey != VenueNameKey
    ensures DateKey != CategoryNameKey && DateKey != IsLocalKey && DateKey != CreatedAtKey
    ensures DateKey != HomeTeamIdKey && DateKey != HomeTeamDataKey && TimeKey != TeamANameKey
    ensures TimeKey != TeamBNameKey && TimeKey != ClubACrestKey && TimeKey != ClubBCrestKey
    ensures TimeKey != VenueNameKey && TimeKey != CategoryNameKey && TimeKey != IsLocalKey
    ensures TimeKey != CreatedAtKey && TimeKey != HomeTeamIdKey && TimeKey != HomeTeamDataKey
    ensures TeamANameKey != TeamBNameKey && TeamANameKey != ClubACrestKey && TeamANameKey != ClubBCrestKey
    ensures TeamANameKey != VenueNameKey && TeamANameKey != CategoryNameKey && TeamANameKey != IsLocalKey
    ensures TeamANameKey != CreatedAtKey && TeamANameKey != HomeTeamIdKey && TeamANameKey != HomeTeamDataKey
    ensures TeamBNameKey != ClubACrestKey && TeamBNameKey != ClubBCrestKey && TeamBNameKey != VenueNameKey
    ensures TeamBNameKey != CategoryNameKey && TeamBNameKey != IsLocalKey && TeamBNameKey != CreatedAtKey
    ensures TeamBNameKey != HomeTeamIdKey && TeamBNameKey != HomeTeamDataKey && ClubACrestKey != ClubBCrestKey
    ensures ClubACrestKey != VenueNameKey && ClubACrestKey != CategoryNameKey && ClubACrestKey != IsLocalKey
    ensures ClubACrestKey != CreatedAtKey && ClubACrestKey != HomeTeamIdKey && ClubACrestKey != HomeTeamDataKey
    ensures ClubBCrestKey != VenueNameKey && ClubBCrestKey != CategoryNameKey && ClubBCrestKey != IsLocalKey
    ensures ClubBCrestKey != CreatedAtKey && ClubBCrestKey != HomeTeamIdKey && ClubBCrestKey != HomeTeamDataKey
    ensures VenueNameKey != CategoryNameKey && VenueNameKey != IsLocalKey && VenueNameKey != CreatedAtKey
    ensures VenueNameKey != HomeTeamIdKey && VenueNameKey != HomeTeamDataKey && CategoryNameKey != IsLocalKey
    ensures CategoryNameKey != CreatedAtKey && CategoryNameKey != HomeTeamIdKey && CategoryNameKey != HomeTeamDataKey
    ensures IsLocalKey != CreatedAtKey && IsLocalKey != HomeTeamIdKey && IsLocalKey != HomeTeamDataKey
    ensures CreatedAtKey != HomeTeamIdKey && CreatedAtKey != HomeTeamDataKey && HomeTeamIdKey != HomeTeamDataKey
  {
    // keys of equal length differ at some position
    assert MatchIdKey[0] != IsLocalKey[0];
    assert DateKey[0] != TimeKey[0];
    assert TeamANameKey[5] != TeamBNameKey[5];
    assert ClubACrestKey[5] != ClubBCrestKey[5];
    assert ClubACrestKey[0] != HomeTeamIdKey[0];
    assert ClubBCrestKey[0] != HomeTeamIdKey[0];
    assert VenueNameKey[0] != CreatedAtKey[0];
  }

  /** `getStoredLocalMatches`: the parsed table, `{}` when nothing or "" is stored. */
  function StoredLocalMatches(storage: Storage, json: JsonCodec): (r: Result<Value, string>)
    ensures GetItem(storage, LocalMatchesItem).GetOr("") == "" ==> r == Ok(Obj(map[]))
    ensures r.Err? <==> GetItem(storage, LocalMatchesItem).GetOr("") != "" && json.parse(storage[LocalMatchesItem]).None?
  {
    match GetItem(storage, LocalMatchesItem)
    case None => Ok(Obj(map[]))
    case Some(text) =>
      if text == "" then Ok(Obj(map[]))
      else match json.parse(text)
        case None => Err(SyntaxError)
        case Some(table) => Ok(table)
  }

  /** `getLocalMatch(matchId)`: the entry under `String(matchId)`, or null when it is falsy. */
  function LocalMatch(storage: Storage, json: JsonCodec, matchId: Value): (r: Result<Value, string>)
    ensures r.Ok? ==> r.value == Null || Truthy(r.value)
  {
    match StoredLocalMatches(storage, json)
    case Err(e) => Err(e)
    case Ok(table) =>
      match Prop(table, ToStr(matchId))
      case Err(e) => Err(e)
      case Ok(entry) => Ok(Or(entry, Null))
  }

  /** `isLocalMatch(matchId)` */
  predicate IsLocalMatch(matchId: Value) {
    matchId == Str(LocalMatchId)
  }

  /** `const { x = d } = m`: the default applies only when the field is undefined. */
  function Default(v: Value, d: Value): Value {
    if v == Undefined then d else v
  }

  /**
   * The record `createLocalMatch` builds; destructuring null or undefined
   * match data, or reading `team_name` of a null or undefined
   * `homeTeamData`, throws a TypeError.
   */
  function LocalMatchRecord(matchData: Value, createdAt: string): (r: Result<Value, string>)
    ensures r.Err? <==> Nullish(matchData) || Nullish(Field(matchData, "homeTeamData"))
    ensures r.Err? ==> r.error == TypeError
    ensures r.Ok? ==> r.value.Obj?
  {
    if Nullish(matchData) then Err(TypeError)
    else
      var homeTeamData := Field(matchData, "homeTeamData");
      if Nullish(homeTeamData) then Err(TypeError)
      else Ok(Obj(map[
        MatchIdKey := Str(LocalMatchId),
        DateKey := Field(matchData, "date"),
        TimeKey := Field(matchData, "time"),
        TeamANameKey := Or(Field(homeTeamData, "team_name"), Str(HomeTeam)),
        TeamBNameKey := Field(matchData, "awayTeamName"),
        ClubACrestKey := Or(Field(homeTeamData, "club_crest"), Str("")),
        ClubBCrestKey := Or(Field(matchData, "awayTeamLogo"), Str("")),
        VenueNameKey := Default(Field(matchData, "venue"), Str(LocalVenue)),
        CategoryNameKey := Default(Field(matchData, "category"), Str(LocalCategory)),
        IsLocalKey := Bool(true),
        CreatedAtKey := Str(createdAt),
        HomeTeamIdKey := Field(matchData, "homeTeamId"),
        HomeTeamDataKey := homeTeamData]))
  }

  /** The record is a local match under id "local-match", created at the given time. */
  lemma LocalMatchIdentity(matchData: Value, createdAt: string)
    requires LocalMatchRecord(matchData, createdAt).Ok?
    ensures var m := LocalMatchRecord(matchData, createdAt).value;
      && Field(m, MatchIdKey) == Str(LocalMatchId)
      && Field(m, IsLocalKey) == Bool(true)
      && Field(m, CreatedAtKey) == Str(createdAt)
  {
    RecordKeysDiffer();
  }

  /** The date and time are those of the argument. */
  lemma LocalMatchSchedule(matchData: Value, createdAt: string)
    requires LocalMatchRecord(matchData, createdAt).Ok?
    ensures var m := LocalMatchRecord(matchData, createdAt).value;
      && Field(m, DateKey) == Field(matchData, "date")
      && Field(m, TimeKey) == Field(matchData, "time")
  {
    RecordKeysDiffer();
  }

  /**
   * Venue "Local Venue" and category "Local Match" apply when those fields
   * are undefined, and only then.
   */
  lemma LocalMatchDefaults(matchData: Value, createdAt: string)
    requires LocalMatchRecord(matchData, createdAt).Ok?
    ensures var m := LocalMatchRecord(matchData, createdAt).value;
      && Field(m, VenueNameKey) == Default(Field(matchData, "venue"), Str(LocalVenue))
      && Field(m, CategoryNameKey) == Default(Field(matchData, "category"), Str(LocalCategory))
  {
    RecordKeysDiffer();
  }

  /** Team A is "Home Team" and a crest is "" when the given one is falsy. */
  lemma LocalMatchFallbacks(matchData: Value, createdAt: string)
    requires LocalMatchRecord(matchData, createdAt).Ok?
    ensures var m := LocalMatchRecord(matchData, createdAt).value;
      var home := Field(matchData, "homeTeamData");
      && Field(m, TeamANameKey) == Or(Field(home, "team_name"), Str(HomeTeam))
      && Field(m, ClubACrestKey) == Or(Field(home, "club_crest"), Str(""))
      && Field(m, ClubBCrestKey) == Or(Field(matchData, "awayTeamLogo"), Str(""))
  {
    RecordKeysDiffer();
  }

  /** The away team's name, the home team's id and its data are those of the argument. */
  lemma LocalMatchTeams(matchData: Value, createdAt: string)
    requires LocalMatchRecord(matchData, createdAt).Ok?
    ensures var m := LocalMatchRecord(matchData, createdAt).value;
      && Field(m, TeamBNameKey) == Field(matchData, "awayTeamName")
      && Field(m, HomeTeamIdKey) == Field(matchData, "homeTeamId")
      && Field(m, HomeTeamDataKey) == Field(matchData, "homeTeamData")
  {
    RecordKeysDiffer();
  }

  /**
   * `table[name] = x` in strict code: an object gains the property, an array
   * keeps it as a named property that JSON text leaves out, null and
   * undefined throw, and so does any other primitive.
   */
  function SetProperty(table: Value, name: string, x: Value): (r: Result<Value, string>)
    ensures r.Ok? <==> table.Obj? || table.Arr?
    ensures table.Obj? ==> r == Ok(Obj(table.fields[name := x]))
    ensures table.Arr? ==> r == Ok(table)
  {
    match table
    case Undefined => Err(SetOnNullishError)
    case Null => Err(SetOnNullishError)
    case Obj(fields) => Ok(Obj(fields[name := x]))
    case Arr(_) => Ok(table)
    case _ => Err(AssignError)
  }

  /** `getLocalMatch(id)` on a stored table: the entry under `id`, or null when it is falsy. */
  lemma LocalMatchIn(storage: Storage, json: JsonCodec, table: Value, id: string)
    requires StoredLocalMatches(storage, json) == Ok(table) && !Nullish(table)
    ensures LocalMatch(storage, json, Str(id)) == Ok(Or(Field(table, id), Null))
  {
    assert ToStr(Str(id)) == id;
  }

  /** Writing a table whose JSON text round-trips makes it the stored table. */
  lemma StoredAfterWrite(storage: Storage, json: JsonCodec, table: Value)
    requires RoundTrips(json, table)
    ensures StoredLocalMatches(storage[LocalMatchesItem := json.stringify(table)], json) == Ok(table)
  {
    assert GetItem(storage[LocalMatchesItem := json.stringify(table)], LocalMatchesItem) == Some(json.stringify(table));
  }

  /**
   * `localMatches["local-match"] = record`, written back: the storage after
   * adding the record to the stored table.
   */
  function PutLocal(storage: Storage, json: JsonCodec, record: Value): (r: Result<Storage, string>)
    ensures r.Ok? ==> forall item | item != LocalMatchesItem :: GetItem(r.value, item) == GetItem(storage, item)
    ensures r.Ok? <==> StoredLocalMatches(storage, json).Ok?
                       && (StoredLocalMatches(storage, json).value.Obj? || StoredLocalMatches(storage, json).value.Arr?)
  {
    match StoredLocalMatches(storage, json)
    case Err(e) => Err(e)
    case Ok(table) =>
      match SetProperty(table, LocalMatchId, record)
      case Err(e) => Err(e)
      case Ok(updated) => Ok(storage[LocalMatchesItem := json.stringify(updated)])
  }

  /**
   * After adding an object to an object table, `getLocalMatch("local-match")`
   * gives it, and every other entry is as before.
   */
  lemma PutThenGet(storage: Storage, json: JsonCodec, record: Value, fields: map<string, Value>)
    requires StoredLocalMatches(storage, json) == Ok(Obj(fields)) && record.Obj?
    requires RoundTrips(json, Obj(fields[LocalMatchId := record]))
    ensures PutLocal(storage, json, record).Ok?
    ensures var after := PutLocal(storage, json, record).value;
      && LocalMatch(after, json, Str(LocalMatchId)) == Ok(record)
      && forall id | id != LocalMatchId :: LocalMatch(after, json, Str(id)) == LocalMatch(storage, json, Str(id))
  {
    var table := Obj(fields[LocalMatchId := record]);
    var after := storage[LocalMatchesItem := json.stringify(table)];
    assert PutLocal(storage, json, record) == Ok(after);
    StoredAfterWrite(storage, json, table);
    LocalMatchIn(after, json, table, LocalMatchId);
    forall id | id != LocalMatchId
      ensures LocalMatch(after, json, Str(id)) == LocalMatch(storage, json, Str(id))
    {
      LocalMatchIn(after, json, table, id);
      LocalMatchIn(storage, json, Obj(fields), id);
    }
  }

  /** `createLocalMatch`: the record it returns and the storage it leaves. */
  function CreateLocal(storage: Storage, json: JsonCodec, matchData: Value, createdAt: string): (r: Result<(Value, Storage), string>)
    ensures r.Ok? ==> LocalMatchRecord(matchData, createdAt).Ok? && r.value.0 == LocalMatchRecord(matchData, createdAt).value
    ensures r.Ok? ==> forall item | item != LocalMatchesItem :: GetItem(r.value.1, item) == GetItem(storage, item)
    ensures r.Ok? <==> LocalMatchRecord(matchData, createdAt).Ok? && StoredLocalMatches(storage, json).Ok?
                       && (StoredLocalMatches(storage, json).value.Obj? || StoredLocalMatches(storage, json).value.Arr?)
  {
    match LocalMatchRecord(matchData, createdAt)
    case Err(e) => Err(e)
    case Ok(record) =>
      match PutLocal(storage, json, record)
      case Err(e) => Err(e)
      case Ok(after) => Ok((record, after))
  }

  /**
   * After `createLocalMatch` on an object table, `getLocalMatch("local-match")`
   * gives the new record, every other entry is as before, and no other item
   * of the storage changed.
   */
  lemma CreateThenGet(storage: Storage, json: JsonCodec, matchData: Value, createdAt: string, fields: map<string, Value>)
    requires StoredLocalMatches(storage, json) == Ok(Obj(fields))
    requires LocalMatchRecord(matchData, createdAt).Ok?
    requires RoundTrips(json, Obj(fields[LocalMatchId := LocalMatchRecord(matchData, createdAt).value]))
    ensures CreateLocal(storage, json, matchData, createdAt).Ok?
    ensures var (record, after) := CreateLocal(storage, json, matchData, createdAt).value;
      && LocalMatch(after, json, Str(LocalMatchId)) == Ok(record)
      && forall id | id != LocalMatchId :: LocalMatch(after, json, Str(id)) == LocalMatch(storage, json, Str(id))
  {
    var record := LocalMatchRecord(matchData, createdAt).value;
    PutThenGet(storage, json, record, fields);
  }

  /** `deleteLocalMatch`: whether an entry went, and the storage it leaves. */
  function DeleteLocal(storage: Storage, json: JsonCodec, matchId: Value): (r: Result<(bool, Storage), string>)
    ensures r.Ok? && !r.value.0 ==> r.value.1 == storage
    ensures r.Ok? ==> forall item | item != LocalMatchesItem :: GetItem(r.value.1, item) == GetItem(storage, item)
    ensures r.Ok? <==> StoredLocalMatches(storage, json).Ok? && !Nullish(StoredLocalMatches(storage, json).value)
  {
    match StoredLocalMatches(storage, json)
    case Err(e) => Err(e)
    case Ok(table) =>
      var key := ToStr(matchId);
      match Prop(table, key)
      case Err(e) => Err(e)
      case Ok(entry) =>
        if Truthy(entry) then Ok((true, storage[LocalMatchesItem := json.stringify(Obj(table.fields - {key}))]))
        else Ok((false, storage))
  }

  /**
   * `deleteLocalMatch` on an object table reports true exactly when the entry
   * was truthy; then the entry reads back as null and the others are as
   * before; otherwise nothing changed.
   */
  lemma DeleteThenGet(storage: Storage, json: JsonCodec, matchId: Value, fields: map<string, Value>)
    requires StoredLocalMatches(storage, json) == Ok(Obj(fields))
    requires ToStr(matchId) in fields && Truthy(fields[ToStr(matchId)]) ==> RoundTrips(json, Obj(fields - {ToStr(matchId)}))
    ensures DeleteLocal(storage, json, matchId).Ok?
    ensures var (deleted, after) := DeleteLocal(storage, json, matchId).value;
      && (deleted <==> ToStr(matchId) in fields && Truthy(fields[ToStr(matchId)]))
      && (deleted ==> LocalMatch(after, json, matchId) == Ok(Null))
      && (deleted ==> forall id | id != ToStr(matchId) :: LocalMatch(after, json, Str(id)) == LocalMatch(storage, json, Str(id)))
      && (!deleted ==> after == storage)
  {
    var key := ToStr(matchId);
    var after := DeleteLocal(storage, json, matchId).value.1;
    if key in fields && Truthy(fields[key]) {
      assert StoredLocalMatches(after, json) == Ok(Obj(fields - {key}));
    }
  }

  // ---------------------------------------------------------------------
  // The selected-match slots
  // ---------------------------------------------------------------------

  /** `storeSelectedMatch`: the id as `String(matchId)`, the data as JSON text. */
  function StoreSelected(storage: Storage, json: JsonCodec, matchId: Value, matchData: Value): (r: Storage)
    ensures forall item | item != SelectedIdItem && item != SelectedDataItem :: GetItem(r, item) == GetItem(storage, item)
  {
    storage[SelectedIdItem := ToStr(matchId)][SelectedDataItem := json.stringify(matchData)]
  }

  /**
   * `getStoredSelectedMatch`: the id and the parsed data when both slots hold
   * non-empty text and the data parses; otherwise null.
   */
  function SelectedMatch(storage: Storage, json: JsonCodec): (r: Option<(string, Value)>)
    ensures r.Some? <==> GetItem(storage, SelectedIdItem).GetOr("") != "" && GetItem(storage, SelectedDataItem).GetOr("") != ""
                         && json.parse(storage[SelectedDataItem]).Some?
    ensures r.Some? ==> r.value == (storage[SelectedIdItem], json.parse(storage[SelectedDataItem]).value)
  {
    match (GetItem(storage, SelectedIdItem), GetItem(storage, SelectedDataItem))
    case (Some(matchId), Some(text)) =>
      if matchId != "" && text != "" then
        match json.parse(text)
        case Some(matchData) => Some((matchId, matchData))
        case None => None
      else None
    case _ => None
  }

  /** `clearStoredMatch`: both slots removed. */
  function ClearSelected(storage: Storage): (r: Storage)
    ensures SelectedIdItem !in r && SelectedDataItem !in r
    ensures forall item | item != SelectedIdItem && item != SelectedDataItem :: GetItem(r, item) == GetItem(storage, item)
  {
    storage - {SelectedIdItem, SelectedDataItem}
  }

  /** A stored selection with a non-empty id and data the codec reads back is returned as stored. */
  lemma SelectedRoundTrip(storage: Storage, json: JsonCodec, matchId: Value, matchData: Value)
    requires ToStr(matchId) != "" && RoundTrips(json, matchData)
    ensures SelectedMatch(StoreSelected(storage, json, matchId, matchData), json) == Some((ToStr(matchId), matchData))
  {
    assert SelectedIdItem != SelectedDataItem by { assert |SelectedIdItem| != |SelectedDataItem|; }
  }

  /** After `clearStoredMatch`, `getStoredSelectedMatch` returns null. */
  lemma ClearThenGet(storage: Storage, json: JsonCodec)
    ensures SelectedMatch(ClearSelected(storage), json) == None
  {
  }

  // ---------------------------------------------------------------------
  // The API object
  // ---------------------------------------------------------------------

  /** `TorneopalAPI`: the API key it sends and the `localStorage` it reads and writes. */
  class TorneopalApi {
    const json: JsonCodec
    var apiKey: string
    var storage: Storage

    /** The key comes from storage, "" when none is stored. */
    constructor(storage0: Storage, json: JsonCodec)
      ensures this.json == json && storage == storage0
      ensures apiKey == GetItem(storage0, ApiKeyItem).GetOr("")
    {
      this.json := json;
      storage := storage0;
      apiKey := GetItem(storage0, ApiKeyItem).GetOr("");
    }

    method SetApiKey(key: string)
      modifies this`apiKey, this`storage
      ensures apiKey == key && storage == old(storage)[ApiKeyItem := key]
    {
      apiKey := key;
      storage := storage[ApiKeyItem := key];
    }

    /**
     * `makeRequest`: without an API key it fails before any request;
     * otherwise the query carries the key and every param that is neither
     * null nor undefined, as text, each name once.
     */
    method MakeRequest(endpoint: string, params: Params) returns (r: Result<ApiRequest, string>)
      ensures r.Err? <==> apiKey == ""
      ensures r.Err? ==> r.error == ApiKeyRequired
      ensures r.Ok? ==> r.value == ApiRequest(endpoint, BuildQuery(apiKey, params, |params.keys|))
    {
      if apiKey == "" {
        return Err(ApiKeyRequired);
      }
      var query := QuerySet([], ApiKeyParam, apiKey);
      for i := 0 to |params.keys|
        invariant query == BuildQuery(apiKey, params, i)
      {
        var key := params.keys[i];
        var value := params.values[key];
        if !Nullish(value) {
          query := QuerySet(query, key, ToStr(value));
        }
      }
      return Ok(ApiRequest(endpoint, query));
    }

    /** `getMatches`: the fixed competition and category, the truthy filters and the capped page size. */
    method GetMatches(filters: MatchFilters) returns (r: Result<ApiRequest, string>)
      ensures r.Err? <==> apiKey == ""
      ensures r.Ok? ==> r.value.endpoint == "getMatches" && MatchQuery(apiKey, filters, r.value.query)
    {
      var params := MatchParams(filters);
      r := MakeRequest("getMatches", params);
      if r.Ok? {
        MatchQueryBuilt(apiKey, filters);
      }
    }

    /** `getMatch`: the id as `match_id` unless it is null or undefined. */
    method GetMatch(matchId: Value) returns (r: Result<ApiRequest, string>)
      ensures r.Err? <==> apiKey == ""
      ensures r.Ok? ==> r.value.endpoint == "getMatch"
      ensures r.Ok? ==> QueryGet(r.value.query, MatchIdParam) == if Nullish(matchId) then None else Some(ToStr(matchId))
      ensures r.Ok? ==> QueryGet(r.value.query, ApiKeyParam) == Some(apiKey)
    {
      var lines := [Line(MatchIdParam, Some(matchId))];
      RunAssigns(lines, 0);
      r := MakeRequest("getMatch", Run(lines));
      if r.Ok? {
        QueryPrefix(apiKey, Run(lines), |Run(lines).keys|, MatchIdParam);
        ApiKeyNotParam();
        QueryPrefix(apiKey, Run(lines), |Run(lines).keys|, ApiKeyParam);
      }
    }

    /** `getTeams`: the truthy filters only. */
    method GetTeams(filters: TeamFilters) returns (r: Result<ApiRequest, string>)
      ensures r.Err? <==> apiKey == ""
      ensures r.Ok? ==> r.value.endpoint == "getTeams" && TeamQuery(apiKey, filters, r.value.query)
    {
      var params := TeamParams(filters);
      r := MakeRequest("getTeams", params);
      if r.Ok? {
        TeamQueryBuilt(apiKey, filters);
      }
    }

    /**
     * `getMatchEnhanced`: "local-match" is served only from the local table,
     * failing with "Local match not found" when its entry is falsy; any other
     * id goes to `getMatch`.
     */
    method GetMatchEnhanced(matchId: Value) returns (r: Result<MatchSource, string>)
      ensures IsLocalMatch(matchId) ==> match LocalMatch(storage, json, matchId)
        case Ok(m) => r == if m == Null then Err(LocalMatchNotFound) else Ok(Local(m))
        case Err(e) => r == Err(e)
      ensures !IsLocalMatch(matchId) ==> (r.Err? <==> apiKey == "") && (r.Ok? ==> r.value.Remote? && r.value.request.endpoint == "getMatch")
      // the remote branch is `getMatch(matchId)`: api_key and match_id
      ensures !IsLocalMatch(matchId) && r.Ok? ==>
        && QueryGet(r.value.request.query, MatchIdParam) == (if Nullish(matchId) then None else Some(ToStr(matchId)))
        && QueryGet(r.value.request.query, ApiKeyParam) == Some(apiKey)
    {
      if IsLocalMatch(matchId) {
        var local := LocalMatch(storage, json, matchId);
        match local
        case Err(e) => r := Err(e);
        case Ok(m) =>
          if Truthy(m) {
            r := Ok(Local(m));
          } else {
            r := Err(LocalMatchNotFound);
          }
      } else {
        var request := GetMatch(matchId);
        match request
        case Err(e) => r := Err(e);
        case Ok(req) => r := Ok(Remote(req));
      }
    }

    /** `createLocalMatch`, with the clock's reading passed in. */
    method CreateLocalMatch(matchData: Value, createdAt: string) returns (r: Result<Value, string>)
      modifies this`storage
      ensures match CreateLocal(old(storage), json, matchData, createdAt)
        case Ok((record, after)) => r == Ok(record) && storage == after
        case Err(e) => r == Err(e) && storage == old(storage)
    {
      match CreateLocal(storage, json, matchData, createdAt)
      case Ok((record, after)) =>
        storage := after;
        r := Ok(record);
      case Err(e) =>
        r := Err(e);
    }

    method DeleteLocalMatch(matchId: Value) returns (r: Result<bool, string>)
      modifies this`storage
      ensures match DeleteLocal(old(storage), json, matchId)
        case Ok((deleted, after)) => r == Ok(deleted) && storage == after
        case Err(e) => r == Err(e) && storage == old(storage)
    {
      match DeleteLocal(storage, json, matchId)
      case Ok((deleted, after)) =>
        storage := after;
        r := Ok(deleted);
      case Err(e) =>
        r := Err(e);
    }

    method StoreSelectedMatch(matchId: Value, matchData: Value)
      modifies this`storage
      ensures storage == StoreSelected(old(storage), json, matchId, matchData)
    {
      storage := StoreSelected(storage, json, matchId, matchData);
    }

    method ClearStoredMatch()
      modifies this`storage
      ensures storage == ClearSelected(old(storage))
    {
      storage := ClearSelected(storage);
    }
  }
}
