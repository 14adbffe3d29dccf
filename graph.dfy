/**
 * The graph data collaborator (app/services/graph_service.py): a fixed stub
 * table used when no database driver is available, and the live lookup with
 * its skip rules, where the query itself is an oracle.
 */
module Graph {
  import opened Base
  import opened Text
  import Mapping

  /** One entry of the list handed to `fetch_values`: the dictionary keys
      `entity_type`, `property_name` and `field_name`. */
  datatype GraphMapping = GraphMapping(entity: Option<string>, prop: Option<string>, fieldName: string)

  /** What one live query yields: the driver raised, no record came back, or a
      record whose `val` may be null. */
  datatype QueryResult = Raised | NoRecord | Record(val: Option<string>)

  /** The nine (entity type, property name) pairs the stub knows. */
  const MOCK_PAIRS: set<(string, string)> := {
    ("Person", "id_number"), ("Person", "first_name"), ("Person", "last_name"),
    ("Person", "email"), ("Person", "phone"), ("Person", "address"),
    ("Parent", "address"), ("Parent", "name"),
    ("Employee", "employee_id")
  }

  /** The stub's value for one mapping, as the branches of `_get_mock_data` choose it. */
  function MockValue(entity: Option<string>, prop: Option<string>): (v: Option<string>)
    ensures v.Some? ==> entity.Some? && prop.Some? && v.value != ""
  {
    if entity == Some("Person") then
      if prop == Some("id_number") then Some("P123456789")
      else if prop == Some("first_name") then Some("John")
      else if prop == Some("last_name") then Some("Doe")
      else if prop == Some("email") then Some("john.doe@example.com")
      else if prop == Some("phone") then Some("+1-555-0123")
      else if prop == Some("address") then Some("123 Main Street, City, State 12345")
      else None
    else if entity == Some("Parent") then
      if prop == Some("address") then Some("456 Oak Avenue, Town, State 67890")
      else if prop == Some("name") then Some("Jane Doe")
      else None
    else if entity == Some("Employee") then
      if prop == Some("employee_id") then Some("EMP-2024-001")
      else None
    else None
  }

  /** The stub answers for exactly the nine listed pairs and for nothing else. */
  lemma MockAnswersExactlyListedPairs(entity: Option<string>, prop: Option<string>)
    ensures MockValue(entity, prop).Some?
        <==> entity.Some? && prop.Some? && (entity.value, prop.value) in MOCK_PAIRS
  {
  }

  /** Two of the stub's fixed values. */
  lemma MockSampleValues()
    ensures MockValue(Some("Person"), Some("email")) == Some("john.doe@example.com")
    ensures MockValue(Some("Employee"), Some("employee_id")) == Some("EMP-2024-001")
    ensures |MOCK_PAIRS| == 9
  {
  }

  /** The results dictionary `_get_mock_data` builds: mappings are visited in
      order, and a later mapping with the same field name overwrites an earlier one. */
  function MockData(ms: seq<GraphMapping>): map<string, string>
  {
    if ms == [] then map[]
    else
      var acc := MockData(ms[..|ms| - 1]);
      var m := ms[|ms| - 1];
      match MockValue(m.entity, m.prop)
      case Some(v) => acc[m.fieldName := v]
      case None => acc
  }

  /** A field name is in the stub's results exactly when some mapping with that
      name has a listed pair. */
  lemma {:induction false} MockDataKeys(ms: seq<GraphMapping>, f: string)
    ensures f in MockData(ms)
        <==> exists i :: 0 <= i < |ms| && ms[i].fieldName == f && MockValue(ms[i].entity, ms[i].prop).Some?
  {
    if ms != [] {
      var pre := ms[..|ms| - 1];
      MockDataKeys(pre, f);
      assert forall i :: 0 <= i < |pre| ==> pre[i] == ms[i];
    }
  }

  /** The value for a field name comes from the last mapping with that name
      that has a listed pair. */
  lemma {:induction false} MockDataLastWins(ms: seq<GraphMapping>, i: nat)
    requires i < |ms| && MockValue(ms[i].entity, ms[i].prop).Some?
    requires forall k :: i < k < |ms| && ms[k].fieldName == ms[i].fieldName
               ==> MockValue(ms[k].entity, ms[k].prop).None?
    ensures ms[i].fieldName in MockData(ms)
    ensures MockData(ms)[ms[i].fieldName] == MockValue(ms[i].entity, ms[i].prop).value
  {
    if i < |ms| - 1 {
      var pre := ms[..|ms| - 1];
      assert forall k :: 0 <= k < |pre| ==> pre[k] == ms[k];
      MockDataLastWins(pre, i);
    }
  }

  /** `_get_mock_data(mappings)` */
  method GetMockData(ms: seq<GraphMapping>) returns (results: map<string, string>)
    ensures results == MockData(ms)
  {
    results := map[];
    for i := 0 to |ms|
      invariant results == MockData(ms[..i])
    {
      assert ms[..i + 1][..i] == ms[..i];
      var m := ms[i];
      if m.entity == Some("Person") {
        if m.prop == Some("id_number") {
          results := results[m.fieldName := "P123456789"];
        } else if m.prop == Some("first_name") {
          results := results[m.fieldName := "John"];
        } else if m.prop == Some("last_name") {
          results := results[m.fieldName := "Doe"];
        } else if m.prop == Some("email") {
          results := results[m.fieldName := "john.doe@example.com"];
        } else if m.prop == Some("phone") {
          results := results[m.fieldName := "+1-555-0123"];
        } else if m.prop == Some("address") {
          results := results[m.fieldName := "123 Main Street, City, State 12345"];
        }
      } else if m.entity == Some("Parent") {
        if m.prop == Some("address") {
          results := results[m.fieldName := "456 Oak Avenue, Town, State 67890"];
        } else if m.prop == Some("name") {
          results := results[m.fieldName := "Jane Doe"];
        }
      } else if m.entity == Some("Employee") {
        if m.prop == Some("employee_id") {
          results := results[m.fieldName := "EMP-2024-001"];
        }
      }
    }
    assert ms[..|ms|] == ms;
  }

  /** Python truthiness of an optional string: null and "" are false. */
  predicate Truthy(s: Option<string>) {
    s.Some? && s.value != ""
  }

  /** The key of `graph_keys` that identifies an entity: `f"{entity_type.lower()}_id"`. */
  function KeyField(entity: string): string {
    Lower(entity) + "_id"
  }

  datatype Step = Skip | Put(v: string) | Fail

  /** What the live path does with one mapping: a mapping without an entity
      type or a property, or whose entity has no key in `graphKeys`, is skipped
      without a query; otherwise a raising query aborts, and only a record with
      a truthy value is stored, with that value. */
  function LiveStep(m: GraphMapping, graphKeys: map<string, string>,
                    query: (string, string, string) -> QueryResult): (s: Step)
    ensures !Truthy(m.entity) || !Truthy(m.prop) ==> s == Skip
    ensures Truthy(m.entity) && KeyField(m.entity.value) !in graphKeys ==> s == Skip
    ensures Truthy(m.entity) && Truthy(m.prop) && KeyField(m.entity.value) in graphKeys ==>
              var q := query(m.entity.value, m.prop.value, graphKeys[KeyField(m.entity.value)]);
              && (s == Fail <==> q.Raised?)
              && (s.Put? <==> q.Record? && Truthy(q.val))
              && (s.Put? ==> s.v == q.val.value)
    ensures s.Put? ==> s.v != ""
  {
    if !Truthy(m.entity) || !Truthy(m.prop) then Skip
    else
      var keyField := KeyField(m.entity.value);
      if keyField !in graphKeys then Skip
      else match query(m.entity.value, m.prop.value, graphKeys[keyField])
        case Raised => Fail
        case NoRecord => Skip
        case Record(val) => if Truthy(val) then Put(val.value) else Skip
  }

  /** The live results after visiting `ms` in order, or None once a query raised. */
  function LiveResults(ms: seq<GraphMapping>, graphKeys: map<string, string>,
                       query: (string, string, string) -> QueryResult): Option<map<string, string>>
  {
    if ms == [] then Some(map[])
    else match LiveResults(ms[..|ms| - 1], graphKeys, query)
      case None => None
      case Some(acc) =>
        var m := ms[|ms| - 1];
        match LiveStep(m, graphKeys, query)
        case Skip => Some(acc)
        case Put(v) => Some(acc[m.fieldName := v])
        case Fail => None
  }

  /** A raise anywhere aborts the live pass. */
  lemma {:induction false} LiveFailsIffSomeQueryRaises(ms: seq<GraphMapping>, graphKeys: map<string, string>,
                                                       query: (string, string, string) -> QueryResult)
    ensures LiveResults(ms, graphKeys, query).None?
        <==> exists i :: 0 <= i < |ms| && LiveStep(ms[i], graphKeys, query) == Fail
  {
    if ms != [] {
      var pre := ms[..|ms| - 1];
      assert forall i :: 0 <= i < |pre| ==> pre[i] == ms[i];
      LiveFailsIffSomeQueryRaises(pre, graphKeys, query);
    }
  }

  /** When no query raises, a field name is in the live results exactly when a
      mapping with that name was queried and its record carried a truthy value. */
  lemma {:induction false} LiveResultKeys(ms: seq<GraphMapping>, graphKeys: map<string, string>,
                                          query: (string, string, string) -> QueryResult, f: string)
    requires LiveResults(ms, graphKeys, query).Some?
    ensures f in LiveResults(ms, graphKeys, query).value
        <==> exists i :: 0 <= i < |ms| && ms[i].fieldName == f && LiveStep(ms[i], graphKeys, query).Put?
  {
    if ms != [] {
      var pre := ms[..|ms| - 1];
      assert forall i :: 0 <= i < |pre| ==> pre[i] == ms[i];
      LiveResultKeys(pre, graphKeys, query, f);
    }
  }

  /** What `fetch_values` returns: the stub without a driver; with one, the live
      results, or the stub for every mapping once any query raised. */
  function FetchResult(connected: bool, ms: seq<GraphMapping>, graphKeys: map<string, string>,
                       query: (string, string, string) -> QueryResult): map<string, string>
  {
    if !connected then MockData(ms)
    else match LiveResults(ms, graphKeys, query)
      case None => MockData(ms)
      case Some(r) => r
  }

  /** Whatever path is taken, every key of the result is the field name of some mapping. */
  lemma FetchKeysAreFieldNames(connected: bool, ms: seq<GraphMapping>, graphKeys: map<string, string>,
                               query: (string, string, string) -> QueryResult, f: string)
    requires f in FetchResult(connected, ms, graphKeys, query)
    ensures exists i :: 0 <= i < |ms| && ms[i].fieldName == f
  {
    if !connected || LiveResults(ms, graphKeys, query).None? {
      MockDataKeys(ms, f);
    } else {
      LiveResultKeys(ms, graphKeys, query, f);
    }
  }

  /** Every (entity type, property name) the resolver can assign has a stub value. */
  lemma ResolverPairsAreMocked(labelText: string)
    ensures var s := Mapping.SuggestMapping(labelText);
            s.source == Mapping.GRAPHDB ==> MockValue(s.entity, s.prop).Some?
  {
    var s := Mapping.SuggestMapping(labelText);
    if s.source == Mapping.GRAPHDB {
      Mapping.SuggestionIsRuleOrManual(labelText);
      var i :| 0 <= i < |Mapping.Rules()| && s == Mapping.FromRule(Mapping.Rules()[i]);
      RulePairsAreMocked(i);
    }
  }

  lemma RulePairsAreMocked(i: nat)
    requires i < |Mapping.Rules()|
    ensures MockValue(Some(Mapping.Rules()[i].entity), Some(Mapping.Rules()[i].prop)).Some?
  {
  }

  /** The `GraphService` object: whether its constructor obtained a driver. */
  class GraphService {
    var connected: bool

    /** `__init__`: the driver is there exactly when connecting succeeded. */
    constructor (driverAvailable: bool)
      ensures connected == driverAvailable
    {
      connected := driverAvailable;
    }

    /** `fetch_values(mappings, graph_keys)`, with the database's query as an oracle. */
    method FetchValues(ms: seq<GraphMapping>, graphKeys: map<string, string>,
                       query: (string, string, string) -> QueryResult)
      returns (results: map<string, string>)
      ensures results == FetchResult(connected, ms, graphKeys, query)
    {
      if !connected {
        results := GetMockData(ms);
        return;
      }
      results := map[];
      for i := 0 to |ms|
        invariant LiveResults(ms[..i], graphKeys, query) == Some(results)
      {
        assert ms[..i + 1][..i] == ms[..i];
        var m := ms[i];
        if !Truthy(m.entity) || !Truthy(m.prop) {
          continue;
        }
        var keyField := KeyField(m.entity.value);
        if keyField !in graphKeys {
          continue;
        }
        var record := query(m.entity.value, m.prop.value, graphKeys[keyField]);
        if record.Raised? {
          LiveFailsIffSomeQueryRaises(ms, graphKeys, query);
          results := GetMockData(ms);
          return;
        }
        if record.Record? && Truthy(record.val) {
          results := results[m.fieldName := record.val.value];
        }
      }
      assert ms[..|ms|] == ms;
    }
  }
}
