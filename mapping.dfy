/**
 * The mapping resolver (app/services/mapping_service.py): from a field's label
 * text to a data source and, for graph-sourced fields, an entity type and a
 * property name.
 */
module Mapping {
  import opened Base
  import opened Text

  /** The two values the `source` column takes. */
  const GRAPHDB: string := "graphdb"
  const MANUAL: string := "manual"

  /** One entry of the rule table: an upper-case label key and the graph
      (entity type, property name) it stands for. */
  datatype Rule = Rule(key: string, entity: string, prop: string)

  /** The triple `(source, entity_type, property_name)` the resolver returns. */
  datatype Suggestion = Suggestion(source: string, entity: Option<string>, prop: Option<string>)

  /** The rule table, in the insertion order of the dictionary literal; the
      substring scan below visits it in this order. */
  function Rules(): seq<Rule> {
    [
      Rule("ID NUMBER", "Person", "id_number"),
      Rule("ID NO", "Person", "id_number"),
      Rule("FIRST NAME", "Person", "first_name"),
      Rule("LAST NAME", "Person", "last_name"),
      Rule("SURNAME", "Person", "last_name"),
      Rule("EMAIL", "Person", "email"),
      Rule("EMAIL ADDRESS", "Person", "email"),
      Rule("PHONE", "Person", "phone"),
      Rule("PHONE NUMBER", "Person", "phone"),
      Rule("MOBILE", "Person", "phone"),
      Rule("ADDRESS", "Person", "address"),
      Rule("STREET ADDRESS", "Person", "address"),
      Rule("PARENT ADDRESS", "Parent", "address"),
      Rule("PARENT NAME", "Parent", "name"),
      Rule("EMPLOYEE ID", "Employee", "employee_id"),
    Rule("EMPLOYEE NUMBER", "Employee", "employee_id")
    ]
  }

  /** No two rules of `rules` share a key, as no two keys of a dictionary do. */
  ghost predicate DistinctKeys(rules: seq<Rule>) {
    forall i, j :: 0 <= i < j < |rules| ==> rules[i].key != rules[j].key
  }

  lemma RuleKeysDistinct()
    ensures DistinctKeys(Rules())
  {
    forall i, j | 0 <= i < j < |Rules()|
      ensures Rules()[i].key != Rules()[j].key
    {
      KeyShape(i);
      KeyShape(j);
    }
  }

  /** A key's position in the table, told from its length and first letter
      alone; it shows no two keys coincide. */
  function KeyIndex(key: string): int {
    if key == [] then -1
    else
      var c, n := key[0], |key|;
      if c == 'I' then (if n == 9 then 0 else 1)
      else if c == 'F' then 2
      else if c == 'L' then 3
      else if c == 'S' then (if n == 7 then 4 else 11)
      else if c == 'E' then (if n == 5 then 5 else if n == 13 then 6 else if n == 11 then 14 else 15)
      else if c == 'P' then (if n == 5 then 7 else if n == 12 then 8 else if n == 14 then 12 else 13)
      else if c == 'M' then 9
      else 10
  }

  lemma KeyShape(i: nat)
    requires i < |Rules()|
    ensures KeyIndex(Rules()[i].key) == i
  {
  }

  /** What the resolver returns when `r` decides a label. */
  function FromRule(r: Rule): Suggestion {
    Suggestion(GRAPHDB, Some(r.entity), Some(r.prop))
  }

  const MANUAL_SUGGESTION: Suggestion := Suggestion(MANUAL, None, None)

  /** A label as the resolver compares it: upper-cased, then stripped of
      surrounding white space. */
  function Normalize(labelText: string): (norm: string)
    ensures |norm| <= |labelText|
  {
    Strip(Upper(labelText))
  }

  /** A normalised label has no white space at either end and no lower-case
      ASCII letter. */
  lemma NormalizedIsTrimmed(labelText: string)
    ensures var norm := Normalize(labelText);
            && (norm == [] || (!IsSpace(norm[0]) && !IsSpace(norm[|norm| - 1])))
            && forall k :: 0 <= k < |norm| ==> !('a' <= norm[k] <= 'z')
  {
  }

  /** The position of the first rule whose key is exactly `norm`. */
  function ExactIndex(norm: string, rules: seq<Rule>): (r: Option<nat>)
    ensures r.Some? ==> r.value < |rules|
  {
    if rules == [] then None
    else if rules[0].key == norm then Some(0)
    else match ExactIndex(norm, rules[1..])
      case None => None
      case Some(j) => Some(j + 1)
  }

  /** The position of the first rule, in table order, whose key is a substring of `norm`. */
  function FirstContainedIndex(norm: string, rules: seq<Rule>): (r: Option<nat>)
    ensures r.Some? ==> r.value < |rules|
  {
    if rules == [] then None
    else if Contains(norm, rules[0].key) then Some(0)
    else match FirstContainedIndex(norm, rules[1..])
      case None => None
      case Some(j) => Some(j + 1)
  }

  /** The exact scan finds the first rule whose key is `norm`, and none when
      no key is. */
  lemma {:induction false} ExactIndexSpec(norm: string, rules: seq<Rule>)
    ensures var r := ExactIndex(norm, rules);
            && (r.Some? ==> rules[r.value].key == norm)
            && (r.Some? ==> forall j :: 0 <= j < r.value ==> rules[j].key != norm)
            && (r.None? ==> forall j :: 0 <= j < |rules| ==> rules[j].key != norm)
  {
    if rules != [] && rules[0].key != norm {
      ExactIndexSpec(norm, rules[1..]);
    }
  }

  /** The substring scan finds the first rule, in table order, whose key
      occurs in `norm`, and none when no key does. */
  lemma {:induction false} FirstContainedIndexSpec(norm: string, rules: seq<Rule>)
    ensures var r := FirstContainedIndex(norm, rules);
            && (r.Some? ==> Contains(norm, rules[r.value].key))
            && (r.Some? ==> forall j :: 0 <= j < r.value ==> !Contains(norm, rules[j].key))
            && (r.None? ==> forall j :: 0 <= j < |rules| ==> !Contains(norm, rules[j].key))
  {
    if rules != [] && !Contains(norm, rules[0].key) {
      FirstContainedIndexSpec(norm, rules[1..]);
    }
  }

  /** The resolution of an already normalised label against an ordered rule table. */
  function Resolve(norm: string, rules: seq<Rule>): (r: Suggestion)
    ensures r.source == GRAPHDB || r.source == MANUAL
    ensures r.source == GRAPHDB <==> r.entity.Some? && r.prop.Some?
    ensures r.source == MANUAL <==> r.entity.None? && r.prop.None?
  {
    match ExactIndex(norm, rules)
    case Some(i) => FromRule(rules[i])
    case None =>
      match FirstContainedIndex(norm, rules)
      case Some(i) => FromRule(rules[i])
      case None => MANUAL_SUGGESTION
  }

  /** `suggest_mapping(label_text)`: an exact key match first, then the first key in
      table order that is a substring of the label, otherwise a manual field. Every
      label gets exactly one answer: a rule's pair, or the manual triple. */
  function SuggestMapping(labelText: string): (r: Suggestion)
    ensures r.source == GRAPHDB || r.source == MANUAL
    ensures r.source == GRAPHDB <==> r.entity.Some? && r.prop.Some?
    ensures r.source == MANUAL <==> r.entity.None? && r.prop.None?
  {
    Resolve(Normalize(labelText), Rules())
  }

  /** Every label yields exactly one answer: the manual triple or the pair of
      one of the 16 rules. */
  lemma SuggestionIsRuleOrManual(labelText: string)
    ensures var r := SuggestMapping(labelText);
            r == MANUAL_SUGGESTION || exists i :: 0 <= i < |Rules()| && r == FromRule(Rules()[i])
  {
    ResolveIsRuleOrManual(Normalize(labelText), Rules());
  }

  /** The resolution is the manual triple or the pair of one of the rules. */
  lemma ResolveIsRuleOrManual(norm: string, rules: seq<Rule>)
    ensures var r := Resolve(norm, rules);
            r == MANUAL_SUGGESTION || exists i :: 0 <= i < |rules| && r == FromRule(rules[i])
  {
    match ExactIndex(norm, rules)
    case Some(i) =>
    case None =>
      match FirstContainedIndex(norm, rules)
      case Some(i) =>
      case None =>
  }

  /** With distinct keys, a label equal to the key of rule i resolves to rule i,
      whatever earlier keys are substrings of it. */
  lemma ExactKeyResolves(norm: string, rules: seq<Rule>, i: nat)
    requires DistinctKeys(rules)
    requires i < |rules| && rules[i].key == norm
    ensures Resolve(norm, rules) == FromRule(rules[i])
  {
    ExactIndexSpec(norm, rules);
  }

  /** A label whose normalised form is the key of rule i resolves to that rule. */
  lemma ExactMatchWins(labelText: string, i: nat)
    requires i < |Rules()| && Normalize(labelText) == Rules()[i].key
    ensures SuggestMapping(labelText) == FromRule(Rules()[i])
  {
    RuleKeysDistinct();
    ExactKeyResolves(Normalize(labelText), Rules(), i);
  }

  /** Without an exact key, the first rule whose key is a substring decides. */
  lemma FirstContainedResolves(norm: string, rules: seq<Rule>, i: nat)
    requires i < |rules|
    requires forall j :: 0 <= j < |rules| ==> rules[j].key != norm
    requires Contains(norm, rules[i].key)
    requires forall j :: 0 <= j < i ==> !Contains(norm, rules[j].key)
    ensures Resolve(norm, rules) == FromRule(rules[i])
  {
    ExactIndexSpec(norm, rules);
    FirstContainedIndexSpec(norm, rules);
  }

  /** Without an exact match, the first rule in table order whose key is a
      substring of the normalised label decides it. */
  lemma FirstSubstringWins(labelText: string, i: nat)
    requires i < |Rules()|
    requires forall j :: 0 <= j < |Rules()| ==> Rules()[j].key != Normalize(labelText)
    requires Contains(Normalize(labelText), Rules()[i].key)
    requires forall j :: 0 <= j < i ==> !Contains(Normalize(labelText), Rules()[j].key)
    ensures SuggestMapping(labelText) == FromRule(Rules()[i])
  {
    FirstContainedResolves(Normalize(labelText), Rules(), i);
  }

  /** A label is manual exactly when no key of the table is a substring of its
      normalised form (an exact match being the case of a key equal to it). */
  lemma ManualIffNoKeyContained(labelText: string)
    ensures SuggestMapping(labelText).source == MANUAL
        <==> forall j :: 0 <= j < |Rules()| ==> !Contains(Normalize(labelText), Rules()[j].key)
  {
    var norm := Normalize(labelText);
    ExactIndexSpec(norm, Rules());
    FirstContainedIndexSpec(norm, Rules());
    match ExactIndex(norm, Rules())
    case Some(i) =>
      ContainsSelf(norm);
      assert Contains(norm, Rules()[i].key);
    case None =>
  }

  /** The resolver does not see the case of a label. */
  lemma IgnoresCase(labelText: string)
    ensures SuggestMapping(Lower(labelText)) == SuggestMapping(labelText)
  {
    UpperOfLower(labelText);
  }

  /** The resolver does not see white space around a label. */
  lemma IgnoresPadding(w1: string, labelText: string, w2: string)
    requires AllSpace(w1) && AllSpace(w2)
    ensures SuggestMapping(w1 + labelText + w2) == SuggestMapping(labelText)
  {
    UpperAppend(w1 + labelText, w2);
    UpperAppend(w1, labelText);
    UpperKeepsSpace(w1);
    UpperKeepsSpace(w2);
    StripIgnoresPadding(w1, Upper(labelText), w2);
  }

  /** A label none of whose keys occurs in its normalised form is manual. */
  lemma NoKeyMeansManual(labelText: string)
    requires forall j :: 0 <= j < |Rules()| ==> !Contains(Normalize(labelText), Rules()[j].key)
    ensures SuggestMapping(labelText) == MANUAL_SUGGESTION
  {
    ManualIffNoKeyContained(labelText);
  }

  lemma EmailAddressRule()
    ensures FromRule(Rules()[6]) == Suggestion(GRAPHDB, Some("Person"), Some("email"))
  {
  }

  lemma AddressRule()
    ensures FromRule(Rules()[10]) == Suggestion(GRAPHDB, Some("Person"), Some("address"))
  {
  }

  lemma ParentAddressRule()
    ensures FromRule(Rules()[12]) == Suggestion(GRAPHDB, Some("Parent"), Some("address"))
  {
  }

  lemma IdNumberRule()
    ensures FromRule(Rules()[0]) == Suggestion(GRAPHDB, Some("Person"), Some("id_number"))
  {
  }

  /** A label whose capitals have no white space at either end normalises to them. */
  lemma NormalizesTo(labelText: string, norm: string)
    requires Upper(labelText) == norm
    requires norm == [] || (!IsSpace(norm[0]) && !IsSpace(norm[|norm| - 1]))
    ensures Normalize(labelText) == norm
  {
    StripUntrimmed(norm);
  }

  lemma EmailAddressSpellings()
    ensures Upper("Email Address") == "EMAIL ADDRESS"
    ensures Upper("email address") == "EMAIL ADDRESS"
  {
  }

  /** A label that capitalises to "EMAIL ADDRESS" normalises to the key of rule 6. */
  lemma EmailAddressIsKey(labelText: string)
    requires Upper(labelText) == "EMAIL ADDRESS"
    ensures Normalize(labelText) == Rules()[6].key
  {
    NormalizesTo(labelText, "EMAIL ADDRESS");
  }

  /** "Email Address" is an exact key: (graphdb, Person, email). */
  lemma EmailAddressResolves()
    ensures SuggestMapping("Email Address") == Suggestion(GRAPHDB, Some("Person"), Some("email"))
  {
    EmailAddressSpellings();
    EmailAddressIsKey("Email Address");
    ExactMatchWins("Email Address", 6);
    EmailAddressRule();
  }

  lemma LowerCaseEmailResolves()
    ensures SuggestMapping("email address") == Suggestion(GRAPHDB, Some("Person"), Some("email"))
  {
    EmailAddressSpellings();
    EmailAddressIsKey("email address");
    ExactMatchWins("email address", 6);
    EmailAddressRule();
  }

  /** Case and surrounding white space are normalised away before any comparison. */
  lemma PaddedLowerCaseEmailResolves()
    ensures SuggestMapping("  email address ") == Suggestion(GRAPHDB, Some("Person"), Some("email"))
  {
    var w1, core, w2 := "  ", "email address", " ";
    assert AllSpace(w1) && AllSpace(w2);
    assert "  email address " == w1 + core + w2;
    IgnoresPadding(w1, core, w2);
    LowerCaseEmailResolves();
  }

  /** Rule j's key has, at position k, a character the label lacks. */
  lemma KeyLacksChar(norm: string, j: nat, k: nat)
    requires j < |Rules()| && k < |Rules()[j].key| && Rules()[j].key[k] !in norm
    ensures !Contains(norm, Rules()[j].key)
  {
    MissingCharNotContained(norm, Rules()[j].key, Rules()[j].key[k]);
  }

  /** Each of the first eight keys holds a D, an M, an S or a P. */
  lemma NoEarlyKeyWithout(norm: string)
    requires 'D' !in norm && 'M' !in norm && 'S' !in norm && 'P' !in norm
    ensures forall j :: 0 <= j < 8 ==> !Contains(norm, Rules()[j].key)
  {
    forall j | 0 <= j < 8 ensures !Contains(norm, Rules()[j].key) {
      if j == 0 { KeyLacksChar(norm, 0, 1); }         // ID NUMBER: D
      else if j == 1 { KeyLacksChar(norm, 1, 1); }    // ID NO: D
      else if j == 2 { KeyLacksChar(norm, 2, 3); }    // FIRST NAME: S
      else if j == 3 { KeyLacksChar(norm, 3, 2); }    // LAST NAME: S
      else if j == 4 { KeyLacksChar(norm, 4, 0); }    // SURNAME: S
      else if j == 5 { KeyLacksChar(norm, 5, 1); }    // EMAIL: M
      else if j == 6 { KeyLacksChar(norm, 6, 1); }    // EMAIL ADDRESS: M
      else { KeyLacksChar(norm, 7, 0); }              // PHONE: P
    }
  }

  /** Each of the last eight keys holds a D, an M, an S or a P. */
  lemma NoLateKeyWithout(norm: string)
    requires 'D' !in norm && 'M' !in norm && 'S' !in norm && 'P' !in norm
    ensures forall j :: 8 <= j < |Rules()| ==> !Contains(norm, Rules()[j].key)
  {
    forall j | 8 <= j < |Rules()| ensures !Contains(norm, Rules()[j].key) {
      if j == 8 { KeyLacksChar(norm, 8, 0); }         // PHONE NUMBER: P
      else if j == 9 { KeyLacksChar(norm, 9, 0); }    // MOBILE: M
      else if j == 10 { KeyLacksChar(norm, 10, 1); }  // ADDRESS: D
      else if j == 11 { KeyLacksChar(norm, 11, 0); }  // STREET ADDRESS: S
      else if j == 12 { KeyLacksChar(norm, 12, 0); }  // PARENT ADDRESS: P
      else if j == 13 { KeyLacksChar(norm, 13, 0); }  // PARENT NAME: P
      else if j == 14 { KeyLacksChar(norm, 14, 2); }  // EMPLOYEE ID: P
      else { KeyLacksChar(norm, 15, 2); }             // EMPLOYEE NUMBER: P
    }
  }

  /** Every key holds a D, an M, an S or a P, so a label with none of them is manual. */
  lemma NoKeyWithout(norm: string)
    requires 'D' !in norm && 'M' !in norm && 'S' !in norm && 'P' !in norm
    ensures forall j :: 0 <= j < |Rules()| ==> !Contains(norm, Rules()[j].key)
  {
    NoEarlyKeyWithout(norm);
    NoLateKeyWithout(norm);
  }

  lemma FavoriteColorNormalized(labelText: string)
    requires labelText == "Favorite Color"
    ensures Normalize(labelText) == "FAVORITE COLOR"
  {
    assert Upper(labelText) == "FAVORITE COLOR";
    NormalizesTo(labelText, "FAVORITE COLOR");
  }

  lemma FavoriteColorLacks(norm: string, c: char)
    requires norm == "FAVORITE COLOR"
    requires c == 'D' || c == 'M' || c == 'S' || c == 'P'
    ensures c !in norm
  {
  }

  /** No key occurs in "FAVORITE COLOR". */
  lemma FavoriteColorHoldsNoKey(norm: string)
    requires norm == "FAVORITE COLOR"
    ensures forall j :: 0 <= j < |Rules()| ==> !Contains(norm, Rules()[j].key)
  {
    FavoriteColorLacks(norm, 'D');
    FavoriteColorLacks(norm, 'M');
    FavoriteColorLacks(norm, 'S');
    FavoriteColorLacks(norm, 'P');
    NoKeyWithout(norm);
  }

  /** "Favorite Color" contains no key: (manual, None, None). */
  lemma FavoriteColorIsManual()
    ensures SuggestMapping("Favorite Color") == MANUAL_SUGGESTION
  {
    FavoriteColorHasNoKey("Favorite Color");
    NoKeyMeansManual("Favorite Color");
  }

  lemma FavoriteColorHasNoKey(labelText: string)
    requires labelText == "Favorite Color"
    ensures forall j :: 0 <= j < |Rules()| ==> !Contains(Normalize(labelText), Rules()[j].key)
  {
    FavoriteColorNormalized(labelText);
    FavoriteColorHoldsNoKey(Normalize(labelText));
  }

  lemma ParentAddressNormalized(labelText: string)
    requires labelText == "Parent Address"
    ensures Normalize(labelText) == "PARENT ADDRESS"
  {
    assert Upper(labelText) == "PARENT ADDRESS";
    NormalizesTo(labelText, "PARENT ADDRESS");
  }

  lemma ParentAddressKey()
    ensures Rules()[12].key == "PARENT ADDRESS"
  {
  }

  /** "PARENT ADDRESS" holds the key "ADDRESS" of rule 10. */
  lemma ParentAddressHoldsAddress(norm: string)
    requires norm == Rules()[12].key
    ensures Contains(norm, Rules()[10].key)
  {
    assert OccursAt(norm, "ADDRESS", 7);
  }

  /** "PARENT ADDRESS" is an exact key, so it resolves to Parent.address even
      though the earlier key "ADDRESS" is a substring of it. */
  lemma ParentAddressExactBeatsEarlierSubstring()
    ensures Contains(Normalize("Parent Address"), Rules()[10].key)
    ensures SuggestMapping("Parent Address") == Suggestion(GRAPHDB, Some("Parent"), Some("address"))
  {
    ParentAddressNormalized("Parent Address");
    ParentAddressKey();
    ParentAddressHoldsAddress(Normalize("Parent Address"));
    ExactMatchWins("Parent Address", 12);
    ParentAddressRule();
  }

  lemma KeysShorterThan(n: nat)
    requires n >= 16
    ensures forall j :: 0 <= j < |Rules()| ==> |Rules()[j].key| < n
  {
  }

  /** "EMPLOYEE ID NUMBER" equals no key and holds "ID NUMBER" (rule 0) and
      "EMPLOYEE ID" (rule 14). */
  lemma EmployeeIdNumberKeys(norm: string)
    requires norm == "EMPLOYEE ID NUMBER"
    ensures forall j :: 0 <= j < |Rules()| ==> Rules()[j].key != norm
    ensures Contains(norm, Rules()[0].key)
    ensures Contains(norm, Rules()[14].key)
  {
    KeysShorterThan(18);
    assert OccursAt(norm, "ID NUMBER", 9);
    assert OccursAt(norm, "EMPLOYEE ID", 0);
  }

  lemma EmployeeIdNumberNormalized(labelText: string)
    requires labelText == "EMPLOYEE ID NUMBER"
    ensures Normalize(labelText) == labelText
  {
    assert Upper(labelText) == labelText;
    NormalizesTo(labelText, labelText);
  }

  /** "EMPLOYEE ID NUMBER" has no exact key; of the keys inside it, "ID NUMBER"
      comes first in the table, so it is a Person's id_number, not an Employee's. */
  lemma EmployeeIdNumberFirstKeyWins()
    ensures Contains(Normalize("EMPLOYEE ID NUMBER"), Rules()[14].key)
    ensures SuggestMapping("EMPLOYEE ID NUMBER") == Suggestion(GRAPHDB, Some("Person"), Some("id_number"))
  {
    EmployeeIdNumberNormalized("EMPLOYEE ID NUMBER");
    EmployeeIdNumberKeys(Normalize("EMPLOYEE ID NUMBER"));
    FirstSubstringWins("EMPLOYEE ID NUMBER", 0);
    IdNumberRule();
  }

  /** "PARENT ADDRESS LINE 1" equals no key, holds the keys of rules 10 and 12,
      and none of the first ten. */
  lemma ParentAddressLineNormalized(labelText: string)
    requires labelText == "PARENT ADDRESS LINE 1"
    ensures Normalize(labelText) == labelText
  {
    assert Upper(labelText) == labelText;
    NormalizesTo(labelText, labelText);
  }

  lemma ParentAddressLineHoldsAddressKeys(norm: string)
    requires norm == "PARENT ADDRESS LINE 1"
    ensures Contains(norm, Rules()[10].key) && Contains(norm, Rules()[12].key)
  {
    assert OccursAt(norm, "ADDRESS", 7);
    assert OccursAt(norm, "PARENT ADDRESS", 0);
  }

  lemma ParentAddressLineLacks(norm: string, c: char)
    requires norm == "PARENT ADDRESS LINE 1"
    requires c == 'U' || c == 'O' || c == 'F' || c == 'M' || c == 'H'
    ensures c !in norm
  {
  }

  lemma ParentAddressLineLacksEarlierKeys(norm: string)
    requires norm == "PARENT ADDRESS LINE 1"
    ensures forall j :: 0 <= j < 10 ==> !Contains(norm, Rules()[j].key)
  {
    ParentAddressLineLacks(norm, 'U');
    ParentAddressLineLacks(norm, 'O');
    ParentAddressLineLacks(norm, 'F');
    ParentAddressLineLacks(norm, 'M');
    ParentAddressLineLacks(norm, 'H');
    NoneOfFirstTenKeys(norm);
  }

  lemma ParentAddressLineIsNoKey(norm: string)
    requires norm == "PARENT ADDRESS LINE 1"
    ensures forall j :: 0 <= j < |Rules()| ==> Rules()[j].key != norm
  {
    KeysShorterThan(21);
  }

  /** "PARENT ADDRESS LINE 1" holds both "ADDRESS" and "PARENT ADDRESS"; the
      table lists "ADDRESS" first, so it resolves to Person.address. */
  lemma ParentAddressLineTableOrderWins()
    ensures Contains(Normalize("PARENT ADDRESS LINE 1"), Rules()[12].key)
    ensures SuggestMapping("PARENT ADDRESS LINE 1") == Suggestion(GRAPHDB, Some("Person"), Some("address"))
  {
    var labelText := "PARENT ADDRESS LINE 1";
    ParentAddressLineNormalized(labelText);
    ParentAddressLineIsNoKey(Normalize(labelText));
    ParentAddressLineHoldsAddressKeys(Normalize(labelText));
    ParentAddressLineLacksEarlierKeys(Normalize(labelText));
    FirstSubstringWins(labelText, 10);
    AddressRule();
  }

  /** A label without U, O, F, M or H contains none of the first ten keys. */
  lemma NoneOfFirstTenKeys(norm: string)
    requires 'U' !in norm && 'O' !in norm && 'F' !in norm && 'M' !in norm && 'H' !in norm
    ensures forall j :: 0 <= j < 10 ==> !Contains(norm, Rules()[j].key)
  {
    forall j | 0 <= j < 10 ensures !Contains(norm, Rules()[j].key) {
      if j == 0 { KeyLacksChar(norm, 0, 4); }         // ID NUMBER: U
      else if j == 1 { KeyLacksChar(norm, 1, 4); }    // ID NO: O
      else if j == 2 { KeyLacksChar(norm, 2, 0); }    // FIRST NAME: F
      else if j == 3 { KeyLacksChar(norm, 3, 7); }    // LAST NAME: M
      else if j == 4 { KeyLacksChar(norm, 4, 1); }    // SURNAME: U
      else if j == 5 { KeyLacksChar(norm, 5, 1); }    // EMAIL: M
      else if j == 6 { KeyLacksChar(norm, 6, 1); }    // EMAIL ADDRESS: M
      else if j == 7 { KeyLacksChar(norm, 7, 1); }    // PHONE: H
      else if j == 8 { KeyLacksChar(norm, 8, 1); }    // PHONE NUMBER: H
      else { KeyLacksChar(norm, 9, 0); }              // MOBILE: M
    }
  }
}
