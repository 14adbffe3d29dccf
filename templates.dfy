/**
 * The template endpoints (app/routers/templates.py): registering an uploaded
 * PDF as a template with one suggested mapping per extracted field, and the
 * administrator's override of field mappings.
 */
module Templates {
  import opened Base
  import opened Mapping
  import opened Models
  import Pdf
  import Text

  /** The directory uploads are written to. */
  const UPLOAD_DIR := "uploaded_pdfs"

  datatype TemplateError =
    | TemplateNotFound
      /** The content is already registered under another tenant: inserting the
          row violates the unique `template_hash` column. */
    | HashConflict
      /** A field was switched to the graph but its label resolves to nothing. */
    | NoGraphMapping(labelText: string)

  /** Where the upload with this content hash is stored. */
  function UploadPath(contentHash: string): (p: string)
    ensures |p| == |UPLOAD_DIR| + 1 + |contentHash| + 4
    ensures p[..|UPLOAD_DIR| + 1] == UPLOAD_DIR + "/"
    ensures p[|UPLOAD_DIR| + 1..|p| - 4] == contentHash
  {
    UPLOAD_DIR + "/" + contentHash + ".pdf"
  }

  /** Distinct hashes are stored under distinct paths. */
  lemma UploadPathInjective(h1: string, h2: string)
    requires UploadPath(h1) == UploadPath(h2)
    ensures h1 == h2
  {
    assert h1 == UploadPath(h1)[|UPLOAD_DIR| + 1..|UploadPath(h1)| - 4];
  }

  /** The stored name: the given one unless it is missing or empty, else the
      uploaded file's name. */
  function ChosenName(templateName: Option<string>, filename: string): (n: string)
    ensures templateName.Some? && templateName.value != "" ==> n == templateName.value
    ensures templateName.None? || templateName.value == "" ==> n == filename
  {
    if templateName.Some? && templateName.value != "" then templateName.value else filename
  }

  /** The first row registered for this tenant with this content hash. */
  function FindExisting(ts: seq<Template>, tenantId: string, contentHash: string): (r: Option<nat>)
    ensures r.Some? ==> r.value < |ts| && ts[r.value].tenantId == tenantId && ts[r.value].templateHash == contentHash
    ensures r.Some? ==> forall k :: 0 <= k < r.value ==> !(ts[k].tenantId == tenantId && ts[k].templateHash == contentHash)
    ensures r.None? ==> forall k :: 0 <= k < |ts| ==> !(ts[k].tenantId == tenantId && ts[k].templateHash == contentHash)
  {
    if ts == [] then None
    else if ts[0].tenantId == tenantId && ts[0].templateHash == contentHash then Some(0)
    else match FindExisting(ts[1..], tenantId, contentHash)
      case None => None
      case Some(k) => Some(k + 1)
  }

  predicate HashTaken(ts: seq<Template>, contentHash: string) {
    exists k :: 0 <= k < |ts| && ts[k].templateHash == contentHash
  }

  /** The row seeded for one extracted field. */
  function SeedOne(e: Pdf.ExtractedField): FieldMapping {
    NewFieldMapping(e.fieldName, e.labelText, SuggestMapping(e.labelText))
  }

  /** The mapping rows seeded for the extracted fields: row `j` is the one
      seeded for field `j`. */
  function Seed(es: seq<Pdf.ExtractedField>): (fs: seq<FieldMapping>)
    ensures |fs| == |es|
    ensures forall j :: 0 <= j < |es| ==> fs[j] == SeedOne(es[j])
  {
    Map(SeedOne, es)
  }

  /** Every seeded row keeps the record invariants under any positive
      threshold: its source agrees with its nullable columns, it starts
      unconfirmed and unlocked. */
  lemma SeedIsOk(es: seq<Pdf.ExtractedField>, th: int)
    requires th >= 1
    ensures forall j :: 0 <= j < |es| ==> FieldOk(Seed(es)[j], th)
  {
    forall j | 0 <= j < |es|
      ensures FieldOk(Seed(es)[j], th)
    {
      var s := SuggestMapping(es[j].labelText);
      assert s.source == GRAPHDB <==> s.entity.Some? && s.prop.Some?;
    }
  }

  /** A seeded row names a graph source exactly when the resolver found a rule
      for its label. */
  lemma SeedFollowsResolver(es: seq<Pdf.ExtractedField>, j: nat)
    requires j < |es|
    ensures Seed(es)[j].source == GRAPHDB <==> !NoKeyContained(es[j].labelText)
  {
    ManualIffNoKeyContained(es[j].labelText);
  }

  /** No rule key occurs in the normalized label. */
  predicate NoKeyContained(labelText: string) {
    forall i :: 0 <= i < |Rules()| ==> !Text.Contains(Normalize(labelText), Rules()[i].key)
  }

  /** The seeding loop of `create_template`. */
  method SeedMappings(es: seq<Pdf.ExtractedField>) returns (fs: seq<FieldMapping>)
    ensures fs == Seed(es)
  {
    fs := [];
    for i := 0 to |es|
      invariant fs == Seed(es[..i])
    {
      MapSnoc(SeedOne, es, i);
      var s := SuggestMapping(es[i].labelText);
      fs := fs + [FieldMapping(es[i].fieldName, es[i].labelText, s.source, s.entity, s.prop, 0, false)];
    }
    assert es[..|es|] == es;
  }

  /** `create_template(file, template_name, tenant_id)`. The upload's bytes are
      `content` (None when they do not parse as a PDF), `contentHash` their
      digest and `textIn` the text found on a page inside a clip. */
  method CreateTemplate(db: Database, content: Option<Pdf.Document>, contentHash: string, tenantId: string,
                        templateName: Option<string>, filename: string, textIn: (nat, Pdf.Rect) -> string)
    returns (r: Result<Template, TemplateError>)
    requires db.Valid()
    modifies db
    ensures db.Valid()
    ensures FindExisting(old(db.templates), tenantId, contentHash).Some? ==>
              && r == Ok(old(db.templates)[FindExisting(old(db.templates), tenantId, contentHash).value])
              && db.templates == old(db.templates) && db.files == old(db.files)
    ensures FindExisting(old(db.templates), tenantId, contentHash).None? ==>
              db.files == old(db.files)[UploadPath(contentHash) := content]
    ensures FindExisting(old(db.templates), tenantId, contentHash).None? && HashTaken(old(db.templates), contentHash) ==>
              r == Err(HashConflict) && db.templates == old(db.templates)
    ensures !HashTaken(old(db.templates), contentHash) ==>
              r.Ok? && db.templates == old(db.templates) + [r.value]
    ensures !HashTaken(old(db.templates), contentHash) && r.Ok? ==>
              && r.value.id == |old(db.templates)| + 1
              && r.value.tenantId == tenantId && r.value.templateHash == contentHash
              && r.value.templateName == ChosenName(templateName, filename)
              && r.value.confirmThreshold == DEFAULT_CONFIRM_THRESHOLD
              && r.value.filePath == UploadPath(contentHash)
              && r.value.fields == Seed(if content.None? then [] else Pdf.DocFields(content.value.pages, textIn))
  {
    var existing := FindExisting(db.templates, tenantId, contentHash);
    if existing.Some? {
      assert db.templates[existing.value].templateHash == contentHash;
      return Ok(db.templates[existing.value]);
    }
    var filePath := UploadPath(contentHash);
    db.files := db.files[filePath := content];
    var extracted := Pdf.ExtractFields(content, textIn);
    if HashTaken(db.templates, contentHash) {
      return Err(HashConflict);
    }
    var t := Template(|db.templates| + 1, tenantId, contentHash, ChosenName(templateName, filename),
                      DEFAULT_CONFIRM_THRESHOLD, filePath, []);
    var fields := SeedMappings(extracted);
    SeedIsOk(extracted, DEFAULT_CONFIRM_THRESHOLD);
    assert extracted == (if content.None? then [] else Pdf.DocFields(content.value.pages, textIn));
    t := t.(fields := fields);
    db.templates := db.templates + [t];
    return Ok(t);
  }

  // ---------------------------------------------------------------- update

  /** One entry of the override request. */
  datatype FieldUpdate = FieldUpdate(fieldName: string, source: string)

  /** The first field with this name. */
  function FindField(fs: seq<FieldMapping>, name: string): (r: Option<nat>)
    ensures r.Some? ==> r.value < |fs| && fs[r.value].fieldName == name
    ensures r.Some? ==> forall k :: 0 <= k < r.value ==> fs[k].fieldName != name
    ensures r.None? ==> forall k :: 0 <= k < |fs| ==> fs[k].fieldName != name
  {
    if fs == [] then None
    else if fs[0].fieldName == name then Some(0)
    else match FindField(fs[1..], name)
      case None => None
      case Some(k) => Some(k + 1)
  }

  /** The lookup sees only the names, so lists with the same names agree on it. */
  lemma FindFieldSameNames(fs: seq<FieldMapping>, gs: seq<FieldMapping>, name: string)
    requires |fs| == |gs| && forall j :: 0 <= j < |fs| ==> fs[j].fieldName == gs[j].fieldName
    ensures FindField(fs, name) == FindField(gs, name)
  {
    var a, b := FindField(fs, name), FindField(gs, name);
    if a.Some? && b.Some? {
      assert !(a.value < b.value) && !(b.value < a.value);
    }
  }

  /** A resolver answer whose source agrees with its entity and property. */
  predicate WellFormed(s: Suggestion) {
    && (s.source == GRAPHDB || s.source == MANUAL)
    && (s.source == GRAPHDB <==> s.entity.Some? && s.prop.Some?)
    && (s.source == MANUAL <==> s.entity.None? && s.prop.None?)
  }

  /** What an override does to the field it names, given the resolver's answer
      `s` for the field's label: "manual" clears the graph columns; "graphdb"
      stores the answer's entity type and property and fails when there is no
      entity type; any other source changes nothing. Name, label, count and
      lock are never touched. */
  function Override(f: FieldMapping, source: string, s: Suggestion): (r: Result<FieldMapping, TemplateError>)
    ensures r.Err? <==> source == GRAPHDB && (s.entity.None? || s.entity.value == "")
    ensures r.Ok? ==> r.value.fieldName == f.fieldName && r.value.labelText == f.labelText
                      && r.value.confirmCount == f.confirmCount && r.value.isLocked == f.isLocked
    ensures r.Ok? && SourceConsistent(f) && WellFormed(s) ==> SourceConsistent(r.value)
  {
    if source == MANUAL then Ok(f.(source := MANUAL, entity := None, prop := None))
    else if source == GRAPHDB then
      if s.entity.None? || s.entity.value == "" then Err(NoGraphMapping(f.labelText))
      else Ok(f.(source := GRAPHDB, entity := s.entity, prop := s.prop))
    else Ok(f)
  }

  /** Whether two field lists agree on everything an override must not touch. */
  predicate SameConfirmations(fs: seq<FieldMapping>, gs: seq<FieldMapping>) {
    |fs| == |gs|
    && forall j :: 0 <= j < |fs| ==>
         && gs[j].fieldName == fs[j].fieldName && gs[j].labelText == fs[j].labelText
         && gs[j].confirmCount == fs[j].confirmCount && gs[j].isLocked == fs[j].isLocked
  }

  predicate AllConsistent(fs: seq<FieldMapping>) {
    forall j :: 0 <= j < |fs| ==> SourceConsistent(fs[j])
  }

  /** One entry of the request, applied to the first field with its name; an
      unknown name changes nothing. Names, labels, counts and locks of all
      fields stay, and consistent fields stay consistent. */
  function ApplyUpdate(fs: seq<FieldMapping>, u: FieldUpdate): (r: Result<seq<FieldMapping>, TemplateError>)
    ensures r.Ok? ==> SameConfirmations(fs, r.value)
    ensures r.Ok? && AllConsistent(fs) ==> AllConsistent(r.value)
  {
    match FindField(fs, u.fieldName)
    case None => Ok(fs)
    case Some(k) =>
      match Override(fs[k], u.source, SuggestMapping(fs[k].labelText))
      case Err(e) => Err(e)
      case Ok(g) => ReplaceKeeps(fs, k, g); Ok(fs[k := g])
  }

  /** Replacing one field by one with the same name, label, count and lock. */
  lemma ReplaceKeeps(fs: seq<FieldMapping>, k: nat, g: FieldMapping)
    requires k < |fs|
    requires g.fieldName == fs[k].fieldName && g.labelText == fs[k].labelText
    requires g.confirmCount == fs[k].confirmCount && g.isLocked == fs[k].isLocked
    ensures SameConfirmations(fs, fs[k := g])
    ensures AllConsistent(fs) && SourceConsistent(g) ==> AllConsistent(fs[k := g])
  {
  }

  /** All entries in request order; the first failure aborts the whole request.
      A successful request keeps every field's name, label, count and lock, so an
      overridden field keeps the confirmations it had, and keeps consistency. */
  function ApplyUpdates(fs: seq<FieldMapping>, us: seq<FieldUpdate>): (r: Result<seq<FieldMapping>, TemplateError>)
    ensures r.Ok? ==> SameConfirmations(fs, r.value)
    ensures r.Ok? && AllConsistent(fs) ==> AllConsistent(r.value)
  {
    if us == [] then Ok(fs)
    else match ApplyUpdates(fs, us[..|us| - 1])
      case Err(e) => Err(e)
      case Ok(gs) => ApplyUpdate(gs, us[|us| - 1])
  }

  /** Overrides keep every field's record invariants. */
  lemma UpdatesKeepFieldsOk(fs: seq<FieldMapping>, us: seq<FieldUpdate>, th: int)
    requires forall j :: 0 <= j < |fs| ==> FieldOk(fs[j], th)
    requires ApplyUpdates(fs, us).Ok?
    ensures forall j :: 0 <= j < |fs| ==> FieldOk(ApplyUpdates(fs, us).value[j], th)
  {
    assert AllConsistent(fs);
  }

  /** Switching a present field to "manual" always succeeds and leaves it with
      no graph columns. */
  lemma ManualOverrideClears(fs: seq<FieldMapping>, name: string)
    requires FindField(fs, name).Some?
    ensures var r := ApplyUpdate(fs, FieldUpdate(name, MANUAL));
            var k := FindField(fs, name).value;
            r.Ok? && r.value[k].source == MANUAL && r.value[k].entity.None? && r.value[k].prop.None?
            && forall j :: 0 <= j < |fs| && j != k ==> r.value[j] == fs[j]
  {
  }

  /** Switching a present field to "graphdb" succeeds exactly when its label
      resolves to a rule, and then stores that rule's entity type and property. */
  lemma GraphOverrideFollowsResolver(fs: seq<FieldMapping>, name: string)
    requires FindField(fs, name).Some?
    ensures var r := ApplyUpdate(fs, FieldUpdate(name, GRAPHDB));
            var k := FindField(fs, name).value;
            var s := SuggestMapping(fs[k].labelText);
            && (r.Err? <==> s.source == MANUAL)
            && (r.Err? ==> r.error == NoGraphMapping(fs[k].labelText))
            && (r.Ok? ==> r.value[k].source == GRAPHDB && r.value[k].entity == s.entity && r.value[k].prop == s.prop)
  {
    var k := FindField(fs, name).value;
    var s := SuggestMapping(fs[k].labelText);
    if s.entity.Some? {
      SuggestionIsRuleOrManual(fs[k].labelText);
      var i :| 0 <= i < |Rules()| && s == FromRule(Rules()[i]);
      assert Rules()[i].entity != "" by { RuleEntitiesNonEmpty(i); }
    }
  }

  /** An entry naming no field of the template, or giving a source other than
      the two known ones, changes nothing. */
  lemma IgnoredUpdatesChangeNothing(fs: seq<FieldMapping>, u: FieldUpdate)
    requires FindField(fs, u.fieldName).None? || (u.source != MANUAL && u.source != GRAPHDB)
    ensures ApplyUpdate(fs, u) == Ok(fs)
  {
    if FindField(fs, u.fieldName).Some? {
      var k := FindField(fs, u.fieldName).value;
      assert fs[k := fs[k]] == fs;
    }
  }

  /** Switching a graph field whose columns are the resolver's answer for its
      label to "manual" and back restores it exactly, confirmations and lock
      included; in between it is a manual field that keeps its count. */
  lemma OverrideRoundTrip(fs: seq<FieldMapping>, name: string)
    requires FindField(fs, name).Some?
    requires var f := fs[FindField(fs, name).value];
             f.source == GRAPHDB && SourceConsistent(f) && f.entity == SuggestMapping(f.labelText).entity
             && f.prop == SuggestMapping(f.labelText).prop
    ensures var k := FindField(fs, name).value;
            var r1 := ApplyUpdate(fs, FieldUpdate(name, MANUAL));
            && r1.Ok? && r1.value[k].source == MANUAL && r1.value[k].confirmCount == fs[k].confirmCount
            && ApplyUpdate(r1.value, FieldUpdate(name, GRAPHDB)) == Ok(fs)
  {
    var k := FindField(fs, name).value;
    var f := fs[k];
    var s := SuggestMapping(f.labelText);
    ResolvedEntityNonEmpty(f.labelText);
    var g := FieldRoundTrip(f, s);
    var gs := fs[k := g];
    FindFieldSameNames(fs, gs, name);
    assert gs[k := f] == fs;
  }

  /** The manual-then-graphdb round trip on one graph field whose columns are
      the resolver's answer `s`. */
  lemma FieldRoundTrip(f: FieldMapping, s: Suggestion) returns (g: FieldMapping)
    requires f.source == GRAPHDB && f.entity == s.entity && f.prop == s.prop
    requires s.entity.Some? && s.entity.value != ""
    ensures Override(f, MANUAL, s) == Ok(g) && g.source == MANUAL && g.confirmCount == f.confirmCount
    ensures Override(g, GRAPHDB, s) == Ok(f)
  {
    g := f.(source := MANUAL, entity := None, prop := None);
  }

  /** Whenever the resolver names an entity type, the name is not empty. */
  lemma ResolvedEntityNonEmpty(labelText: string)
    ensures SuggestMapping(labelText).entity.Some? ==> SuggestMapping(labelText).entity.value != ""
  {
    SuggestionIsRuleOrManual(labelText);
    var s := SuggestMapping(labelText);
    if s.entity.Some? {
      var i :| 0 <= i < |Rules()| && s == FromRule(Rules()[i]);
      RuleEntitiesNonEmpty(i);
    }
  }

  lemma RuleEntitiesNonEmpty(i: nat)
    requires i < |Rules()|
    ensures Rules()[i].entity != ""
  {
  }

  /** `update_mapping(template_id, mapping_update)`. A failing override aborts
      the request before the commit, so nothing is stored. */
  method UpdateMapping(db: Database, templateId: int, us: seq<FieldUpdate>)
    returns (r: Result<Template, TemplateError>)
    requires db.Valid()
    modifies db
    ensures db.Valid() && db.files == old(db.files)
    ensures FindTemplate(old(db.templates), templateId).None? ==>
              r == Err(TemplateNotFound) && db.templates == old(db.templates)
    ensures FindTemplate(old(db.templates), templateId).Some? ==>
              var k := FindTemplate(old(db.templates), templateId).value;
              var t := old(db.templates)[k];
              match ApplyUpdates(t.fields, us)
              case Err(e) => r == Err(e) && db.templates == old(db.templates)
              case Ok(fs) => r == Ok(t.(fields := fs)) && db.templates == old(db.templates)[k := t.(fields := fs)]
  {
    var found := FindTemplate(db.templates, templateId);
    if found.None? {
      return Err(TemplateNotFound);
    }
    var k := found.value;
    var t := db.templates[k];
    var applied := OverrideFields(t.fields, us);
    if applied.Err? {
      return Err(applied.error);
    }
    UpdatesKeepFieldsOk(t.fields, us, t.confirmThreshold);
    t := t.(fields := applied.value);
    db.templates := db.templates[k := t];
    return Ok(t);
  }

  /** The loop of `update_mapping` over the request's entries, on the field
      list of the template: the first failing entry ends it. */
  method OverrideFields(fields: seq<FieldMapping>, us: seq<FieldUpdate>)
    returns (r: Result<seq<FieldMapping>, TemplateError>)
    ensures r == ApplyUpdates(fields, us)
  {
    var fs := fields;
    for i := 0 to |us|
      invariant ApplyUpdates(fields, us[..i]) == Ok(fs)
    {
      assert us[..i + 1][..i] == us[..i];
      var u := us[i];
      assert ApplyUpdates(fields, us[..i + 1]) == ApplyUpdate(fs, u);
      var idx := FindField(fs, u.fieldName);
      if idx.Some? {
        var field := fs[idx.value];
        if u.source == MANUAL {
          fs := fs[idx.value := field.(source := MANUAL, entity := None, prop := None)];
        } else if u.source == GRAPHDB {
          var s := SuggestMapping(field.labelText);
          if s.entity.None? || s.entity.value == "" {
            assert Override(field, u.source, s) == Err(NoGraphMapping(field.labelText));
            ApplyUpdatesErrSticks(fields, us, i + 1);
            return Err(NoGraphMapping(field.labelText));
          }
          fs := fs[idx.value := field.(source := GRAPHDB, entity := s.entity, prop := s.prop)];
        } else {
          assert fs[idx.value := field] == fs;
        }
      }
    }
    assert us[..|us|] == us;
    return Ok(fs);
  }

  /** Once an override fails, the whole request fails with that error. */
  lemma {:induction false} ApplyUpdatesErrSticks(fs: seq<FieldMapping>, us: seq<FieldUpdate>, n: nat)
    requires n <= |us| && ApplyUpdates(fs, us[..n]).Err?
    ensures ApplyUpdates(fs, us) == ApplyUpdates(fs, us[..n])
  {
    if n < |us| {
      assert us[..|us| - 1][..n] == us[..n];
      ApplyUpdatesErrSticks(fs, us[..|us| - 1], n);
    } else {
      assert us[..n] == us;
    }
  }
}
