/**
 * The two record shapes of the store (app/models.py) and the store itself.
 * A `FieldMapping` row is updated in place by the form submission and the
 * mapping override; here it is a value inside its template's ordered `fields`
 * list, which those operations reassign.
 */
module Models {
  import opened Base
  import opened Mapping
  import Pdf

  /** The `confirm_threshold` column default. */
  const DEFAULT_CONFIRM_THRESHOLD: int := 2

  /** One `field_mappings` row. `entity` and `prop` are the nullable
      `entity_type` and `property_name` columns. */
  datatype FieldMapping = FieldMapping(
    fieldName: string,
    labelText: string,
    source: string,
    entity: Option<string>,
    prop: Option<string>,
    confirmCount: int,
    isLocked: bool)

  /** One `templates` row with its ordered `fields` relationship. */
  datatype Template = Template(
    id: int,
    tenantId: string,
    templateHash: string,
    templateName: string,
    confirmThreshold: int,
    filePath: string,
    fields: seq<FieldMapping>)

  /** A new row for an extracted field: the resolver's triple and the column
      defaults `confirm_count = 0`, `is_locked = False`. */
  function NewFieldMapping(fieldName: string, labelText: string, s: Suggestion): (f: FieldMapping)
    ensures f.confirmCount == 0 && !f.isLocked
    ensures f.fieldName == fieldName && f.labelText == labelText
    ensures f.source == s.source && f.entity == s.entity && f.prop == s.prop
  {
    FieldMapping(fieldName, labelText, s.source, s.entity, s.prop, 0, false)
  }

  /** The source is one of the two known ones and agrees with the nullable
      columns: a graph field names an entity type and a property, a manual
      field names neither. */
  predicate SourceConsistent(f: FieldMapping) {
    && (f.source == GRAPHDB || f.source == MANUAL)
    && (f.source == GRAPHDB ==> f.entity.Some? && f.prop.Some?)
    && (f.source == MANUAL ==> f.entity.None? && f.prop.None?)
  }

  /** The lock invariant under threshold `th`: a locked field has exactly `th`
      confirmations, an unlocked one fewer, and counts are never negative. */
  predicate LockInvariant(f: FieldMapping, th: int) {
    && 0 <= f.confirmCount
    && (f.isLocked ==> f.confirmCount == th)
    && (!f.isLocked ==> f.confirmCount < th)
  }

  predicate FieldOk(f: FieldMapping, th: int) {
    SourceConsistent(f) && LockInvariant(f, th)
  }

  predicate TemplateOk(t: Template) {
    && t.confirmThreshold >= 1
    && forall j :: 0 <= j < |t.fields| ==> FieldOk(t.fields[j], t.confirmThreshold)
  }

  /** Ids are assigned in insertion order from 1. */
  predicate IdsSequential(ts: seq<Template>) {
    forall i :: 0 <= i < |ts| ==> ts[i].id == i + 1
  }

  /** `template_hash` is a unique column. */
  predicate HashesUnique(ts: seq<Template>) {
    forall i, j :: 0 <= i < j < |ts| ==> ts[i].templateHash != ts[j].templateHash
  }

  predicate AllOk(ts: seq<Template>) {
    forall i :: 0 <= i < |ts| ==> TemplateOk(ts[i])
  }

  predicate TableOk(ts: seq<Template>) {
    IdsSequential(ts) && HashesUnique(ts) && AllOk(ts)
  }

  /** The in-memory stand-in for the database and the upload directory: the
      `templates` table, each row holding its field mappings, and the files
      written under their paths (None for bytes that do not parse as a PDF). */
  class Database {
    var templates: seq<Template>
    var files: map<string, Option<Pdf.Document>>

    ghost predicate Valid()
      reads this
    {
      TableOk(templates)
    }

    constructor ()
      ensures Valid() && templates == [] && files == map[]
    {
      templates := [];
      files := map[];
    }
  }

  /** `query(Template).filter(Template.id == id).first()`: the position of the
      first row with that id. */
  function FindTemplate(ts: seq<Template>, id: int): (r: Option<nat>)
    ensures r.Some? ==> r.value < |ts| && ts[r.value].id == id
    ensures r.Some? ==> forall k :: 0 <= k < r.value ==> ts[k].id != id
    ensures r.None? ==> forall k :: 0 <= k < |ts| ==> ts[k].id != id
  {
    if ts == [] then None
    else if ts[0].id == id then Some(0)
    else match FindTemplate(ts[1..], id)
      case None => None
      case Some(k) => Some(k + 1)
  }

  /** With ids assigned in order, a lookup by id finds row `id - 1`, and ids
      outside `1..|ts|` are not found. */
  lemma FindTemplateById(ts: seq<Template>, id: int)
    requires IdsSequential(ts)
    ensures 1 <= id <= |ts| ==> FindTemplate(ts, id) == Some(id - 1)
    ensures !(1 <= id <= |ts|) ==> FindTemplate(ts, id) == None
  {
    if 1 <= id <= |ts| {
      assert ts[id - 1].id == id;
    }
  }
}
