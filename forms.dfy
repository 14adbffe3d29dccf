/**
 * The form endpoints (app/routers/forms.py). Opening a form splits a
 * template's fields into those filled from the graph, those shown for
 * confirmation and those typed by hand; submitting it counts one more
 * confirmation for every unlocked graph field, locks a field once its count
 * reaches the template's threshold, and fills the stored PDF.
 */
module Forms {
  import opened Base
  import opened Mapping
  import opened Models
  import Graph
  import Pdf

  datatype FormError = TemplateNotFound | FileNotFound | FillFailed(detail: string)

  // ---------------------------------------------------------------- submit

  /** Whether a submission counts a confirmation for this field. */
  predicate Confirmable(f: FieldMapping) {
    f.source == GRAPHDB && !f.isLocked
  }

  /** A field after one submission under threshold `th`. */
  function Confirm(f: FieldMapping, th: int): (g: FieldMapping)
    ensures !Confirmable(f) ==> g == f
    ensures Confirmable(f) ==> g.confirmCount == f.confirmCount + 1 && (g.isLocked <==> g.confirmCount >= th)
    ensures g.fieldName == f.fieldName && g.labelText == f.labelText && g.source == f.source
    ensures g.entity == f.entity && g.prop == f.prop
  {
    if Confirmable(f) then
      var n := f.confirmCount + 1;
      f.(confirmCount := n, isLocked := n >= th)
    else f
  }

  function ConfirmAll(fs: seq<FieldMapping>, th: int): (gs: seq<FieldMapping>)
    ensures |gs| == |fs| && forall j :: 0 <= j < |fs| ==> gs[j] == Confirm(fs[j], th)
  {
    seq(|fs|, j requires 0 <= j < |fs| => Confirm(fs[j], th))
  }

  /** Counts never go down and a lock is never undone. */
  lemma ConfirmIsMonotone(f: FieldMapping, th: int)
    ensures Confirm(f, th).confirmCount >= f.confirmCount
    ensures f.isLocked ==> Confirm(f, th).isLocked
    ensures Confirm(f, th).confirmCount <= f.confirmCount + 1
  {
  }

  /** One submission keeps the record invariants: a field reaches exactly the
      threshold when it locks, and never passes it. */
  lemma ConfirmKeepsFieldOk(f: FieldMapping, th: int)
    requires FieldOk(f, th)
    ensures FieldOk(Confirm(f, th), th)
    ensures Confirm(f, th).confirmCount <= th
  {
  }

  /** A field after `n` submissions. */
  function ConfirmTimes(f: FieldMapping, th: int, n: nat): FieldMapping
  {
    if n == 0 then f else Confirm(ConfirmTimes(f, th, n - 1), th)
  }

  /** A freshly suggested graph field under threshold `th` is confirmed by each
      of the first `th` submissions, locks on the `th`-th one, and stays put
      from then on. */
  lemma {:induction false} ConfirmTimesClosedForm(f: FieldMapping, th: int, n: nat)
    requires f.source == GRAPHDB && f.confirmCount == 0 && !f.isLocked && th >= 1
    ensures ConfirmTimes(f, th, n).confirmCount == (if n < th then n else th)
    ensures ConfirmTimes(f, th, n).isLocked <==> n >= th
    ensures ConfirmTimes(f, th, n).source == GRAPHDB
  {
    if n > 0 {
      ConfirmTimesClosedForm(f, th, n - 1);
      assert ConfirmTimes(f, th, n) == Confirm(ConfirmTimes(f, th, n - 1), th);
    }
  }

  /** With the default threshold of two, the first submission leaves a new graph
      field unlocked and the second locks it. */
  lemma DefaultThresholdLocksOnSecondSubmit(f: FieldMapping)
    requires f.source == GRAPHDB && f.confirmCount == 0 && !f.isLocked
    ensures !ConfirmTimes(f, DEFAULT_CONFIRM_THRESHOLD, 1).isLocked
    ensures ConfirmTimes(f, DEFAULT_CONFIRM_THRESHOLD, 2).isLocked
    ensures ConfirmTimes(f, DEFAULT_CONFIRM_THRESHOLD, 1).confirmCount == 1
    ensures ConfirmTimes(f, DEFAULT_CONFIRM_THRESHOLD, 2).confirmCount == 2
    ensures ConfirmTimes(f, DEFAULT_CONFIRM_THRESHOLD, 3) == ConfirmTimes(f, DEFAULT_CONFIRM_THRESHOLD, 2)
  {
    ConfirmTimesClosedForm(f, DEFAULT_CONFIRM_THRESHOLD, 1);
    ConfirmTimesClosedForm(f, DEFAULT_CONFIRM_THRESHOLD, 2);
  }

  lemma ConfirmAllKeepsTemplateOk(t: Template)
    requires TemplateOk(t)
    ensures TemplateOk(t.(fields := ConfirmAll(t.fields, t.confirmThreshold)))
  {
    forall j | 0 <= j < |t.fields|
      ensures FieldOk(Confirm(t.fields[j], t.confirmThreshold), t.confirmThreshold)
    {
      ConfirmKeepsFieldOk(t.fields[j], t.confirmThreshold);
    }
  }

  /** The file name offered for download. */
  function FilledName(templateName: string): (s: string)
    ensures |s| == |templateName| + 11
    ensures s[..7] == "filled_"
    ensures s[|s| - 4..] == ".pdf" && s[7..|s| - 4] == templateName
  {
    "filled_" + templateName + ".pdf"
  }

  /** The download: the filled document, the text stamped onto its pages and
      the file name offered. */
  datatype FilledPdf = FilledPdf(doc: Pdf.Document, drawings: seq<Pdf.Drawing>, fileName: string)

  /** `submit_form(request)`. The counts are committed before the stored file is
      looked at, so they stay incremented when filling then fails. */
  method SubmitForm(db: Database, templateId: int, finalValues: map<string, string>)
    returns (r: Result<FilledPdf, FormError>)
    requires db.Valid()
    modifies db
    ensures db.Valid() && db.files == old(db.files)
    ensures FindTemplate(old(db.templates), templateId).None? ==>
              r == Err(TemplateNotFound) && db.templates == old(db.templates)
    ensures FindTemplate(old(db.templates), templateId).Some? ==>
              var k := FindTemplate(old(db.templates), templateId).value;
              var t := old(db.templates)[k];
              && db.templates == old(db.templates)[k := t.(fields := ConfirmAll(t.fields, t.confirmThreshold))]
              && (t.filePath !in db.files ==> r == Err(FileNotFound))
              && (t.filePath in db.files && db.files[t.filePath].None? ==> r.Err? && r.error.FillFailed?)
              && (t.filePath in db.files && db.files[t.filePath].Some? ==>
                    r == Ok(FilledPdf(Pdf.Document(Pdf.FilledDoc(db.files[t.filePath].value.pages, finalValues)),
                                      Pdf.DocStamps(db.files[t.filePath].value.pages, finalValues),
                                      FilledName(t.templateName))))
  {
    var found := FindTemplate(db.templates, templateId);
    if found.None? {
      return Err(TemplateNotFound);
    }
    var k := found.value;
    var t := db.templates[k];
    var fs := t.fields;
    for i := 0 to |fs|
      invariant |fs| == |t.fields|
      invariant forall j :: 0 <= j < i ==> fs[j] == Confirm(t.fields[j], t.confirmThreshold)
      invariant forall j :: i <= j < |fs| ==> fs[j] == t.fields[j]
    {
      var field := fs[i];
      if field.source == GRAPHDB && !field.isLocked {
        field := field.(confirmCount := field.confirmCount + 1);
        if field.confirmCount >= t.confirmThreshold {
          field := field.(isLocked := true);
        }
        fs := fs[i := field];
      }
    }
    assert fs == ConfirmAll(t.fields, t.confirmThreshold);
    ConfirmAllKeepsTemplateOk(t);
    db.templates := db.templates[k := t.(fields := fs)];

    if t.filePath !in db.files {
      return Err(FileNotFound);
    }
    var filled := Pdf.FillPdfFields(db.files[t.filePath], finalValues);
    match filled
    case Err(e) =>
      return Err(FillFailed(e));
    case Ok(out) =>
      return Ok(FilledPdf(out.doc, out.drawings, FilledName(t.templateName)));
  }

  // ---------------------------------------------------------------- open

  /** A hand-typed field as the form shows it. */
  datatype ManualEntry = ManualEntry(fieldName: string, labelText: string)

  /** A graph field still awaiting confirmation, with its count so far. */
  datatype PendingEntry = PendingEntry(fieldName: string, labelText: string, confirmCount: int, isLocked: bool)

  datatype Partition = Partition(
    manual: seq<ManualEntry>,
    pending: seq<PendingEntry>,
    toFetch: seq<Graph.GraphMapping>,
    lockedCount: nat)

  /** The split of `open_form`'s loop, defined from the end: manual fields go to
      `manual`, locked graph fields to `toFetch`, unlocked graph fields to
      `pending`, and fields of any other source nowhere. */
  function Split(fs: seq<FieldMapping>): Partition
  {
    if fs == [] then Partition([], [], [], 0)
    else
      var p := Split(fs[..|fs| - 1]);
      var f := fs[|fs| - 1];
      if f.source == MANUAL then p.(manual := p.manual + [ManualEntry(f.fieldName, f.labelText)])
      else if f.source == GRAPHDB && f.isLocked then
        p.(toFetch := p.toFetch + [Graph.GraphMapping(f.entity, f.prop, f.fieldName)], lockedCount := p.lockedCount + 1)
      else if f.source == GRAPHDB then
        p.(pending := p.pending + [PendingEntry(f.fieldName, f.labelText, f.confirmCount, false)])
      else p
  }

  /** The number of fields whose source is neither "manual" nor "graphdb". */
  function OtherSourceCount(fs: seq<FieldMapping>): nat {
    if fs == [] then 0
    else OtherSourceCount(fs[..|fs| - 1])
         + (if fs[|fs| - 1].source != MANUAL && fs[|fs| - 1].source != GRAPHDB then 1 else 0)
  }

  /** Every field of a known source lands in exactly one list. */
  lemma {:induction false} SplitSizes(fs: seq<FieldMapping>)
    ensures |Split(fs).manual| + |Split(fs).pending| + |Split(fs).toFetch| + OtherSourceCount(fs) == |fs|
    ensures Split(fs).lockedCount == |Split(fs).toFetch|
  {
    if fs != [] {
      SplitSizes(fs[..|fs| - 1]);
    }
  }

  /** In a template that keeps the record invariants every field is listed,
      in the list its source and lock choose, and the three lists hold exactly
      as many entries as there are fields. */
  lemma {:induction false} KnownSourcesAllListed(fs: seq<FieldMapping>)
    requires forall j :: 0 <= j < |fs| ==> SourceConsistent(fs[j])
    ensures |Split(fs).manual| + |Split(fs).pending| + |Split(fs).toFetch| == |fs|
    ensures forall j :: 0 <= j < |fs| ==>
              || ManualEntry(fs[j].fieldName, fs[j].labelText) in Split(fs).manual
              || PendingEntry(fs[j].fieldName, fs[j].labelText, fs[j].confirmCount, false) in Split(fs).pending
              || Graph.GraphMapping(fs[j].entity, fs[j].prop, fs[j].fieldName) in Split(fs).toFetch
  {
    SplitSizes(fs);
    NoOtherSources(fs);
    forall j | 0 <= j < |fs|
      ensures || ManualEntry(fs[j].fieldName, fs[j].labelText) in Split(fs).manual
              || PendingEntry(fs[j].fieldName, fs[j].labelText, fs[j].confirmCount, false) in Split(fs).pending
              || Graph.GraphMapping(fs[j].entity, fs[j].prop, fs[j].fieldName) in Split(fs).toFetch
    {
      if fs[j].source == MANUAL {
        ManualAreListed(fs, j);
      } else if fs[j].isLocked {
        LockedFieldsAreFetched(fs, j);
      } else {
        UnlockedArePending(fs, j);
      }
    }
  }

  /** Every manual field is listed for hand entry. */
  lemma {:induction false} ManualAreListed(fs: seq<FieldMapping>, j: nat)
    requires j < |fs| && fs[j].source == MANUAL
    ensures ManualEntry(fs[j].fieldName, fs[j].labelText) in Split(fs).manual
  {
    var pre := fs[..|fs| - 1];
    if j < |fs| - 1 {
      ManualAreListed(pre, j);
    }
  }

  /** Nothing but a manual field is listed for hand entry. */
  lemma {:induction false} ManualListedAreManual(fs: seq<FieldMapping>, k: nat)
    requires k < |Split(fs).manual|
    ensures exists j :: 0 <= j < |fs| && fs[j].source == MANUAL
              && Split(fs).manual[k] == ManualEntry(fs[j].fieldName, fs[j].labelText)
  {
    var pre := fs[..|fs| - 1];
    if k < |Split(pre).manual| {
      ManualListedAreManual(pre, k);
      var j :| 0 <= j < |pre| && pre[j].source == MANUAL
                && Split(pre).manual[k] == ManualEntry(pre[j].fieldName, pre[j].labelText);
      assert fs[j] == pre[j];
    }
  }

  /** Every unlocked graph field is offered for confirmation, with its count. */
  lemma {:induction false} UnlockedArePending(fs: seq<FieldMapping>, j: nat)
    requires j < |fs| && fs[j].source == GRAPHDB && !fs[j].isLocked
    ensures PendingEntry(fs[j].fieldName, fs[j].labelText, fs[j].confirmCount, false) in Split(fs).pending
  {
    var pre := fs[..|fs| - 1];
    if j < |fs| - 1 {
      UnlockedArePending(pre, j);
    }
  }

  lemma {:induction false} NoOtherSources(fs: seq<FieldMapping>)
    requires forall j :: 0 <= j < |fs| ==> SourceConsistent(fs[j])
    ensures OtherSourceCount(fs) == 0
  {
    if fs != [] {
      NoOtherSources(fs[..|fs| - 1]);
    }
  }

  /** The locked graph fields are exactly the ones handed to the graph lookup,
      in template order. */
  lemma {:induction false} ToFetchAreLockedFields(fs: seq<FieldMapping>, k: nat)
    requires k < |Split(fs).toFetch|
    ensures exists j :: 0 <= j < |fs| && fs[j].source == GRAPHDB && fs[j].isLocked
              && Split(fs).toFetch[k] == Graph.GraphMapping(fs[j].entity, fs[j].prop, fs[j].fieldName)
  {
    var pre := fs[..|fs| - 1];
    if k < |Split(pre).toFetch| {
      ToFetchAreLockedFields(pre, k);
      var j :| 0 <= j < |pre| && pre[j].source == GRAPHDB && pre[j].isLocked
                && Split(pre).toFetch[k] == Graph.GraphMapping(pre[j].entity, pre[j].prop, pre[j].fieldName);
      assert fs[j] == pre[j];
    }
  }

  /** Every locked graph field is handed to the graph lookup. */
  lemma {:induction false} LockedFieldsAreFetched(fs: seq<FieldMapping>, j: nat)
    requires j < |fs| && fs[j].source == GRAPHDB && fs[j].isLocked
    ensures Graph.GraphMapping(fs[j].entity, fs[j].prop, fs[j].fieldName) in Split(fs).toFetch
  {
    var pre := fs[..|fs| - 1];
    if j < |fs| - 1 {
      LockedFieldsAreFetched(pre, j);
    }
  }

  /** Unlocked graph fields are offered with their count and never as locked;
      nothing but a graph field is pending. */
  lemma {:induction false} PendingAreUnlockedGraphFields(fs: seq<FieldMapping>, k: nat)
    requires k < |Split(fs).pending|
    ensures !Split(fs).pending[k].isLocked
    ensures exists j :: 0 <= j < |fs| && fs[j].source == GRAPHDB && !fs[j].isLocked
              && Split(fs).pending[k] == PendingEntry(fs[j].fieldName, fs[j].labelText, fs[j].confirmCount, false)
  {
    var pre := fs[..|fs| - 1];
    if k < |Split(pre).pending| {
      PendingAreUnlockedGraphFields(pre, k);
      var j :| 0 <= j < |pre| && pre[j].source == GRAPHDB && !pre[j].isLocked
                && Split(pre).pending[k] == PendingEntry(pre[j].fieldName, pre[j].labelText, pre[j].confirmCount, false);
      assert fs[j] == pre[j];
    }
  }

  /** The partition loop of `open_form`. */
  method PartitionFields(fs: seq<FieldMapping>) returns (p: Partition)
    ensures p == Split(fs)
  {
    var manual: seq<ManualEntry> := [];
    var pending: seq<PendingEntry> := [];
    var toFetch: seq<Graph.GraphMapping> := [];
    var lockedCount: nat := 0;
    for i := 0 to |fs|
      invariant Partition(manual, pending, toFetch, lockedCount) == Split(fs[..i])
    {
      assert fs[..i + 1][..i] == fs[..i];
      var field := fs[i];
      if field.source == MANUAL {
        manual := manual + [ManualEntry(field.fieldName, field.labelText)];
      } else if field.source == GRAPHDB {
        if field.isLocked {
          lockedCount := lockedCount + 1;
          toFetch := toFetch + [Graph.GraphMapping(field.entity, field.prop, field.fieldName)];
        } else {
          pending := pending + [PendingEntry(field.fieldName, field.labelText, field.confirmCount, false)];
        }
      }
    }
    assert fs[..|fs|] == fs;
    return Partition(manual, pending, toFetch, lockedCount);
  }

  datatype OpenedForm = OpenedForm(
    templateId: int,
    templateName: string,
    autoFilled: map<string, string>,
    manual: seq<ManualEntry>,
    pending: seq<PendingEntry>)

  /** The values `open_form` fills in: the graph is consulted only when some
      field is locked. */
  function AutoFill(connected: bool, toFetch: seq<Graph.GraphMapping>, graphKeys: map<string, string>,
                    query: (string, string, string) -> Graph.QueryResult): (m: map<string, string>)
    ensures toFetch == [] ==> m == map[]
    ensures forall f :: f in m ==> exists i :: 0 <= i < |toFetch| && toFetch[i].fieldName == f
  {
    if toFetch == [] then map[]
    else
      var m := Graph.FetchResult(connected, toFetch, graphKeys, query);
      assert forall f :: f in m ==> exists i :: 0 <= i < |toFetch| && toFetch[i].fieldName == f by {
        forall f | f in m
          ensures exists i :: 0 <= i < |toFetch| && toFetch[i].fieldName == f
        {
          Graph.FetchKeysAreFieldNames(connected, toFetch, graphKeys, query, f);
        }
      }
      m
  }

  /** `open_form(request)`: `graph` is the module's shared service object and
      `query` the database behind it. */
  method OpenForm(db: Database, graph: Graph.GraphService, templateId: int, graphKeys: map<string, string>,
                  query: (string, string, string) -> Graph.QueryResult)
    returns (r: Result<OpenedForm, FormError>)
    ensures FindTemplate(db.templates, templateId).None? ==> r == Err(TemplateNotFound)
    ensures FindTemplate(db.templates, templateId).Some? ==>
              var t := db.templates[FindTemplate(db.templates, templateId).value];
              var p := Split(t.fields);
              r == Ok(OpenedForm(t.id, t.templateName, AutoFill(graph.connected, p.toFetch, graphKeys, query),
                                 p.manual, p.pending))
  {
    var found := FindTemplate(db.templates, templateId);
    if found.None? {
      return Err(TemplateNotFound);
    }
    var t := db.templates[found.value];
    var p := PartitionFields(t.fields);
    var autoFilled: map<string, string> := map[];
    if p.toFetch != [] {
      autoFilled := graph.FetchValues(p.toFetch, graphKeys, query);
    }
    return Ok(OpenedForm(t.id, t.templateName, autoFilled, p.manual, p.pending));
  }

  /** Every auto-filled value belongs to a locked graph field of the template. */
  lemma AutoFilledAreLockedFields(fs: seq<FieldMapping>, connected: bool, graphKeys: map<string, string>,
                                  query: (string, string, string) -> Graph.QueryResult, name: string)
    returns (j: nat)
    requires name in AutoFill(connected, Split(fs).toFetch, graphKeys, query)
    ensures j < |fs| && fs[j].source == GRAPHDB && fs[j].isLocked && fs[j].fieldName == name
  {
    var toFetch := Split(fs).toFetch;
    var i :| 0 <= i < |toFetch| && toFetch[i].fieldName == name;
    ToFetchAreLockedFields(fs, i);
    j :| 0 <= j < |fs| && fs[j].source == GRAPHDB && fs[j].isLocked
         && toFetch[i] == Graph.GraphMapping(fs[j].entity, fs[j].prop, fs[j].fieldName);
  }

  /** A locked graph field whose live lookup finds no record is auto-filled
      with nothing and listed neither as manual nor as pending: the form omits
      it. This needs the live pass to go through (no query raised, else the
      stub answers) and no other field to share the field's name. */
  lemma LockedFieldWithoutRecordIsOmitted(fs: seq<FieldMapping>, j: nat, graphKeys: map<string, string>,
                                          query: (string, string, string) -> Graph.QueryResult)
    requires j < |fs| && fs[j].source == GRAPHDB && fs[j].isLocked
    requires forall i :: 0 <= i < |fs| && i != j ==> fs[i].fieldName != fs[j].fieldName
    requires Graph.LiveResults(Split(fs).toFetch, graphKeys, query).Some?
    requires fs[j].entity.Some? && fs[j].prop.Some? ==>
               forall id :: query(fs[j].entity.value, fs[j].prop.value, id) == Graph.NoRecord
    ensures var p := Split(fs);
            && fs[j].fieldName !in AutoFill(true, p.toFetch, graphKeys, query)
            && (forall k :: 0 <= k < |p.manual| ==> p.manual[k].fieldName != fs[j].fieldName)
            && (forall k :: 0 <= k < |p.pending| ==> p.pending[k].fieldName != fs[j].fieldName)
  {
    var p := Split(fs);
    var name := fs[j].fieldName;
    forall k | 0 <= k < |p.manual|
      ensures p.manual[k].fieldName != name
    {
      ManualListedAreManual(fs, k);
    }
    forall k | 0 <= k < |p.pending|
      ensures p.pending[k].fieldName != name
    {
      PendingAreUnlockedGraphFields(fs, k);
    }
    if name in AutoFill(true, p.toFetch, graphKeys, query) {
      Graph.LiveResultKeys(p.toFetch, graphKeys, query, name);
      var i :| 0 <= i < |p.toFetch| && p.toFetch[i].fieldName == name
               && Graph.LiveStep(p.toFetch[i], graphKeys, query).Put?;
      ToFetchAreLockedFields(fs, i);
      assert false;
    }
  }
}
