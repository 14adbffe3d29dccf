/**
 * The PDF collaborator (app/services/pdf_service.py): reading the form widgets
 * of an uploaded document with a guessed label for each, and filling a stored
 * document with values. A document is its pages of widgets; the text found in
 * a clip rectangle of a page is an oracle, as is the rendering of the file.
 */
module Pdf {
  import opened Base
  import opened Text

  datatype Rect = Rect(x0: real, y0: real, x1: real, y1: real)

  datatype Color = Color(r: real, g: real, b: real)

  const BLACK := Color(0.0, 0.0, 0.0)

  /** The font size used when a widget has none (or zero). */
  const DEFAULT_FONT_SIZE: real := 10.0

  /** An interactive form field: its name (possibly absent), where it sits,
      its font size, its current value and its text colour. */
  datatype Widget = Widget(name: Option<string>, rect: Rect, fontSize: Option<real>,
                           value: Option<string>, textColor: Color)

  datatype Document = Document(pages: seq<seq<Widget>>)

  /** One entry of the list `extract_fields_from_pdf` returns. */
  datatype ExtractedField = ExtractedField(fieldName: string, labelText: string)

  /** Text stamped onto a page by `insert_text`. */
  datatype Drawing = Drawing(page: nat, x: real, y: real, text: string, fontSize: real)

  /** What `fill_pdf_fields` produces: the updated document (whose bytes it
      returns), the text it stamped, and how many widgets it filled. */
  datatype FillOutput = FillOutput(doc: Document, drawings: seq<Drawing>, filledCount: nat)

  // ---------------------------------------------------------------- extract

  /** The search area to the left of a field: 150 points wide, same height. */
  function LeftOf(r: Rect): (s: Rect)
    ensures s.x1 == r.x0 && s.x1 - s.x0 == 150.0 && s.y0 == r.y0 && s.y1 == r.y1
  {
    Rect(r.x0 - 150.0, r.y0, r.x0, r.y1)
  }

  /** The search area above a field: 20 points high, same width. */
  function Above(r: Rect): (s: Rect)
    ensures s.y1 == r.y0 && s.y1 - s.y0 == 20.0 && s.x0 == r.x0 && s.x1 == r.x1
  {
    Rect(r.x0, r.y0 - 20.0, r.x1, r.y0)
  }

  /** The field a widget on page `p` contributes, if any: nameless widgets are
      skipped; the label is the stripped text left of the field, else the
      stripped text above it, else the field name. */
  function ExtractedOf(w: Widget, p: nat, textIn: (nat, Rect) -> string): (e: Option<ExtractedField>)
    ensures e.Some? <==> w.name.Some? && w.name.value != ""
    ensures e.Some? ==> e.value.fieldName == w.name.value && e.value.labelText != ""
    ensures e.Some? && Strip(textIn(p, LeftOf(w.rect))) != ""
            ==> e.value.labelText == Strip(textIn(p, LeftOf(w.rect)))
    ensures e.Some? && Strip(textIn(p, LeftOf(w.rect))) == "" && Strip(textIn(p, Above(w.rect))) != ""
            ==> e.value.labelText == Strip(textIn(p, Above(w.rect)))
    ensures e.Some? && Strip(textIn(p, LeftOf(w.rect))) == "" && Strip(textIn(p, Above(w.rect))) == ""
            ==> e.value.labelText == w.name.value
  {
    if w.name.None? || w.name.value == "" then None
    else
      var left := Strip(textIn(p, LeftOf(w.rect)));
      var text := if left != "" then left else Strip(textIn(p, Above(w.rect)));
      Some(ExtractedField(w.name.value, if text != "" then text else w.name.value))
  }

  /** The fields of the first `|ws|` widgets of page `p`, in order. */
  function PageFields(ws: seq<Widget>, p: nat, textIn: (nat, Rect) -> string): seq<ExtractedField>
  {
    if ws == [] then []
    else
      var pre := PageFields(ws[..|ws| - 1], p, textIn);
      match ExtractedOf(ws[|ws| - 1], p, textIn)
      case Some(e) => pre + [e]
      case None => pre
  }

  /** The fields of all pages, page by page. */
  function DocFields(pages: seq<seq<Widget>>, textIn: (nat, Rect) -> string): seq<ExtractedField>
  {
    if pages == [] then []
    else DocFields(pages[..|pages| - 1], textIn) + PageFields(pages[|pages| - 1], |pages| - 1, textIn)
  }

  /** `extract_fields_from_pdf(pdf_bytes)`: `file` is None when the bytes do not
      open as a PDF, which yields the empty list. */
  method ExtractFields(file: Option<Document>, textIn: (nat, Rect) -> string)
    returns (fields: seq<ExtractedField>)
    ensures file.None? ==> fields == []
    ensures file.Some? ==> fields == DocFields(file.value.pages, textIn)
  {
    if file.None? {
      return [];
    }
    var pages := file.value.pages;
    fields := [];
    for p := 0 to |pages|
      invariant fields == DocFields(pages[..p], textIn)
    {
      assert pages[..p + 1][..p] == pages[..p];
      var pageFields := ExtractPageFields(pages[p], p, textIn);
      fields := fields + pageFields;
    }
    assert pages[..|pages|] == pages;
  }

  /** The inner loop of `extract_fields_from_pdf`, over the widgets of page `p`. */
  method ExtractPageFields(ws: seq<Widget>, p: nat, textIn: (nat, Rect) -> string)
    returns (fields: seq<ExtractedField>)
    ensures fields == PageFields(ws, p, textIn)
  {
    fields := [];
    for j := 0 to |ws|
      invariant fields == PageFields(ws[..j], p, textIn)
    {
      assert ws[..j + 1][..j] == ws[..j];
      var w := ws[j];
      if w.name.None? || w.name.value == "" {
        continue;
      }
      var text := Strip(textIn(p, LeftOf(w.rect)));
      if text == "" {
        text := Strip(textIn(p, Above(w.rect)));
      }
      var labelText := if text != "" then text else w.name.value;
      fields := fields + [ExtractedField(w.name.value, labelText)];
    }
    assert ws[..|ws|] == ws;
  }

  /** Every extracted field carries a non-empty name and label, and names a
      widget of the document: nothing is invented. */
  lemma {:induction false} ExtractedFieldsAreNamedWidgets(pages: seq<seq<Widget>>, textIn: (nat, Rect) -> string,
                                                          k: nat)
    requires k < |DocFields(pages, textIn)|
    ensures DocFields(pages, textIn)[k].fieldName != "" && DocFields(pages, textIn)[k].labelText != ""
    ensures exists p, j :: 0 <= p < |pages| && 0 <= j < |pages[p]|
              && pages[p][j].name == Some(DocFields(pages, textIn)[k].fieldName)
  {
    var pre := pages[..|pages| - 1];
    var last := |pages| - 1;
    if k < |DocFields(pre, textIn)| {
      ExtractedFieldsAreNamedWidgets(pre, textIn, k);
      var p, j :| 0 <= p < |pre| && 0 <= j < |pre[p]| && pre[p][j].name == Some(DocFields(pre, textIn)[k].fieldName);
      assert pages[p] == pre[p];
    } else {
      var j := PageFieldFromWidget(pages[last], last, textIn, k - |DocFields(pre, textIn)|);
    }
  }

  lemma {:induction false} PageFieldFromWidget(ws: seq<Widget>, p: nat, textIn: (nat, Rect) -> string, k: nat)
    returns (j: nat)
    requires k < |PageFields(ws, p, textIn)|
    ensures j < |ws| && ws[j].name == Some(PageFields(ws, p, textIn)[k].fieldName)
    ensures PageFields(ws, p, textIn)[k].fieldName != "" && PageFields(ws, p, textIn)[k].labelText != ""
  {
    var pre := ws[..|ws| - 1];
    if k < |PageFields(pre, p, textIn)| {
      j := PageFieldFromWidget(pre, p, textIn, k);
    } else {
      j := |ws| - 1;
    }
  }

  /** Every widget with a non-empty name yields exactly one field: the number
      of fields of a page is the number of such widgets. */
  lemma {:induction false} PageFieldCount(ws: seq<Widget>, p: nat, textIn: (nat, Rect) -> string)
    ensures |PageFields(ws, p, textIn)| == NamedCount(ws)
  {
    if ws != [] {
      PageFieldCount(ws[..|ws| - 1], p, textIn);
      PageFieldsGrow(ws, p, textIn);
      NamedCountLast(ws);
    }
  }

  lemma NamedCountLast(ws: seq<Widget>)
    requires ws != []
    ensures NamedCount(ws) == NamedCount(ws[..|ws| - 1]) + (if Named(ws[|ws| - 1]) then 1 else 0)
  {
    NamedCountAppend(ws[..|ws| - 1], ws[|ws| - 1]);
    assert ws[..|ws| - 1] + [ws[|ws| - 1]] == ws;
  }

  /** The last widget adds a field exactly when it is named. */
  lemma PageFieldsGrow(ws: seq<Widget>, p: nat, textIn: (nat, Rect) -> string)
    requires ws != []
    ensures |PageFields(ws, p, textIn)|
            == |PageFields(ws[..|ws| - 1], p, textIn)| + (if Named(ws[|ws| - 1]) then 1 else 0)
  {
    var e := ExtractedOf(ws[|ws| - 1], p, textIn);
    assert e.Some? <==> Named(ws[|ws| - 1]);
  }

  predicate Named(w: Widget) {
    w.name.Some? && w.name.value != ""
  }

  /** The number of widgets with a non-empty name, counted from the front. */
  function NamedCount(ws: seq<Widget>): nat {
    if ws == [] then 0 else (if Named(ws[0]) then 1 else 0) + NamedCount(ws[1..])
  }

  lemma {:induction false} NamedCountAppend(ws: seq<Widget>, w: Widget)
    ensures NamedCount(ws + [w]) == NamedCount(ws) + (if Named(w) then 1 else 0)
  {
    if ws != [] {
      assert (ws + [w])[1..] == ws[1..] + [w];
      NamedCountAppend(ws[1..], w);
    }
  }

  /** A page whose widgets are all nameless contributes nothing; a document
      without pages yields no fields. */
  lemma NoNamesNoFields(ws: seq<Widget>, p: nat, textIn: (nat, Rect) -> string)
    requires forall j :: 0 <= j < |ws| ==> !Named(ws[j])
    ensures PageFields(ws, p, textIn) == []
    ensures DocFields([], textIn) == []
  {
    PageFieldCount(ws, p, textIn);
    NoNamesCountZero(ws);
  }

  lemma {:induction false} NoNamesCountZero(ws: seq<Widget>)
    requires forall j :: 0 <= j < |ws| ==> !Named(ws[j])
    ensures NamedCount(ws) == 0
  {
    if ws != [] {
      NoNamesCountZero(ws[1..]);
    }
  }

  // ---------------------------------------------------------------- fill

  /** Whether `fill_pdf_fields` touches this widget: its name is a key of the values. */
  predicate Matches(w: Widget, values: map<string, string>) {
    w.name.Some? && w.name.value in values
  }

  /** The size a filled widget is given and its stamped text is drawn with. */
  function EffectiveFontSize(current: Option<real>): (fs: real)
    ensures fs != 0.0
    ensures current.None? || current.value == 0.0 ==> fs == DEFAULT_FONT_SIZE
    ensures current.Some? && current.value != 0.0 ==> fs == current.value
  {
    if current.None? || current.value == 0.0 then DEFAULT_FONT_SIZE else current.value
  }

  /** PyMuPDF's rectangle height, which is never negative. */
  function Height(r: Rect): (h: real)
    ensures h >= 0.0
    ensures r.y1 >= r.y0 ==> h == r.y1 - r.y0
  {
    if r.y1 >= r.y0 then r.y1 - r.y0 else 0.0
  }

  /** The widget after filling: the value set, the font size fixed, the text black. */
  function FillWidget(w: Widget, values: map<string, string>): (v: Widget)
    ensures !Matches(w, values) ==> v == w
    ensures Matches(w, values) ==>
              v.name == w.name && v.rect == w.rect && v.value == Some(values[w.name.value])
              && v.fontSize == Some(EffectiveFontSize(w.fontSize)) && v.textColor == BLACK
  {
    if Matches(w, values) then
      w.(value := Some(values[w.name.value]), fontSize := Some(EffectiveFontSize(w.fontSize)),
         textColor := BLACK)
    else w
  }

  /** The text stamped for a matched widget on page `p`: two points in from
      the left edge, a third of the font size below the vertical middle. */
  function StampFor(w: Widget, p: nat, values: map<string, string>): (d: Drawing)
    requires Matches(w, values)
    ensures d.page == p && d.text == values[w.name.value]
    ensures d.x == w.rect.x0 + 2.0
    ensures d.y == w.rect.y0 + Height(w.rect) / 2.0 + EffectiveFontSize(w.fontSize) / 3.0
    ensures d.fontSize == EffectiveFontSize(w.fontSize) && d.fontSize != 0.0
  {
    var fs := EffectiveFontSize(w.fontSize);
    Drawing(p, w.rect.x0 + 2.0, w.rect.y0 + Height(w.rect) / 2.0 + fs / 3.0, values[w.name.value], fs)
  }

  function FilledPage(ws: seq<Widget>, values: map<string, string>): (r: seq<Widget>)
    ensures |r| == |ws| && forall j :: 0 <= j < |ws| ==> r[j] == FillWidget(ws[j], values)
  {
    seq(|ws|, j requires 0 <= j < |ws| => FillWidget(ws[j], values))
  }

  function FilledDoc(pages: seq<seq<Widget>>, values: map<string, string>): (r: seq<seq<Widget>>)
    ensures |r| == |pages| && forall p :: 0 <= p < |pages| ==> r[p] == FilledPage(pages[p], values)
  {
    seq(|pages|, p requires 0 <= p < |pages| => FilledPage(pages[p], values))
  }

  /** The stamps for the widgets of page `p`, in widget order. */
  function PageStamps(ws: seq<Widget>, p: nat, values: map<string, string>): seq<Drawing>
  {
    if ws == [] then []
    else
      var pre := PageStamps(ws[..|ws| - 1], p, values);
      var w := ws[|ws| - 1];
      if Matches(w, values) then pre + [StampFor(w, p, values)] else pre
  }

  function DocStamps(pages: seq<seq<Widget>>, values: map<string, string>): seq<Drawing>
  {
    if pages == [] then []
    else DocStamps(pages[..|pages| - 1], values) + PageStamps(pages[|pages| - 1], |pages| - 1, values)
  }

  /** `fill_pdf_fields(pdf_path, values)`: `file` is None when the stored file
      cannot be opened, in which case the error is passed on to the caller. */
  method FillPdfFields(file: Option<Document>, values: map<string, string>)
    returns (r: Result<FillOutput, string>)
    ensures file.None? <==> r.Err?
    ensures file.Some? ==>
              r == Ok(FillOutput(Document(FilledDoc(file.value.pages, values)),
                                 DocStamps(file.value.pages, values),
                                 |DocStamps(file.value.pages, values)|))
  {
    if file.None? {
      return Err("cannot open document");
    }
    var pages := file.value.pages;
    var newPages: seq<seq<Widget>> := [];
    var drawings: seq<Drawing> := [];
    var filledCount: nat := 0;
    for p := 0 to |pages|
      invariant newPages == FilledDoc(pages[..p], values)
      invariant drawings == DocStamps(pages[..p], values)
      invariant filledCount == |drawings|
    {
      FillStep(pages, values, p);
      var newWs, stamps := FillPage(pages[p], p, values);
      newPages := newPages + [newWs];
      drawings := drawings + stamps;
      filledCount := filledCount + |stamps|;
    }
    assert pages[..|pages|] == pages;
    return Ok(FillOutput(Document(newPages), drawings, filledCount));
  }

  /** Filling one more page appends its filled widgets and its stamps. */
  lemma FillStep(pages: seq<seq<Widget>>, values: map<string, string>, p: nat)
    requires p < |pages|
    ensures FilledDoc(pages[..p + 1], values) == FilledDoc(pages[..p], values) + [FilledPage(pages[p], values)]
    ensures DocStamps(pages[..p + 1], values) == DocStamps(pages[..p], values) + PageStamps(pages[p], p, values)
  {
    assert pages[..p + 1][..p] == pages[..p];
  }

  /** The inner loop of `fill_pdf_fields` over the widgets of page `p`: the
      filled widgets and the text stamped on the page, in widget order. */
  method FillPage(ws: seq<Widget>, p: nat, values: map<string, string>)
    returns (newWs: seq<Widget>, stamps: seq<Drawing>)
    ensures newWs == FilledPage(ws, values)
    ensures stamps == PageStamps(ws, p, values)
  {
    newWs := [];
    stamps := [];
    for j := 0 to |ws|
      invariant newWs == FilledPage(ws[..j], values)
      invariant stamps == PageStamps(ws[..j], p, values)
    {
      assert ws[..j + 1][..j] == ws[..j];
      var w := ws[j];
      if w.name.Some? && w.name.value in values {
        var value := values[w.name.value];
        var fontSize := if w.fontSize.None? || w.fontSize.value == 0.0 then DEFAULT_FONT_SIZE else w.fontSize.value;
        newWs := newWs + [w.(value := Some(value), fontSize := Some(fontSize), textColor := BLACK)];
        var textX := w.rect.x0 + 2.0;
        var textY := w.rect.y0 + Height(w.rect) / 2.0 + fontSize / 3.0;
        stamps := stamps + [Drawing(p, textX, textY, value, fontSize)];
      } else {
        newWs := newWs + [w];
      }
    }
    assert ws[..|ws|] == ws;
  }

  /** Every matched widget is stamped once, duplicates of a name included: the
      count of stamps on a page is the number of matched widgets. */
  lemma {:induction false} PageStampCount(ws: seq<Widget>, p: nat, values: map<string, string>)
    ensures |PageStamps(ws, p, values)| == MatchCount(ws, values)
  {
    if ws != [] {
      PageStampCount(ws[..|ws| - 1], p, values);
      MatchCountAppend(ws[..|ws| - 1], ws[|ws| - 1], values);
      assert ws[..|ws| - 1] + [ws[|ws| - 1]] == ws;
    }
  }

  /** The number of matched widgets, counted from the front. */
  function MatchCount(ws: seq<Widget>, values: map<string, string>): nat {
    if ws == [] then 0 else (if Matches(ws[0], values) then 1 else 0) + MatchCount(ws[1..], values)
  }

  lemma {:induction false} MatchCountAppend(ws: seq<Widget>, w: Widget, values: map<string, string>)
    ensures MatchCount(ws + [w], values) == MatchCount(ws, values) + (if Matches(w, values) then 1 else 0)
  {
    if ws != [] {
      assert (ws + [w])[1..] == ws[1..] + [w];
      MatchCountAppend(ws[1..], w, values);
    }
  }

  /** Every stamp shows one of the supplied values, on an existing page, at a
      non-zero font size. */
  lemma {:induction false} StampsShowSuppliedValues(pages: seq<seq<Widget>>, values: map<string, string>, k: nat)
    requires k < |DocStamps(pages, values)|
    ensures DocStamps(pages, values)[k].text in values.Values
    ensures DocStamps(pages, values)[k].page < |pages|
    ensures DocStamps(pages, values)[k].fontSize != 0.0
  {
    var pre := pages[..|pages| - 1];
    if k < |DocStamps(pre, values)| {
      StampsShowSuppliedValues(pre, values, k);
    } else {
      PageStampShowsValue(pages[|pages| - 1], |pages| - 1, values, k - |DocStamps(pre, values)|);
    }
  }

  lemma {:induction false} PageStampShowsValue(ws: seq<Widget>, p: nat, values: map<string, string>, k: nat)
    requires k < |PageStamps(ws, p, values)|
    ensures PageStamps(ws, p, values)[k].text in values.Values
    ensures PageStamps(ws, p, values)[k].page == p
    ensures PageStamps(ws, p, values)[k].fontSize != 0.0
  {
    var pre := ws[..|ws| - 1];
    if k < |PageStamps(pre, p, values)| {
      PageStampShowsValue(pre, p, values, k);
    }
  }

  /** When no widget name is a key of the values (the case `fill_pdf_fields`
      warns about), the document is returned unchanged and nothing is stamped. */
  lemma {:induction false} NoMatchLeavesDocumentAlone(pages: seq<seq<Widget>>, values: map<string, string>)
    requires forall p, j :: 0 <= p < |pages| && 0 <= j < |pages[p]| ==> !Matches(pages[p][j], values)
    ensures FilledDoc(pages, values) == pages
    ensures DocStamps(pages, values) == []
  {
    if pages != [] {
      var pre := pages[..|pages| - 1];
      NoMatchLeavesDocumentAlone(pre, values);
      NoMatchNoPageStamps(pages[|pages| - 1], |pages| - 1, values);
    }
    forall p | 0 <= p < |pages|
      ensures FilledPage(pages[p], values) == pages[p]
    {
    }
  }

  lemma {:induction false} NoMatchNoPageStamps(ws: seq<Widget>, p: nat, values: map<string, string>)
    requires forall j :: 0 <= j < |ws| ==> !Matches(ws[j], values)
    ensures PageStamps(ws, p, values) == []
  {
    if ws != [] {
      NoMatchNoPageStamps(ws[..|ws| - 1], p, values);
    }
  }

  /** Two widgets sharing the name "Name" with a value for it are both filled
      and both stamped, with a default font size where theirs was zero. */
  lemma DuplicateNamesBothFilled(r1: Rect, r2: Rect)
    ensures var ws := [Widget(Some("Name"), r1, Some(0.0), None, Color(1.0, 0.0, 0.0)),
                       Widget(Some("Name"), r2, Some(12.0), None, BLACK)];
            var values := map["Name" := "Jane"];
            |PageStamps(ws, 0, values)| == 2
            && FilledPage(ws, values)[0].value == Some("Jane")
            && FilledPage(ws, values)[1].value == Some("Jane")
            && FilledPage(ws, values)[0].fontSize == Some(DEFAULT_FONT_SIZE)
            && FilledPage(ws, values)[1].fontSize == Some(12.0)
  {
    var ws := [Widget(Some("Name"), r1, Some(0.0), None, Color(1.0, 0.0, 0.0)),
               Widget(Some("Name"), r2, Some(12.0), None, BLACK)];
    var values := map["Name" := "Jane"];
    PageStampCount(ws, 0, values);
    assert ws[1..] == [ws[1]];
    assert MatchCount(ws[1..], values) == 1;
  }
}
