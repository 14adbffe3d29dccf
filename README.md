# PDF form auto-fill: field mapping lifecycle

This project is a Dafny model of the core of a PDF form auto-fill service.
The service receives PDF templates per tenant. For each form field it guesses
a nearby label. A fixed rule table maps that label either to a graph-database
property (`graphdb`) or to manual entry (`manual`). When a form is opened,
locked graph fields are filled from the graph. Every submission counts one
more confirmation for each unlocked graph field, and a field locks once its
count reaches the template's threshold (2 by default). An administrator can
switch a field between the two sources.

Modules, one per source file:

- `Base` (base.dfy): `Option` and `Result`.
- `Text` (text.dfy): the string operations the resolver relies on. These are
  ASCII `upper()`, Python's `strip()` with its ASCII white space (including
  `\x1c`-`\x1f`), and substring search (`key in label`).
- `Mapping` (mapping.dfy): `suggest_mapping` with its 16-entry ordered rule
  table. The table is resolved as a recursive first match: an exact key
  first, then the first key in table order that is a substring.
- `Models` (models.dfy): the `Template` and `FieldMapping` records and their
  column defaults. It also holds the invariants every stored row keeps, and
  the store itself. The store is a `Database` class whose `templates` table
  is reassigned by the endpoints; its `files` map holds the upload directory.
- `Pdf` (pdf.dfy): field extraction and form filling over an abstract
  document, which is a sequence of pages, each a sequence of widgets. The
  text found inside a clip rectangle of a page is a function parameter.
- `Graph` (graph.dfy): the `GraphService` object. It has the fixed stub
  table and the live lookup with its skip rules. The live query is a
  function parameter.
- `Forms` (forms.dfy): `open_form` (the partition of fields, and auto-fill
  only when some field is locked) and `submit_form` (the confirmation/lock
  step, committed before the PDF is filled).
- `Templates` (templates.dfy): `create_template` (per-tenant dedup, a
  global unique hash, and seeding through the resolver) and
  `update_mapping` (overrides, all-or-nothing).

Behaviour of the code that the model keeps:

- The source value for graph-backed fields is the string `"graphdb"`.
- Field names are not unique within a template. Extraction does not
  de-duplicate, and lookups by name take the first match.
- A fill that matches nothing only prints a warning. The model has no
  warning result for it.

## Model

| member | source | states |
|---|---|---|
| Text.UpperChar | app/services/mapping_service.py:6 | `upper()` turns a lower-case ASCII letter into its capital, 32 code points lower, and leaves every other character alone; no lower-case letter comes out |
| Text.Upper | app/services/mapping_service.py:6 | `upper()` keeps the length and maps each character on its own |
| Text.UpperOfLower | app/services/mapping_service.py:6 | upper-casing forgets any earlier lower-casing, so case never matters after normalisation |
| Text.Strip | app/services/mapping_service.py:6 | `strip()` returns a string with no white space at either end, no longer than its input, and empty exactly when the input is all white space |
| Text.StripIsSlice | app/services/mapping_service.py:6 | what `strip()` keeps is the slice of the input between a run of leading and a run of trailing white space |
| Text.StripIgnoresPadding | app/services/mapping_service.py:6 | white space added around a string is removed again by `strip()` |
| Text.Contains | app/services/mapping_service.py:35 | `key in label` holds exactly when the key occurs at some position of the label |
| Text.ContainsSelf | app/services/mapping_service.py:35 | every string contains itself, so an exact key is also a substring hit |
| Mapping.Rules | app/services/mapping_service.py:9-26 | the rule table: the 16 (key, entity type, property name) entries of the dictionary literal, in insertion order |
| Mapping.RuleKeysDistinct | app/services/mapping_service.py:9-26 | the 16 keys of the rule table are pairwise distinct, so dict order and exact lookup agree |
| Mapping.KeyShape | app/services/mapping_service.py:9-26 | each key's length and first letter already single out its position in the table |
| Mapping.Normalize | app/services/mapping_service.py:6 | the label upper-cased and stripped, never longer than the label |
| Mapping.NormalizedIsTrimmed | app/services/mapping_service.py:6 | the normalised label has no white space at either end and no lower-case ASCII letter |
| Mapping.ExactIndexSpec | app/services/mapping_service.py:29-31 | the exact scan finds the first rule whose key equals the label, and none exactly when no key does |
| Mapping.FirstContainedIndexSpec | app/services/mapping_service.py:34-36 | the substring scan finds the first rule in table order whose key occurs in the label, and none exactly when no key does |
| Mapping.Resolve | app/services/mapping_service.py:28-38 | for any ordered table the source is graphdb or manual; it is graphdb exactly when entity and property are both set, and manual exactly when both are null |
| Mapping.ResolveIsRuleOrManual | app/services/mapping_service.py:28-38 | for any ordered table the answer is the manual triple or the pair of one of its rules |
| Mapping.SuggestMapping | app/services/mapping_service.py:1-38 | the resolver is total and its source is graphdb or manual; graphdb comes with both entity and property set, manual with both null |
| Mapping.SuggestionIsRuleOrManual | app/services/mapping_service.py:1-38 | every label yields the manual triple or the pair of one of the 16 table rules |
| Mapping.ExactKeyResolves | app/services/mapping_service.py:29-31 | with distinct keys, a label equal to a key resolves to that key's pair, even if earlier keys are substrings of it |
| Mapping.ExactMatchWins | app/services/mapping_service.py:29-31 | a label whose normalised form equals the key of rule i gets rule i's pair |
| Mapping.FirstContainedResolves | app/services/mapping_service.py:34-36 | with no exact key, the first key in table order that is a substring decides the answer |
| Mapping.FirstSubstringWins | app/services/mapping_service.py:34-36 | with no exact key, a label whose first contained key is rule i gets rule i's pair |
| Mapping.ManualIffNoKeyContained | app/services/mapping_service.py:33-38 | the answer is manual exactly when no key is a substring of the normalised label |
| Mapping.NoKeyMeansManual | app/services/mapping_service.py:33-38 | a label containing none of the keys gets the manual triple |
| Mapping.IgnoresCase | app/services/mapping_service.py:6 | a label and its lower-cased form resolve alike |
| Mapping.IgnoresPadding | app/services/mapping_service.py:6 | white space around a label does not change its resolution |
| Mapping.EmailAddressResolves | app/services/mapping_service.py:29-31 | "Email Address" resolves to (graphdb, Person, email) |
| Mapping.LowerCaseEmailResolves | app/services/mapping_service.py:6 | "email address" resolves to (graphdb, Person, email) too |
| Mapping.PaddedLowerCaseEmailResolves | app/services/mapping_service.py:6 | "  email address " resolves like "EMAIL ADDRESS" |
| Mapping.FavoriteColorIsManual | app/services/mapping_service.py:33-38 | "Favorite Color" contains no key and is manual |
| Mapping.ParentAddressExactBeatsEarlierSubstring | app/services/mapping_service.py:20-31 | "PARENT ADDRESS" gives Parent.address although the earlier key "ADDRESS" is a substring of it |
| Mapping.EmployeeIdNumberFirstKeyWins | app/services/mapping_service.py:34-36 | "EMPLOYEE ID NUMBER" gives Person.id_number through "ID NUMBER", not Employee through "EMPLOYEE ID" |
| Mapping.ParentAddressLineTableOrderWins | app/services/mapping_service.py:34-36 | "PARENT ADDRESS LINE 1" contains "PARENT ADDRESS" yet resolves to Person.address through the earlier "ADDRESS" |
| Models.NewFieldMapping | app/models.py:22-28 | a new row carries the resolver's triple and starts with count 0, unlocked |
| Models.Database.constructor | app/models.py:5-15 | an empty store keeps the table invariants: ids in insertion order, unique template hashes, every row consistent |
| Models.FindTemplate | app/routers/forms.py:27-29 | a lookup by id finds the first row with that id, or reports that none has it |
| Models.FindTemplateById | app/models.py:8 | with ids assigned from 1 in order, id n is row n-1 and ids outside the table are not found |
| Pdf.LeftOf | app/services/pdf_service.py:24 | the left search area ends at the field's left edge, is 150 wide and spans the field's height |
| Pdf.Above | app/services/pdf_service.py:29 | the upper search area ends at the field's top, is 20 high and spans the field's width |
| Pdf.ExtractedOf | app/services/pdf_service.py:17-32 | a widget yields an entry exactly when its name is non-empty; the label is the stripped left text, else the stripped text above, else the name, and is never empty |
| Pdf.ExtractPageFields | app/services/pdf_service.py:16-37 | the inner loop builds the page's entries in widget order |
| Pdf.ExtractFields | app/services/pdf_service.py:4-43 | entries come page by page, then widget by widget; a file that does not open gives the empty list |
| Pdf.ExtractedFieldsAreNamedWidgets | app/services/pdf_service.py:13-37 | every entry has a non-empty name and label and names a widget of the document |
| Pdf.PageFieldCount | app/services/pdf_service.py:16-37 | a page yields exactly one entry per named widget, with no de-duplication |
| Pdf.NoNamesNoFields | app/services/pdf_service.py:17-19 | a page of nameless widgets yields nothing, and a document without pages yields no fields |
| Pdf.EffectiveFontSize | app/services/pdf_service.py:72-78 | the size is 10 when the widget has none or zero, and otherwise the widget's own size; it is never zero |
| Pdf.Height | app/services/pdf_service.py:90 | a rectangle's height is never negative and is y1-y0 for a well-formed rectangle |
| Pdf.FillWidget | app/services/pdf_service.py:59-84 | only a widget whose name is a key of the values is touched; it gets that value, the effective font size and black text, and keeps its name and position |
| Pdf.StampFor | app/services/pdf_service.py:86-99 | the stamped text is the value, drawn on the widget's page at (x0+2, y0+height/2+size/3) in the effective font size, which is never zero |
| Pdf.FilledPage | app/services/pdf_service.py:59-84 | every widget of a page is filled or left exactly as it was |
| Pdf.FilledDoc | app/services/pdf_service.py:56-84 | the page count is kept and each page is filled widget by widget |
| Pdf.FillPage | app/services/pdf_service.py:59-101 | the inner loop fills a page's widgets and stamps its matched widgets, in widget order |
| Pdf.FillPdfFields | app/services/pdf_service.py:45-124 | a stored file that does not open is an error; otherwise the result is the filled document, the stamps in page and widget order, and a count equal to the number of stamps |
| Pdf.PageStampCount | app/services/pdf_service.py:101 | the count is the number of matched widgets, so a repeated name counts once per widget |
| Pdf.StampsShowSuppliedValues | app/services/pdf_service.py:93-99 | every stamp shows one of the supplied values on an existing page at a non-zero size |
| Pdf.NoMatchLeavesDocumentAlone | app/services/pdf_service.py:104-118 | when no name matches, the document comes back unchanged and nothing is stamped |
| Pdf.DuplicateNamesBothFilled | app/services/pdf_service.py:59-101 | two widgets sharing a name are both filled and both stamped; one of size zero gets size 10 |
| Graph.MockValue | app/services/graph_service.py:86-108 | the stub answers only when both entity type and property are given, and never with an empty value |
| Graph.MockAnswersExactlyListedPairs | app/services/graph_service.py:86-108 | the stub answers exactly for the nine listed (entity, property) pairs |
| Graph.MockSampleValues | app/services/graph_service.py:93-108 | (Person, email) gives "john.doe@example.com", (Employee, employee_id) gives "EMP-2024-001", and there are nine pairs |
| Graph.MockDataKeys | app/services/graph_service.py:80-108 | a field name is in the stub's result exactly when some mapping with that name has a listed pair |
| Graph.MockDataLastWins | app/services/graph_service.py:80-108 | for a repeated field name, the last mapping with a listed pair sets the value |
| Graph.GetMockData | app/services/graph_service.py:73-110 | the stub loop builds exactly the results described by the fold over the mappings |
| Graph.LiveStep | app/services/graph_service.py:46-66 | a mapping with a missing or empty entity or property, or whose `<entity lower>_id` key is absent, is skipped without a query; otherwise a raising query aborts the pass, and only a record with a truthy value is stored, with that record's value |
| Graph.LiveFailsIffSomeQueryRaises | app/services/graph_service.py:44-69 | the live pass is abandoned exactly when some query raises |
| Graph.LiveResultKeys | app/services/graph_service.py:45-66 | without a raise, a field name is in the live result exactly when a mapping with that name was queried and returned a truthy value |
| Graph.FetchKeysAreFieldNames | app/services/graph_service.py:27-71 | on every path, each key of the result is the field name of some mapping |
| Graph.ResolverPairsAreMocked | app/services/graph_service.py:86-108 | every graph pair the resolver can assign has a stub value |
| Graph.GraphService.constructor | app/services/graph_service.py:9-21 | the service has a driver exactly when connecting succeeded |
| Graph.GraphService.FetchValues | app/services/graph_service.py:27-71 | without a driver, the result is the stub's; with one, it is the live results, or the stub for all mappings once a query raised |
| Forms.Confirm | app/routers/forms.py:103-112 | a submission changes only an unlocked graph field, raising its count by one and locking it exactly when the new count reaches the threshold; names, labels, source and graph columns never change |
| Forms.ConfirmAll | app/routers/forms.py:103-112 | every field of the template takes one confirmation step, in place and in order |
| Forms.ConfirmIsMonotone | app/routers/forms.py:103-112 | counts never decrease, rise by at most one per submission, and a lock is never undone |
| Forms.ConfirmKeepsFieldOk | app/routers/forms.py:104-109 | a submission keeps source consistency and the lock invariant (locked means count equals threshold, unlocked means below it); no count passes the threshold |
| Forms.ConfirmTimesClosedForm | app/routers/forms.py:104-109 | after n submissions a fresh graph field has count min(n, threshold) and is locked exactly when n reaches the threshold |
| Forms.DefaultThresholdLocksOnSecondSubmit | app/routers/forms.py:104-109 | with threshold 2 a fresh field goes to (1, unlocked), then (2, locked), then stays there |
| Forms.ConfirmAllKeepsTemplateOk | app/routers/forms.py:103-114 | a submission keeps every field of a template consistent |
| Forms.FilledName | app/routers/forms.py:128 | the download is named "filled_" + template name + ".pdf" |
| Forms.SubmitForm | app/routers/forms.py:84-135 | an unknown id is an error that changes nothing; otherwise the confirmations are stored first, then a missing file or a failing fill is an error while the counts stay stored, and success returns the filled document with the text stamped on its pages and the download name; the store invariants hold throughout |
| Forms.SplitSizes | app/routers/forms.py:42-63 | the manual, pending and to-fetch lists together with the fields of other sources account for every field once; the locked count is the length of the to-fetch list |
| Forms.KnownSourcesAllListed | app/routers/forms.py:42-63 | in a consistent template every field has its entry in one of the three lists, and the lists together hold exactly as many entries as there are fields |
| Forms.ManualAreListed | app/routers/forms.py:43-47 | every manual field is listed for hand entry with its name and label |
| Forms.ManualListedAreManual | app/routers/forms.py:43-47 | every hand-entry entry comes from a manual field |
| Forms.UnlockedArePending | app/routers/forms.py:57-63 | every unlocked graph field is offered for confirmation with its name, label and count |
| Forms.ToFetchAreLockedFields | app/routers/forms.py:49-56 | everything handed to the graph lookup is a locked graph field's (entity, property, name) |
| Forms.LockedFieldsAreFetched | app/routers/forms.py:49-56 | every locked graph field is handed to the graph lookup |
| Forms.PendingAreUnlockedGraphFields | app/routers/forms.py:57-63 | every entry offered for confirmation comes from an unlocked graph field, with its count, and is never flagged locked |
| Forms.PartitionFields | app/routers/forms.py:36-63 | the partition loop builds the three lists in template order |
| Forms.AutoFill | app/routers/forms.py:65-70 | with no locked field the graph is not consulted and nothing is filled; every filled key names a fetched field |
| Forms.OpenForm | app/routers/forms.py:18-82 | an unknown id is an error; otherwise the response carries the partition and the graph's values for the locked fields |
| Forms.AutoFilledAreLockedFields | app/routers/forms.py:65-70 | every auto-filled value belongs to a locked graph field of the template |
| Forms.LockedFieldWithoutRecordIsOmitted | app/routers/forms.py:42-82 | when the live pass goes through and a locked field's query finds no record, that field (if its name is unique) gets no auto-filled value and is in neither the manual nor the pending list |
| Templates.UploadPath | app/routers/templates.py:50 | an upload is stored as uploaded_pdfs/<hash>.pdf |
| Templates.UploadPathInjective | app/routers/templates.py:50 | distinct hashes get distinct paths |
| Templates.ChosenName | app/routers/templates.py:64 | the template name is the supplied one unless it is missing or empty, else the upload's filename |
| Templates.FindExisting | app/routers/templates.py:40-43 | the dedup lookup finds the first row of this tenant with this hash, or reports that none exists |
| Templates.Seed | app/routers/templates.py:74-85 | seeding produces one row per extracted field; row j is field j's name and label with the resolver's triple for that label, count 0 and unlocked |
| Templates.SeedIsOk | app/routers/templates.py:74-85 | every seeded row is consistent and satisfies the lock invariant under any positive threshold |
| Templates.SeedFollowsResolver | app/routers/templates.py:75 | a seeded row is graph-sourced exactly when some key occurs in its normalised label |
| Templates.SeedMappings | app/routers/templates.py:73-88 | the seeding loop builds exactly the seeded rows, in extraction order |
| Templates.CreateTemplate | app/routers/templates.py:21-99 | a repeat upload by the same tenant returns the existing row and changes nothing; otherwise the file is written. The same hash under another tenant then fails on the unique column. A new hash appends a row with the next id, threshold 2, the chosen name, the upload path and the seeded fields |
| Templates.FindField | app/routers/templates.py:125-128 | the override looks up the first field with the given name |
| Templates.Override | app/routers/templates.py:131-149 | switching to graphdb fails exactly when the suggestion has no entity; any override keeps name, label, count and lock, and keeps a consistent field consistent |
| Templates.ApplyUpdate | app/routers/templates.py:124-151 | one entry keeps the number of fields, every name, label, count and lock, and keeps consistent fields consistent |
| Templates.ApplyUpdates | app/routers/templates.py:124-151 | a successful request keeps the number of fields, every name, label, count and lock, and keeps consistent fields consistent |
| Templates.FindFieldSameNames | app/routers/templates.py:125-128 | the lookup by name depends only on the field names, so overrides do not move it |
| Templates.OverrideFields | app/routers/templates.py:124-151 | the override loop computes exactly the fold of the entries, stopping at the first failure |
| Templates.UpdatesKeepFieldsOk | app/routers/templates.py:124-151 | overrides keep every field consistent and its lock invariant |
| Templates.ManualOverrideClears | app/routers/templates.py:131-135 | switching a present field to manual always succeeds, clears its graph columns and leaves all other fields alone |
| Templates.GraphOverrideFollowsResolver | app/routers/templates.py:137-149 | switching to graphdb fails, naming the label, exactly when the resolver gives manual; otherwise it stores the resolver's entity and property |
| Templates.IgnoredUpdatesChangeNothing | app/routers/templates.py:130-151 | an entry naming no field, or with an unknown source, changes nothing |
| Templates.OverrideRoundTrip | app/routers/templates.py:131-149 | switching a graph field to manual keeps its count, and switching it back restores it exactly, lock included |
| Templates.ApplyUpdatesErrSticks | app/routers/templates.py:140-144 | once one override fails, the whole request fails with that error |
| Templates.UpdateMapping | app/routers/templates.py:111-155 | an unknown id or a failing override changes nothing; otherwise the overridden fields are stored and the store invariants hold |

## Left out

- Text.Upper: only ASCII letters are upper-cased. Python's Unicode `upper()` (for example "ß" becoming "SS") is not modelled.
- Graph.KeyField: `entity_type.lower()` is ASCII lower-casing. Unicode case mapping is not modelled.
- Text.Strip: only Python's ASCII white space is removed. Unicode white space is not modelled.
- Pdf.FillPdfFields: the values are taken as strings already. `str()` of other value types is not modelled.
- Pdf.FillPdfFields: widgets are updated in a returned document value, not in place. Aliasing between PyMuPDF widget objects is not captured.
- Pdf.FillPdfFields: the returned bytes are represented by the filled document. `widget.update()`, `insert_text` rendering, the "helv" font and the `tobytes` garbage/deflate/clean options are not modelled.
- Pdf.FillPdfFields: failures raised after the file opened (by `widget.update()`, `insert_text` or `tobytes`, re-raised at lines 120-124) are not modelled. The model fails only when the file does not open, so `submit_form` reporting such a failure after the counts were committed is not captured.
- Pdf.FillPdfFields: the warning printed when nothing matched (lines 104-106) has no counterpart. It only prints, and the count of zero is visible in the result.
- Pdf.ExtractFields: PyMuPDF parsing and `get_text` clipping are a text-in-rectangle parameter. Any parse failure is the single case "does not open", which yields the empty list.
- Pdf.Height: taken as PyMuPDF's non-negative rectangle height. Positions use exact real arithmetic, not floating point.
- Graph.GraphService.FetchValues: the Neo4j driver, session, and Cypher query text are not modelled. The query is a parameter. A record value is a string or null, so numeric and boolean values are not modelled.
- Graph.GraphService: `close()` is not modelled. It only releases the driver.
- Templates.CreateTemplate: the SHA-256 digest is an input, assumed to identify the content. Write failures of the upload directory and other unexpected exceptions are not modelled.
- Forms.SubmitForm: a stored file that disappears between requests is not modelled. The `files` map changes only when an upload is written.
- HTTP status codes, FastAPI routing, Pydantic request validation, response headers other than the download file name, and app wiring are not modelled. Failures are an error result.
- SQLAlchemy sessions, commit, refresh and autoflush are not modelled. The store is an in-memory sequence. `.first()` is the first match in table order, and a failed request commits nothing.
- The `get_template_fields` endpoint (a read-only lookup) and the `diagnose_pdf_fields` endpoint (a read-only dump through PyMuPDF) are not modelled.
- The unused `existing_manual_values` request field is not modelled.
- Logging and `print` output are not modelled.
- Concurrent submissions racing on `confirm_count` are not modelled. The model is sequential.
