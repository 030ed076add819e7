# Template import/export and focus-mode editing, modelled in Dafny

This project models the two parts of the notes application's UI layer that
contain data logic.

**Template import/export widget** (`features/templates/TemplateImportExport.jsx`).
- Export wraps the caller's template collection in an artifact
  `{version: "1.0", exportDate, templates}` and offers it as a download.
- Import reads a JSON file and takes its `templates` list. For each record, in
  order, it deletes the server-assigned keys `templateId`, `createdAt`,
  `updatedAt`, `usageCount` and `lastUsedAt`. It then waits for
  `createTemplate` on that record before moving on.
- The first failure aborts the import. Records already created stay created.
- On full success the widget shows "Imported N templates" and calls
  `onImportComplete` once.
- On every path the busy flag and the file input are reset.

**Focus-mode details dialog** (`features/focus/FocusDetailsModal.jsx`). The
dialog holds a local name and tag list. Tags are appended without a duplicate
check and removed by `tagId`. The payload carries `focusId` only in `"edit"`
mode, and the title and button label follow the mode.

Files:
- `json.dfy` (module `Json`): parsed JSON values and `Option`.
- `templates.dfy` (module `Templates`): the pure logic of the widget.
  - The artifact, the key stripping and the file name.
  - `Replay`, a recursive specification of the create loop: `accepts(n)` is
    the server's answer to its n-th create call.
  - The lemmas about `Replay`, and the toasts.
- `template_widget.dfy` (module `TemplateWidget`): the stateful parts.
  - `TemplateApi` stands for the remote create call. It logs every request
    and every stored record.
  - `TemplateImportExport` is the widget. Its fields are the two busy flags,
    the file input's value, the reads in flight, and an ordered log of
    effects (toasts, log lines, downloads, completion callbacks).
  - `SubmitAll` is the create loop, proved against `Replay`.
- `focus.dfy` (module `Focus`): the tag-list functions, their lemmas, and
  the `FocusDetails` dialog class.

Five things are inputs to the model instead of being computed:
- The outcome of `JSON.parse` is an `Option<Value>`, where None means the
  text is not JSON.
- The two clock reads are parameters.
- The server's answer to each create call is fixed in advance. `accepts(n)`
  says whether the n-th call resolves, and `TemplateApi` logs the requests
  and the stored records.
- Whether creating or clicking the download link throws is a parameter.
- Whether the caller's `onImportComplete` throws is a parameter. If it does,
  the `catch` at lines 71-73 runs after it, so the "Imported N" toast is
  followed by a log line and the failure toast.

Corner cases of the import that the model keeps:
- A JSON string is iterable, so a string-valued `templates` sends one create
  call per character (line 58).
- A `null` record makes `delete` throw before its create call (line 60).
  That aborts the import like a rejected create. Records of any other
  non-object kind are sent unchanged.
- The code deletes keys from the parsed objects in place (lines 60-64).
  Nothing else refers to them, so the model computes the stripped value.

## Model

| member | source | states |
|---|---|---|
| Templates.ExportArtifact | features/templates/TemplateImportExport.jsx:15-19 | The artifact has exactly the keys `version`, `exportDate` and `templates`. `version` is "1.0". Import reads back exactly the caller's collection, unchanged. |
| Templates.ExportFileName | features/templates/TemplateImportExport.jsx:27 | The download name starts with `templates-export-` and ends with `.json`. |
| Templates.ExportFileNamesDiffer | features/templates/TemplateImportExport.jsx:27 | Exports at two different clock values get different file names. |
| Templates.NatToString | features/templates/TemplateImportExport.jsx:27 | The decimal text of `${Date.now()}` (line 27) and `${templatesToImport.length}` (line 69): all digits, denoting exactly n (read back by `DecimalValue`), with no leading zero except for 0 itself, and two or more digits exactly from 10 on. |
| Templates.NatToStringInjective | features/templates/TemplateImportExport.jsx:69 | Two different numbers never print as the same decimal text, because the text denotes the number. |
| Templates.Iterate | features/templates/TemplateImportExport.jsx:58 | `for..of` walks an array's elements or a string's characters. Any other value cannot be iterated. |
| Templates.TemplatesToImport | features/templates/TemplateImportExport.jsx:54-58 | The record list exists exactly when the parse succeeded, the document is an object, and its `templates` is an array or a string. For an array it is that array. |
| Templates.Payload | features/templates/TemplateImportExport.jsx:59-64 | An object loses exactly the five server keys and keeps every other key and value. Any other value is unchanged. |
| Templates.PayloadIdempotent | features/templates/TemplateImportExport.jsx:59-64 | Stripping an already-stripped record changes nothing. |
| Templates.StripServerKeys | features/templates/TemplateImportExport.jsx:60-64 | The five deletes fail exactly on `null`. Otherwise they yield `Payload` of the record. |
| Templates.Replay | features/templates/TemplateImportExport.jsx:58-67 | The sequential `for..of` loop with one awaited create per record, stopping at the first null record or rejected call. It creates no more than it submits and submits no more than there are records. A completed run created every record. |
| Templates.ReplayInOrder | features/templates/TemplateImportExport.jsx:58-67 | Create call j carries the stripped record j. Created payloads are a prefix of submitted ones, missing at most the last. Every created record was accepted by the server. On success the two are equal. |
| Templates.ReplaySucceeds | features/templates/TemplateImportExport.jsx:58-69 | The loop completes iff every record is non-null and accepted. It then submitted and created every stripped record, in order. |
| Templates.ReplayStopsAtFirstFailure | features/templates/TemplateImportExport.jsx:58-73 | If record k is the first to fail, the import fails. Exactly records 0..k-1 were created, record k was submitted only if non-null, and nothing after k was submitted. |
| Templates.ReplaySubmitsNoServerKeys | features/templates/TemplateImportExport.jsx:59-66 | No payload sent to create contains a server-assigned key. |
| Templates.ImportRun | features/templates/TemplateImportExport.jsx:54-58 | When the file cannot be read as a record list, nothing is submitted and the import fails. |
| Templates.ExportImportRoundTrip | features/templates/TemplateImportExport.jsx:15-67 | Export then import, with every call accepted, submits and creates the stripped collection in its original order. |
| Templates.NoticeText | features/templates/TemplateImportExport.jsx:32-73 | The four toast texts: "Templates exported successfully" (line 32), "Failed to export templates" (line 35), "Imported N templates" (line 69) and "Failed to import templates" (line 73). Each is non-empty. |
| Templates.NoticeTextsDiffer | features/templates/TemplateImportExport.jsx:69-73 | Different notices have different texts, including "Imported N" for different N. |
| Templates.ImportEffects | features/templates/TemplateImportExport.jsx:69-73 | On success: "Imported N", with N the number of records created, then one completion callback. If that callback throws, a log line and the "Failed to import" toast follow it. On failure of the import itself: one log line and one "Failed to import" toast, with no callback. |
| TemplateWidget.TemplateApi.CreateTemplate | features/templates/TemplateImportExport.jsx:66 | The payload is recorded as received and is stored only if the server accepts that call. |
| TemplateWidget.TemplateImportExport.constructor | features/templates/TemplateImportExport.jsx:6-9 | The widget starts with both flags false, an empty input and no effects. |
| TemplateWidget.TemplateImportExport.Export | features/templates/TemplateImportExport.jsx:11-39 | On success the artifact of the unchanged collection is downloaded under the timed name, then the success toast. On failure a log line, then the failure toast. `isExporting` ends false either way. |
| TemplateWidget.TemplateImportExport.FileChange | features/templates/TemplateImportExport.jsx:45-51 | With no file nothing changes. With a file the widget becomes busy and one read starts. |
| TemplateWidget.TemplateImportExport.OnLoad | features/templates/TemplateImportExport.jsx:52-79 | The server's requests and stored records grow by exactly `ImportRun`'s. The effects are `ImportEffects`, including a throwing completion callback. `isImporting` ends false and the input `""` on every path. |
| TemplateWidget.SubmitAll | features/templates/TemplateImportExport.jsx:58-67 | The sequential loop makes exactly `Replay`'s calls, in order. It reports failure iff `Replay` fails. |
| Focus.WithTag | features/focus/FocusDetailsModal.jsx:26-28 | The tag goes at the end and the list grows by one. Earlier tags are unchanged. The multiset gains the tag even when it is already present. |
| Focus.WithoutTag | features/focus/FocusDetailsModal.jsx:30-32 | No tag with the id remains. A list without that id is returned unchanged. |
| Focus.WithoutTagKeepsOthers | features/focus/FocusDetailsModal.jsx:30-32 | Every tag with another id keeps its multiplicity. |
| Focus.WithoutTagKeepsOrder | features/focus/FocusDetailsModal.jsx:30-32 | The remaining tags keep their relative order (a subsequence). |
| Focus.RemoveUndoesAdd | features/focus/FocusDetailsModal.jsx:26-32 | Removing a just-added tag whose id was absent restores the list. |
| Focus.Labels | features/focus/FocusDetailsModal.jsx:63-66 | Mode "edit" gives "Edit Focus"/"Update". Any other mode gives "Create Focus"/"Create". |
| Focus.FocusDetails.constructor | features/focus/FocusDetailsModal.jsx:10-11 | Name and tags come from the given focus mode, or are `""` and `[]` when none is given. |
| Focus.FocusDetails.ChangeName | features/focus/FocusDetailsModal.jsx:22-24 | The name becomes the input's value. The tags are unchanged. |
| Focus.FocusDetails.AddTag | features/focus/FocusDetailsModal.jsx:26-28 | The tags become `WithTag` of the old tags. The name is unchanged. |
| Focus.FocusDetails.RemoveTag | features/focus/FocusDetailsModal.jsx:30-32 | The tags become `WithoutTag` of the old tags, by the removed tag's id. |
| Focus.FocusDetails.BuildPayload | features/focus/FocusDetailsModal.jsx:37-46 | The payload has the current name and tags. It carries `focusId` exactly when the button reads "Update", and then it is the edited mode's id. Edit mode with no focus mode throws. |

## Left out

- Text handling by `JSON.parse`/`JSON.stringify` (lines 21 and 54) is library behaviour. Parsing is an `Option<Value>` input, and export records the artifact value instead of its text. Numbers are reals, not doubles, and object key order is not kept.
- File delivery and reading are browser I/O: `Blob`, `URL.createObjectURL`, the anchor click (lines 22-28) and `FileReader` (lines 51, 81). A download that throws is an input flag.
- A read error is not modelled. No `onerror` handler exists, so in that case `onload` never runs and `isImporting` would stay true.
- The object URL that is never revoked (line 30) is a resource-leak concern outside this functional model.
- The clock reads `new Date().toISOString()` and `Date.now()` (lines 17, 27) are parameters.
- `showToast` and `console.error` are entries in the effect log. Their rendering and the error objects are not modelled.
- Export: `showToast` is taken never to throw. If the success toast at line 32 threw, the `catch` would add a log line and the failure toast after it; that case is not modelled.
- ImportEffects: `showToast` is taken never to throw. If the "Imported N" toast at line 69 threw, the callback would be skipped and the `catch` would add a log line and the failure toast; that case is not modelled.
- `ApiClient.createTemplate` is reduced to an accept/reject answer per call, fixed in advance. Its transport and returned record are not modelled.
- Asynchronous scheduling and re-rendering are not modelled. Each `await` is a call that returns before the next statement.
- `handleImportClick` (lines 41-43) only clicks the hidden input, which is a DOM action.
- The widget's button labels and disabled states (lines 88-108) are rendering.
- ImportEffects: for a string-valued `templates`, the source's "Imported N" count is the string's UTF-16 length. The model uses its character count, which differs only for characters outside the Basic Multilingual Plane.
- The focus dialog's request promise handling, `closeModal`, `navigateTo`, `window.location.reload` and backdrop clicks (`features/focus/FocusDetailsModal.jsx` lines 16-20, 49-61) are navigation and DOM side effects.
- `features/tags/tags_model.go` is not part of this model. Its filtering and ordering happen in SQL inside SQLite.
- `features/tags/TagDetailModal.jsx` and `commons/components/Input.jsx` are not part of this model. They are view glue with no logic beyond a two-field payload.
