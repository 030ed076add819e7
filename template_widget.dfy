/** The template import/export widget as a stateful component: its two busy
    flags, the value of its hidden file input, the reads it has started, and
    the ordered log of what it has shown or called. The remote create call is
    a separate object whose answers are fixed in advance. */
module TemplateWidget {
  import opened Json
  import opened Templates

  /** The remote `createTemplate` call. `accepts(n)` is the outcome (resolve
      or reject) of the n-th call the server receives; `requests` is every
      payload it has received and `stored` every payload it has created. */
  class TemplateApi {
    const accepts: nat -> bool
    var requests: seq<Value>
    var stored: seq<Value>

    constructor (accepts: nat -> bool, stored: seq<Value>)
      ensures this.accepts == accepts && requests == [] && this.stored == stored
    {
      this.accepts := accepts;
      requests := [];
      this.stored := stored;
    }

    /** One create call: the payload is received and, if the server accepts
        it, stored; `ok` is false when the call rejects. */
    method CreateTemplate(payload: Value) returns (ok: bool)
      modifies this
      ensures requests == old(requests) + [payload]
      ensures ok == accepts(|old(requests)|)
      ensures stored == old(stored) + (if ok then [payload] else [])
    {
      ok := accepts(|requests|);
      requests := requests + [payload];
      if ok {
        stored := stored + [payload];
      }
    }
  }

  class TemplateImportExport {
    /** The `templates` property the caller passes in. */
    var templates: seq<Value>
    var isExporting: bool
    var isImporting: bool
    /** The value of the hidden `<input type="file">`. */
    var fileInputValue: string
    /** File reads started whose `onload` has not run yet. */
    var pendingReads: nat
    /** Toasts, diagnostic log lines, downloads and completion callbacks, in
        the order they happened. */
    var effects: seq<Effect>

    /** The widget as first rendered: both flags false. */
    constructor (templates: seq<Value>)
      ensures this.templates == templates
      ensures !isExporting && !isImporting && fileInputValue == ""
      ensures pendingReads == 0 && effects == []
    {
      this.templates := templates;
      isExporting, isImporting := false, false;
      fileInputValue := "";
      pendingReads := 0;
      effects := [];
    }

    /** The export button's handler. `exportDate` and `millis` are the two
        clock reads; `deliveryFails` says whether creating the file or
        triggering its download throws. On success the artifact built from the
        collection is downloaded and the success toast follows; on failure a
        log line and the failure toast. Either way the busy flag ends false
        and the collection is left as it was. */
    method Export(exportDate: string, millis: nat, deliveryFails: bool)
      modifies this
      ensures !isExporting
      ensures templates == old(templates)
      ensures isImporting == old(isImporting) && fileInputValue == old(fileInputValue)
      ensures pendingReads == old(pendingReads)
      ensures !deliveryFails ==>
        effects == old(effects) + [Downloaded(ExportFileName(millis), ExportArtifact(templates, exportDate)), Toast(Exported)]
      ensures deliveryFails ==> effects == old(effects) + [Logged("Export error:"), Toast(ExportFailed)]
    {
      isExporting := true;
      var artifact := ExportArtifact(templates, exportDate);
      if deliveryFails {
        effects := effects + [Logged("Export error:")];
        effects := effects + [Toast(ExportFailed)];
      } else {
        effects := effects + [Downloaded(ExportFileName(millis), artifact)];
        effects := effects + [Toast(Exported)];
      }
      isExporting := false;
    }

    /** The file input's change handler. `file` is the chosen file's name,
        which the browser has placed in the input, or None when no file was
        chosen: then nothing changes. Otherwise the widget becomes busy and
        starts reading the file. */
    method FileChange(file: Option<string>)
      modifies this
      ensures file.None? ==>
        isImporting == old(isImporting) && fileInputValue == old(fileInputValue) && pendingReads == old(pendingReads)
      ensures file.Some? ==> isImporting && fileInputValue == file.value && pendingReads == old(pendingReads) + 1
      ensures templates == old(templates) && isExporting == old(isExporting) && effects == old(effects)
    {
      if file.None? {
        return;
      }
      fileInputValue := file.value;
      isImporting := true;
      pendingReads := pendingReads + 1;
    }

    /** The reader's `onload`: `parsed` is the outcome of parsing the file's
        text (None when it is not JSON), and `completionThrows` says whether
        the caller's `onImportComplete` throws when called. The server ends
        up holding exactly the payloads `ImportRun` creates; the toasts, log
        lines and completion callback are those of `ImportEffects`; on every
        path the busy flag ends false and the file input is cleared. */
    method OnLoad(parsed: Option<Value>, api: TemplateApi, completionThrows: bool)
      requires pendingReads > 0
      modifies this, api
      ensures var r := ImportRun(parsed, api.accepts, |old(api.requests)|);
        api.requests == old(api.requests) + r.submitted && api.stored == old(api.stored) + r.created
      ensures effects == old(effects) + ImportEffects(parsed, api.accepts, |old(api.requests)|, completionThrows)
      ensures !isImporting && fileInputValue == "" && pendingReads == old(pendingReads) - 1
      ensures templates == old(templates) && isExporting == old(isExporting)
    {
      var found := TemplatesToImport(parsed);
      var failed := true;
      if found.Some? {
        failed := SubmitAll(found.value, api);
      }
      if !failed {
        ReplaySucceeds(found.value, api.accepts, |old(api.requests)|);
        effects := effects + [Toast(Imported(|found.value|))];
        effects := effects + [ImportCompleted];
        if completionThrows {
          effects := effects + [Logged("Import error:")];
          effects := effects + [Toast(ImportFailed)];
        }
      } else {
        effects := effects + [Logged("Import error:")];
        effects := effects + [Toast(ImportFailed)];
      }
      isImporting := false;
      fileInputValue := "";
      pendingReads := pendingReads - 1;
    }
  }

  /** The `for..of` loop of `onload`: the records are stripped and submitted
      one at a time, each only after the previous one was created, and the
      first record that cannot be stripped or is rejected ends the loop. The
      calls made are exactly those of `Replay`. */
  method SubmitAll(items: seq<Value>, api: TemplateApi) returns (failed: bool)
    modifies api
    ensures var r := Replay(items, api.accepts, |old(api.requests)|);
      && failed == !r.ok
      && api.requests == old(api.requests) + r.submitted
      && api.stored == old(api.stored) + r.created
  {
    var next := |api.requests|;
    var i := 0;
    while i < |items|
      invariant 0 <= i <= |items|
      invariant forall j :: 0 <= j < i ==> Accepted(items, api.accepts, next, j)
      invariant api.requests == old(api.requests) + Payloads(items[..i])
      invariant api.stored == old(api.stored) + Payloads(items[..i])
    {
      var payload := StripServerKeys(items[i]);
      if payload.None? {
        ReplayStopsAtFirstFailure(items, api.accepts, next, i);
        return true;
      }
      var ok := api.CreateTemplate(payload.value);
      if !ok {
        ReplayStopsAtFirstFailure(items, api.accepts, next, i);
        return true;
      }
      assert Payloads(items[..i + 1]) == Payloads(items[..i]) + [payload.value];
      i := i + 1;
    }
    assert items[..i] == items;
    ReplaySucceeds(items, api.accepts, next);
    return false;
  }
}
