/** The data logic of the template import/export widget: the exported
    artifact, the stripping of server-assigned keys, the sequential replay
    of create calls with abort on the first failure, and the notices the
    widget shows. The widget's state lives in template_widget.dfy. */
module Templates {
  import opened Json

  /** The format marker written into every exported artifact. */
  const FormatVersion: string := "1.0"

  /** The keys the server assigns; import deletes them before each create. */
  const ServerKeys: set<string> := {"templateId", "createdAt", "updatedAt", "usageCount", "lastUsedAt"}

  // ---------------------------------------------------------------------
  // Export

  /** The object literal `{version, exportDate, templates}` that export
      serialises. The caller's collection goes in verbatim, and it is exactly
      what import reads back out of the artifact. */
  function ExportArtifact(templates: seq<Value>, exportDate: string): (a: Value)
    ensures a.Obj? && a.fields.Keys == {"version", "exportDate", "templates"}
    ensures a.fields["version"] == Str(FormatVersion)
    ensures a.fields["exportDate"] == Str(exportDate)
    ensures TemplatesToImport(Some(a)) == Some(templates)
  {
    Obj(map["version" := Str(FormatVersion), "exportDate" := Str(exportDate), "templates" := Arr(templates)])
  }

  /** Decimal digits of a natural number, as a template literal prints it
      (for values below 10^21, where the host language has not yet switched to
      exponent notation; clock values and list lengths stay far below that,
      and `Date.now()` is taken to be non-negative). */
  function NatToString(n: nat): (s: string)
    ensures |s| >= 1
    ensures forall i :: 0 <= i < |s| ==> '0' <= s[i] <= '9'
    ensures DecimalValue(s) == n
    ensures s[0] == '0' ==> n == 0
    ensures n >= 10 <==> |s| >= 2
    decreases n
  {
    if n < 10 then [Digit(n)] else NatToString(n / 10) + [Digit(n % 10)]
  }

  function Digit(d: nat): (c: char)
    requires d < 10
    ensures '0' <= c <= '9' && c as int - '0' as int == d
  {
    ['0', '1', '2', '3', '4', '5', '6', '7', '8', '9'][d]
  }

  /** The number a string of decimal digits denotes, most significant digit
      first. */
  function DecimalValue(s: string): nat
    requires forall i :: 0 <= i < |s| ==> '0' <= s[i] <= '9'
    decreases |s|
  {
    if s == [] then 0 else 10 * DecimalValue(s[..|s| - 1]) + (s[|s| - 1] as int - '0' as int)
  }

  /** Two different numbers never print the same: the text determines the
      number it was printed from. */
  lemma NatToStringInjective(a: nat, b: nat)
    requires NatToString(a) == NatToString(b)
    ensures a == b
  {
    assert a == DecimalValue(NatToString(a)) == DecimalValue(NatToString(b)) == b;
  }

  /** The download name `templates-export-<millis>.json`. */
  function ExportFileName(millis: nat): (name: string)
    ensures |name| >= 23
    ensures name[..17] == "templates-export-" && name[|name| - 5..] == ".json"
  {
    "templates-export-" + NatToString(millis) + ".json"
  }

  /** The clock value in the download name keeps the names of two exports
      made at different instants apart. */
  lemma ExportFileNamesDiffer(a: nat, b: nat)
    requires a != b
    ensures ExportFileName(a) != ExportFileName(b)
  {
    var x, y := ExportFileName(a), ExportFileName(b);
    assert x[17..|x| - 5] == NatToString(a);
    assert y[17..|y| - 5] == NatToString(b);
    if x == y {
      NatToStringInjective(a, b);
    }
  }

  // ---------------------------------------------------------------------
  // Import: reading the artifact

  /** What `for..of` walks over: an array's elements, or a string's
      characters one at a time (strings are iterable in the host language);
      any other value is not iterable. */
  function Iterate(v: Value): (r: Option<seq<Value>>)
    ensures r.Some? <==> v.Arr? || v.Str?
    ensures v.Arr? ==> r == Some(v.items)
    ensures v.Str? ==> r.Some? && |r.value| == |v.s|
    ensures v.Str? ==> forall i :: 0 <= i < |v.s| ==> r.value[i] == Str([v.s[i]])
  {
    match v
    case Arr(xs) => Some(xs)
    case Str(s) => Some(seq(|s|, i requires 0 <= i < |s| => Str([s[i]])))
    case _ => None
  }

  /** `importData.templates`, ready for iteration, where `parsed` is the
      outcome of parsing the file (None when the text is not JSON). None means
      the import throws before any create call: the parse failed, the document
      is null, or its `templates` is missing or not iterable. */
  function TemplatesToImport(parsed: Option<Value>): (r: Option<seq<Value>>)
    ensures r.Some? <==>
      && parsed.Some? && parsed.value.Obj? && "templates" in parsed.value.fields
      && (parsed.value.fields["templates"].Arr? || parsed.value.fields["templates"].Str?)
    ensures r.Some? && parsed.value.fields["templates"].Arr? ==> r.value == parsed.value.fields["templates"].items
  {
    match parsed
    case None => None
    case Some(doc) =>
      if doc.Obj? && "templates" in doc.fields then Iterate(doc.fields["templates"]) else None
  }

  // ---------------------------------------------------------------------
  // Import: stripping server-assigned keys

  /** The record as submitted to create: an object loses every server key and
      keeps every other key with its value; deleting a key of any other value
      (a number, a string, an array) changes nothing. */
  function Payload(v: Value): (p: Value)
    ensures p.Obj? <==> v.Obj?
    ensures v.Obj? ==> p.fields.Keys == v.fields.Keys - ServerKeys
    ensures v.Obj? ==> forall k :: k in p.fields ==> p.fields[k] == v.fields[k]
    ensures !v.Obj? ==> p == v
  {
    if v.Obj? then Obj(v.fields - ServerKeys) else v
  }

  /** Stripping a record that is already stripped changes nothing. */
  lemma PayloadIdempotent(v: Value)
    ensures Payload(Payload(v)) == Payload(v)
  {
  }

  /** The five `delete` statements run on one record, in order. A record that
      is `null` makes the first of them throw, reported as None. */
  method StripServerKeys(v: Value) returns (p: Option<Value>)
    ensures v.Null? <==> p.None?
    ensures p.Some? ==> p.value == Payload(v)
  {
    if v.Null? {
      return None;
    }
    if !v.Obj? {
      return Some(v);
    }
    var fields := v.fields;
    fields := fields - {"templateId"};
    fields := fields - {"createdAt"};
    fields := fields - {"updatedAt"};
    fields := fields - {"usageCount"};
    fields := fields - {"lastUsedAt"};
    assert fields == v.fields - ServerKeys;
    p := Some(Obj(fields));
  }

  /** The payloads of all records, in order. */
  function Payloads(items: seq<Value>): (ps: seq<Value>)
    ensures |ps| == |items|
  {
    seq(|items|, j requires 0 <= j < |items| => Payload(items[j]))
  }

  // ---------------------------------------------------------------------
  // Import: the sequential create loop

  /** What one import did against the server: every payload submitted to
      create, in call order; the payloads the server accepted; and whether the
      loop ran to the end. */
  datatype Run = Run(submitted: seq<Value>, created: seq<Value>, ok: bool)

  function PrependAll(ps: seq<Value>, r: Run): Run
  {
    Run(ps + r.submitted, ps + r.created, r.ok)
  }

  /** Record j goes through: it is not null (so its keys can be deleted) and
      the server accepts create call number `next + j`. */
  predicate Accepted(items: seq<Value>, accepts: nat -> bool, next: nat, j: nat)
    requires j < |items|
  {
    !items[j].Null? && accepts(next + j)
  }

  /** The `for..of` loop over the records, one awaited create call at a time.
      `accepts(n)` is the server's answer to the n-th create call it receives,
      and `next` is the number of create calls made before this loop. */
  function Replay(items: seq<Value>, accepts: nat -> bool, next: nat): (r: Run)
    ensures |r.created| <= |r.submitted| <= |items|
    ensures r.ok ==> |r.created| == |items|
    decreases |items|
  {
    if items == [] then Run([], [], true)
    else if items[0].Null? then Run([], [], false)
    else if !accepts(next) then Run([Payload(items[0])], [], false)
    else PrependAll([Payload(items[0])], Replay(items[1..], accepts, next + 1))
  }

  /** Creates follow artifact order: call j carries the stripped record j,
      the accepted payloads are a prefix of the submitted ones that misses at
      most the last, and every accepted one was accepted by the server. */
  lemma {:induction false} ReplayInOrder(items: seq<Value>, accepts: nat -> bool, next: nat)
    ensures var r := Replay(items, accepts, next);
      && |r.submitted| <= |items|
      && (forall j :: 0 <= j < |r.submitted| ==> r.submitted[j] == Payload(items[j]))
      && |r.created| <= |r.submitted| <= |r.created| + 1
      && r.created == r.submitted[..|r.created|]
      && (forall j :: 0 <= j < |r.created| ==> Accepted(items, accepts, next, j))
      && (r.ok ==> r.created == r.submitted)
    decreases |items|
  {
    if items != [] && !items[0].Null? && accepts(next) {
      ReplayInOrder(items[1..], accepts, next + 1);
      var rest := Replay(items[1..], accepts, next + 1);
      forall j | 0 <= j < |rest.created| + 1
        ensures Accepted(items, accepts, next, j)
      {
        if j > 0 {
          assert Accepted(items[1..], accepts, next + 1, j - 1);
        }
      }
    }
  }

  /** The loop completes exactly when every record goes through, and then
      every record was submitted and created, stripped, in order. */
  lemma {:induction false} ReplaySucceeds(items: seq<Value>, accepts: nat -> bool, next: nat)
    ensures var r := Replay(items, accepts, next);
      r.ok <==> forall j :: 0 <= j < |items| ==> Accepted(items, accepts, next, j)
    ensures var r := Replay(items, accepts, next);
      r.ok ==> r.submitted == Payloads(items) && r.created == Payloads(items)
    decreases |items|
  {
    if items != [] {
      if items[0].Null? || !accepts(next) {
        assert !Accepted(items, accepts, next, 0);
      } else {
        ReplaySucceeds(items[1..], accepts, next + 1);
        var r := Replay(items, accepts, next);
        if forall j :: 0 <= j < |items| ==> Accepted(items, accepts, next, j) {
          var tail, next' := items[1..], next + 1;
          forall j | 0 <= j < |tail|
            ensures Accepted(tail, accepts, next', j)
          {
            assert Accepted(items, accepts, next, j + 1);
          }
          assert Payloads(items) == [Payload(items[0])] + Payloads(items[1..]);
        } else {
          var k :| 0 <= k < |items| && !Accepted(items, accepts, next, k);
          assert k > 0 && !Accepted(items[1..], accepts, next + 1, k - 1);
        }
      }
    }
  }

  /** Abort on the first failure: if record k is the first that does not go
      through, records before k were submitted and created, record k was
      submitted only if it is not null, and nothing after k was submitted. */
  lemma {:induction false} ReplayStopsAtFirstFailure(items: seq<Value>, accepts: nat -> bool, next: nat, k: nat)
    requires k < |items|
    requires forall j :: 0 <= j < k ==> Accepted(items, accepts, next, j)
    requires !Accepted(items, accepts, next, k)
    ensures var r := Replay(items, accepts, next);
      && !r.ok
      && r.created == Payloads(items[..k])
      && r.submitted == r.created + (if items[k].Null? then [] else [Payload(items[k])])
    decreases k
  {
    if k == 0 {
      assert items[..0] == [];
    } else {
      assert Accepted(items, accepts, next, 0);
      var tail, next' := items[1..], next + 1;
      forall j | 0 <= j < k - 1
        ensures Accepted(tail, accepts, next', j)
      {
        assert Accepted(items, accepts, next, j + 1);
      }
      ReplayStopsAtFirstFailure(items[1..], accepts, next + 1, k - 1);
      assert Payloads(items[..k]) == [Payload(items[0])] + Payloads(items[1..][..k - 1]);
    }
  }

  /** No payload that reaches the server carries a server-assigned key. */
  lemma {:induction false} ReplaySubmitsNoServerKeys(items: seq<Value>, accepts: nat -> bool, next: nat)
    ensures var r := Replay(items, accepts, next);
      forall j :: 0 <= j < |r.submitted| && r.submitted[j].Obj? ==> r.submitted[j].fields.Keys !! ServerKeys
  {
    ReplayInOrder(items, accepts, next);
  }

  /** The whole import against the server: nothing is submitted when the
      artifact cannot be read; otherwise the create loop runs. */
  function ImportRun(parsed: Option<Value>, accepts: nat -> bool, next: nat): (r: Run)
    ensures TemplatesToImport(parsed).None? ==> r == Run([], [], false)
  {
    match TemplatesToImport(parsed)
    case None => Run([], [], false)
    case Some(items) => Replay(items, accepts, next)
  }

  /** Exporting a collection and importing the artifact submits and creates
      every record of the collection, stripped, in its original order, when
      the server accepts every call. */
  lemma ExportImportRoundTrip(templates: seq<Value>, exportDate: string, accepts: nat -> bool, next: nat)
    requires forall j :: 0 <= j < |templates| ==> templates[j] != Null && accepts(next + j)
    ensures ImportRun(Some(ExportArtifact(templates, exportDate)), accepts, next)
         == Run(Payloads(templates), Payloads(templates), true)
  {
    forall j | 0 <= j < |templates| ensures Accepted(templates, accepts, next, j) {
    }
    ReplaySucceeds(templates, accepts, next);
  }

  // ---------------------------------------------------------------------
  // Notices and other effects

  /** The toasts the widget shows. */
  datatype Notice = Exported | ExportFailed | Imported(count: nat) | ImportFailed

  /** What the widget does that the caller or the user can observe, in order:
      a toast, a diagnostic log line, a file download, or a call to the
      `onImportComplete` callback. */
  datatype Effect =
    | Toast(notice: Notice)
    | Logged(context: string)
    | Downloaded(fileName: string, artifact: Value)
    | ImportCompleted

  /** The text of each toast. */
  function NoticeText(n: Notice): (text: string)
    ensures |text| > 0
  {
    match n
    case Exported => "Templates exported successfully"
    case ExportFailed => "Failed to export templates"
    case Imported(c) => "Imported " + NatToString(c) + " templates"
    case ImportFailed => "Failed to import templates"
  }

  /** No two notices read the same, so the user can tell every outcome, and
      every import count, apart from the toast alone. */
  lemma NoticeTextsDiffer(m: Notice, n: Notice)
    requires m != n
    ensures NoticeText(m) != NoticeText(n)
  {
    var x, y := NoticeText(m), NoticeText(n);
    if m.Imported? && n.Imported? {
      assert x[9..|x| - 10] == NatToString(m.count);
      assert y[9..|y| - 10] == NatToString(n.count);
    } else if (m.ExportFailed? && n.ImportFailed?) || (m.ImportFailed? && n.ExportFailed?) {
      assert x[10] != y[10];
    } else {
      assert x[0] != y[0];
    }
  }

  /** The effects of the import once the file is read. On success the
      "Imported N" toast, where N is the number of records created, then
      exactly one call of the caller's completion callback. If that callback
      throws (`completionThrows`), the same `catch` as for a failed record
      runs after it: a log line and the failure toast. On any failure of the
      import itself, one log line and the failure toast, and no callback. */
  function ImportEffects(parsed: Option<Value>, accepts: nat -> bool, next: nat, completionThrows: bool): (e: seq<Effect>)
    ensures var r := ImportRun(parsed, accepts, next);
      r.ok && !completionThrows ==> e == [Toast(Imported(|r.created|)), ImportCompleted]
    ensures var r := ImportRun(parsed, accepts, next);
      r.ok && completionThrows ==>
        e == [Toast(Imported(|r.created|)), ImportCompleted, Logged("Import error:"), Toast(ImportFailed)]
    ensures var r := ImportRun(parsed, accepts, next);
      !r.ok ==> e == [Logged("Import error:"), Toast(ImportFailed)]
  {
    var r := ImportRun(parsed, accepts, next);
    match TemplatesToImport(parsed)
    case None => [Logged("Import error:"), Toast(ImportFailed)]
    case Some(items) =>
      if r.ok then
        ReplaySucceeds(items, accepts, next);
        [Toast(Imported(|items|)), ImportCompleted]
          + (if completionThrows then [Logged("Import error:"), Toast(ImportFailed)] else [])
      else [Logged("Import error:"), Toast(ImportFailed)]
  }
}
