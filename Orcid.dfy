/** The ORCID works endpoint of the Flask backend: `safe_get` and the
    mapping of each group of the upstream ORCID response to one work
    record. Python exceptions raised by unexpected JSON shapes are part of
    the result. */
module Orcid {

  import opened PyValues

  /** A decoded JSON value (numbers kept as integers). */
  datatype Json = JNull | JBool(b: bool) | JNum(n: int) | JStr(s: string) | JArr(items: seq<Json>) | JObj(fields: map<string, Json>)

  /** A Python evaluation: a value, or an exception. */
  datatype Py<+T> = Ok(value: T) | Raised(error: PyError) {
    predicate IsFailure() { Raised? }
    function PropagateFailure<U>(): Py<U>
      requires Raised?
    {
      Raised(error)
    }
    function Extract(): T
      requires Ok?
    {
      value
    }
  }

  const OK_STATUS := 200
  const NO_TITLE := JStr("No title")
  const UNKNOWN_TYPE := JStr("Unknown")
  const FETCH_ERROR := "Failed to fetch researches"

  /** Python truthiness of a JSON value: `PyValues.Truthy` covers the
      scalars only, and a JSON value can also be an array or an object. */
  predicate Truthy(j: Json)
  {
    match j
    case JNull => false
    case JBool(b) => b
    case JNum(n) => n != 0
    case JStr(s) => s != ""
    case JArr(items) => items != []
    case JObj(fields) => fields != map[]
  }

  /** `j or default`. */
  function OrElse(j: Json, default: Json): (r: Json)
    ensures Truthy(j) ==> r == j
    ensures !Truthy(j) ==> r == default
  {
    if Truthy(j) then j else default
  }

  /** The member of an object, `None` when absent. */
  function Field(o: map<string, Json>, key: string): Json
  {
    if key in o then o[key] else JNull
  }

  /** `d.get(key, default)`: only objects have `get`. */
  function GetOr(d: Json, key: string, default: Json): (r: Py<Json>)
    ensures r.Ok? <==> d.JObj?
    ensures d.JObj? && key in d.fields ==> r == Ok(d.fields[key])
    ensures d.JObj? && key !in d.fields ==> r == Ok(default)
  {
    if d.JObj? then Ok(if key in d.fields then d.fields[key] else default) else Raised(AttributeError)
  }

  /** `d.get(key)`. */
  function Get(d: Json, key: string): Py<Json>
  {
    GetOr(d, key, JNull)
  }

  /** `safe_get(d, *keys)`: follow the keys in order, stopping with `None`
      as soon as the current value is `None`. */
  function Path(d: Json, keys: seq<string>): Py<Json>
    decreases |keys|
  {
    if keys == [] then Ok(d)
    else if d.JNull? then Ok(JNull)
    else
      var next :- Get(d, keys[0]);
      Path(next, keys[1..])
  }

  /** With no keys the input comes back; from `None` every lookup is `None`. */
  lemma PathBasics(d: Json, keys: seq<string>)
    ensures Path(d, []) == Ok(d)
    ensures Path(JNull, keys) == Ok(JNull)
  {
  }

  /** Following `a + b` is following `a`, then `b` from where `a` ended. */
  lemma {:induction false} PathConcat(d: Json, a: seq<string>, b: seq<string>)
    ensures Path(d, a + b) == (match Path(d, a) case Ok(v) => Path(v, b) case Raised(e) => Raised(e))
    decreases |a|
  {
    if a == [] {
      assert a + b == b;
    } else if d.JNull? {
      if b != [] {
        assert (a + b) != [];
      }
    } else {
      assert (a + b)[0] == a[0] && (a + b)[1..] == a[1..] + b;
      if Get(d, a[0]).Ok? {
        PathConcat(Get(d, a[0]).value, a[1..], b);
      }
    }
  }

  /** Over nested objects that hold every key, `safe_get` reaches the
      innermost value. */
  lemma {:induction false} PathFollowsObjects(d: Json, keys: seq<string>)
    requires HasPath(d, keys)
    ensures Path(d, keys) == Ok(Follow(d, keys))
    decreases |keys|
  {
    if keys != [] {
      PathFollowsObjects(d.fields[keys[0]], keys[1..]);
    }
  }

  predicate HasPath(d: Json, keys: seq<string>)
    decreases |keys|
  {
    keys == [] || (d.JObj? && keys[0] in d.fields && HasPath(d.fields[keys[0]], keys[1..]))
  }

  function Follow(d: Json, keys: seq<string>): Json
    requires HasPath(d, keys)
    decreases |keys|
  {
    if keys == [] then d else Follow(d.fields[keys[0]], keys[1..])
  }

  /** `safe_get`, with its loop. */
  method SafeGet(d: Json, keys: seq<string>) returns (r: Py<Json>)
    ensures r == Path(d, keys)
  {
    var current := d;
    var i := 0;
    while i < |keys|
      invariant 0 <= i <= |keys|
      invariant Path(d, keys) == Path(current, keys[i..])
    {
      if current.JNull? {
        return Ok(JNull);
      }
      var next := Get(current, keys[i]);
      if next.Raised? {
        return Raised(next.error);
      }
      assert keys[i..][1..] == keys[i + 1..];
      current := next.value;
      i := i + 1;
    }
    return Ok(current);
  }

  /** The elements a `for` loop visits. Iterating a string or an object
      yields strings, whose first `.get` raises; the model raises at once,
      which ends the computation the same way. Scalars are not iterable. */
  function Members(j: Json): (r: Py<seq<Json>>)
    ensures j.JArr? ==> r == Ok(j.items)
    ensures !Truthy(j) && !j.JNull? && !j.JBool? && !j.JNum? ==> r == Ok([])
    ensures (j.JStr? || j.JObj?) && Truthy(j) ==> r == Raised(AttributeError)
    ensures j.JNull? || j.JBool? || j.JNum? ==> r == Raised(TypeError)
  {
    match j
    case JArr(items) => Ok(items)
    case JObj(fields) => if fields == map[] then Ok([]) else Raised(AttributeError)
    case JStr(s) => if s == "" then Ok([]) else Raised(AttributeError)
    case _ => Raised(TypeError)
  }

  /** `xs[0]` on a JSON value. */
  function First(j: Json): Py<Json>
  {
    match j
    case JArr(items) => if items == [] then Raised(IndexError) else Ok(items[0])
    case JStr(s) => if s == "" then Raised(IndexError) else Ok(JStr([s[0]]))
    case JObj(_) => Raised(KeyError)
    case _ => Raised(TypeError)
  }

  /** An external id whose type is exactly "doi". */
  predicate IsDoi(ext: Json)
  {
    ext.JObj? && Field(ext.fields, "external-id-type") == JStr("doi")
  }

  /** The `next(...)` search: the `external-id-value` of the first external
      id whose type is "doi", `None` when there is none. */
  function FirstDoi(exts: seq<Json>): Py<Json>
  {
    if exts == [] then Ok(JNull)
    else
      var t :- Get(exts[0], "external-id-type");
      if t == JStr("doi") then Get(exts[0], "external-id-value") else FirstDoi(exts[1..])
  }

  /** Over external ids that are all objects, the search finds the first
      one of type "doi", and `None` when no entry has that type. */
  lemma {:induction false} FirstDoiFindsFirst(exts: seq<Json>)
    requires forall i :: 0 <= i < |exts| ==> exts[i].JObj?
    ensures (forall i :: 0 <= i < |exts| ==> !IsDoi(exts[i])) ==> FirstDoi(exts) == Ok(JNull)
    ensures forall i :: 0 <= i < |exts| && IsDoi(exts[i]) && (forall j :: 0 <= j < i ==> !IsDoi(exts[j])) ==>
      FirstDoi(exts) == Ok(Field(exts[i].fields, "external-id-value"))
  {
    if exts != [] {
      FirstDoiFindsFirst(exts[1..]);
      if !IsDoi(exts[0]) {
        forall i | 1 <= i < |exts| && IsDoi(exts[i]) && (forall j :: 0 <= j < i ==> !IsDoi(exts[j]))
          ensures FirstDoi(exts) == Ok(Field(exts[i].fields, "external-id-value"))
        {
          assert exts[1..][i - 1] == exts[i];
          assert forall j :: 0 <= j < i - 1 ==> exts[1..][j] == exts[j + 1];
        }
      }
    }
  }

  /** One work record of the response. */
  datatype Work = Work(putCode: Json, title: Json, kind: Json, year: Json, journal: Json, doi: Json, url: Json)

  /** The work record built from one work summary, fields evaluated left to
      right as in the dict literal. */
  function WorkFromSummary(summary: Json): Py<Work>
  {
    var putCode :- Get(summary, "put-code");
    var title :- Path(summary, ["title", "title", "value"]);
    var kind :- Get(summary, "type");
    var year :- Path(summary, ["publication-date", "year", "value"]);
    var journal :- Path(summary, ["journal-title", "value"]);
    var ids :- Path(summary, ["external-ids", "external-id"]);
    var exts :- Members(OrElse(ids, JArr([])));
    var doi :- FirstDoi(exts);
    var url :- Path(summary, ["url", "value"]);
    Ok(Work(putCode, OrElse(title, NO_TITLE), OrElse(kind, UNKNOWN_TYPE), year, journal, doi, url))
  }

  /** Title and type are never empty: a missing or empty title becomes
      "No title", a missing or empty type "Unknown". */
  lemma WorkDefaults(summary: Json)
    requires WorkFromSummary(summary).Ok?
    ensures var w := WorkFromSummary(summary).value;
      && Truthy(w.title) && Truthy(w.kind)
      && (Truthy(Path(summary, ["title", "title", "value"]).value) ==> w.title == Path(summary, ["title", "title", "value"]).value)
      && (!Truthy(Path(summary, ["title", "title", "value"]).value) ==> w.title == NO_TITLE)
      && (Truthy(Get(summary, "type").value) ==> w.kind == Get(summary, "type").value)
      && (!Truthy(Get(summary, "type").value) ==> w.kind == UNKNOWN_TYPE)
  {
  }

  /** Without `external-ids` the DOI is `None`. */
  lemma NoExternalIdsNoDoi(fields: map<string, Json>)
    requires "external-ids" !in fields
    requires WorkFromSummary(JObj(fields)).Ok?
    ensures WorkFromSummary(JObj(fields)).value.doi == JNull
  {
    assert Path(JObj(fields), ["external-ids", "external-id"]) == Ok(JNull);
  }

  /** The work for one group: only its first work summary is used, and a
      group without `work-summary` is mapped as an empty summary. */
  function WorkOf(group: Json): Py<Work>
  {
    var summaries :- GetOr(group, "work-summary", JArr([JObj(map[])]));
    var summary :- First(summaries);
    WorkFromSummary(summary)
  }

  /** A group without work summaries gives a work with no put code, "No
      title", "Unknown", and nothing else. */
  lemma GroupWithoutSummary(fields: map<string, Json>)
    requires "work-summary" !in fields
    ensures WorkOf(JObj(fields)) == Ok(Work(JNull, NO_TITLE, UNKNOWN_TYPE, JNull, JNull, JNull, JNull))
  {
  }

  /** Only the first work summary of a group counts. */
  lemma FirstSummaryOnly(fields: map<string, Json>, first: Json, rest: seq<Json>)
    requires "work-summary" in fields && fields["work-summary"] == JArr([first] + rest)
    ensures WorkOf(JObj(fields)) == WorkFromSummary(first)
  {
  }

  /** The works of all groups, in group order; the first exception wins. */
  function WorksOfGroups(groups: seq<Json>): Py<seq<Work>>
  {
    if groups == [] then Ok([])
    else
      var w :- WorkOf(groups[0]);
      var rest :- WorksOfGroups(groups[1..]);
      Ok([w] + rest)
  }

  /** Exactly one work per group, in group order. */
  lemma {:induction false} OneWorkPerGroup(groups: seq<Json>)
    requires WorksOfGroups(groups).Ok?
    ensures |WorksOfGroups(groups).value| == |groups|
    ensures forall i :: 0 <= i < |groups| ==> WorkOf(groups[i]) == Ok(WorksOfGroups(groups).value[i])
  {
    if groups != [] {
      OneWorkPerGroup(groups[1..]);
      var ws := WorksOfGroups(groups).value;
      assert forall i :: 1 <= i < |groups| ==> ws[i] == WorksOfGroups(groups[1..]).value[i - 1];
    }
  }

  /** What `get_works` answers: a failure naming the upstream status, or
      success with the works. */
  datatype WorksResponse = WorksFailed(error: string, status: int) | Researches(works: seq<Work>)

  /** `get_works` once the upstream response is in: any status but 200 is
      a failure; otherwise every group of `group` becomes one work. */
  function WorksOf(status: int, data: Json): Py<WorksResponse>
  {
    if status != OK_STATUS then Ok(WorksFailed(FETCH_ERROR, status))
    else
      var groupValue :- GetOr(data, "group", JArr([]));
      var groups :- Members(groupValue);
      var works :- WorksOfGroups(groups);
      Ok(Researches(works))
  }

  /** The response reports success exactly when the upstream status is
      200, and a failure carries that status. */
  lemma SuccessFlag(status: int, data: Json)
    requires WorksOf(status, data).Ok?
    ensures WorksOf(status, data).value.Researches? <==> status == OK_STATUS
    ensures WorksOf(status, data).value.WorksFailed? ==> WorksOf(status, data).value.status == status
  {
  }

  /** Prefixing works to a result that may have raised; the helper of the
      loop invariant of `GetWorks`. */
  function Prepend(ws: seq<Work>, r: Py<seq<Work>>): Py<seq<Work>>
  {
    match r
    case Ok(rest) => Ok(ws + rest)
    case Raised(e) => Raised(e)
  }

  /** Establishes the `GetWorks` loop invariant before the first group. */
  lemma PrependNothing(r: Py<seq<Work>>)
    ensures Prepend([], r) == r
  {
    if r.Ok? {
      assert [] + r.value == r.value;
    }
  }

  /** Keeps the `GetWorks` loop invariant when one work is appended. */
  lemma PrependTwice(a: seq<Work>, b: seq<Work>, r: Py<seq<Work>>)
    ensures Prepend(a, Prepend(b, r)) == Prepend(a + b, r)
  {
    if r.Ok? {
      assert a + (b + r.value) == (a + b) + r.value;
    }
  }

  /** The work for one summary, reading each nested field with `SafeGet`. */
  method BuildWork(summary: Json) returns (r: Py<Work>)
    ensures r == WorkFromSummary(summary)
  {
    var putCode := Get(summary, "put-code");
    if putCode.Raised? { return Raised(putCode.error); }
    var title := SafeGet(summary, ["title", "title", "value"]);
    if title.Raised? { return Raised(title.error); }
    // `put-code` was read, so the summary is an object and `type` reads too.
    var kind := Field(summary.fields, "type");
    var year := SafeGet(summary, ["publication-date", "year", "value"]);
    if year.Raised? { return Raised(year.error); }
    var journal := SafeGet(summary, ["journal-title", "value"]);
    if journal.Raised? { return Raised(journal.error); }
    var ids := SafeGet(summary, ["external-ids", "external-id"]);
    if ids.Raised? { return Raised(ids.error); }
    var exts := Members(OrElse(ids.value, JArr([])));
    if exts.Raised? { return Raised(exts.error); }
    var doi := FirstDoi(exts.value);
    if doi.Raised? { return Raised(doi.error); }
    var url := SafeGet(summary, ["url", "value"]);
    if url.Raised? { return Raised(url.error); }
    r := Ok(Work(putCode.value, OrElse(title.value, NO_TITLE), OrElse(kind, UNKNOWN_TYPE),
                 year.value, journal.value, doi.value, url.value));
  }

  /** `get_works`, with its loop appending one work per group. */
  method GetWorks(status: int, data: Json) returns (r: Py<WorksResponse>)
    ensures r == WorksOf(status, data)
  {
    if status != OK_STATUS {
      return Ok(WorksFailed(FETCH_ERROR, status));
    }
    var groupValue := GetOr(data, "group", JArr([]));
    if groupValue.Raised? { return Raised(groupValue.error); }
    var members := Members(groupValue.value);
    if members.Raised? { return Raised(members.error); }
    var groups := members.value;
    var works: seq<Work> := [];
    var i := 0;
    assert groups[0..] == groups;
    PrependNothing(WorksOfGroups(groups));
    while i < |groups|
      invariant 0 <= i <= |groups|
      invariant WorksOfGroups(groups) == Prepend(works, WorksOfGroups(groups[i..]))
    {
      var summaries := GetOr(groups[i], "work-summary", JArr([JObj(map[])]));
      if summaries.Raised? { return Raised(summaries.error); }
      var summary := First(summaries.value);
      if summary.Raised? { return Raised(summary.error); }
      var w := BuildWork(summary.value);
      if w.Raised? { return Raised(w.error); }
      assert groups[i..][1..] == groups[i + 1..];
      assert WorksOfGroups(groups[i..]) == Prepend([w.value], WorksOfGroups(groups[i + 1..]));
      PrependTwice(works, [w.value], WorksOfGroups(groups[i + 1..]));
      works := works + [w.value];
      i := i + 1;
    }
    assert works + [] == works;
    return Ok(Researches(works));
  }

  const SINGLE_FETCH_ERROR := "Failed to fetch work"

  /** What `get_single_work` answers: a failure naming the upstream
      status, or the upstream body passed through. */
  datatype SingleWorkResponse = SingleWorkFailed(error: string, status: int) | SingleWork(body: Json)

  /** `get_single_work` once the upstream response is in. */
  function SingleWorkOf(status: int, body: Json): (r: SingleWorkResponse)
    ensures r.SingleWork? <==> status == OK_STATUS
    ensures r.SingleWork? ==> r.body == body
    ensures r.SingleWorkFailed? ==> r == SingleWorkFailed(SINGLE_FETCH_ERROR, status)
  {
    if status != OK_STATUS then SingleWorkFailed(SINGLE_FETCH_ERROR, status) else SingleWork(body)
  }
}
