/** The schema of a batch analysis request: which bodies are accepted, every
    issue a rejected body has, and the normal form of an accepted body
    (unknown keys stripped, absent settings defaulted). Validation reports
    all issues rather than stopping at the first. */
module BatchValidation {
  import opened Common

  /** A JSON value as the request body carries it. */
  datatype Json = JNull | JBool(b: bool) | JNum(n: real) | JStr(s: string) | JArr(items: seq<Json>) | JObj(fields: map<string, Json>)

  /** One step of the path to an offending value. */
  datatype Step = Key(name: string) | Index(i: nat)

  /** A reported problem: where, which rule (Joi's error type such as
      "string.max"), and the schema's own wording for it when it has one. */
  datatype Issue = Issue(path: seq<Step>, kind: string, message: Option<string>)

  /** What a single field must be. `Text` with a non-empty `valid` list
      accepts exactly the listed strings; otherwise a non-empty string that
      passes the rules. */
  datatype Check =
    | Text(valid: seq<string>, minLen: nat, maxLen: Option<nat>, base64: bool)
    | Integer(lo: int, hi: int)
    | Boolean
    | AnyObject

  datatype Presence = Required | Optional | Default(value: Json)

  /** A key of an object schema, its check, whether it must be there, and
      the custom messages by error type. */
  datatype Entry = Entry(key: string, check: Check, presence: Presence, messages: map<string, string>)

  datatype Validation = Accepted(value: Json) | Rejected(issues: seq<Issue>)

  /** `Number.MAX_SAFE_INTEGER` */
  const MaxSafe: int := 9007199254740991

  const RequestsKey := "requests"
  const MinRequests := 1
  const MaxRequests := 100

  const RequestsMessages: map<string, string> := map[
    "array.min" := "At least 1 request is required",
    "array.max" := "Maximum 100 requests allowed in a batch",
    "any.required" := "Requests array is required"]

  /** The schema of one request of the batch. */
  const ItemSchema: seq<Entry> := [
    Entry("id", Text([], 0, Some(100), false), Optional,
          map["string.max" := "Request ID cannot exceed 100 characters"]),
    Entry("imageType", Text(["image/jpeg", "image/jpg", "image/png", "image/webp", "image/gif"], 0, None, false), Required,
          map["any.only" := "Image type must be one of: jpeg, jpg, png, webp, gif",
              "any.required" := "Image type is required"]),
    Entry("base64Data", Text([], 100, None, true), Required,
          map["string.pattern.base" := "Base64 data format is invalid",
              "string.min" := "Image data is too small (minimum 100 characters)",
              "any.required" := "Base64 data is required"]),
    Entry("prompt", Text([], 10, Some(5000), false), Optional,
          map["string.min" := "Prompt must be at least 10 characters long",
              "string.max" := "Prompt cannot exceed 5000 characters"]),
    Entry("filename", Text([], 0, Some(255), false), Optional,
          map["string.max" := "Filename cannot exceed 255 characters"]),
    Entry("priority", Text(["low", "normal", "high"], 0, None, false), Default(JStr("normal")), map[]),
    Entry("metadata", AnyObject, Optional, map[])]

  /** The settings of the batch, every key after `requests`. */
  const TopSchema: seq<Entry> := [
    Entry("model", Text(["haiku", "sonnet"], 0, None, false), Default(JStr("haiku")),
          map["any.only" := "Model must be either \"haiku\" or \"sonnet\""]),
    Entry("batchSize", Integer(1, 50), Default(JNum(20.0)),
          map["number.min" := "Batch size must be at least 1",
              "number.max" := "Batch size cannot exceed 50",
              "number.integer" := "Batch size must be an integer"]),
    Entry("enableParallelProcessing", Boolean, Default(JBool(true)), map[]),
    Entry("enableCache", Boolean, Default(JBool(true)), map[]),
    Entry("enableImageOptimization", Boolean, Default(JBool(true)), map[]),
    Entry("continueOnError", Boolean, Default(JBool(true)), map[]),
    Entry("maxRetries", Integer(0, 5), Default(JNum(3.0)), map[]),
    Entry("batchName", Text([], 0, Some(200), false), Optional, map[]),
    Entry("userId", Text([], 0, Some(100), false), Optional, map[]),
    Entry("timeoutPerRequest", Integer(5000, 120000), Default(JNum(60000.0)), map[]),
    Entry("totalTimeout", Integer(30000, 600000), Default(JNum(300000.0)), map[])]

  // ---------------------------------------------------------------- base64

  predicate Base64Char(c: char) {
    'A' <= c <= 'Z' || 'a' <= c <= 'z' || '0' <= c <= '9' || c == '+' || c == '/'
  }

  /** How many '=' the text ends with. */
  function TrailingPad(s: string): (n: nat)
    ensures n <= |s|
  {
    if s != [] && s[|s| - 1] == '=' then 1 + TrailingPad(s[..|s| - 1]) else 0
  }

  /** The trailing run of '=' is all '=' and is not preceded by another. */
  lemma {:induction false} TrailingPadProperties(s: string)
    ensures forall i :: |s| - TrailingPad(s) <= i < |s| ==> s[i] == '='
    ensures TrailingPad(s) < |s| ==> s[|s| - TrailingPad(s) - 1] != '='
  {
    if s != [] && s[|s| - 1] == '=' {
      TrailingPadProperties(s[..|s| - 1]);
    }
  }

  /** `/^[A-Za-z0-9+/]*={0,2}$/`, decided on the trailing run of '='. */
  predicate Base64Shaped(s: string) {
    TrailingPad(s) <= 2 && forall i :: 0 <= i < |s| - TrailingPad(s) ==> Base64Char(s[i])
  }

  /** The text is `k` alphabet characters followed by at most two '='. */
  predicate PatternSplit(s: string, k: int) {
    0 <= k <= |s| && |s| - k <= 2
    && (forall i :: 0 <= i < k ==> Base64Char(s[i]))
    && (forall i :: k <= i < |s| ==> s[i] == '=')
  }

  /** The decision agrees with the pattern: some split of the text into
      alphabet characters followed by at most two '='. */
  lemma Base64ShapedIsPattern(s: string)
    ensures Base64Shaped(s) <==> exists k :: PatternSplit(s, k)
  {
    TrailingPadProperties(s);
    var n := TrailingPad(s);
    if Base64Shaped(s) {
      assert PatternSplit(s, |s| - n);
    }
    if exists k :: PatternSplit(s, k) {
      var k :| PatternSplit(s, k);
      PadAtLeast(s, |s| - k);
      if n > |s| - k {
        assert s[k - 1] == '=' && Base64Char(s[k - 1]);
      }
    }
  }

  /** A text ending in m '=' has a trailing run at least that long. */
  lemma {:induction false} PadAtLeast(s: string, m: nat)
    requires m <= |s| && forall i :: |s| - m <= i < |s| ==> s[i] == '='
    ensures TrailingPad(s) >= m
  {
    if m > 0 {
      PadAtLeast(s[..|s| - 1], m - 1);
    }
  }

  // ---------------------------------------------------------------- one value

  /** The error types a value draws under a check, in the order they are
      found: allowed values, then the base type (which ends the search), then
      each rule in the order the schema lists it. */
  function Kinds(check: Check, v: Json): seq<string> {
    match check
    case Text(valid, minLen, maxLen, base64) =>
      if valid != [] && v.JStr? && v.s in valid then []
      else
        var only := if valid != [] then ["any.only"] else [];
        if !v.JStr? then only + ["string.base"]
        else if v.s == "" then only + ["string.empty"]
        else only + (if base64 && !Base64Shaped(v.s) then ["string.pattern.base"] else [])
                  + (if |v.s| < minLen then ["string.min"] else [])
                  + (if maxLen.Some? && |v.s| > maxLen.value then ["string.max"] else [])
    case Integer(lo, hi) =>
      if !v.JNum? then ["number.base"]
      else if v.n > MaxSafe as real || v.n < -MaxSafe as real then ["number.unsafe"]
      else (if v.n.Floor as real != v.n then ["number.integer"] else [])
           + (if v.n < lo as real then ["number.min"] else [])
           + (if v.n > hi as real then ["number.max"] else [])
    case Boolean => if v.JBool? then [] else ["boolean.base"]
    case AnyObject => if v.JObj? then [] else ["object.base"]
  }

  /** What a check admits, said directly. */
  predicate Accepts(check: Check, v: Json) {
    match check
    case Text(valid, minLen, maxLen, base64) =>
      v.JStr? &&
      if valid != [] then v.s in valid
      else v.s != "" && (base64 ==> Base64Shaped(v.s)) && minLen <= |v.s|
           && (maxLen.Some? ==> |v.s| <= maxLen.value)
    case Integer(lo, hi) =>
      v.JNum? && v.n.Floor as real == v.n && lo as real <= v.n <= hi as real
      && -MaxSafe as real <= v.n <= MaxSafe as real
    case Boolean => v.JBool?
    case AnyObject => v.JObj?
  }

  /** A value draws no error exactly when its check admits it. */
  lemma KindsAccept(check: Check, v: Json)
    ensures Kinds(check, v) == [] <==> Accepts(check, v)
  {
  }

  function MessageFor(messages: map<string, string>, kind: string): Option<string> {
    if kind in messages then Some(messages[kind]) else None
  }

  function Report(path: seq<Step>, messages: map<string, string>, kinds: seq<string>): seq<Issue> {
    seq(|kinds|, i requires 0 <= i < |kinds| => Issue(path, kinds[i], MessageFor(messages, kinds[i])))
  }

  // ---------------------------------------------------------------- objects

  /** The issues of one schema key of an object. */
  function EntryIssues(e: Entry, f: map<string, Json>, path: seq<Step>): seq<Issue> {
    if e.key in f then Report(path + [Key(e.key)], e.messages, Kinds(e.check, f[e.key]))
    else if e.presence.Required? then Report(path + [Key(e.key)], e.messages, ["any.required"])
    else []
  }

  /** The issues of an object, key by key in schema order; unknown keys
      draw none. */
  function ObjectIssues(schema: seq<Entry>, f: map<string, Json>, path: seq<Step>): seq<Issue> {
    if schema == [] then [] else EntryIssues(schema[0], f, path) + ObjectIssues(schema[1..], f, path)
  }

  /** The object reduced to its schema keys, absent ones defaulted. */
  function Strip(schema: seq<Entry>, f: map<string, Json>): map<string, Json> {
    if schema == [] then map[]
    else
      var rest := Strip(schema[1..], f);
      var e := schema[0];
      if e.key in f then rest[e.key := f[e.key]]
      else if e.presence.Default? then rest[e.key := e.presence.value]
      else rest
  }

  predicate EntryOk(e: Entry, f: map<string, Json>) {
    if e.key in f then Accepts(e.check, f[e.key]) else !e.presence.Required?
  }

  /** Every schema key of the object is acceptable. */
  predicate Conforms(schema: seq<Entry>, f: map<string, Json>) {
    forall e :: e in schema ==> EntryOk(e, f)
  }

  predicate DistinctKeys(schema: seq<Entry>) {
    forall i, j :: 0 <= i < j < |schema| ==> schema[i].key != schema[j].key
  }

  predicate DefaultOk(e: Entry) {
    e.presence.Default? ==> Accepts(e.check, e.presence.value)
  }

  predicate DefaultsConform(schema: seq<Entry>) {
    forall i :: 0 <= i < |schema| ==> DefaultOk(schema[i])
  }

  predicate IsKey(schema: seq<Entry>, k: string) {
    exists e :: e in schema && e.key == k
  }

  /** Each schema names each key once. */
  lemma ItemKeysDistinct()
    ensures DistinctKeys(ItemSchema)
  {
  }

  lemma TopKeysDistinct()
    ensures DistinctKeys(TopSchema)
  {
  }

  /** Every default passes its own check. */
  lemma ItemDefaultsPass()
    ensures DefaultsConform(ItemSchema)
  {
    assert DefaultOk(ItemSchema[5]) by { assert "normal" in ["low", "normal", "high"]; }
  }

  lemma TopDefaultsPass()
    ensures DefaultsConform(TopSchema)
  {
    assert DefaultOk(TopSchema[0]) by { assert "haiku" in ["haiku", "sonnet"]; }
    assert DefaultOk(TopSchema[1]) && DefaultOk(TopSchema[6]) && DefaultOk(TopSchema[9]) && DefaultOk(TopSchema[10]);
  }

  /** `requests` is not among the settings. */
  lemma RequestsNotSetting()
    ensures !IsKey(TopSchema, RequestsKey)
  {
  }

  lemma EntryIssuesEmpty(e: Entry, f: map<string, Json>, path: seq<Step>)
    ensures EntryIssues(e, f, path) == [] <==> EntryOk(e, f)
  {
    if e.key in f {
      KindsAccept(e.check, f[e.key]);
    }
  }

  /** An object draws no issue exactly when it conforms. */
  lemma {:induction false} ObjectIssuesEmpty(schema: seq<Entry>, f: map<string, Json>, path: seq<Step>)
    ensures ObjectIssues(schema, f, path) == [] <==> Conforms(schema, f)
  {
    if schema != [] {
      ObjectIssuesEmpty(schema[1..], f, path);
      EntryIssuesEmpty(schema[0], f, path);
      assert forall e :: e in schema <==> e == schema[0] || e in schema[1..];
    }
  }

  /** Some issue is reported at path `p`. */
  predicate Names(issues: seq<Issue>, p: seq<Step>) {
    exists i :: 0 <= i < |issues| && issues[i].path == p
  }

  lemma NamesAppend(a: seq<Issue>, b: seq<Issue>, p: seq<Step>)
    ensures Names(a + b, p) <==> Names(a, p) || Names(b, p)
  {
    if Names(a + b, p) {
      var i :| 0 <= i < |a + b| && (a + b)[i].path == p;
      if i >= |a| {
        assert b[i - |a|].path == p;
      }
    }
    if Names(a, p) {
      var i :| 0 <= i < |a| && a[i].path == p;
      assert (a + b)[i].path == p;
    }
    if Names(b, p) {
      var i :| 0 <= i < |b| && b[i].path == p;
      assert (a + b)[|a| + i].path == p;
    }
  }

  /** Every issue of an object lies under one of its schema keys, one that
      is not acceptable. */
  lemma {:induction false} ObjectIssuesSound(schema: seq<Entry>, f: map<string, Json>, path: seq<Step>, p: seq<Step>)
    requires Names(ObjectIssues(schema, f, path), p)
    ensures exists e :: e in schema && p == path + [Key(e.key)] && !EntryOk(e, f)
  {
    var e := schema[0];
    NamesAppend(EntryIssues(e, f, path), ObjectIssues(schema[1..], f, path), p);
    if Names(EntryIssues(e, f, path), p) {
      EntryIssuesEmpty(e, f, path);
      assert p == path + [Key(e.key)] && !EntryOk(e, f);
    } else {
      ObjectIssuesSound(schema[1..], f, path, p);
      var d :| d in schema[1..] && p == path + [Key(d.key)] && !EntryOk(d, f);
      assert d in schema;
    }
  }

  /** Every schema key that is not acceptable draws an issue at its path. */
  lemma {:induction false} ObjectIssuesComplete(schema: seq<Entry>, f: map<string, Json>, path: seq<Step>, e: Entry)
    requires e in schema && !EntryOk(e, f)
    ensures Names(ObjectIssues(schema, f, path), path + [Key(e.key)])
  {
    NamesAppend(EntryIssues(schema[0], f, path), ObjectIssues(schema[1..], f, path), path + [Key(e.key)]);
    if e == schema[0] {
      EntryIssuesEmpty(e, f, path);
      assert EntryIssues(e, f, path)[0].path == path + [Key(e.key)];
    } else {
      ObjectIssuesComplete(schema[1..], f, path, e);
    }
  }

  /** An issue is reported under a schema key exactly when that key's value
      is not acceptable. */
  lemma ObjectIssuesName(schema: seq<Entry>, f: map<string, Json>, path: seq<Step>, e: Entry)
    requires DistinctKeys(schema) && e in schema
    ensures Names(ObjectIssues(schema, f, path), path + [Key(e.key)]) <==> !EntryOk(e, f)
  {
    if !EntryOk(e, f) {
      ObjectIssuesComplete(schema, f, path, e);
    }
    if Names(ObjectIssues(schema, f, path), path + [Key(e.key)]) {
      ObjectIssuesSound(schema, f, path, path + [Key(e.key)]);
      var d :| d in schema && path + [Key(e.key)] == path + [Key(d.key)] && !EntryOk(d, f);
      assert (path + [Key(e.key)])[|path|] == Key(e.key);
      assert d.key == e.key;
      var i :| 0 <= i < |schema| && schema[i] == d;
      var j :| 0 <= j < |schema| && schema[j] == e;
      assert i == j;
    }
  }

  /** The stripped object holds a schema key exactly when the input has it
      or it has a default, with the input's value or the default; it holds
      no other key. */
  lemma {:induction false} StripAt(schema: seq<Entry>, f: map<string, Json>)
    requires DistinctKeys(schema)
    ensures forall k :: k in Strip(schema, f) ==> IsKey(schema, k)
    ensures forall e :: e in schema ==>
      && (e.key in Strip(schema, f) <==> e.key in f || e.presence.Default?)
      && (e.key in f ==> Strip(schema, f)[e.key] == f[e.key])
      && (e.key !in f && e.presence.Default? ==> Strip(schema, f)[e.key] == e.presence.value)
  {
    if schema != [] {
      StripAt(schema[1..], f);
      var e0 := schema[0];
      forall e | e in schema[1..] ensures e.key != e0.key {
        var j :| 0 <= j < |schema[1..]| && schema[1..][j] == e;
        assert schema[j + 1] == e;
      }
      forall k | k in Strip(schema, f) ensures IsKey(schema, k) {
        if k != e0.key {
          assert k in Strip(schema[1..], f);
          var d :| d in schema[1..] && d.key == k;
          assert d in schema;
        }
      }
    }
  }

  /** Values under keys outside the schema are invisible to it. */
  lemma {:induction false} OutsideKeyIgnored(schema: seq<Entry>, f: map<string, Json>, k: string, x: Json)
    requires !IsKey(schema, k)
    ensures ObjectIssues(schema, f[k := x], []) == ObjectIssues(schema, f, [])
    ensures Strip(schema, f[k := x]) == Strip(schema, f)
  {
    if schema != [] {
      assert schema[0] in schema;
      forall e | e in schema[1..] ensures e.key != k {
        assert e in schema;
      }
      OutsideKeyIgnored(schema[1..], f, k, x);
    }
  }

  /** Stripping a conforming object gives a conforming object that
      stripping leaves alone. */
  lemma StripIdempotent(schema: seq<Entry>, f: map<string, Json>)
    requires DistinctKeys(schema) && DefaultsConform(schema) && Conforms(schema, f)
    ensures Conforms(schema, Strip(schema, f))
    ensures Strip(schema, Strip(schema, f)) == Strip(schema, f)
  {
    var g := Strip(schema, f);
    StripAt(schema, f);
    StripAt(schema, g);
    forall e | e in schema ensures EntryOk(e, g) {
      var i :| 0 <= i < |schema| && schema[i] == e;
      assert DefaultOk(schema[i]);
    }
    forall k | k in Strip(schema, g) ensures k in g && Strip(schema, g)[k] == g[k] {
      var e :| e in schema && e.key == k;
    }
    forall k | k in g ensures k in Strip(schema, g) {
      var e :| e in schema && e.key == k;
    }
  }

  // ---------------------------------------------------------------- the batch

  /** The issues of the request at position `i`. */
  function ItemIssues(item: Json, i: nat): seq<Issue> {
    var path := [Key(RequestsKey), Index(i)];
    if item.JObj? then ObjectIssues(ItemSchema, item.fields, path) else Report(path, map[], ["object.base"])
  }

  /** The issues of the first `n` requests, each found by `issuesOf`, in
      order. */
  function Gather(issuesOf: (Json, nat) -> seq<Issue>, items: seq<Json>, n: nat): seq<Issue>
    requires n <= |items|
  {
    if n == 0 then [] else Gather(issuesOf, items, n - 1) + issuesOf(items[n - 1], n - 1)
  }

  /** The issues of the `requests` key: every request's own, then the count. */
  function RequestsIssues(f: map<string, Json>): seq<Issue> {
    var path := [Key(RequestsKey)];
    if RequestsKey !in f then Report(path, RequestsMessages, ["any.required"])
    else match f[RequestsKey]
      case JArr(items) =>
        Gather(ItemIssues, items, |items|)
        + Report(path, RequestsMessages, (if |items| < MinRequests then ["array.min"] else [])
                                         + (if |items| > MaxRequests then ["array.max"] else []))
      case _ => Report(path, RequestsMessages, ["array.base"])
  }

  /** Every issue of a body, `requests` first and then the settings. */
  function Issues(body: Json): seq<Issue> {
    match body
    case JObj(f) => RequestsIssues(f) + ObjectIssues(TopSchema, f, [])
    case _ => Report([], map[], ["object.base"])
  }

  function NormalItem(item: Json): Json {
    if item.JObj? then JObj(Strip(ItemSchema, item.fields)) else item
  }

  function NormalItems(items: seq<Json>): seq<Json> {
    seq(|items|, i requires 0 <= i < |items| => NormalItem(items[i]))
  }

  /** The accepted body: settings stripped and defaulted, each request
      stripped and defaulted. */
  function Normalize(f: map<string, Json>): map<string, Json>
    requires RequestsKey in f && f[RequestsKey].JArr?
  {
    Strip(TopSchema, f)[RequestsKey := JArr(NormalItems(f[RequestsKey].items))]
  }

  /** The validator: the normal form of a body with no issue, or all of
      its issues. */
  function Validate(body: Json): Validation {
    if body.JObj? && RequestsKey in body.fields && body.fields[RequestsKey].JArr? && Issues(body) == [] then
      Accepted(JObj(Normalize(body.fields)))
    else Rejected(Issues(body))
  }

  predicate ItemOk(item: Json) {
    item.JObj? && Conforms(ItemSchema, item.fields)
  }

  predicate RequestsOk(f: map<string, Json>) {
    RequestsKey in f && f[RequestsKey].JArr?
    && MinRequests <= |f[RequestsKey].items| <= MaxRequests
    && forall i :: 0 <= i < |f[RequestsKey].items| ==> ItemOk(f[RequestsKey].items[i])
  }

  /** The schema, said directly: an object whose `requests` holds 1 to 100
      conforming requests and whose settings conform. */
  predicate Acceptable(body: Json) {
    body.JObj? && RequestsOk(body.fields) && Conforms(TopSchema, body.fields)
  }

  lemma ItemIssuesEmpty(item: Json, i: nat)
    ensures ItemIssues(item, i) == [] <==> ItemOk(item)
  {
    if item.JObj? {
      ObjectIssuesEmpty(ItemSchema, item.fields, [Key(RequestsKey), Index(i)]);
    }
  }

  lemma {:induction false} GatherEmpty(issuesOf: (Json, nat) -> seq<Issue>, items: seq<Json>, n: nat)
    requires n <= |items|
    ensures Gather(issuesOf, items, n) == [] <==> forall i :: 0 <= i < n ==> issuesOf(items[i], i) == []
  {
    if n > 0 {
      GatherEmpty(issuesOf, items, n - 1);
    }
  }

  lemma ItemsIssuesEmpty(items: seq<Json>)
    ensures Gather(ItemIssues, items, |items|) == [] <==> forall i :: 0 <= i < |items| ==> ItemOk(items[i])
  {
    GatherEmpty(ItemIssues, items, |items|);
    forall i | 0 <= i < |items| ensures ItemIssues(items[i], i) == [] <==> ItemOk(items[i]) {
      ItemIssuesEmpty(items[i], i);
    }
  }

  /** A body draws no issue exactly when it meets the schema. */
  lemma IssuesEmpty(body: Json)
    ensures Issues(body) == [] <==> Acceptable(body)
  {
    if body.JObj? {
      var f := body.fields;
      ObjectIssuesEmpty(TopSchema, f, []);
      RequestsIssuesEmpty(f);
      assert Issues(body) == RequestsIssues(f) + ObjectIssues(TopSchema, f, []);
    } else {
      assert |Issues(body)| == 1;
    }
  }

  lemma RequestsIssuesEmpty(f: map<string, Json>)
    ensures RequestsIssues(f) == [] <==> RequestsOk(f)
  {
    if RequestsKey in f && f[RequestsKey].JArr? {
      var items := f[RequestsKey].items;
      ItemsIssuesEmpty(items);
      var counts := (if |items| < MinRequests then ["array.min"] else [])
                    + (if |items| > MaxRequests then ["array.max"] else []);
      assert counts == [] <==> MinRequests <= |items| <= MaxRequests;
      assert RequestsIssues(f) == Gather(ItemIssues, items, |items|) + Report([Key(RequestsKey)], RequestsMessages, counts);
    } else {
      assert |RequestsIssues(f)| == 1;
    }
  }

  /** A body is accepted exactly when it meets the schema, and a rejected
      body is rejected with all of its issues, of which there is at least
      one. */
  lemma ValidateAccepts(body: Json)
    ensures Validate(body).Accepted? <==> Acceptable(body)
    ensures Validate(body).Rejected? ==> Validate(body).issues == Issues(body) != []
  {
    IssuesEmpty(body);
  }

  /** Each issue of the first `n` requests sits under one of them. */
  lemma {:induction false} GatherUnder(issuesOf: (Json, nat) -> seq<Issue>, items: seq<Json>, n: nat, p: seq<Step>)
    requires n <= |items| && Names(Gather(issuesOf, items, n), p)
    ensures exists i :: 0 <= i < n && Names(issuesOf(items[i], i), p)
  {
    NamesAppend(Gather(issuesOf, items, n - 1), issuesOf(items[n - 1], n - 1), p);
    if Names(Gather(issuesOf, items, n - 1), p) {
      GatherUnder(issuesOf, items, n - 1, p);
    }
  }

  /** Each request's issues are among those of the first `n`, for `n` past it. */
  lemma {:induction false} GatherOver(issuesOf: (Json, nat) -> seq<Issue>, items: seq<Json>, n: nat, i: nat, p: seq<Step>)
    requires i < n <= |items| && Names(issuesOf(items[i], i), p)
    ensures Names(Gather(issuesOf, items, n), p)
  {
    NamesAppend(Gather(issuesOf, items, n - 1), issuesOf(items[n - 1], n - 1), p);
    if i < n - 1 {
      GatherOver(issuesOf, items, n - 1, i, p);
    }
  }

  /** Issues of the request at `i` all have paths that begin with it. */
  lemma ItemIssuesPaths(item: Json, i: nat, p: seq<Step>)
    requires Names(ItemIssues(item, i), p)
    ensures |p| >= 2 && p[..2] == [Key(RequestsKey), Index(i)]
    ensures !item.JObj? ==> p == [Key(RequestsKey), Index(i)]
    ensures item.JObj? ==> exists e :: e in ItemSchema && p == [Key(RequestsKey), Index(i), Key(e.key)] && !EntryOk(e, item.fields)
  {
    if item.JObj? {
      ObjectIssuesSound(ItemSchema, item.fields, [Key(RequestsKey), Index(i)], p);
    }
  }

  /** Issues of `requests` lie under it: at the key itself only when the
      value is missing, not an array or of the wrong size, and deeper only
      under one of its requests. */
  lemma RequestsIssuesPaths(f: map<string, Json>, p: seq<Step>)
    requires Names(RequestsIssues(f), p)
    ensures |p| >= 1 && p[0] == Key(RequestsKey)
    ensures |p| == 1 ==> !(RequestsKey in f && f[RequestsKey].JArr?
                           && MinRequests <= |f[RequestsKey].items| <= MaxRequests)
    ensures |p| >= 2 ==> RequestsKey in f && f[RequestsKey].JArr?
                         && exists i :: 0 <= i < |f[RequestsKey].items| && Names(ItemIssues(f[RequestsKey].items[i], i), p)
  {
    var path := [Key(RequestsKey)];
    if RequestsKey in f && f[RequestsKey].JArr? {
      var items := f[RequestsKey].items;
      var counts := (if |items| < MinRequests then ["array.min"] else [])
                    + (if |items| > MaxRequests then ["array.max"] else []);
      assert RequestsIssues(f) == Gather(ItemIssues, items, |items|) + Report(path, RequestsMessages, counts);
      NamesAppend(Gather(ItemIssues, items, |items|), Report(path, RequestsMessages, counts), p);
      if Names(Gather(ItemIssues, items, |items|), p) {
        GatherUnder(ItemIssues, items, |items|, p);
        var i :| 0 <= i < |items| && Names(ItemIssues(items[i], i), p);
        ItemIssuesPaths(items[i], i, p);
      } else {
        var j :| 0 <= j < |Report(path, RequestsMessages, counts)| && Report(path, RequestsMessages, counts)[j].path == p;
      }
    } else {
      var j :| 0 <= j < |RequestsIssues(f)| && RequestsIssues(f)[j].path == p;
    }
  }

  /** Issues of the settings lie directly under a settings key. */
  lemma TopIssuesPaths(f: map<string, Json>, p: seq<Step>)
    requires Names(ObjectIssues(TopSchema, f, []), p)
    ensures |p| == 1 && p[0] != Key(RequestsKey)
  {
    ObjectIssuesSound(TopSchema, f, [], p);
    RequestsNotSetting();
  }

  /** A setting is named in the report exactly when it breaks its rule. */
  lemma SettingNamed(body: Json, e: Entry)
    requires body.JObj? && e in TopSchema
    ensures Names(Issues(body), [Key(e.key)]) <==> !EntryOk(e, body.fields)
  {
    TopKeysDistinct();
    RequestsNotSetting();
    KeyNamed(body.fields, TopSchema, e);
  }

  /** The same for any settings schema that names each key once and does
      not claim `requests`. */
  lemma KeyNamed(f: map<string, Json>, top: seq<Entry>, e: Entry)
    requires DistinctKeys(top) && !IsKey(top, RequestsKey) && e in top
    ensures Names(RequestsIssues(f) + ObjectIssues(top, f, []), [Key(e.key)]) <==> !EntryOk(e, f)
  {
    var p := [Key(e.key)];
    NamesAppend(RequestsIssues(f), ObjectIssues(top, f, []), p);
    ObjectIssuesName(top, f, [], e);
    assert [] + p == p;
    if Names(RequestsIssues(f), p) {
      RequestsIssuesPaths(f, p);
    }
  }

  /** `requests` itself is named exactly when it is missing, not an array,
      or holds fewer than 1 or more than 100 requests. */
  lemma RequestsNamed(body: Json)
    requires body.JObj?
    ensures Names(Issues(body), [Key(RequestsKey)]) <==>
      !(RequestsKey in body.fields && body.fields[RequestsKey].JArr?
        && MinRequests <= |body.fields[RequestsKey].items| <= MaxRequests)
  {
    var f := body.fields;
    var p := [Key(RequestsKey)];
    NamesAppend(RequestsIssues(f), ObjectIssues(TopSchema, f, []), p);
    if Names(ObjectIssues(TopSchema, f, []), p) {
      TopIssuesPaths(f, p);
    }
    if Names(RequestsIssues(f), p) {
      RequestsIssuesPaths(f, p);
    }
    if RequestsKey in f && f[RequestsKey].JArr? {
      var items := f[RequestsKey].items;
      var counts := (if |items| < MinRequests then ["array.min"] else [])
                    + (if |items| > MaxRequests then ["array.max"] else []);
      assert RequestsIssues(f) == Gather(ItemIssues, items, |items|) + Report(p, RequestsMessages, counts);
      NamesAppend(Gather(ItemIssues, items, |items|), Report(p, RequestsMessages, counts), p);
      if counts != [] {
        assert Report(p, RequestsMessages, counts)[0].path == p;
      }
    } else {
      assert RequestsIssues(f)[0].path == p;
    }
  }

  /** An issue at a path under the request at `i` belongs to that request. */
  lemma UnderRequest(body: Json, i: nat, p: seq<Step>)
    requires body.JObj? && RequestsKey in body.fields && body.fields[RequestsKey].JArr?
    requires i < |body.fields[RequestsKey].items|
    requires |p| >= 2 && p[..2] == [Key(RequestsKey), Index(i)]
    ensures Names(Issues(body), p) <==> Names(ItemIssues(body.fields[RequestsKey].items[i], i), p)
  {
    var f := body.fields;
    var items := f[RequestsKey].items;
    NamesAppend(RequestsIssues(f), ObjectIssues(TopSchema, f, []), p);
    if Names(ObjectIssues(TopSchema, f, []), p) {
      TopIssuesPaths(f, p);
    }
    if Names(RequestsIssues(f), p) {
      RequestsIssuesPaths(f, p);
      var j :| 0 <= j < |items| && Names(ItemIssues(items[j], j), p);
      ItemIssuesPaths(items[j], j, p);
      assert p[1] == Index(j);
    }
    if Names(ItemIssues(items[i], i), p) {
      GatherOver(ItemIssues, items, |items|, i, p);
      var counts := (if |items| < MinRequests then ["array.min"] else [])
                    + (if |items| > MaxRequests then ["array.max"] else []);
      assert RequestsIssues(f) == Gather(ItemIssues, items, |items|) + Report([Key(RequestsKey)], RequestsMessages, counts);
      NamesAppend(Gather(ItemIssues, items, |items|), Report([Key(RequestsKey)], RequestsMessages, counts), p);
    }
  }

  /** A request is named as a whole exactly when it is not an object. */
  lemma RequestNamed(body: Json, i: nat)
    requires body.JObj? && RequestsKey in body.fields && body.fields[RequestsKey].JArr?
    requires i < |body.fields[RequestsKey].items|
    ensures Names(Issues(body), [Key(RequestsKey), Index(i)]) <==> !body.fields[RequestsKey].items[i].JObj?
  {
    var item := body.fields[RequestsKey].items[i];
    var p := [Key(RequestsKey), Index(i)];
    UnderRequest(body, i, p);
    if Names(ItemIssues(item, i), p) {
      ItemIssuesPaths(item, i, p);
    }
    if !item.JObj? {
      assert ItemIssues(item, i)[0].path == p;
    }
  }

  /** A field of a request is named exactly when the request is an object
      whose field breaks its rule; every such field of every request is
      named, not only the first. */
  lemma RequestFieldNamed(body: Json, i: nat, e: Entry)
    requires body.JObj? && RequestsKey in body.fields && body.fields[RequestsKey].JArr?
    requires i < |body.fields[RequestsKey].items| && e in ItemSchema
    ensures Names(Issues(body), [Key(RequestsKey), Index(i), Key(e.key)]) <==>
      body.fields[RequestsKey].items[i].JObj? && !EntryOk(e, body.fields[RequestsKey].items[i].fields)
  {
    var p := [Key(RequestsKey), Index(i)] + [Key(e.key)];
    assert p[..2] == [Key(RequestsKey), Index(i)];
    UnderRequest(body, i, p);
    ItemKeysDistinct();
    ItemFieldNamed(body.fields[RequestsKey].items[i], i, e);
  }

  lemma ItemFieldNamed(item: Json, i: nat, e: Entry)
    requires DistinctKeys(ItemSchema) && e in ItemSchema
    ensures Names(ItemIssues(item, i), [Key(RequestsKey), Index(i)] + [Key(e.key)]) <==>
      item.JObj? && !EntryOk(e, item.fields)
  {
    var path := [Key(RequestsKey), Index(i)];
    if item.JObj? {
      ObjectIssuesName(ItemSchema, item.fields, path, e);
    } else if Names(ItemIssues(item, i), path + [Key(e.key)]) {
      ItemIssuesPaths(item, i, path + [Key(e.key)]);
    }
  }

  // ---------------------------------------------------------------- the normal form

  /** The accepted body keeps `requests` and the settings and nothing else:
      a setting is there exactly when it was sent or has a default, with the
      sent value or the default; each request is kept, in order, under the
      same rule with its own schema. */
  lemma AcceptedForm(body: Json)
    requires Validate(body).Accepted?
    ensures var v := Validate(body).value;
      var f := body.fields;
      && v.JObj? && RequestsKey in v.fields && v.fields[RequestsKey].JArr?
      && (forall k :: k in v.fields ==> k == RequestsKey || IsKey(TopSchema, k))
      && (forall e :: e in TopSchema ==>
            && (e.key in v.fields <==> e.key in f || e.presence.Default?)
            && (e.key in f ==> v.fields[e.key] == f[e.key])
            && (e.key !in f && e.presence.Default? ==> v.fields[e.key] == e.presence.value))
      && |v.fields[RequestsKey].items| == |f[RequestsKey].items|
  {
    TopKeysDistinct();
    RequestsNotSetting();
    StripAt(TopSchema, body.fields);
  }

  /** Request `i` of the accepted body is request `i` of the input reduced
      to its schema keys, with `priority` defaulted. */
  lemma AcceptedRequestForm(body: Json, i: nat)
    requires Validate(body).Accepted?
    requires i < |body.fields[RequestsKey].items|
    ensures var item := body.fields[RequestsKey].items[i];
      var out := Validate(body).value.fields[RequestsKey].items[i];
      && item.JObj? && out.JObj?
      && (forall k :: k in out.fields ==> IsKey(ItemSchema, k))
      && (forall e :: e in ItemSchema ==>
            && (e.key in out.fields <==> e.key in item.fields || e.presence.Default?)
            && (e.key in item.fields ==> out.fields[e.key] == item.fields[e.key])
            && (e.key !in item.fields && e.presence.Default? ==> out.fields[e.key] == e.presence.value))
  {
    ValidateAccepts(body);
    ItemKeysDistinct();
    StripAt(ItemSchema, body.fields[RequestsKey].items[i].fields);
  }

  /** Validating an accepted body again accepts it unchanged. */
  lemma ValidateIdempotent(body: Json)
    requires Validate(body).Accepted?
    ensures Validate(Validate(body).value) == Validate(body)
  {
    ValidateAccepts(body);
    ItemKeysDistinct();
    TopKeysDistinct();
    ItemDefaultsPass();
    TopDefaultsPass();
    RequestsNotSetting();
    var f := body.fields;
    var items := f[RequestsKey].items;
    var normal := NormalItems(items);
    var top := Strip(TopSchema, f);
    var g := Normalize(f);
    assert g == top[RequestsKey := JArr(normal)];
    forall i | 0 <= i < |normal| ensures ItemOk(normal[i]) && NormalItem(normal[i]) == normal[i] {
      StripIdempotent(ItemSchema, items[i].fields);
    }
    assert NormalItems(normal) == normal;
    assert RequestsOk(g);
    StripIdempotent(TopSchema, f);
    OutsideKeyIgnored(TopSchema, top, RequestsKey, JArr(normal));
    ObjectIssuesEmpty(TopSchema, top, []);
    ObjectIssuesEmpty(TopSchema, g, []);
    assert Acceptable(JObj(g));
    ValidateAccepts(JObj(g));
    assert Normalize(g) == Strip(TopSchema, top)[RequestsKey := JArr(normal)];
  }
}
