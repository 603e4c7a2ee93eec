/** The request-collection cleaner: a rewrite of a YAML-loaded request collection that
    collapses every `request.url` object to `{"raw": ...}` before the collection is
    written out as JSON. A Python dict is a sequence of (key, value) fields in
    insertion order; an exception the script does not catch is `TypeError`. */
module ConvertRequests {
  import opened Envelopes

  /** A value as `yaml.safe_load` produces it (floats and other scalar tags aside). */
  datatype Value =
    | Nil
    | Bool(b: bool)
    | Int(i: int)
    | Str(s: string)
    | Lst(items: seq<Value>)
    | Dict(fields: seq<(string, Value)>)

  type Field = (string, Value)

  /** Either the value computed, or the `TypeError` that ends the script. */
  datatype Result<+T> = Ok(value: T) | TypeError

  /** Python truthiness. */
  predicate Truthy(v: Value)
  {
    match v
    case Nil => false
    case Bool(b) => b
    case Int(i) => i != 0
    case Str(s) => s != ""
    case Lst(items) => items != []
    case Dict(fields) => fields != []
  }

  /** The position of key `k` in a dict, or `|fs|` when `k` is not a key. */
  function KeyIndex(fs: seq<Field>, k: string): (i: nat)
    ensures i <= |fs|
    ensures i < |fs| ==> fs[i].0 == k
    ensures forall j :: 0 <= j < i ==> fs[j].0 != k
  {
    if |fs| == 0 then 0 else if fs[0].0 == k then 0 else 1 + KeyIndex(fs[1..], k)
  }

  /** `d.get(k)`: the value under `k`, or `None`. */
  function Get(fs: seq<Field>, k: string): Value
  {
    var i := KeyIndex(fs, k);
    if i < |fs| then fs[i].1 else Nil
  }

  predicate SameKeys(fs: seq<Field>, gs: seq<Field>)
  {
    |fs| == |gs| && forall j :: 0 <= j < |fs| ==> fs[j].0 == gs[j].0
  }

  /** Where a key sits depends only on the keys. */
  lemma {:induction false} KeyIndexSameKeys(fs: seq<Field>, gs: seq<Field>, k: string)
    requires SameKeys(fs, gs)
    ensures KeyIndex(fs, k) == KeyIndex(gs, k)
  {
    if |fs| > 0 && fs[0].0 != k {
      KeyIndexSameKeys(fs[1..], gs[1..], k);
    }
  }

  /** `sep.join(parts)`. */
  function Join(sep: string, parts: seq<string>): string
  {
    if |parts| == 0 then "" else if |parts| == 1 then parts[0] else parts[0] + sep + Join(sep, parts[1..])
  }

  /** The elements of a list, all of which `str.join` requires to be strings. */
  function StrItems(items: seq<Value>): (r: Result<seq<string>>)
    ensures r.Ok? <==> forall i :: 0 <= i < |items| ==> items[i].Str?
  {
    if forall i :: 0 <= i < |items| ==> items[i].Str? then
      Ok(seq(|items|, i requires 0 <= i < |items| => items[i].s))
    else TypeError
  }

  /** The strings `p for p in path` yields: the elements of a list (which must be
      strings), the characters of a string, the keys of a dict; iterating anything else
      raises `TypeError`. */
  function IterStrings(path: Value): Result<seq<string>>
  {
    match path
    case Lst(items) => StrItems(items)
    case Str(s) => Ok(seq(|s|, i requires 0 <= i < |s| => [s[i]]))
    case Dict(fs) => Ok(seq(|fs|, i requires 0 <= i < |fs| => fs[i].0))
    case _ => TypeError
  }

  /** The url rewrite: keep only a truthy `raw`; failing that, rebuild `raw` from a
      non-empty `host` list and the `path`; failing that, leave the url as it is. */
  function CleanUrl(url: seq<Field>): Result<Value>
  {
    var raw := Get(url, "raw");
    if Truthy(raw) then Ok(Dict([("raw", raw)]))
    else
      var host := Get(url, "host");
      var path := Get(url, "path");
      if Truthy(host) && host.Lst? then
        match StrItems(host.items)
        case TypeError => TypeError
        case Ok(hosts) =>
          var hostPart := Join(".", hosts);
          if Truthy(path) then
            match IterStrings(path)
            case TypeError => TypeError
            case Ok(parts) => Ok(Dict([("raw", Str(hostPart + "/" + Join("/", parts)))]))
          else Ok(Dict([("raw", Str(hostPart))]))
      else Ok(Dict(url))
  }

  /** The value under `request`, with its url rewritten when both it and its `url` are dicts. */
  function RewriteRequest(req: Value): (r: Result<Value>)
    ensures !req.Dict? ==> r == Ok(req)
    ensures r.Ok? && req.Dict? ==> r.value.Dict? && SameKeys(req.fields, r.value.fields)
    ensures r.Ok? && req.Dict? ==> forall j :: 0 <= j < |req.fields| && j != KeyIndex(req.fields, "url") ==>
              r.value.fields[j] == req.fields[j]
    ensures req.Dict? && (KeyIndex(req.fields, "url") == |req.fields| || !req.fields[KeyIndex(req.fields, "url")].1.Dict?) ==>
              r == Ok(req)
  {
    match req
    case Dict(rfs) =>
      var u := KeyIndex(rfs, "url");
      if u < |rfs| && rfs[u].1.Dict? then
        match CleanUrl(rfs[u].1.fields)
        case TypeError => TypeError
        case Ok(url) => Ok(Dict(rfs[u := ("url", url)]))
      else Ok(req)
    case _ => Ok(req)
  }

  /** The `request.url` step of `clean_item` on the fields of a dict. It changes at most
      the entry under `request`, and only when that entry is a dict. */
  function CleanRequest(fs: seq<Field>): (r: Result<seq<Field>>)
    ensures r.Ok? ==> SameKeys(fs, r.value)
    ensures r.Ok? ==> forall j :: 0 <= j < |fs| && (fs[j].1.Lst? || !r.value[j].1.Dict?) ==> r.value[j] == fs[j]
    ensures r.Ok? ==> forall j :: 0 <= j < |fs| && j != KeyIndex(fs, "request") ==> r.value[j] == fs[j]
  {
    var i := KeyIndex(fs, "request");
    if i < |fs| then
      match RewriteRequest(fs[i].1)
      case TypeError => TypeError
      case Ok(req) => Ok(fs[i := ("request", req)])
    else Ok(fs)
  }

  /** `clean_item(item)` on values: a non-dict is returned unchanged; a dict has every
      element of every list-valued field cleaned and its `request.url` rewritten. */
  function Clean(v: Value): Result<Value>
    decreases v, 0
  {
    match v
    case Dict(fs) =>
      (match CleanFields(fs)
       case TypeError => TypeError
       case Ok(gs) =>
         (match CleanRequest(gs)
          case TypeError => TypeError
          case Ok(hs) => Ok(Dict(hs))))
    case _ => Ok(v)
  }

  /** One field as the `for k, v in item.items()` loop leaves it: a list value has each
      element cleaned, any other value is not visited. The key never changes. */
  function CleanField(f: Field): (r: Result<Field>)
    ensures r.Ok? ==> r.value.0 == f.0
    ensures !f.1.Lst? ==> r == Ok(f)
    ensures r.Ok? && f.1.Lst? ==> r.value.1.Lst?
    decreases f, 2
  {
    if f.1.Lst? then
      match CleanList(f.1.items)
      case TypeError => TypeError
      case Ok(cleaned) => Ok((f.0, Lst(cleaned)))
    else Ok(f)
  }

  /** The field loop over a whole dict: it succeeds exactly when every field succeeds,
      keeps every key in place and replaces each field by its `CleanField`. */
  function CleanFields(fs: seq<Field>): (r: Result<seq<Field>>)
    ensures r.Ok? <==> forall j :: 0 <= j < |fs| ==> CleanField(fs[j]).Ok?
    ensures r.Ok? ==> |r.value| == |fs| && (forall j :: 0 <= j < |fs| ==> r.value[j] == CleanField(fs[j]).value)
    decreases fs, 1
  {
    if |fs| == 0 then Ok([])
    else
      var last := fs[|fs| - 1];
      match CleanFields(fs[..|fs| - 1])
      case TypeError => TypeError
      case Ok(gs) =>
        match CleanField(last)
        case TypeError => TypeError
        case Ok(f) => Ok(gs + [f])
  }

  /** `for it in v: clean_item(it)`: it succeeds exactly when every element is cleaned
      successfully, and then holds the cleaned elements in their order. */
  function CleanList(xs: seq<Value>): (r: Result<seq<Value>>)
    ensures r.Ok? <==> forall i :: 0 <= i < |xs| ==> Clean(xs[i]).Ok?
    ensures r.Ok? ==> |r.value| == |xs| && (forall i :: 0 <= i < |xs| ==> r.value[i] == Clean(xs[i]).value)
    decreases xs, 3
  {
    if |xs| == 0 then Ok([])
    else
      match CleanList(xs[..|xs| - 1])
      case TypeError => TypeError
      case Ok(ys) =>
        match Clean(xs[|xs| - 1])
        case TypeError => TypeError
        case Ok(y) => Ok(ys + [y])
  }

  /** Doing the url step first, as `clean_item` does, and the fields loop second gives
      the same outcome as `Clean`: the two touch disjoint entries. */
  lemma CleanRequestThenFields(fs: seq<Field>)
    ensures Clean(Dict(fs)) ==
              match CleanRequest(fs)
              case TypeError => TypeError
              case Ok(gs) => (match CleanFields(gs) case TypeError => TypeError case Ok(hs) => Ok(Dict(hs)))
  {
    var i := KeyIndex(fs, "request");
    var fields := CleanFields(fs);
    if fields.Ok? {
      KeyIndexSameKeys(fs, fields.value, "request");
    }
    if i < |fs| {
      var req := RewriteRequest(fs[i].1);
      if req.Ok? {
        var fs1 := fs[i := ("request", req.value)];
        var after := CleanFields(fs1);
        assert fs1[i].1.Dict? ==> CleanField(fs1[i]) == Ok(fs1[i]);
        if !fs[i].1.Dict? {
          assert fs1 == fs;
        }
        if fields.Ok? {
          if fs[i].1.Dict? {
            assert after.Ok?;
            assert after.value == fields.value[i := ("request", req.value)];
          } else {
            assert !fields.value[i].1.Dict?;
            assert fields.value[i := ("request", fields.value[i].1)] == fields.value;
          }
        } else {
          var j :| 0 <= j < |fs| && !CleanField(fs[j]).Ok?;
          assert fs1[j] == fs[j];
        }
      } else if fields.Ok? {
        assert fields.value[i] == fs[i];
      }
    }
  }

  /** The result of a url rewrite is a dict that a second rewrite leaves as it is: either
      `{"raw": ...}` or the url untouched. */
  lemma CleanUrlIdempotent(url: seq<Field>)
    ensures CleanUrl(url).Ok? ==> CleanUrl(url).value.Dict? && CleanUrl(CleanUrl(url).value.fields) == CleanUrl(url)
  {
    var raw := Get(url, "raw");
    if !Truthy(raw) && !(Truthy(Get(url, "host")) && Get(url, "host").Lst?) {
      assert CleanUrl(url) == Ok(Dict(url));
    } else if CleanUrl(url).Ok? {
      var once := CleanUrl(url).value.fields;
      assert |once| == 1 && once[0].0 == "raw";
      assert KeyIndex(once, "raw") == 0;
      assert KeyIndex(once, "host") == 1;
    }
  }

  lemma RewriteRequestIdempotent(req: Value)
    ensures RewriteRequest(req).Ok? ==> RewriteRequest(RewriteRequest(req).value) == RewriteRequest(req)
  {
    if req.Dict? && RewriteRequest(req).Ok? {
      var rfs := req.fields;
      var u := KeyIndex(rfs, "url");
      if u < |rfs| && rfs[u].1.Dict? {
        var url := CleanUrl(rfs[u].1.fields).value;
        var rfs1 := rfs[u := ("url", url)];
        KeyIndexSameKeys(rfs, rfs1, "url");
        CleanUrlIdempotent(rfs[u].1.fields);
        assert rfs1[u := ("url", url)] == rfs1;
      }
    }
  }

  lemma CleanRequestIdempotent(fs: seq<Field>)
    ensures CleanRequest(fs).Ok? ==> CleanRequest(CleanRequest(fs).value) == CleanRequest(fs)
  {
    var i := KeyIndex(fs, "request");
    if i < |fs| && CleanRequest(fs).Ok? {
      var fs1 := CleanRequest(fs).value;
      KeyIndexSameKeys(fs, fs1, "request");
      RewriteRequestIdempotent(fs[i].1);
      assert fs1[i := ("request", fs1[i].1)] == fs1;
    }
  }

  lemma {:induction false} CleanFieldIdempotent(f: Field)
    ensures CleanField(f).Ok? ==> CleanField(CleanField(f).value) == CleanField(f)
    decreases f, 2
  {
    if f.1.Lst? && CleanField(f).Ok? {
      CleanListIdempotent(f.1.items);
    }
  }

  lemma {:induction false} CleanListIdempotent(xs: seq<Value>)
    ensures CleanList(xs).Ok? ==> CleanList(CleanList(xs).value) == CleanList(xs)
    decreases xs, 3
  {
    if CleanList(xs).Ok? {
      var ys := CleanList(xs).value;
      forall i | 0 <= i < |ys|
        ensures Clean(ys[i]) == Ok(ys[i])
      {
        CleanIdempotent(xs[i]);
      }
      assert CleanList(ys).Ok?;
      assert CleanList(ys).value == ys;
    }
  }

  /** Cleaning a cleaned tree changes nothing. */
  lemma {:induction false} CleanIdempotent(v: Value)
    ensures Clean(v).Ok? ==> Clean(Clean(v).value) == Clean(v)
    decreases v, 0
  {
    if v.Dict? && Clean(v).Ok? {
      var fs := v.fields;
      var gs := CleanFields(fs).value;
      var hs := CleanRequest(gs).value;
      forall j | 0 <= j < |hs|
        ensures CleanField(hs[j]) == Ok(hs[j])
      {
        if hs[j].1.Lst? {
          assert hs[j] == gs[j];
          CleanFieldIdempotent(fs[j]);
        }
      }
      assert CleanFields(hs).Ok?;
      assert CleanFields(hs).value == hs;
      CleanRequestIdempotent(gs);
    }
  }

  /** A value that is not a dict comes back unchanged, lists included: a list nested
      directly in a list is not searched. */
  lemma CleanLeavesNonDict(v: Value)
    requires !v.Dict?
    ensures Clean(v) == Ok(v)
  {
  }

  /** The url a dict holds under `request.url`, when `request` is a dict that has a `url`. */
  function RequestUrl(item: Value): Option<Value>
  {
    if item.Dict? && Get(item.fields, "request").Dict? && KeyIndex(Get(item.fields, "request").fields, "url") < |Get(item.fields, "request").fields| then
      Some(Get(Get(item.fields, "request").fields, "url"))
    else None
  }

  /** What `clean_item` does to a dict, field by field: every key stays in place; a
      list-valued field, under any key, has every element cleaned; the `request` entry,
      when it is a dict, gets its url rewritten and keeps its other entries; every other
      field is neither visited nor changed. */
  lemma CleanDictFields(fs: seq<Field>)
    requires Clean(Dict(fs)).Ok?
    ensures Clean(Dict(fs)).value.Dict?
    ensures SameKeys(fs, Clean(Dict(fs)).value.fields)
    ensures forall j :: 0 <= j < |fs| && fs[j].1.Lst? ==>
              CleanList(fs[j].1.items).Ok? && Clean(Dict(fs)).value.fields[j].1 == Lst(CleanList(fs[j].1.items).value)
    ensures forall j :: 0 <= j < |fs| && !fs[j].1.Lst? && (j != KeyIndex(fs, "request") || !fs[j].1.Dict?) ==>
              Clean(Dict(fs)).value.fields[j] == fs[j]
    ensures KeyIndex(fs, "request") < |fs| && fs[KeyIndex(fs, "request")].1.Dict? ==>
              RewriteRequest(fs[KeyIndex(fs, "request")].1).Ok? &&
              Clean(Dict(fs)).value.fields[KeyIndex(fs, "request")].1 == RewriteRequest(fs[KeyIndex(fs, "request")].1).value
    ensures KeyIndex(fs, "request") < |fs| && fs[KeyIndex(fs, "request")].1.Dict? ==>
              var before := fs[KeyIndex(fs, "request")].1.fields;
              var after := Clean(Dict(fs)).value.fields[KeyIndex(fs, "request")].1;
              after.Dict? && SameKeys(before, after.fields) &&
              forall j :: 0 <= j < |before| && j != KeyIndex(before, "url") ==> after.fields[j] == before[j]
  {
    var gs := CleanFields(fs).value;
    var hs := CleanRequest(gs).value;
    assert Clean(Dict(fs)) == Ok(Dict(hs));
    KeyIndexSameKeys(fs, gs, "request");
    var i := KeyIndex(fs, "request");
    forall j | 0 <= j < |fs| && fs[j].1.Lst?
      ensures CleanList(fs[j].1.items).Ok? && hs[j].1 == Lst(CleanList(fs[j].1.items).value)
    {
      assert CleanField(fs[j]).Ok?;
    }
    forall j | 0 <= j < |fs| && !fs[j].1.Lst? && (j != i || !fs[j].1.Dict?)
      ensures hs[j] == fs[j]
    {
      assert gs[j] == fs[j];
      if j == i {
        assert !gs[j].1.Dict?;
      }
    }
    if i < |fs| && fs[i].1.Dict? {
      assert gs[i] == fs[i];
      var rr := RewriteRequest(fs[i].1);
      assert rr.Ok? && hs[i].1 == rr.value;
    }
  }

  /** A url with a truthy `raw` becomes exactly `{"raw": raw}`. */
  lemma UrlKeepsRaw(item: Value, url: seq<Field>)
    requires RequestUrl(item) == Some(Dict(url)) && Truthy(Get(url, "raw"))
    requires Clean(item).Ok?
    ensures RequestUrl(Clean(item).value) == Some(Dict([("raw", Get(url, "raw"))]))
  {
    RequestUrlAfterClean(item, url);
  }

  /** Without a truthy `raw`, a non-empty `host` list of strings rebuilds `raw` as the
      hosts joined by "." and, when `path` is truthy, "/" and the path joined by "/". */
  lemma UrlRebuiltFromHost(item: Value, url: seq<Field>)
    requires RequestUrl(item) == Some(Dict(url)) && !Truthy(Get(url, "raw"))
    requires Get(url, "host").Lst? && Truthy(Get(url, "host"))
    requires Clean(item).Ok?
    ensures StrItems(Get(url, "host").items).Ok?
    ensures var hostPart := Join(".", StrItems(Get(url, "host").items).value);
            if Truthy(Get(url, "path")) then
              IterStrings(Get(url, "path")).Ok? &&
              RequestUrl(Clean(item).value) == Some(Dict([("raw", Str(hostPart + "/" + Join("/", IterStrings(Get(url, "path")).value)))]))
            else RequestUrl(Clean(item).value) == Some(Dict([("raw", Str(hostPart))]))
  {
    RequestUrlAfterClean(item, url);
  }

  /** Without a truthy `raw` or a non-empty `host` list the url is left exactly as it was. */
  lemma UrlLeftAsIs(item: Value, url: seq<Field>)
    requires RequestUrl(item) == Some(Dict(url)) && !Truthy(Get(url, "raw"))
    requires !(Get(url, "host").Lst? && Truthy(Get(url, "host")))
    requires Clean(item).Ok?
    ensures RequestUrl(Clean(item).value) == Some(Dict(url))
  {
    RequestUrlAfterClean(item, url);
  }

  /** A request url that is a dict comes out of `clean_item` as `CleanUrl` makes it;
      a url whose rewrite raises makes the whole call raise. */
  lemma RequestUrlAfterClean(item: Value, url: seq<Field>)
    requires RequestUrl(item) == Some(Dict(url))
    ensures CleanUrl(url).TypeError? ==> Clean(item).TypeError?
    ensures Clean(item).Ok? ==> CleanUrl(url).Ok? && RequestUrl(Clean(item).value) == Some(CleanUrl(url).value)
  {
    var fs := item.fields;
    var i := KeyIndex(fs, "request");
    var rfs := fs[i].1.fields;
    var u := KeyIndex(rfs, "url");
    CleanRequestThenFields(fs);
    if Clean(item).Ok? {
      CleanDictFields(fs);
      var hs := Clean(item).value.fields;
      KeyIndexSameKeys(fs, hs, "request");
      var req := RewriteRequest(fs[i].1).value;
      KeyIndexSameKeys(rfs, req.fields, "url");
      assert hs[i].1 == req;
    }
  }

  /** The top level of the script: cleaning runs only when the loaded document is a dict
      with an `"item"` key holding a list, on each element in order. On a list or string
      that contains "item", `data["item"]` raises; on a scalar, the `in` test raises. */
  function Convert(data: Value): Result<Value>
  {
    match data
    case Dict(fs) =>
      var i := KeyIndex(fs, "item");
      if i < |fs| && fs[i].1.Lst? then
        match CleanList(fs[i].1.items)
        case TypeError => TypeError
        case Ok(items) => Ok(Dict(fs[i := ("item", Lst(items))]))
      else Ok(data)
    case Lst(vs) => if Str("item") in vs then TypeError else Ok(data)
    case Str(s) => if ContainsItem(s) then TypeError else Ok(data)
    case _ => TypeError
  }

  /** `"item" in s` for a string `s`. */
  predicate ContainsItem(s: string)
  {
    |s| >= 4 && (s[..4] == "item" || ContainsItem(s[1..]))
  }

  /** The top level changes at most the list under `"item"`, whose elements it cleans
      in order; every other field, and any document without such a list, is left as it is. */
  lemma ConvertTouchesOnlyItem(data: Value)
    requires Convert(data).Ok?
    ensures !data.Dict? || KeyIndex(data.fields, "item") == |data.fields| || !data.fields[KeyIndex(data.fields, "item")].1.Lst? ==>
              Convert(data) == Ok(data)
    ensures data.Dict? ==> Convert(data).value.Dict? && SameKeys(data.fields, Convert(data).value.fields)
    ensures data.Dict? ==> forall j :: 0 <= j < |data.fields| && j != KeyIndex(data.fields, "item") ==>
              Convert(data).value.fields[j] == data.fields[j]
    ensures data.Dict? && KeyIndex(data.fields, "item") < |data.fields| && data.fields[KeyIndex(data.fields, "item")].1.Lst? ==>
              var items := data.fields[KeyIndex(data.fields, "item")].1.items;
              CleanList(items).Ok? && Convert(data).value.fields[KeyIndex(data.fields, "item")].1 == Lst(CleanList(items).value)
  {
  }

  /** Converting a converted document changes nothing. */
  lemma ConvertIdempotent(data: Value)
    ensures Convert(data).Ok? ==> Convert(Convert(data).value) == Convert(data)
  {
    if data.Dict? && Convert(data).Ok? {
      var fs := data.fields;
      var i := KeyIndex(fs, "item");
      if i < |fs| && fs[i].1.Lst? {
        var fs1 := Convert(data).value.fields;
        KeyIndexSameKeys(fs, fs1, "item");
        CleanListIdempotent(fs[i].1.items);
        assert fs1[i := ("item", fs1[i].1)] == fs1;
      }
    }
  }

  /** Fields that agree pointwise with `CleanField` are what `CleanFields` returns. */
  lemma CleanFieldsPointwise(start: seq<Field>, fields: seq<Field>)
    requires |fields| == |start|
    requires forall m :: 0 <= m < |start| ==> CleanField(start[m]).Ok? && fields[m] == CleanField(start[m]).value
    ensures CleanFields(start) == Ok(fields)
  {
    assert CleanFields(start).Ok?;
    assert CleanFields(start).value == fields;
  }

  /** A field that is a list after the url step was that same list before it. */
  lemma ListFieldBeforeRewrite(fs: seq<Field>, j: nat)
    requires CleanRequest(fs).Ok? && j < |fs| && CleanRequest(fs).value[j].1.Lst?
    ensures CleanRequest(fs).value[j] == fs[j]
  {
  }

  /** `clean_item(item)`, following the script: the `request.url` step first, then the
      loop over the fields that recurses into every list-valued one. */
  method CleanItem(item: Value) returns (r: Result<Value>)
    ensures r == Clean(item)
    decreases item, 0
  {
    if !item.Dict? {
      return Ok(item);
    }
    var fs := item.fields;
    CleanRequestThenFields(fs);
    var rewritten := CleanRequest(fs);
    if rewritten.TypeError? {
      return TypeError;
    }
    var start := rewritten.value;
    var fields := start;
    var j := 0;
    while j < |fields|
      invariant 0 <= j <= |fields| == |start| == |fs|
      invariant forall m :: 0 <= m < j ==> CleanField(start[m]).Ok? && fields[m] == CleanField(start[m]).value
      invariant forall m :: j <= m < |fields| ==> fields[m] == start[m]
    {
      var (key, v) := fields[j];
      if v.Lst? {
        ListFieldBeforeRewrite(fs, j);
        var items := CleanEach(v.items);
        if items.TypeError? {
          assert !CleanField(start[j]).Ok?;
          return TypeError;
        }
        assert CleanField(start[j]) == Ok((key, Lst(items.value)));
        fields := fields[j := (key, Lst(items.value))];
      } else {
        assert CleanField(start[j]) == Ok(fields[j]);
      }
      j := j + 1;
    }
    CleanFieldsPointwise(start, fields);
    return Ok(Dict(fields));
  }

  /** `for it in v: clean_item(it)`, the elements in order. */
  method CleanEach(items: seq<Value>) returns (r: Result<seq<Value>>)
    ensures r == CleanList(items)
    decreases items, 1
  {
    var cleaned: seq<Value> := [];
    var i := 0;
    while i < |items|
      invariant 0 <= i <= |items| && |cleaned| == i
      invariant forall m :: 0 <= m < i ==> Clean(items[m]) == Ok(cleaned[m])
    {
      var c := CleanItem(items[i]);
      if c.TypeError? {
        return TypeError;
      }
      cleaned := cleaned + [c.value];
      i := i + 1;
    }
    assert CleanList(items).Ok?;
    assert CleanList(items).value == cleaned;
    return Ok(cleaned);
  }

  /** The top-level loop of the script over `data["item"]`. */
  method ConvertCollection(data: Value) returns (r: Result<Value>)
    ensures r == Convert(data)
  {
    match data {
      case Dict(fs) =>
        var i := KeyIndex(fs, "item");
        if i < |fs| && fs[i].1.Lst? {
          var items := CleanEach(fs[i].1.items);
          if items.TypeError? {
            return TypeError;
          }
          return Ok(Dict(fs[i := ("item", Lst(items.value))]));
        }
        return Ok(data);
      case Lst(vs) =>
        if Str("item") in vs {
          return TypeError;
        }
        return Ok(data);
      case Str(s) =>
        if ContainsItem(s) {
          return TypeError;
        }
        return Ok(data);
      case _ =>
        return TypeError;
    }
  }
}
