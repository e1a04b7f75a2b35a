/**
 * The exception hierarchy (core/exceptions.py) as values: an error is its class name, message,
 * code, the `details` dict (an association list, since its insertion order shows in `str`) and
 * an optional cause. Python's `str(v)` of a detail value is the parameter `show`.
 */
module Errors {
  import opened Wrappers
  import Json
  import Strings

  datatype ErrorCode = Unknown | Configuration | Connection | Api | Validation | Io | RateLimit | Timeout

  /** `ErrorCode.value`. */
  function CodeValue(c: ErrorCode): string
  {
    match c
    case Unknown => "UNKNOWN"
    case Configuration => "CONFIGURATION"
    case Connection => "CONNECTION"
    case Api => "API"
    case Validation => "VALIDATION"
    case Io => "IO"
    case RateLimit => "RATE_LIMIT"
    case Timeout => "TIMEOUT"
  }

  /** A causing exception: `type(cause).__name__` and `str(cause)`. */
  datatype Cause = Cause(typeName: string, text: string)

  /** A dict as its items in insertion order. */
  type Details = seq<(string, Json.Value)>

  predicate DistinctKeys(d: Details)
  {
    forall i, j | 0 <= i < j < |d| :: d[i].0 != d[j].0
  }

  /** `d.get(k)`: the value of the first pair with key `k`. */
  function Lookup(d: Details, k: string): Option<Json.Value>
  {
    if d == [] then None
    else if d[0].0 == k then Some(d[0].1)
    else Lookup(d[1..], k)
  }

  /** A key is found exactly when some pair carries it. */
  lemma {:induction false} LookupFinds(d: Details, k: string)
    ensures Lookup(d, k).Some? <==> exists i | 0 <= i < |d| :: d[i].0 == k
  {
    if d != [] && d[0].0 != k {
      LookupFinds(d[1..], k);
      assert forall i | 1 <= i < |d| :: d[1..][i - 1] == d[i];
    }
  }

  /** `d[k] = v`: an existing key keeps its place, a new key goes last. */
  function Put(d: Details, k: string, v: Json.Value): (r: Details)
    requires DistinctKeys(d)
    ensures DistinctKeys(r)
    ensures Lookup(r, k) == Some(v)
    ensures forall j | j != k :: Lookup(r, j) == Lookup(d, j)
    ensures Lookup(d, k).None? ==> r == d + [(k, v)]
    ensures Lookup(d, k).Some? ==> |r| == |d| && forall i | 0 <= i < |d| :: r[i].0 == d[i].0
  {
    if d == [] then [(k, v)]
    else
      DistinctTail(d);
      if d[0].0 == k then
        PutReplacesHead(d, k, v, [(k, v)] + d[1..]);
        [(k, v)] + d[1..]
      else
        var rest := Put(d[1..], k, v);
        PutKeepsHead(d, k, v, rest, [d[0]] + rest);
        [d[0]] + rest
  }

  lemma DistinctTail(d: Details)
    requires d != [] && DistinctKeys(d)
    ensures DistinctKeys(d[1..])
    ensures Lookup(d[1..], d[0].0) == None
  {
    forall i, j | 0 <= i < j < |d| - 1
      ensures d[1..][i].0 != d[1..][j].0
    {
      assert d[1..][i] == d[i + 1] && d[1..][j] == d[j + 1];
    }
    forall i | 0 <= i < |d| - 1
      ensures d[1..][i].0 != d[0].0
    {
      assert d[1..][i] == d[i + 1];
    }
    LookupFinds(d[1..], d[0].0);
  }

  /** Looking a key up in `[x] + rest`. */
  lemma LookupCons(x: (string, Json.Value), rest: Details, j: string)
    ensures Lookup([x] + rest, j) == if x.0 == j then Some(x.1) else Lookup(rest, j)
  {
    assert ([x] + rest)[1..] == rest;
  }

  lemma PutReplacesHead(d: Details, k: string, v: Json.Value, r: Details)
    requires d != [] && d[0].0 == k && DistinctKeys(d[1..]) && Lookup(d[1..], k) == None
    requires r == [(k, v)] + d[1..]
    ensures DistinctKeys(r)
    ensures Lookup(r, k) == Some(v)
    ensures forall j | j != k :: Lookup(r, j) == Lookup(d, j)
    ensures |r| == |d| && forall i | 0 <= i < |d| :: r[i].0 == d[i].0
  {
    assert d == [d[0]] + d[1..];
    forall j | j != k
      ensures Lookup(r, j) == Lookup(d, j)
    {
      LookupCons((k, v), d[1..], j);
      LookupCons(d[0], d[1..], j);
    }
    assert DistinctKeys(r) by {
      ConsDistinct((k, v), d[1..], r);
    }
    assert forall i | 0 <= i < |d| :: r[i].0 == d[i].0 by {
      forall i | 0 < i < |d|
        ensures r[i].0 == d[i].0
      {
        assert r[i] == d[1..][i - 1];
      }
    }
  }

  lemma PutKeepsHead(d: Details, k: string, v: Json.Value, rest: Details, r: Details)
    requires d != [] && d[0].0 != k && DistinctKeys(d[1..]) && Lookup(d[1..], d[0].0) == None
    requires DistinctKeys(rest) && Lookup(rest, k) == Some(v)
    requires forall j | j != k :: Lookup(rest, j) == Lookup(d[1..], j)
    requires Lookup(d[1..], k).None? ==> rest == d[1..] + [(k, v)]
    requires Lookup(d[1..], k).Some? ==> |rest| == |d[1..]| && forall i | 0 <= i < |d[1..]| :: rest[i].0 == d[1..][i].0
    requires r == [d[0]] + rest
    ensures DistinctKeys(r)
    ensures Lookup(r, k) == Some(v)
    ensures forall j | j != k :: Lookup(r, j) == Lookup(d, j)
    ensures Lookup(d, k).None? ==> r == d + [(k, v)]
    ensures Lookup(d, k).Some? ==> |r| == |d| && forall i | 0 <= i < |d| :: r[i].0 == d[i].0
  {
    assert d == [d[0]] + d[1..];
    assert Lookup(d, k) == Lookup(d[1..], k) by {
      LookupCons(d[0], d[1..], k);
    }
    assert Lookup(r, k) == Some(v) by {
      LookupCons(d[0], rest, k);
    }
    forall j | j != k
      ensures Lookup(r, j) == Lookup(d, j)
    {
      LookupCons(d[0], rest, j);
      LookupCons(d[0], d[1..], j);
    }
    assert DistinctKeys(r) by {
      assert Lookup(rest, d[0].0) == Lookup(d[1..], d[0].0);
      ConsDistinct(d[0], rest, r);
    }
    if Lookup(d, k).None? {
      ConsAppend(d, k, v, rest, r);
    } else {
      ConsSameKeys(d, rest, r);
    }
  }

  /** A pair whose key the distinct-keyed `rest` lacks can go in front. */
  lemma ConsDistinct(x: (string, Json.Value), rest: Details, r: Details)
    requires DistinctKeys(rest) && Lookup(rest, x.0) == None
    requires r == [x] + rest
    ensures DistinctKeys(r)
  {
    forall i, j | 0 <= i < j < |r|
      ensures r[i].0 != r[j].0
    {
      assert r[j] == rest[j - 1];
      if i > 0 {
        assert r[i] == rest[i - 1];
      } else {
        LookupFinds(rest, x.0);
      }
    }
  }

  lemma ConsAppend(d: Details, k: string, v: Json.Value, rest: Details, r: Details)
    requires d != [] && rest == d[1..] + [(k, v)] && r == [d[0]] + rest
    ensures r == d + [(k, v)]
  {
    var e := d + [(k, v)];
    forall i | 0 <= i < |r|
      ensures r[i] == e[i]
    {
      if i > 0 {
        assert r[i] == rest[i - 1];
        if i < |d| {
          assert rest[i - 1] == d[1..][i - 1] == d[i];
        }
      }
    }
  }

  lemma ConsSameKeys(d: Details, rest: Details, r: Details)
    requires d != [] && |rest| == |d[1..]| && (forall i | 0 <= i < |d[1..]| :: rest[i].0 == d[1..][i].0)
    requires r == [d[0]] + rest
    ensures |r| == |d| && forall i | 0 <= i < |d| :: r[i].0 == d[i].0
  {
    forall i | 0 <= i < |d|
      ensures r[i].0 == d[i].0
    {
      if i > 0 {
        assert r[i] == rest[i - 1] && d[i] == d[1..][i - 1];
      }
    }
  }

  datatype DriftError = DriftError(kind: string, message: string, code: ErrorCode, details: Details, cause: Option<Cause>)

  /** `details or {}`: a missing dict is empty. */
  function DetailsOr(details: Option<Details>): Details
  {
    details.GetOr([])
  }

  /** `DriftError(message, error_code, details, cause)`. */
  function Drift(message: string, code: ErrorCode, details: Option<Details>, cause: Option<Cause>): (e: DriftError)
    ensures e.kind == "DriftError" && e.message == message && e.code == code && e.cause == cause
    ensures e.details == DetailsOr(details)
  {
    DriftError("DriftError", message, code, DetailsOr(details), cause)
  }

  /** `ConfigurationError`: adds config_key and config_file to the details only when they are non-empty. */
  function ConfigurationError(message: string, configKey: Option<string>, configFile: Option<string>,
                              details: Option<Details>, cause: Option<Cause>): (e: DriftError)
    requires DistinctKeys(DetailsOr(details))
    ensures e.kind == "ConfigurationError" && e.code == Configuration && e.message == message && e.cause == cause
    ensures DistinctKeys(e.details)
    ensures Lookup(e.details, "config_key") ==
            if configKey.Some? && configKey.value != "" then Some(Json.Str(configKey.value))
            else Lookup(DetailsOr(details), "config_key")
    ensures Lookup(e.details, "config_file") ==
            if configFile.Some? && configFile.value != "" then Some(Json.Str(configFile.value))
            else Lookup(DetailsOr(details), "config_file")
    ensures forall k | k != "config_key" && k != "config_file" :: Lookup(e.details, k) == Lookup(DetailsOr(details), k)
  {
    var d0 := DetailsOr(details);
    var d1 := if configKey.Some? && configKey.value != "" then Put(d0, "config_key", Json.Str(configKey.value)) else d0;
    var d2 := if configFile.Some? && configFile.value != "" then Put(d1, "config_file", Json.Str(configFile.value)) else d1;
    DriftError("ConfigurationError", message, Configuration, d2, cause)
  }

  /** `ConnectionError`: adds endpoint to the details only when it is non-empty. */
  function ConnectionError(message: string, endpoint: Option<string>, details: Option<Details>, cause: Option<Cause>): (e: DriftError)
    requires DistinctKeys(DetailsOr(details))
    ensures e.kind == "ConnectionError" && e.code == Connection && e.message == message && e.cause == cause
    ensures DistinctKeys(e.details)
    ensures Lookup(e.details, "endpoint") ==
            if endpoint.Some? && endpoint.value != "" then Some(Json.Str(endpoint.value))
            else Lookup(DetailsOr(details), "endpoint")
    ensures forall k | k != "endpoint" :: Lookup(e.details, k) == Lookup(DetailsOr(details), k)
  {
    var d0 := DetailsOr(details);
    var d1 := if endpoint.Some? && endpoint.value != "" then Put(d0, "endpoint", Json.Str(endpoint.value)) else d0;
    DriftError("ConnectionError", message, Connection, d1, cause)
  }

  /** The shared body of `APIError.__init__`: `status_code` is recorded whenever it is not None, 0 included. */
  function ApiDetails(statusCode: Option<int>, details: Details): (r: Details)
    requires DistinctKeys(details)
    ensures DistinctKeys(r)
    ensures Lookup(r, "status_code") == if statusCode.Some? then Some(Json.Num(statusCode.value)) else Lookup(details, "status_code")
    ensures forall k | k != "status_code" :: Lookup(r, k) == Lookup(details, k)
  {
    if statusCode.Some? then Put(details, "status_code", Json.Num(statusCode.value)) else details
  }

  function ApiError(message: string, statusCode: Option<int>, details: Option<Details>, cause: Option<Cause>): (e: DriftError)
    requires DistinctKeys(DetailsOr(details))
    ensures e.kind == "APIError" && e.code == Api && e.message == message && e.cause == cause
    ensures e.details == ApiDetails(statusCode, DetailsOr(details))
  {
    DriftError("APIError", message, Api, ApiDetails(statusCode, DetailsOr(details)), cause)
  }

  /**
   * `RateLimitError`: an API error (code API, not RATE_LIMIT) whose status code is always 429;
   * `retry_after` is recorded iff it is given.
   */
  function RateLimitError(message: string, retryAfter: Option<int>, details: Option<Details>, cause: Option<Cause>): (e: DriftError)
    requires DistinctKeys(DetailsOr(details))
    ensures e.kind == "RateLimitError" && e.code == Api && e.message == message && e.cause == cause
    ensures DistinctKeys(e.details)
    ensures Lookup(e.details, "status_code") == Some(Json.Num(429))
    ensures Lookup(e.details, "retry_after") ==
            if retryAfter.Some? then Some(Json.Num(retryAfter.value)) else Lookup(DetailsOr(details), "retry_after")
    ensures forall k | k != "status_code" && k != "retry_after" :: Lookup(e.details, k) == Lookup(DetailsOr(details), k)
  {
    var d0 := DetailsOr(details);
    var d1 := if retryAfter.Some? then Put(d0, "retry_after", Json.Num(retryAfter.value)) else d0;
    DriftError("RateLimitError", message, Api, ApiDetails(Some(429), d1), cause)
  }

  /** `ValidationError`: adds field to the details only when it is non-empty. */
  function ValidationError(message: string, field: Option<string>, details: Option<Details>, cause: Option<Cause>): (e: DriftError)
    requires DistinctKeys(DetailsOr(details))
    ensures e.kind == "ValidationError" && e.code == Validation && e.message == message && e.cause == cause
    ensures DistinctKeys(e.details)
    ensures Lookup(e.details, "field") ==
            if field.Some? && field.value != "" then Some(Json.Str(field.value)) else Lookup(DetailsOr(details), "field")
    ensures forall k | k != "field" :: Lookup(e.details, k) == Lookup(DetailsOr(details), k)
  {
    var d0 := DetailsOr(details);
    var d1 := if field.Some? && field.value != "" then Put(d0, "field", Json.Str(field.value)) else d0;
    DriftError("ValidationError", message, Validation, d1, cause)
  }

  function DetailText(d: Details, show: Json.Value -> string): string
  {
    Strings.Join(", ", seq(|d|, i requires 0 <= i < |d| => d[i].0 + "=" + show(d[i].1)))
  }

  /** `DriftError.__str__`: the parts joined by " | ". */
  function Str(e: DriftError, show: Json.Value -> string): string
  {
    var head := ["[" + CodeValue(e.code) + "] " + e.message];
    var withDetails := head + (if e.details != [] then ["Details: " + DetailText(e.details, show)] else []);
    var parts := withDetails + (if e.cause.Some? then ["Caused by: " + e.cause.value.typeName + ": " + e.cause.value.text] else []);
    Strings.Join(" | ", parts)
  }

  /**
   * The text of `str(e)` piece by piece: it starts with "[CODE] message", then has
   * " | Details: …" iff there are details and " | Caused by: Type: msg" iff there is a cause.
   */
  lemma {:induction false} StrShape(e: DriftError, show: Json.Value -> string)
    ensures Str(e, show) ==
      "[" + CodeValue(e.code) + "] " + e.message
      + (if e.details != [] then " | Details: " + DetailText(e.details, show) else "")
      + (if e.cause.Some? then " | Caused by: " + e.cause.value.typeName + ": " + e.cause.value.text else "")
  {
    var h := "[" + CodeValue(e.code) + "] " + e.message;
    var det := DetailText(e.details, show);
    var d := "Details: " + det;
    var c := if e.cause.Some? then "Caused by: " + e.cause.value.typeName + ": " + e.cause.value.text else "";
    assert Str(e, show) == Strings.Join(" | ", [h] + (if e.details != [] then [d] else []) + (if e.cause.Some? then [c] else []));
    JoinOptionalParts(" | ", h, e.details != [], d, e.cause.Some?, c);
    var x := if e.details != [] then " | Details: " + det else "";
    assert x == if e.details != [] then " | " + d else "" by {
      PrefixLiteral(" | ", "Details: ", det);
      assert " | " + "Details: " == " | Details: ";
    }
    if e.cause.Some? {
      var t := e.cause.value.typeName + ": " + e.cause.value.text;
      PrefixLiteral(" | ", "Caused by: ", t);
      assert " | " + "Caused by: " == " | Caused by: ";
      PrefixLiteral("Caused by: ", e.cause.value.typeName + ": ", e.cause.value.text);
      PrefixLiteral("Caused by: ", e.cause.value.typeName, ": ");
      PrefixLiteral(" | Caused by: ", e.cause.value.typeName + ": ", e.cause.value.text);
      PrefixLiteral(" | Caused by: ", e.cause.value.typeName, ": ");
    }
  }

  lemma PrefixLiteral(a: string, b: string, t: string)
    ensures a + (b + t) == (a + b) + t
  {
  }

  /** Joining a head with two optional parts. */
  lemma JoinOptionalParts(sep: string, h: string, hasD: bool, d: string, hasC: bool, c: string)
    ensures Strings.Join(sep, [h] + (if hasD then [d] else []) + (if hasC then [c] else [])) ==
            h + (if hasD then sep + d else "") + (if hasC then sep + c else "")
  {
    if hasD && hasC {
      assert [h] + [d] + [c] == [h, d, c];
      Strings.JoinTriple(sep, h, d, c);
    } else if hasD {
      assert [h] + [d] + [] == [h, d];
      Strings.JoinPair(sep, h, d);
      assert h + (sep + d) + "" == h + sep + d;
    } else if hasC {
      assert [h] + [] + [c] == [h, c];
      Strings.JoinPair(sep, h, c);
      assert h + "" + (sep + c) == h + sep + c;
    } else {
      assert [h] + [] + [] == [h];
      assert h + "" + "" == h;
    }
  }

  function DetailsObject(d: Details): map<string, Json.Value>
  {
    if d == [] then map[] else DetailsObject(d[..|d| - 1])[d[|d| - 1].0 := d[|d| - 1].1]
  }

  /** `DriftError.to_dict`: type, error_code, message and details always, "cause" iff there is a cause. */
  function ToDict(e: DriftError): (r: map<string, Json.Value>)
    ensures r.Keys == {"type", "error_code", "message", "details"} + (if e.cause.Some? then {"cause"} else {})
    ensures r["type"] == Json.Str(e.kind) && r["error_code"] == Json.Str(CodeValue(e.code)) && r["message"] == Json.Str(e.message)
    ensures r["details"] == Json.Obj(DetailsObject(e.details))
    ensures e.cause.Some? ==>
      r["cause"] == Json.Obj(map["type" := Json.Str(e.cause.value.typeName), "message" := Json.Str(e.cause.value.text)])
  {
    var base := map["type" := Json.Str(e.kind), "error_code" := Json.Str(CodeValue(e.code)),
                    "message" := Json.Str(e.message), "details" := Json.Obj(DetailsObject(e.details))];
    if e.cause.Some? then
      base["cause" := Json.Obj(map["type" := Json.Str(e.cause.value.typeName), "message" := Json.Str(e.cause.value.text)])]
    else base
  }

  /** The dict form of the details holds exactly the listed keys, each with its value. */
  lemma {:induction false} DetailsObjectAgrees(d: Details, k: string)
    requires DistinctKeys(d)
    ensures k in DetailsObject(d) <==> Lookup(d, k).Some?
    ensures k in DetailsObject(d) ==> DetailsObject(d)[k] == Lookup(d, k).value
  {
    if d != [] {
      var init := d[..|d| - 1];
      DetailsObjectAgrees(init, k);
      LookupSnoc(init, d[|d| - 1], k);
      assert init + [d[|d| - 1]] == d;
    }
  }

  lemma {:induction false} LookupSnoc(d: Details, p: (string, Json.Value), k: string)
    requires forall i | 0 <= i < |d| :: d[i].0 != p.0
    ensures Lookup(d + [p], k) == if p.0 == k then Some(p.1) else Lookup(d, k)
  {
    if d != [] {
      assert (d + [p])[1..] == d[1..] + [p];
      LookupSnoc(d[1..], p, k);
    } else {
      assert [p][1..] == [];
    }
  }
}
