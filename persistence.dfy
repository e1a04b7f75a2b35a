/**
 * Session persistence (core/agent/persistence.py). A directory is a map from file name to file
 * text; `json.dump`/`json.load` are the parameters `encode`/`decode`, `datetime.isoformat` and
 * `datetime.fromisoformat` the parameters `iso`/`parse` over an abstract instant, and the clock
 * reading of a checkpoint is the already formatted `timestamp`.
 */
module Persistence {
  import opened Wrappers
  import Json
  import Strings
  import LlmModels

  type TokenUsage = LlmModels.TokenUsage

  /** A `datetime`, left abstract. */
  type Instant = nat

  datatype Snapshot = Snapshot(sessionId: string, createdAt: Instant, updatedAt: Instant, turnCount: int,
                               messages: seq<Json.Value>, totalUsage: TokenUsage)

  const UsageKeys := ["prompt_tokens", "completion_tokens", "total_tokens", "cached_tokens"]

  /** `TokenUsage.model_dump()`. */
  function UsageToJson(u: TokenUsage): (v: Json.Value)
    ensures v.Obj? && v.fields.Keys == set k | k in UsageKeys
  {
    Json.Obj(map["prompt_tokens" := Json.Num(u.promptTokens), "completion_tokens" := Json.Num(u.completionTokens),
                 "total_tokens" := Json.Num(u.totalTokens), "cached_tokens" := Json.Num(u.cachedTokens)])
  }

  /** One `TokenUsage` field: absent is 0, present it must be a non-negative number. */
  function UsageField(d: map<string, Json.Value>, key: string): (r: Option<nat>)
    ensures key !in d ==> r == Some(0)
    ensures key in d ==> (r.Some? <==> d[key].Num? && d[key].n >= 0)
    ensures r.Some? && key in d ==> d[key] == Json.Num(r.value)
  {
    if key !in d then Some(0)
    else if d[key].Num? && d[key].n >= 0 then Some(d[key].n)
    else None
  }

  /** `TokenUsage(**data)`: other keys are ignored, a field of the wrong kind is a validation error. */
  function UsageFromJson(v: Json.Value): (r: Option<TokenUsage>)
    ensures !v.Obj? ==> r.None?
    ensures v.Obj? && v.fields == map[] ==> r == Some(LlmModels.NoUsage)
  {
    if !v.Obj? then None
    else
      var d := v.fields;
      match (UsageField(d, "prompt_tokens"), UsageField(d, "completion_tokens"), UsageField(d, "total_tokens"),
             UsageField(d, "cached_tokens"))
      case (Some(p), Some(c), Some(t), Some(k)) => Some(LlmModels.TokenUsage(p, c, t, k))
      case _ => None
  }

  lemma UsageRoundTrip(u: TokenUsage)
    ensures UsageFromJson(UsageToJson(u)) == Some(u)
  {
    var d := UsageToJson(u).fields;
    assert UsageField(d, "prompt_tokens") == Some(u.promptTokens);
    assert UsageField(d, "completion_tokens") == Some(u.completionTokens);
    assert UsageField(d, "total_tokens") == Some(u.totalTokens);
    assert UsageField(d, "cached_tokens") == Some(u.cachedTokens);
  }

  /** `SessionSnapshot.to_dict`. */
  function ToDict(s: Snapshot, iso: Instant -> string): (v: Json.Value)
    ensures v.Obj?
    ensures v.fields.Keys == {"session_id", "created_at", "updated_at", "turn_count", "messages", "total_usage"}
    ensures v.fields["created_at"] == Json.Str(iso(s.createdAt)) && v.fields["updated_at"] == Json.Str(iso(s.updatedAt))
  {
    Json.Obj(map["session_id" := Json.Str(s.sessionId), "created_at" := Json.Str(iso(s.createdAt)),
                 "updated_at" := Json.Str(iso(s.updatedAt)), "turn_count" := Json.Num(s.turnCount),
                 "messages" := Json.Arr(s.messages), "total_usage" := UsageToJson(s.totalUsage)])
  }

  /** `datetime.fromisoformat` on a stored value, which must be a string. */
  function ParseInstant(v: Json.Value, parse: string -> Option<Instant>): Option<Instant>
  {
    if v.Str? then parse(v.s) else None
  }

  /**
   * `SessionSnapshot.from_dict`, with `None` wherever the Python code raises: the data is not a
   * dict, a key is missing, a timestamp does not parse or the usage does not validate.
   */
  function FromDict(data: Json.Value, parse: string -> Option<Instant>): (r: Option<Snapshot>)
    ensures r.Some? ==> data.Obj? && data.fields.Keys >= {"session_id", "created_at", "updated_at", "turn_count", "messages", "total_usage"}
    ensures r.Some? ==> ParseInstant(data.fields["created_at"], parse) == Some(r.value.createdAt)
                        && ParseInstant(data.fields["updated_at"], parse) == Some(r.value.updatedAt)
  {
    if !data.Obj? then None
    else
      var d := data.fields;
      if !("session_id" in d && "created_at" in d && "updated_at" in d && "turn_count" in d && "messages" in d
           && "total_usage" in d) then None
      else if !(d["session_id"].Str? && d["turn_count"].Num? && d["messages"].Arr?) then None
      else
        match (ParseInstant(d["created_at"], parse), ParseInstant(d["updated_at"], parse), UsageFromJson(d["total_usage"]))
        case (Some(c), Some(u), Some(usage)) =>
          Some(Snapshot(d["session_id"].s, c, u, d["turn_count"].n, d["messages"].items, usage))
        case _ => None
  }

  /** `from_dict(to_dict(s))` gives back every field of `s` when the two timestamps read back. */
  lemma DictRoundTrip(s: Snapshot, iso: Instant -> string, parse: string -> Option<Instant>)
    requires parse(iso(s.createdAt)) == Some(s.createdAt) && parse(iso(s.updatedAt)) == Some(s.updatedAt)
    ensures FromDict(ToDict(s, iso), parse) == Some(s)
  {
    UsageRoundTrip(s.totalUsage);
  }

  // ---------------------------------------------------------------------------------------
  // Files

  function FileName(id: string): string
  {
    id + ".json"
  }

  /** `load_session`/`load_checkpoint` on a directory: `None` for a missing file or a failed parse. */
  function Load(dir: map<string, string>, id: string, decode: string -> Option<Json.Value>,
                parse: string -> Option<Instant>): (r: Option<Snapshot>)
    ensures FileName(id) !in dir ==> r.None?
    ensures FileName(id) in dir && decode(dir[FileName(id)]).None? ==> r.None?
    ensures r.Some? ==> FileName(id) in dir && decode(dir[FileName(id)]).Some?
                        && FromDict(decode(dir[FileName(id)]).value, parse) == r
  {
    if FileName(id) !in dir then None
    else match decode(dir[FileName(id)])
      case None => None
      case Some(data) => FromDict(data, parse)
  }

  /** Writing a snapshot with `json.dump` and loading it under the name it was written under gives it back. */
  lemma SaveThenLoad(dir: map<string, string>, name: string, s: Snapshot, encode: Json.Value -> string,
                     decode: string -> Option<Json.Value>, iso: Instant -> string, parse: string -> Option<Instant>)
    requires decode(encode(ToDict(s, iso))) == Some(ToDict(s, iso))
    requires parse(iso(s.createdAt)) == Some(s.createdAt) && parse(iso(s.updatedAt)) == Some(s.updatedAt)
    ensures Load(dir[FileName(name) := encode(ToDict(s, iso))], name, decode, parse) == Some(s)
  {
    DictRoundTrip(s, iso, parse);
  }

  /** The metadata `list_sessions` copies from each readable file. */
  datatype SessionInfo = SessionInfo(sessionId: Json.Value, createdAt: Json.Value, updatedAt: Json.Value,
                                     turnCount: Json.Value)

  /** The metadata of one file, or `None` when reading it raises, so that it is skipped. */
  function InfoOf(text: string, decode: string -> Option<Json.Value>): (r: Option<SessionInfo>)
    ensures r.Some? <==> decode(text).Some? && decode(text).value.Obj?
                         && decode(text).value.fields.Keys >= {"session_id", "created_at", "updated_at", "turn_count"}
  {
    match decode(text)
    case Some(Obj(d)) =>
      if "session_id" in d && "created_at" in d && "updated_at" in d && "turn_count" in d
      then Some(SessionInfo(d["session_id"], d["created_at"], d["updated_at"], d["turn_count"]))
      else None
    case _ => None
  }

  /** The metadata of the readable files, in listing order. */
  function Readable(texts: seq<string>, decode: string -> Option<Json.Value>): seq<SessionInfo>
  {
    if texts == [] then []
    else
      var init := Readable(texts[..|texts| - 1], decode);
      match InfoOf(texts[|texts| - 1], decode)
      case Some(info) => init + [info]
      case None => init
  }

  /** Every timestamp is a string, so that the sort compares strings only. */
  predicate StringStamps(infos: seq<SessionInfo>)
  {
    forall i | 0 <= i < |infos| :: infos[i].updatedAt.Str?
  }

  /** Newest first: each `updated_at` is at least the next one's. */
  predicate NewestFirst(infos: seq<SessionInfo>)
    requires StringStamps(infos)
  {
    forall i | 0 < i < |infos| :: Strings.Below(infos[i].updatedAt.s, infos[i - 1].updatedAt.s)
  }

  /**
   * Inserting into a newest-first list: after every entry at least as new, which is where a
   * stable descending sort leaves it.
   */
  function Insert(sorted: seq<SessionInfo>, e: SessionInfo): (r: seq<SessionInfo>)
    requires e.updatedAt.Str? && StringStamps(sorted)
    ensures StringStamps(r) && multiset(r) == multiset(sorted) + multiset{e} && |r| == |sorted| + 1
    ensures |sorted| > 0 ==> r[0] == e || r[0] == sorted[0]
  {
    if sorted == [] then [e]
    else if Strings.Below(e.updatedAt.s, sorted[0].updatedAt.s) then
      assert sorted == [sorted[0]] + sorted[1..];
      [sorted[0]] + Insert(sorted[1..], e)
    else [e] + sorted
  }

  lemma {:induction false} InsertKeepsOrder(sorted: seq<SessionInfo>, e: SessionInfo)
    requires e.updatedAt.Str? && StringStamps(sorted) && NewestFirst(sorted)
    ensures NewestFirst(Insert(sorted, e))
  {
    if sorted != [] && Strings.Below(e.updatedAt.s, sorted[0].updatedAt.s) {
      var rest := Insert(sorted[1..], e);
      InsertKeepsOrder(sorted[1..], e);
      if |rest| > 0 && rest[0] == e {
        assert Strings.Below(rest[0].updatedAt.s, sorted[0].updatedAt.s);
      } else if |rest| > 0 {
        assert rest[0] == sorted[1];
      }
      assert Insert(sorted, e) == [sorted[0]] + rest;
    } else if sorted != [] {
      Strings.BelowTotal(e.updatedAt.s, sorted[0].updatedAt.s);
    }
  }

  /** `sessions.sort(key=updated_at, reverse=True)` on string timestamps. */
  function SortNewestFirst(infos: seq<SessionInfo>): (r: seq<SessionInfo>)
    requires StringStamps(infos)
    ensures StringStamps(r) && multiset(r) == multiset(infos)
  {
    if infos == [] then []
    else
      assert StringStamps(infos[..|infos| - 1]);
      assert infos == infos[..|infos| - 1] + [infos[|infos| - 1]];
      Insert(SortNewestFirst(infos[..|infos| - 1]), infos[|infos| - 1])
  }

  lemma {:induction false} SortIsNewestFirst(infos: seq<SessionInfo>)
    requires StringStamps(infos)
    ensures NewestFirst(SortNewestFirst(infos))
  {
    if infos != [] {
      assert StringStamps(infos[..|infos| - 1]);
      SortIsNewestFirst(infos[..|infos| - 1]);
      InsertKeepsOrder(SortNewestFirst(infos[..|infos| - 1]), infos[|infos| - 1]);
    }
  }

  /**
   * What `list_sessions` returns: the readable files' metadata, newest first. Timestamps that are
   * not all strings are taken to make the sort raise a `TypeError`, which `list_sessions` does not
   * catch, as soon as there are two entries to compare.
   */
  function Listed(infos: seq<SessionInfo>): Result<seq<SessionInfo>, string>
  {
    if StringStamps(infos) then Ok(SortNewestFirst(infos))
    else if |infos| < 2 then Ok(infos)
    else Err("TypeError")
  }

  /** A successful listing holds exactly the readable files' metadata, each once, newest first. */
  lemma ListedIsSortedPermutation(infos: seq<SessionInfo>)
    requires StringStamps(infos)
    ensures Listed(infos).Ok? && multiset(Listed(infos).value) == multiset(infos)
    ensures NewestFirst(Listed(infos).value)
  {
    SortIsNewestFirst(infos);
  }

  /** A file whose text does not read as session metadata contributes nothing. */
  lemma UnreadableSkipped(texts: seq<string>, t: string, decode: string -> Option<Json.Value>)
    requires InfoOf(t, decode).None?
    ensures Readable(texts + [t], decode) == Readable(texts, decode)
  {
    assert (texts + [t])[..|texts + [t]| - 1] == texts;
  }

  /** The texts of the listed files, in listing order. */
  function Contents(dir: map<string, string>, listing: seq<string>): (texts: seq<string>)
    requires forall i | 0 <= i < |listing| :: listing[i] in dir
    ensures |texts| == |listing| && forall i | 0 <= i < |listing| :: texts[i] == dir[listing[i]]
  {
    seq(|listing|, i requires 0 <= i < |listing| => dir[listing[i]])
  }

  // ---------------------------------------------------------------------------------------
  // The manager

  /** `PersistenceManager`: the sessions and checkpoints directories. */
  class PersistenceManager {
    var sessions: map<string, string>
    var checkpoints: map<string, string>

    constructor(sessions: map<string, string>, checkpoints: map<string, string>)
      ensures this.sessions == sessions && this.checkpoints == checkpoints
    {
      this.sessions := sessions;
      this.checkpoints := checkpoints;
    }

    /** `save_session`: the snapshot's dict is written to "<session_id>.json". */
    method SaveSession(s: Snapshot, encode: Json.Value -> string, iso: Instant -> string)
      modifies this
      ensures sessions == old(sessions)[FileName(s.sessionId) := encode(ToDict(s, iso))]
      ensures checkpoints == old(checkpoints)
    {
      sessions := sessions[FileName(s.sessionId) := encode(ToDict(s, iso))];
    }

    function LoadSession(id: string, decode: string -> Option<Json.Value>, parse: string -> Option<Instant>): Option<Snapshot>
      reads this
    {
      Load(sessions, id, decode, parse)
    }

    /** `save_checkpoint`: the id is "<session_id>_<timestamp>", and the snapshot is written under it. */
    method SaveCheckpoint(s: Snapshot, timestamp: string, encode: Json.Value -> string, iso: Instant -> string)
      returns (id: string)
      modifies this
      ensures id == s.sessionId + "_" + timestamp
      ensures checkpoints == old(checkpoints)[FileName(id) := encode(ToDict(s, iso))]
      ensures sessions == old(sessions)
    {
      id := s.sessionId + "_" + timestamp;
      checkpoints := checkpoints[FileName(id) := encode(ToDict(s, iso))];
    }

    function LoadCheckpoint(id: string, decode: string -> Option<Json.Value>, parse: string -> Option<Instant>): Option<Snapshot>
      reads this
    {
      Load(checkpoints, id, decode, parse)
    }

    /**
     * `list_sessions`, over the names `glob("*.json")` yields in the order it yields them: the
     * readable files' metadata, then the sort.
     */
    method ListSessions(listing: seq<string>, decode: string -> Option<Json.Value>) returns (r: Result<seq<SessionInfo>, string>)
      requires forall i | 0 <= i < |listing| :: listing[i] in sessions
      ensures r == Listed(Readable(Contents(sessions, listing), decode))
    {
      var texts := Contents(sessions, listing);
      var infos: seq<SessionInfo> := [];
      var i := 0;
      while i < |listing|
        invariant 0 <= i <= |listing|
        invariant infos == Readable(texts[..i], decode)
      {
        assert texts[..i + 1][..i] == texts[..i];
        var info := InfoOf(sessions[listing[i]], decode);
        if info.Some? {
          infos := infos + [info.value];
        }
        i := i + 1;
      }
      assert texts[..i] == texts;
      r := Listed(infos);
    }
  }
}
