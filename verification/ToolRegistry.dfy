/**
 * src/rag/agent/tools/registry.py and cache.py: the gates before a tool runs, and the cache of what it returned.
 * The cache key is the record whose canonical JSON the source hashes.
 */
module ToolRegistry {
  import opened Schemas
  import opened Collections
  import opened Acl
  import opened Caches
  import opened Citations

  datatype Json =
    | JNull
    | JBool(bool)
    | JInteger(int)
    | JNumber(real)
    | JString(string)
    | JArray(seq<Json>)
    | JObject(map<string, Json>)

  type Arguments = Dict<string, Json>

  datatype ToolCall = ToolCall(id: string, name: string, arguments: Arguments)

  datatype ToolResult = ToolResult(
    callId: string,
    name: string,
    ok: bool,
    content: string,
    sources: seq<Source>,
    error: Option<string>)

  function Failed(call: ToolCall, error: string): ToolResult {
    ToolResult(call.id, call.name, false, "", [], Some(error))
  }

  // ---- Arguments ----

  /** A property's declared types; none means any value will do. */
  datatype Schema = Schema(properties: map<string, set<string>>, additional: bool, required: seq<string>)

  /** src/rag/agent/tools/registry.py:191-205 */
  predicate MatchesType(value: Json, kinds: set<string>) {
    || ("string" in kinds && value.JString?)
    || ("number" in kinds && (value.JInteger? || value.JNumber?))
    || ("integer" in kinds && value.JInteger?)
    || ("boolean" in kinds && value.JBool?)
    || ("array" in kinds && value.JArray?)
    || ("object" in kinds && value.JObject?)
    || ("null" in kinds && value.JNull?)
  }

  /** The one type name of a value, and "number" for an integer as well. */
  function TypeNames(value: Json): set<string> {
    match value
    case JNull => {"null"}
    case JBool(_) => {"boolean"}
    case JInteger(_) => {"integer", "number"}
    case JNumber(_) => {"number"}
    case JString(_) => {"string"}
    case JArray(_) => {"array"}
    case JObject(_) => {"object"}
  }

  /** A value has a declared type exactly when one of the types is a name of its own. */
  lemma MatchesExactly(value: Json, kinds: set<string>)
    ensures MatchesType(value, kinds) <==> exists kind :: kind in kinds && kind in TypeNames(value)
  {
    if MatchesType(value, kinds) {
      var kind :| kind in TypeNames(value) && kind in kinds;
    }
  }

  function Kinds(schema: Schema, key: string): set<string> {
    if key in schema.properties then schema.properties[key] else {}
  }

  predicate WellTyped(schema: Schema, key: string, value: Json) {
    Kinds(schema, key) == {} || MatchesType(value, Kinds(schema, key))
  }

  datatype ArgumentError = Unexpected(extra: set<string>) | Missing(absent: seq<string>) | WrongType(field: string)

  function Absent(required: seq<string>, keys: set<string>): seq<string> {
    if required == [] then []
    else (if required[0] in keys then [] else [required[0]]) + Absent(required[1..], keys)
  }

  function Mistyped(schema: Schema, keys: seq<string>, at: map<string, Json>): Option<string>
    requires forall k <- keys :: k in at
  {
    if keys == [] then None
    else if !WellTyped(schema, keys[0], at[keys[0]]) then Some(keys[0])
    else Mistyped(schema, keys[1..], at)
  }

  /** src/rag/agent/tools/registry.py:145-188 */
  function ValidateArguments(arguments: Arguments, schema: Schema): Result<Arguments, ArgumentError> {
    var unexpected := arguments.at.Keys - schema.properties.Keys;
    var missing := Absent(schema.required, arguments.at.Keys);
    KeysDistinct(arguments);
    var mistyped := Mistyped(schema, arguments.keys, arguments.at);
    if !schema.additional && unexpected != {} then Err(Unexpected(unexpected))
    else if missing != [] then Err(Missing(missing))
    else if mistyped.Some? then Err(WrongType(mistyped.value))
    else Ok(arguments)
  }

  lemma {:induction false} AbsentExactly(required: seq<string>, keys: set<string>)
    ensures forall k :: k in Absent(required, keys) <==> k in required && k !in keys
    ensures Absent(required, keys) == [] <==> forall k <- required :: k in keys
  {
    if required != [] {
      AbsentExactly(required[1..], keys);
    }
  }

  lemma {:induction false} MistypedExactly(schema: Schema, keys: seq<string>, at: map<string, Json>)
    requires forall k <- keys :: k in at
    ensures match Mistyped(schema, keys, at)
            case Some(k) => k in keys && !WellTyped(schema, k, at[k])
            case None => forall k <- keys :: WellTyped(schema, k, at[k])
  {
    if keys != [] && WellTyped(schema, keys[0], at[keys[0]]) {
      MistypedExactly(schema, keys[1..], at);
    }
  }

  /** Arguments pass, unchanged, exactly when all are declared, none required is missing, and each has its type. */
  lemma ValidateExactly(arguments: Arguments, schema: Schema)
    ensures var r := ValidateArguments(arguments, schema);
            && (r.Ok? <==>
                  && (schema.additional || arguments.at.Keys <= schema.properties.Keys)
                  && (forall k <- schema.required :: k in arguments.at)
                  && (forall k <- arguments.at :: WellTyped(schema, k, arguments.at[k])))
            && (r.Ok? ==> r.value == arguments)
  {
    KeysDistinct(arguments);
    AbsentExactly(schema.required, arguments.at.Keys);
    MistypedExactly(schema, arguments.keys, arguments.at);
    var extra := arguments.at.Keys - schema.properties.Keys;
    if extra == {} {
      assert forall k <- arguments.at.Keys :: k !in extra;
    }
  }

  // ---- The gates ----

  datatype Tool = Tool(name: string, parameters: Schema, requiresEgress: bool)

  /** What decides whether a call may run: the tools, whether egress is allowed, and which tools are up just now. */
  datatype Setting = Setting(tools: map<string, Tool>, allowEgress: bool, available: set<string>)

  type Explain = ArgumentError -> string

  /** The gates in their order, src/rag/agent/tools/registry.py:73-111. */
  function Gate(st: Setting, call: ToolCall, explain: Explain): Result<Arguments, string> {
    if call.name !in st.tools then Err("unknown_tool:" + call.name)
    else
      var tool := st.tools[call.name];
      if tool.requiresEgress && !st.allowEgress then Err("egress_denied")
      else if call.name !in st.available then Err("tool_unavailable:" + call.name)
      else
        var r := ValidateArguments(call.arguments, tool.parameters);
        if r.Err? then Err("invalid_arguments:" + explain(r.error)) else Ok(r.value)
  }

  /** src/rag/agent/tools/registry.py:46-62: what a planner is offered */
  predicate Offered(st: Setting, name: string) {
    name in st.tools && name in st.available && (st.allowEgress || !st.tools[name].requiresEgress)
  }

  /** A call gets past the gates exactly when its tool is offered and its arguments are valid. */
  lemma GateExactly(st: Setting, call: ToolCall, explain: Explain)
    ensures Gate(st, call, explain).Ok? <==>
              Offered(st, call.name) && ValidateArguments(call.arguments, st.tools[call.name].parameters).Ok?
    ensures Gate(st, call, explain).Ok? ==> Gate(st, call, explain).value == call.arguments
  {
    if call.name in st.tools {
      ValidateExactly(call.arguments, st.tools[call.name].parameters);
    }
  }

  // ---- Running ----

  datatype RunOutcome = Returns(result: ToolResult) | Raises(error: string)

  /** What a tool does, from its name, its arguments, the caller, and the index version that is live. */
  type Behaviour = (string, map<string, Json>, Principal, string) -> RunOutcome

  /** A call as it reaches the registry. */
  datatype Request = Request(call: ToolCall, principal: Principal, indexVersion: string, setting: Setting, now: int)

  /** The identity of a result comes from the call, never from the tool. */
  function Bound(r: ToolResult, call: ToolCall): ToolResult {
    r.(callId := call.id, name := call.name)
  }

  function RunTool(behave: Behaviour, q: Request, arguments: Arguments): ToolResult {
    match behave(q.call.name, arguments.at, q.principal, q.indexVersion)
    case Raises(error) => Failed(q.call, error)
    case Returns(r) => Bound(r, q.call)
  }

  /** The result without a cache. */
  function Direct(behave: Behaviour, explain: Explain, q: Request): ToolResult {
    match Gate(q.setting, q.call, explain)
    case Err(error) => Failed(q.call, error)
    case Ok(arguments) => RunTool(behave, q, arguments)
  }

  // ---- The result cache ----

  /** src/rag/agent/tools/cache.py:19-40 */
  datatype ToolKey = ToolKey(tool: string, arguments: map<string, Json>, acl: string, indexVersion: string)

  type Store = map<ToolKey, Slot<ToolResult>>

  datatype Cached = Cached(enabled: bool, ttl: int)

  function KeyOf(q: Request, arguments: Arguments): ToolKey {
    ToolKey(q.call.name, arguments.at, Fingerprint(q.principal), q.indexVersion)
  }

  /** What one call returns and leaves in the cache, src/rag/agent/tools/registry.py:64-142. */
  function Executed(behave: Behaviour, explain: Explain, c: Cached, store: Store, q: Request): (ToolResult, Store) {
    match Gate(q.setting, q.call, explain)
    case Err(error) => (Failed(q.call, error), store)
    case Ok(arguments) =>
      var key := KeyOf(q, arguments);
      var hit := if c.enabled then Lookup(store, key, q.now) else None;
      var swept := if c.enabled then Swept(store, key, q.now) else store;
      if hit.Some? then (Bound(hit.value, q.call), swept)
      else
        var r := RunTool(behave, q, arguments);
        (r, if c.enabled && r.ok then Written(swept, key, r.(callId := ""), Some(c.ttl), q.now) else swept)
  }

  /** What is stored is what the tool returns to everyone who may be handed it, and it is not a failure. */
  ghost predicate Truthful(behave: Behaviour, key: ToolKey, r: ToolResult) {
    && r.ok && r.callId == "" && r.name == key.tool
    && forall p :: Clean(p) && Fingerprint(p) == key.acl ==>
         var outcome := behave(key.tool, key.arguments, p, key.indexVersion);
         outcome.Returns? && outcome.result.(callId := "", name := key.tool) == r
  }

  ghost predicate TruthfulStore(behave: Behaviour, store: Store) {
    forall key <- store :: Truthful(behave, key, store[key].value)
  }

  /** Tools look at a caller's reach, not at who they are. */
  ghost predicate ByReach(behave: Behaviour) {
    forall n, a, p, q, v :: SameReach(p, q) ==> behave(n, a, p, v) == behave(n, a, q, v)
  }

  lemma StoredTruthfully(behave: Behaviour, q: Request, arguments: Arguments)
    requires ByReach(behave) && Clean(q.principal) && RunTool(behave, q, arguments).ok
    ensures Truthful(behave, KeyOf(q, arguments), RunTool(behave, q, arguments).(callId := ""))
  {
    var key := KeyOf(q, arguments);
    forall p | Clean(p) && Fingerprint(p) == key.acl
      ensures behave(key.tool, key.arguments, p, key.indexVersion) ==
                behave(key.tool, key.arguments, q.principal, key.indexVersion)
    {
      FingerprintFullyAbstract(p, q.principal);
    }
  }

  /** One call with a truthful cache returns what it would without one, and leaves a truthful cache. */
  lemma ExecutedTruthfully(behave: Behaviour, explain: Explain, c: Cached, store: Store, q: Request)
    requires ByReach(behave) && Clean(q.principal) && TruthfulStore(behave, store)
    ensures Executed(behave, explain, c, store, q).0 == Direct(behave, explain, q)
    ensures TruthfulStore(behave, Executed(behave, explain, c, store, q).1)
  {
    var gate := Gate(q.setting, q.call, explain);
    if gate.Ok? {
      var key := KeyOf(q, gate.value);
      if c.enabled && Lookup(store, key, q.now).Some? {
        assert Truthful(behave, key, store[key].value);
      } else if RunTool(behave, q, gate.value).ok {
        StoredTruthfully(behave, q, gate.value);
      }
    }
  }

  /** The results of a history of calls that share a cache. */
  function History(behave: Behaviour, explain: Explain, c: Cached, store: Store, qs: seq<Request>)
    : (rs: seq<ToolResult>)
    ensures |rs| == |qs|
    decreases |qs|
  {
    if qs == [] then []
    else
      var (r, store') := Executed(behave, explain, c, store, qs[0]);
      [r] + History(behave, explain, c, store', qs[1..])
  }

  /** The `i`-th result is the one the call would get without the cache. */
  ghost predicate UncachedAt(behave: Behaviour, explain: Explain, rs: seq<ToolResult>, qs: seq<Request>, i: nat) {
    && i < |rs| && i < |qs| && rs[i] == Direct(behave, explain, qs[i])
    && rs[i].callId == qs[i].call.id && rs[i].name == qs[i].call.name
  }

  lemma {:induction false} TransparentAt(behave: Behaviour, explain: Explain, c: Cached, store: Store,
                                         qs: seq<Request>, i: nat)
    requires ByReach(behave) && TruthfulStore(behave, store) && (forall q <- qs :: Clean(q.principal)) && i < |qs|
    ensures UncachedAt(behave, explain, History(behave, explain, c, store, qs), qs, i)
    decreases i
  {
    ExecutedTruthfully(behave, explain, c, store, qs[0]);
    if i > 0 {
      TransparentAt(behave, explain, c, Executed(behave, explain, c, store, qs[0]).1, qs[1..], i - 1);
    }
  }

  /**
   * Over any history of calls, by any callers, at any times, the cache is not seen: every result is the one the call
   * would get without it, under the call's own id and name.
   */
  lemma CacheIsTransparent(behave: Behaviour, explain: Explain, c: Cached, store: Store, qs: seq<Request>)
    requires ByReach(behave) && TruthfulStore(behave, store) && forall q <- qs :: Clean(q.principal)
    ensures forall i :: 0 <= i < |qs| ==> UncachedAt(behave, explain, History(behave, explain, c, store, qs), qs, i)
  {
    forall i | 0 <= i < |qs|
      ensures UncachedAt(behave, explain, History(behave, explain, c, store, qs), qs, i)
    {
      TransparentAt(behave, explain, c, store, qs, i);
    }
  }

  /** The same tool is asked the same thing, in the same version, by a caller of the same reach. */
  predicate AsksTheSame(q: Request, q': Request) {
    && q'.call.name == q.call.name && q'.call.arguments == q.call.arguments
    && Fingerprint(q'.principal) == Fingerprint(q.principal) && q'.indexVersion == q.indexVersion
  }

  /**
   * What the cache is for: once a tool has answered, the same question is answered so again for the time to live,
   * whatever the tool would do now. A failure is not remembered.
   */
  lemma SecondCallHits(behave: Behaviour, behave': Behaviour, explain: Explain, c: Cached, store: Store, q: Request,
                       q': Request)
    requires c.enabled && Gate(q.setting, q.call, explain).Ok? && Gate(q'.setting, q'.call, explain).Ok?
    requires Lookup(store, KeyOf(q, q.call.arguments), q.now).None?
    requires AsksTheSame(q, q') && q.now <= q'.now && (c.ttl == 0 || q'.now <= q.now + c.ttl)
    ensures var (first, store') := Executed(behave, explain, c, store, q);
            if first.ok then Executed(behave', explain, c, store', q').0 == first.(callId := q'.call.id)
            else Lookup(store', KeyOf(q', q'.call.arguments), q'.now).None?
  {
    GateExactly(q.setting, q.call, explain);
    GateExactly(q'.setting, q'.call, explain);
    var key := KeyOf(q, q.call.arguments);
    var first := RunTool(behave, q, q.call.arguments);
    ReadBack(Swept(store, key, q.now), key, first.(callId := ""), Some(c.ttl), q.now, q'.now, key);
  }

  /** Whatever is stored, a call that a gate turns away is turned away with the same error, and stores nothing. */
  lemma NoHitPastGates(behave: Behaviour, explain: Explain, c: Cached, store: Store, q: Request)
    requires !Offered(q.setting, q.call.name)
             || ValidateArguments(q.call.arguments, q.setting.tools[q.call.name].parameters).Err?
    ensures !Executed(behave, explain, c, store, q).0.ok
    ensures Executed(behave, explain, c, store, q) == (Direct(behave, explain, q), store)
  {
    GateExactly(q.setting, q.call, explain);
  }

  class Registry {
    var tools: map<string, Tool>
    const cache: MemoryCache<ToolKey, ToolResult>
    const cached: Cached
    const behave: Behaviour
    const explain: Explain

    constructor (cache: MemoryCache<ToolKey, ToolResult>, cached: Cached, behave: Behaviour, explain: Explain)
      ensures tools == map[] && this.cache == cache && this.cached == cached && this.behave == behave
              && this.explain == explain
    {
      tools := map[];
      this.cache, this.cached, this.behave, this.explain := cache, cached, behave, explain;
    }

    /** src/rag/agent/tools/registry.py:34-38 */
    method Register(tool: Tool) returns (r: Result<(), string>)
      modifies this
      ensures r.Ok? <==> tool.name !in old(tools)
      ensures tools == if r.Ok? then old(tools)[tool.name := tool] else old(tools)
    {
      if tool.name in tools {
        return Err("duplicate tool registration: " + tool.name);
      }
      tools := tools[tool.name := tool];
      r := Ok(());
    }

    /** src/rag/agent/tools/registry.py:64-142 */
    method Execute(call: ToolCall, principal: Principal, allowEgress: bool, available: set<string>,
                   indexVersion: string, now: int)
      returns (result: ToolResult)
      modifies cache
      ensures (result, cache.store) ==
                Executed(behave, explain, cached, old(cache.store),
                         Request(call, principal, indexVersion, Setting(tools, allowEgress, available), now))
    {
      if call.name !in tools {
        return Failed(call, "unknown_tool:" + call.name);
      }
      var tool := tools[call.name];
      if tool.requiresEgress && !allowEgress {
        return Failed(call, "egress_denied");
      }
      if call.name !in available {
        return Failed(call, "tool_unavailable:" + call.name);
      }
      var arguments := ValidateArguments(call.arguments, tool.parameters);
      if arguments.Err? {
        return Failed(call, "invalid_arguments:" + explain(arguments.error));
      }
      var key := ToolKey(call.name, arguments.value.at, Fingerprint(principal), indexVersion);
      if cached.enabled {
        var hit := cache.Get(key, now);
        if hit.Some? {
          return hit.value.(callId := call.id, name := call.name);
        }
      }
      var outcome := behave(call.name, arguments.value.at, principal, indexVersion);
      if outcome.Raises? {
        return Failed(call, outcome.error);
      }
      result := outcome.result.(callId := call.id, name := call.name);
      if cached.enabled && result.ok {
        cache.Set(key, result.(callId := ""), Some(cached.ttl), now);
      }
    }
  }
}
