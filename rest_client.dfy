/** `DjangoRestAdminClient`: a typed wrapper around a Django REST endpoint. Options given
    when the client is built are merged with options given per call, missing options are
    filled with defaults, and every call runs the response through `then`, recovers from
    a failure with `error`, and post-processes the value with `parse`.

    A JavaScript object's key is either absent, present with the value `undefined`, or
    present with a value; spreading `{...a, ...b}` takes a key from `b` whenever `b` has it,
    even when its value is `undefined`, so the model keeps all three cases apart (`Slot`).
    Promises become `Outcome`s; the HTTP client becomes the `send` parameter of each call. */
module RestClient {
  import opened Common

  /** One key of a JavaScript object. */
  datatype Slot<T> = Missing | Undef | Val(value: T)

  /** What a rejected promise carries. */
  datatype Exception =
    | Raised(message: string)   // `throw "…"` of a string
    | TypeError                 // calling `undefined`, reading a property of null, …
    | RangeError                // `Array(n)` with an invalid length
    | Transport(status: int)    // an `AxiosError`

  /** A settled promise. */
  datatype Outcome<T> = Resolved(value: T) | Rejected(error: Exception)

  /** An `AxiosResponse`. */
  datatype Response = Response(status: int, data: Json)

  type ThenFn = (Response, string) -> Outcome<Json>
  type ErrorFn = (Exception, string) -> Outcome<Json>
  type ParseFn = (Json, string) -> Outcome<Json>

  /** `DjangoRestAdminOptions`, without `auth`, which only feeds the HTTP client's headers. */
  datatype Options = Options(
    endpoint: Slot<string>,
    placeholder: Slot<Json>,
    listPlaceholderCount: Slot<int>,
    axiosConfig: Slot<map<string, Json>>,
    manualActions: Slot<seq<string>>,
    thenFn: Slot<ThenFn>,
    errorFn: Slot<ErrorFn>,
    parseFn: Slot<ParseFn>)

  /** Per-call options that were not given at all. */
  const NoOptions := Options(Missing, Missing, Missing, Missing, Missing, Missing, Missing, Missing)

  /** `ParsedOptions`: every key is present (possibly `undefined`), and the callbacks are
      ready to call; calling an `undefined` callback is a TypeError. */
  datatype Parsed = Parsed(
    endpoint: Slot<string>,
    placeholder: Slot<Json>,
    listPlaceholderCount: Slot<int>,
    axiosConfig: Slot<map<string, Json>>,
    manualActions: Slot<seq<string>>,
    thenFn: ThenFn,
    errorFn: ErrorFn,
    parseFn: ParseFn,
    localParse: ParseFn,        // the `parse` closure, used by `listParse`
    listPlaceholder: Json,      // what `listError` returns
    parsedPlaceholder: Json,
    parsedListPlaceholder: Json)

  // ---------------------------------------------------------------------------
  // _parseOption
  // ---------------------------------------------------------------------------

  /** `options.listPlaceholderCount || 3`. */
  function CountOf(s: Slot<int>): (n: int)
    ensures s.Val? && s.value != 0 ==> n == s.value
    ensures !(s.Val? && s.value != 0) ==> n == 3
  {
    if s.Val? && s.value != 0 then s.value else 3
  }

  /** The lengths `Array(n)` accepts. */
  predicate ValidLength(n: int)
  {
    0 <= n < 0x1_0000_0000
  }

  /** `options.placeholder || {}`. */
  function PlaceholderOf(s: Slot<Json>): (p: Json)
    ensures s.Val? && Truthy(s.value) ==> p == s.value
    ensures !(s.Val? && Truthy(s.value)) ==> p == EmptyObject
  {
    if s.Val? && Truthy(s.value) then s.value else EmptyObject
  }

  /** The `parse` closure: the identity when `options.parse` is falsy. */
  function LocalParse(s: Slot<ParseFn>): ParseFn
  {
    if s.Val? then s.value else (src: Json, action: string) => Resolved(src)
  }

  /** The value of a computed field after `...options` is spread over it. */
  function Spread<T>(given: Slot<T>, computed: T): (r: Slot<T>)
    ensures given.Missing? ==> r == Val(computed)
    ensures !given.Missing? ==> r == given
  {
    if given.Missing? then Val(computed) else given
  }

  /** The `then` field after the spread: the default closure returns `r.data`. */
  function ThenOf(s: Slot<ThenFn>): ThenFn
  {
    match s
    case Missing => (r: Response, action: string) => Resolved(r.data)
    case Undef => (r: Response, action: string) => Rejected(TypeError)
    case Val(f) => f
  }

  /** The `error` field after the spread: the default closure returns the placeholder. */
  function ErrorOf(s: Slot<ErrorFn>, placeholder: Json): ErrorFn
  {
    match s
    case Missing => (e: Exception, action: string) => Resolved(placeholder)
    case Undef => (e: Exception, action: string) => Rejected(TypeError)
    case Val(f) => f
  }

  /** The `parse` field after the spread: the default closure is the identity. */
  function ParseOf(s: Slot<ParseFn>): ParseFn
  {
    match s
    case Missing => (src: Json, action: string) => Resolved(src)
    case Undef => (src: Json, action: string) => Rejected(TypeError)
    case Val(f) => f
  }

  /** `listPlaceholder`: `n` copies of the placeholder and no neighbouring pages. */
  function ListPlaceholder(n: nat, placeholder: Json): (l: Json)
    ensures l.JObj? && l.fields.Keys == {"count", "next", "previous", "results"}
    ensures l.fields["count"] == JNum(n) && l.fields["next"] == JNull && l.fields["previous"] == JNull
    ensures l.fields["results"].JArr? && |l.fields["results"].items| == n
    ensures forall i :: 0 <= i < n ==> l.fields["results"].items[i] == placeholder
  {
    JObj(map["count" := JNum(n), "next" := JNull, "previous" := JNull,
             "results" := JArr(seq(n, _ => placeholder))])
  }

  /** `items.map(i => parse(i, action))`: stops at the first item whose parse throws. */
  function MapParse(parse: ParseFn, items: seq<Json>, action: string): (r: Outcome<seq<Json>>)
    ensures r.Resolved? <==> forall i :: 0 <= i < |items| ==> parse(items[i], action).Resolved?
    ensures r.Resolved? ==>
      && |r.value| == |items|
      && forall i :: 0 <= i < |items| ==> r.value[i] == parse(items[i], action).value
    ensures r.Rejected? ==>
      exists k :: (0 <= k < |items| && parse(items[k], action) == Rejected(r.error) &&
                   forall i :: 0 <= i < k ==> parse(items[i], action).Resolved?)
  {
    if items == [] then Resolved([])
    else
      var head := parse(items[0], action);
      if head.Rejected? then Rejected(head.error)
      else
        var tail := MapParse(parse, items[1..], action);
        if tail.Rejected? then
          var k :| 0 <= k < |items[1..]| && parse(items[1..][k], action) == Rejected(tail.error) &&
                   forall i :: 0 <= i < k ==> parse(items[1..][i], action).Resolved?;
          assert parse(items[k + 1], action) == Rejected(tail.error);
          assert forall i :: 0 < i < k + 1 ==> items[i] == items[1..][i - 1];
          Rejected(tail.error)
        else
          assert forall i :: 0 < i < |items| ==> items[i] == items[1..][i - 1];
          Resolved([head.value] + tail.value)
  }

  /** `listParse`: `{...src, results: src.results.map(i => parse(i, 'list'))}`. A page
      that is not an object with an array of results makes `.map` a TypeError. */
  function ListParse(parse: ParseFn, src: Json): (r: Outcome<Json>)
    ensures !(src.JObj? && "results" in src.fields && src.fields["results"].JArr?) ==> r == Rejected(TypeError)
    ensures r.Resolved? ==>
      && src.JObj? && "results" in src.fields && src.fields["results"].JArr?
      && r.value.JObj? && r.value.fields.Keys == src.fields.Keys
      && (forall k :: k in src.fields && k != "results" ==> r.value.fields[k] == src.fields[k])
      && r.value.fields["results"].JArr?
      && MapParse(parse, src.fields["results"].items, "list") == Resolved(r.value.fields["results"].items)
    ensures src.JObj? && "results" in src.fields && src.fields["results"].JArr? ==>
      (r.Resolved? <==> MapParse(parse, src.fields["results"].items, "list").Resolved?)
  {
    if src.JObj? && "results" in src.fields && src.fields["results"].JArr? then
      var mapped := MapParse(parse, src.fields["results"].items, "list");
      if mapped.Rejected? then Rejected(mapped.error)
      else Resolved(JObj(src.fields["results" := JArr(mapped.value)]))
    else Rejected(TypeError)
  }

  /** `_parseOption`: fills in the defaults, builds the list placeholder, and parses both
      placeholders up front. `...options` comes last, so every key the options have, even
      with the value `undefined`, replaces the computed field. */
  function ParseOption(o: Options): (r: Outcome<Parsed>)
    ensures !ValidLength(CountOf(o.listPlaceholderCount)) ==> r.Rejected? && r.error == RangeError
    ensures ValidLength(CountOf(o.listPlaceholderCount)) &&
            LocalParse(o.parseFn)(PlaceholderOf(o.placeholder), "retrieve").Rejected? ==>
      r == Rejected(LocalParse(o.parseFn)(PlaceholderOf(o.placeholder), "retrieve").error)
    ensures ValidLength(CountOf(o.listPlaceholderCount)) &&
            LocalParse(o.parseFn)(PlaceholderOf(o.placeholder), "retrieve").Resolved? &&
            ListParse(LocalParse(o.parseFn), ListPlaceholder(CountOf(o.listPlaceholderCount), PlaceholderOf(o.placeholder))).Rejected? ==>
      r == Rejected(ListParse(LocalParse(o.parseFn),
                              ListPlaceholder(CountOf(o.listPlaceholderCount), PlaceholderOf(o.placeholder))).error)
    ensures r.Resolved? <==>
      && ValidLength(CountOf(o.listPlaceholderCount))
      && LocalParse(o.parseFn)(PlaceholderOf(o.placeholder), "retrieve").Resolved?
      && ListParse(LocalParse(o.parseFn), ListPlaceholder(CountOf(o.listPlaceholderCount), PlaceholderOf(o.placeholder))).Resolved?
    ensures r.Resolved? ==>
      && r.value.endpoint == (if o.endpoint.Missing? then Val("/") else o.endpoint)
      && r.value.placeholder == (if o.placeholder.Missing? then Val(PlaceholderOf(o.placeholder)) else o.placeholder)
      && r.value.listPlaceholderCount == (if o.listPlaceholderCount.Missing? then Val(3) else o.listPlaceholderCount)
      && r.value.axiosConfig == (if o.axiosConfig.Missing? then Val(map[]) else o.axiosConfig)
      && r.value.manualActions == (if o.manualActions.Missing? then Val([]) else o.manualActions)
      && r.value.listPlaceholder == ListPlaceholder(CountOf(o.listPlaceholderCount), PlaceholderOf(o.placeholder))
      && Resolved(r.value.parsedPlaceholder) == LocalParse(o.parseFn)(PlaceholderOf(o.placeholder), "retrieve")
      && Resolved(r.value.parsedListPlaceholder) == ListParse(LocalParse(o.parseFn), r.value.listPlaceholder)
  {
    var n := CountOf(o.listPlaceholderCount);
    if !ValidLength(n) then Rejected(RangeError)
    else
      var placeholder := PlaceholderOf(o.placeholder);
      var listPlaceholder := ListPlaceholder(n, placeholder);
      var parse := LocalParse(o.parseFn);
      var parsedPlaceholder := parse(placeholder, "retrieve");
      if parsedPlaceholder.Rejected? then Rejected(parsedPlaceholder.error)
      else
        var parsedListPlaceholder := ListParse(parse, listPlaceholder);
        if parsedListPlaceholder.Rejected? then Rejected(parsedListPlaceholder.error)
        else
          Resolved(Parsed(
            Spread(o.endpoint, "/"), Spread(o.placeholder, placeholder), Spread(o.listPlaceholderCount, n),
            Spread(o.axiosConfig, map[]), Spread(o.manualActions, []),
            ThenOf(o.thenFn), ErrorOf(o.errorFn, placeholder), ParseOf(o.parseFn),
            parse, listPlaceholder, parsedPlaceholder.value, parsedListPlaceholder.value))
  }

  /** How each callback of the parsed options behaves, for every argument: an absent
      callback has its default, an `undefined` one raises a TypeError, a given one is
      called as it is. */
  ghost predicate CallbacksFrom(o: Options, op: Parsed)
  {
    && (forall x: Response, a: string :: op.thenFn(x, a) ==
          match o.thenFn
          case Missing => Resolved(x.data)
          case Undef => Rejected(TypeError)
          case Val(f) => f(x, a))
    && (forall e: Exception, a: string :: op.errorFn(e, a) ==
          match o.errorFn
          case Missing => Resolved(PlaceholderOf(o.placeholder))
          case Undef => Rejected(TypeError)
          case Val(f) => f(e, a))
    && (forall j: Json, a: string :: op.parseFn(j, a) ==
          match o.parseFn
          case Missing => Resolved(j)
          case Undef => Rejected(TypeError)
          case Val(f) => f(j, a))
    && (forall j: Json, a: string :: op.localParse(j, a) ==
          if o.parseFn.Val? then o.parseFn.value(j, a) else Resolved(j))
  }

  /** The callbacks `_parseOption` returns keep their promised defaults. */
  lemma ParsedCallbacks(o: Options)
    requires ParseOption(o).Resolved?
    ensures CallbacksFrom(o, ParseOption(o).value)
  {
    var op := ParseOption(o).value;
    assert op.thenFn == ThenOf(o.thenFn);
    assert op.errorFn == ErrorOf(o.errorFn, PlaceholderOf(o.placeholder));
    assert op.parseFn == ParseOf(o.parseFn);
    assert op.localParse == LocalParse(o.parseFn);
  }

  // ---------------------------------------------------------------------------
  // _combineOptions
  // ---------------------------------------------------------------------------

  /** `globalOptions.manualActions || []`. */
  function ManualActionsOf(o: Options): seq<string>
  {
    if o.manualActions.Val? then o.manualActions.value else []
  }

  /** The message a callback of a manual action throws. */
  function NoCallback(action: string, callback: string): string
  {
    "The action \"" + action + "\" has no \"" + callback + "\" callback."
  }

  /** `{...this._options}`, with `then`, `error` and `parse` replaced by callbacks that
      throw when the action is one of the global manual actions. */
  function GlobalsFor(global: Options, action: string): (g: Options)
    ensures action !in ManualActionsOf(global) ==> g == global
  {
    if action in ManualActionsOf(global) then
      global.(thenFn := Val((r: Response, a: string) => Rejected(Raised(NoCallback(action, "then")))),
              errorFn := Val((e: Exception, a: string) => Rejected(Raised(NoCallback(action, "error")))),
              parseFn := Val((j: Json, a: string) => Rejected(Raised(NoCallback(action, "parse")))))
    else global
  }

  /** `{...config}`: spreading `undefined` adds nothing. */
  function ConfigOf(s: Slot<map<string, Json>>): map<string, Json>
  {
    if s.Val? then s.value else map[]
  }

  /** One key of `{...globals, ...perCall}`. */
  function Override<T>(globalSlot: Slot<T>, perCallSlot: Slot<T>): Slot<T>
  {
    if perCallSlot.Missing? then globalSlot else perCallSlot
  }

  /** The options `_combineOptions` hands to `_parseOption`: every key the per-call
      options have wins, and `axiosConfig` is the union of both configurations with the
      per-call values winning. */
  function CombinedOptions(global: Options, action: string, perCall: Options): (o: Options)
    ensures !perCall.endpoint.Missing? ==> o.endpoint == perCall.endpoint
    ensures perCall.endpoint.Missing? ==> o.endpoint == global.endpoint
    ensures !perCall.placeholder.Missing? ==> o.placeholder == perCall.placeholder
    ensures perCall.placeholder.Missing? ==> o.placeholder == global.placeholder
    ensures !perCall.listPlaceholderCount.Missing? ==> o.listPlaceholderCount == perCall.listPlaceholderCount
    ensures perCall.listPlaceholderCount.Missing? ==> o.listPlaceholderCount == global.listPlaceholderCount
    ensures !perCall.manualActions.Missing? ==> o.manualActions == perCall.manualActions
    ensures perCall.manualActions.Missing? ==> o.manualActions == global.manualActions
    ensures !perCall.thenFn.Missing? ==> o.thenFn == perCall.thenFn
    ensures !perCall.errorFn.Missing? ==> o.errorFn == perCall.errorFn
    ensures !perCall.parseFn.Missing? ==> o.parseFn == perCall.parseFn
    ensures perCall.thenFn.Missing? ==> o.thenFn == GlobalsFor(global, action).thenFn
    ensures perCall.errorFn.Missing? ==> o.errorFn == GlobalsFor(global, action).errorFn
    ensures perCall.parseFn.Missing? ==> o.parseFn == GlobalsFor(global, action).parseFn
    ensures o.axiosConfig.Val?
    ensures o.axiosConfig.value.Keys == ConfigOf(global.axiosConfig).Keys + ConfigOf(perCall.axiosConfig).Keys
    ensures forall k :: k in ConfigOf(perCall.axiosConfig) ==> o.axiosConfig.value[k] == ConfigOf(perCall.axiosConfig)[k]
    ensures forall k :: k in ConfigOf(global.axiosConfig) && k !in ConfigOf(perCall.axiosConfig) ==>
      o.axiosConfig.value[k] == ConfigOf(global.axiosConfig)[k]
  {
    var g := GlobalsFor(global, action);
    Options(
      Override(g.endpoint, perCall.endpoint),
      Override(g.placeholder, perCall.placeholder),
      Override(g.listPlaceholderCount, perCall.listPlaceholderCount),
      Val(ConfigOf(g.axiosConfig) + ConfigOf(perCall.axiosConfig)),
      Override(g.manualActions, perCall.manualActions),
      Override(g.thenFn, perCall.thenFn),
      Override(g.errorFn, perCall.errorFn),
      Override(g.parseFn, perCall.parseFn))
  }

  /** `_combineOptions(action, perCall)`. */
  function Combine(global: Options, action: string, perCall: Options): Outcome<Parsed>
  {
    ParseOption(CombinedOptions(global, action, perCall))
  }

  /** A manual action without its own `parse` cannot even be prepared: parsing the
      placeholder up front calls the throwing `parse`. */
  lemma ManualActionNeedsParse(global: Options, action: string, perCall: Options)
    requires action in ManualActionsOf(global) && perCall.parseFn.Missing?
    requires ValidLength(CountOf(CombinedOptions(global, action, perCall).listPlaceholderCount))
    ensures Combine(global, action, perCall).Rejected?
    ensures Combine(global, action, perCall).error == Raised(NoCallback(action, "parse"))
  {
    var o := CombinedOptions(global, action, perCall);
    assert o.parseFn.Val? && o.parseFn.value(PlaceholderOf(o.placeholder), "retrieve") == Rejected(Raised(NoCallback(action, "parse")));
  }

  /** For a manual action, `then` and `error` throw unless the call supplies its own, and
      the callbacks the call supplies are the ones used. */
  lemma ManualActionCallbacks(global: Options, action: string, perCall: Options)
    requires action in ManualActionsOf(global)
    requires Combine(global, action, perCall).Resolved?
    ensures !perCall.parseFn.Missing?
    ensures perCall.thenFn.Missing? ==> forall x: Response, a: string ::
      Combine(global, action, perCall).value.thenFn(x, a) == Rejected(Raised(NoCallback(action, "then")))
    ensures perCall.errorFn.Missing? ==> forall e: Exception, a: string ::
      Combine(global, action, perCall).value.errorFn(e, a) == Rejected(Raised(NoCallback(action, "error")))
    ensures perCall.thenFn.Val? ==> forall x: Response, a: string ::
      Combine(global, action, perCall).value.thenFn(x, a) == perCall.thenFn.value(x, a)
    ensures perCall.errorFn.Val? ==> forall e: Exception, a: string ::
      Combine(global, action, perCall).value.errorFn(e, a) == perCall.errorFn.value(e, a)
    ensures perCall.parseFn.Val? ==> forall j: Json, a: string ::
      Combine(global, action, perCall).value.parseFn(j, a) == perCall.parseFn.value(j, a)
  {
    var o := CombinedOptions(global, action, perCall);
    if perCall.parseFn.Missing? {
      ManualActionNeedsParse(global, action, perCall);
      assert false;
    }
    ParsedCallbacks(o);
  }

  /** Outside the manual actions, a callback the call does not supply is the global one. */
  lemma GlobalCallbacksApply(global: Options, action: string, perCall: Options)
    requires action !in ManualActionsOf(global)
    requires Combine(global, action, perCall).Resolved?
    ensures perCall.thenFn.Missing? && global.thenFn.Val? ==> forall x: Response, a: string ::
      Combine(global, action, perCall).value.thenFn(x, a) == global.thenFn.value(x, a)
    ensures perCall.errorFn.Missing? && global.errorFn.Val? ==> forall e: Exception, a: string ::
      Combine(global, action, perCall).value.errorFn(e, a) == global.errorFn.value(e, a)
    ensures perCall.parseFn.Missing? && global.parseFn.Val? ==> forall j: Json, a: string ::
      Combine(global, action, perCall).value.parseFn(j, a) == global.parseFn.value(j, a)
    ensures perCall.thenFn.Val? ==> forall x: Response, a: string ::
      Combine(global, action, perCall).value.thenFn(x, a) == perCall.thenFn.value(x, a)
    ensures perCall.errorFn.Val? ==> forall e: Exception, a: string ::
      Combine(global, action, perCall).value.errorFn(e, a) == perCall.errorFn.value(e, a)
    ensures perCall.parseFn.Val? ==> forall j: Json, a: string ::
      Combine(global, action, perCall).value.parseFn(j, a) == perCall.parseFn.value(j, a)
    ensures perCall.thenFn.Undef? || (perCall.thenFn.Missing? && global.thenFn.Undef?) ==>
      forall x: Response, a: string :: Combine(global, action, perCall).value.thenFn(x, a) == Rejected(TypeError)
    ensures perCall.errorFn.Undef? || (perCall.errorFn.Missing? && global.errorFn.Undef?) ==>
      forall e: Exception, a: string :: Combine(global, action, perCall).value.errorFn(e, a) == Rejected(TypeError)
    ensures perCall.parseFn.Undef? || (perCall.parseFn.Missing? && global.parseFn.Undef?) ==>
      forall j: Json, a: string :: Combine(global, action, perCall).value.parseFn(j, a) == Rejected(TypeError)
  {
    ParsedCallbacks(CombinedOptions(global, action, perCall));
  }

  /** The configuration a prepared call uses keeps every global key and lets the
      per-call values win. */
  lemma CombinedConfig(global: Options, action: string, perCall: Options)
    requires Combine(global, action, perCall).Resolved?
    ensures var cfg := ConfigOf(Combine(global, action, perCall).value.axiosConfig);
      && cfg.Keys == ConfigOf(global.axiosConfig).Keys + ConfigOf(perCall.axiosConfig).Keys
      && (forall k :: k in ConfigOf(perCall.axiosConfig) ==> cfg[k] == ConfigOf(perCall.axiosConfig)[k])
      && (forall k :: k in ConfigOf(global.axiosConfig) && k !in ConfigOf(perCall.axiosConfig) ==>
            cfg[k] == ConfigOf(global.axiosConfig)[k])
  {
  }

  // ---------------------------------------------------------------------------
  // URLs and the result pipeline
  // ---------------------------------------------------------------------------

  /** `PrimaryKey = string | number`. */
  datatype Key = StrKey(s: string) | NumKey(n: int)

  /** A key inside a template string. */
  function KeyText(pk: Key): string
  {
    match pk
    case StrKey(s) => s
    case NumKey(n) => IntToString(n)
  }

  /** `op.endpoint` inside a template string. */
  function EndpointText(e: Slot<string>): string
  {
    if e.Val? then e.value else "undefined"
  }

  /** `${op.endpoint}${pk}/`. */
  function ItemUrl(endpoint: Slot<string>, pk: Key): (u: string)
    ensures |u| > |EndpointText(endpoint)| && u[|u| - 1] == '/'
    ensures u[..|EndpointText(endpoint)|] == EndpointText(endpoint)
    ensures u[|EndpointText(endpoint)|..|u| - 1] == KeyText(pk)
  {
    EndpointText(endpoint) + KeyText(pk) + "/"
  }

  /** Keys with different texts address different items of one endpoint. */
  lemma ItemUrlsDistinct(endpoint: Slot<string>, p: Key, q: Key)
    requires KeyText(p) != KeyText(q)
    ensures ItemUrl(endpoint, p) != ItemUrl(endpoint, q)
  {
  }

  /** Different numeric primary keys address different items of one endpoint. */
  lemma NumericItemUrlsDistinct(endpoint: Slot<string>, m: int, n: int)
    requires m != n
    ensures ItemUrl(endpoint, NumKey(m)) != ItemUrl(endpoint, NumKey(n))
  {
    IntToStringInjective(m, n);
    ItemUrlsDistinct(endpoint, NumKey(m), NumKey(n));
  }

  /** `${op.endpoint}${(pk + "/") || ""}${actionName}/`: `pk + "/"` is never empty, so a
      missing key is spelled `undefined/` rather than dropped. */
  function ActionUrl(endpoint: Slot<string>, pk: Option<Key>, actionName: string): (u: string)
    ensures pk.Some? ==> u == ItemUrl(endpoint, pk.value) + actionName + "/"
    ensures pk.None? ==> u == EndpointText(endpoint) + "undefined/" + actionName + "/"
  {
    var segment := (if pk.Some? then KeyText(pk.value) else "undefined") + "/";
    EndpointText(endpoint) + (if segment != "" then segment else "") + actionName + "/"
  }

  /** A request handed to the HTTP client. */
  datatype Request =
    | Call(verb: string, url: Option<string>, body: Option<Json>, config: map<string, Json>)
    | Raw(config: map<string, Json>)   // `request(config)`, where the config names method and url

  /** `.catch(e => op.error(e, action)).then(i => op.parse(i, action))`. */
  function Recover(op: Parsed, action: string, o: Outcome<Json>): (r: Outcome<Json>)
    ensures o.Resolved? ==> r == op.parseFn(o.value, action)
    ensures o.Rejected? && op.errorFn(o.error, action).Resolved? ==>
      r == op.parseFn(op.errorFn(o.error, action).value, action)
    ensures o.Rejected? && op.errorFn(o.error, action).Rejected? ==> r == op.errorFn(o.error, action)
  {
    var caught := if o.Resolved? then o else op.errorFn(o.error, action);
    if caught.Resolved? then op.parseFn(caught.value, action) else caught
  }

  /** `send(...).then(i => op.then(i, action)).catch(e => op.error(e, action)).then(i =>
      op.parse(i, action))`: a failure of the request and an exception thrown by `then`
      both go to `error`; `parse` sees whatever `then` or `error` produced. */
  function Pipeline(op: Parsed, action: string, response: Outcome<Response>): (r: Outcome<Json>)
    ensures response.Rejected? ==> r == Recover(op, action, Rejected(response.error))
    ensures response.Resolved? ==> r == Recover(op, action, op.thenFn(response.value, action))
  {
    Recover(op, action, if response.Resolved? then op.thenFn(response.value, action) else Rejected(response.error))
  }

  /** With no callbacks anywhere, a call yields the response data, and a failed request
      yields the placeholder. */
  lemma DefaultPipeline(o: Options, action: string, response: Outcome<Response>)
    requires o.thenFn.Missing? && o.errorFn.Missing? && o.parseFn.Missing?
    requires ParseOption(o).Resolved?
    ensures response.Resolved? ==> Pipeline(ParseOption(o).value, action, response) == Resolved(response.value.data)
    ensures response.Rejected? ==> Pipeline(ParseOption(o).value, action, response) == Resolved(PlaceholderOf(o.placeholder))
  {
    ParsedCallbacks(o);
  }

  // ---------------------------------------------------------------------------
  // The calls
  // ---------------------------------------------------------------------------

  /** The HTTP client: the settled promise for each request. */
  type Transport = Request -> Outcome<Response>

  /** `retrieve(pk, options)`: GET `endpoint + pk + "/"` with the combined configuration. */
  function Retrieve(global: Options, pk: Key, perCall: Options, send: Transport): (r: Outcome<Json>)
    ensures Combine(global, "retrieve", perCall).Rejected? ==> r == Rejected(Combine(global, "retrieve", perCall).error)
    ensures Combine(global, "retrieve", perCall).Resolved? ==>
      var op := Combine(global, "retrieve", perCall).value;
      r == Pipeline(op, "retrieve", send(Call("get", Some(ItemUrl(op.endpoint, pk)), None, ConfigOf(op.axiosConfig))))
  {
    var op := Combine(global, "retrieve", perCall);
    if op.Rejected? then Rejected(op.error)
    else Pipeline(op.value, "retrieve", send(Call("get", Some(ItemUrl(op.value.endpoint, pk)), None, ConfigOf(op.value.axiosConfig))))
  }

  /** `put(id, data, options)`: PUT to `endpoint + id + "/"`; the request carries only the
      per-call `axiosConfig`, not the combined one. */
  function Put(global: Options, id: Key, data: Json, perCall: Options, send: Transport): (r: Outcome<Json>)
    ensures Combine(global, "put", perCall).Rejected? ==> r == Rejected(Combine(global, "put", perCall).error)
    ensures Combine(global, "put", perCall).Resolved? ==>
      var op := Combine(global, "put", perCall).value;
      r == Pipeline(op, "put", send(Call("put", Some(ItemUrl(op.endpoint, id)), Some(data), ConfigOf(perCall.axiosConfig))))
  {
    var op := Combine(global, "put", perCall);
    if op.Rejected? then Rejected(op.error)
    else Pipeline(op.value, "put", send(Call("put", Some(ItemUrl(op.value.endpoint, id)), Some(data), ConfigOf(perCall.axiosConfig))))
  }

  /** `patch(id, data, options)`: PATCH to `endpoint + id + "/"` with the combined configuration. */
  function Patch(global: Options, id: Key, data: Json, perCall: Options, send: Transport): (r: Outcome<Json>)
    ensures Combine(global, "patch", perCall).Rejected? ==> r == Rejected(Combine(global, "patch", perCall).error)
    ensures Combine(global, "patch", perCall).Resolved? ==>
      var op := Combine(global, "patch", perCall).value;
      r == Pipeline(op, "patch", send(Call("patch", Some(ItemUrl(op.endpoint, id)), Some(data), ConfigOf(op.axiosConfig))))
  {
    var op := Combine(global, "patch", perCall);
    if op.Rejected? then Rejected(op.error)
    else Pipeline(op.value, "patch", send(Call("patch", Some(ItemUrl(op.value.endpoint, id)), Some(data), ConfigOf(op.value.axiosConfig))))
  }

  /** `post(data, options)`: POST to the endpoint itself. */
  function Post(global: Options, data: Json, perCall: Options, send: Transport): (r: Outcome<Json>)
    ensures Combine(global, "post", perCall).Rejected? ==> r == Rejected(Combine(global, "post", perCall).error)
    ensures Combine(global, "post", perCall).Resolved? ==>
      var op := Combine(global, "post", perCall).value;
      r == Pipeline(op, "post", send(Call("post", if op.endpoint.Val? then Some(op.endpoint.value) else None,
                                           Some(data), ConfigOf(op.axiosConfig))))
  {
    var op := Combine(global, "post", perCall);
    if op.Rejected? then Rejected(op.error)
    else
      var url := if op.value.endpoint.Val? then Some(op.value.endpoint.value) else None;
      Pipeline(op.value, "post", send(Call("post", url, Some(data), ConfigOf(op.value.axiosConfig))))
  }

  /** The configuration `action` sends: `{method: 'get', url, ...op.axiosConfig}`, so the
      options may override both the method and the url. */
  function ActionConfig(op: Parsed, pk: Option<Key>, actionName: string): (cfg: map<string, Json>)
    ensures cfg.Keys == ConfigOf(op.axiosConfig).Keys + {"method", "url"}
    ensures "method" !in ConfigOf(op.axiosConfig) ==> cfg["method"] == JStr("get")
    ensures "url" !in ConfigOf(op.axiosConfig) ==> cfg["url"] == JStr(ActionUrl(op.endpoint, pk, actionName))
    ensures forall k :: k in ConfigOf(op.axiosConfig) ==> cfg[k] == ConfigOf(op.axiosConfig)[k]
  {
    map["method" := JStr("get"), "url" := JStr(ActionUrl(op.endpoint, pk, actionName))] + ConfigOf(op.axiosConfig)
  }

  /** `action(actionName, pk, options)`: the action's own name selects the manual-action rule. */
  function Action(global: Options, actionName: string, pk: Option<Key>, perCall: Options, send: Transport): (r: Outcome<Json>)
    ensures Combine(global, actionName, perCall).Rejected? ==> r == Rejected(Combine(global, actionName, perCall).error)
    ensures Combine(global, actionName, perCall).Resolved? ==>
      var op := Combine(global, actionName, perCall).value;
      r == Pipeline(op, actionName, send(Raw(ActionConfig(op, pk, actionName))))
  {
    var op := Combine(global, actionName, perCall);
    if op.Rejected? then Rejected(op.error)
    else Pipeline(op.value, actionName, send(Raw(ActionConfig(op.value, pk, actionName))))
  }

  /** `delete(pk, data, options)`: `true` when the request succeeds and `false` on any
      failure; no callback is involved. */
  function Delete(global: Options, pk: Key, perCall: Options, send: Transport): (r: Outcome<bool>)
    ensures Combine(global, "delete", perCall).Rejected? ==> r == Rejected(Combine(global, "delete", perCall).error)
    ensures Combine(global, "delete", perCall).Resolved? ==>
      var op := Combine(global, "delete", perCall).value;
      r == Resolved(send(Call("delete", Some(ItemUrl(op.endpoint, pk)), None, ConfigOf(op.axiosConfig))).Resolved?)
  {
    var op := Combine(global, "delete", perCall);
    if op.Rejected? then Rejected(op.error)
    else Resolved(send(Call("delete", Some(ItemUrl(op.value.endpoint, pk)), None, ConfigOf(op.value.axiosConfig))).Resolved?)
  }

  /** `list(options)`: GET the endpoint; the page's results go through `parse(_, 'list')`,
      and a failed request yields the parsed list placeholder. */
  function List(global: Options, perCall: Options, send: Transport): (r: Outcome<Json>)
    ensures Combine(global, "list", perCall).Rejected? ==> r == Rejected(Combine(global, "list", perCall).error)
    ensures Combine(global, "list", perCall).Resolved? ==>
      var op := Combine(global, "list", perCall).value;
      var response := send(Call("get", if op.endpoint.Val? then Some(op.endpoint.value) else None, None, ConfigOf(op.axiosConfig)));
      && (response.Resolved? ==> r == ListParse(op.localParse, response.value.data))
      && (response.Rejected? ==> r == Resolved(op.parsedListPlaceholder))
  {
    var op := Combine(global, "list", perCall);
    if op.Rejected? then Rejected(op.error)
    else
      var url := if op.value.endpoint.Val? then Some(op.value.endpoint.value) else None;
      var response := send(Call("get", url, None, ConfigOf(op.value.axiosConfig)));
      var page := if response.Resolved? then response.value.data else op.value.listPlaceholder;
      ListParse(op.value.localParse, page)
  }

  /** With no options anywhere, a single item is fetched from `/<pk>/`. */
  lemma DefaultItemUrl(pk: Key)
    ensures Combine(NoOptions, "retrieve", NoOptions).Resolved?
    ensures Combine(NoOptions, "retrieve", NoOptions).value.endpoint == Val("/")
    ensures ItemUrl(Combine(NoOptions, "retrieve", NoOptions).value.endpoint, pk) == "/" + KeyText(pk) + "/"
  {
    var o := CombinedOptions(NoOptions, "retrieve", NoOptions);
    assert o.placeholder.Missing? && o.parseFn.Missing? && o.listPlaceholderCount.Missing?;
    var lp := ListPlaceholder(3, EmptyObject);
    assert lp.fields["results"].items == [EmptyObject, EmptyObject, EmptyObject];
  }

  /** With no options anywhere, a failed list request yields three empty objects. */
  lemma DefaultListFallback(send: Transport)
    requires send(Call("get", Some("/"), None, map[])).Rejected?
    ensures List(NoOptions, NoOptions, send) == Resolved(ListPlaceholder(3, EmptyObject))
  {
    DefaultItemUrl(NumKey(0));
    var o := CombinedOptions(NoOptions, "list", NoOptions);
    var op := Combine(NoOptions, "list", NoOptions).value;
    var lp := ListPlaceholder(3, EmptyObject);
    assert lp.fields["results"].items == [EmptyObject, EmptyObject, EmptyObject];
    assert op.listPlaceholder == lp;
    ParsedCallbacks(o);
    assert o.parseFn.Missing?;
    assert op.localParse(EmptyObject, "list") == Resolved(EmptyObject);
    var items := lp.fields["results"].items;
    assert forall i :: 0 <= i < |items| ==> op.localParse(items[i], "list") == Resolved(items[i]);
    var mapped := MapParse(op.localParse, items, "list");
    assert mapped.Resolved?;
    assert mapped.value == items;
    assert lp.fields["results" := JArr(lp.fields["results"].items)] == lp.fields;
  }
}
