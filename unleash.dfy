/** The `Unleash` facade (src/unleash.ts): its ready/synchronized gating, the re-emission of
    repository notifications, and the evaluation entry points that fall back while the
    repository is not ready and report every answer to the metrics reporter. */
module Unleash {
  import opened Wrappers
  import opened Contexts
  import opened Configuration
  import opened Events

  /** The payload a variant may carry. */
  datatype Payload = Payload(kind: string, value: string)

  /** A feature variant as the facade sees it. */
  datatype Variant = Variant(name: string, enabled: bool, payload: Option<Payload>)

  /** The caller's optional fallback for `isEnabled`: omitted, a boolean, or a function of the
      toggle name and the evaluated context. */
  datatype Fallback = NoFallback | FallbackValue(value: bool) | FallbackFunction(decide: (string, Context) -> bool)

  /** The answers of the strategy-evaluating client at the moment of a call; they depend on the
      repository's current toggles, which lie outside the facade. `isEnabled` receives the
      value of the fallback thunk the facade built. */
  datatype Client = Client(
    isEnabled: (string, Context, bool) -> bool,
    getVariant: (string, Context, Option<Variant>) -> Variant,
    forceGetVariant: (string, Context, Option<Variant>) -> Variant)

  /** A call into the metrics reporter. */
  datatype MetricsCall = CountCall(toggleName: string, enabled: bool) | CountVariantCall(toggleName: string, variantName: string)

  /** Template-literal rendering of a boolean. */
  function BoolText(b: bool): string {
    if b then "true" else "false"
  }

  /** Template-literal rendering of a plain variant object. */
  const ObjectText: string := "[object Object]"

  /** The warning for an evaluation made before the repository is ready. All three entry
      points use the `isEnabled(...)` wording. */
  function NotInitializedWarning(name: string, shown: string): string {
    "Unleash has not been initialized yet. isEnabled(" + name + ") defaulted to " + shown
  }

  /** The facade's event invariant over its flags, its event log and its deferred queue: it is
      ready exactly when a `ready` event has been emitted or is pending; it is synchronized
      exactly when a `changed` event has been emitted (those are never deferred); and the
      `synchronized` event has been emitted or scheduled once if so, never otherwise. */
  ghost predicate Consistent(ready: bool, synchronized: bool, events: seq<Event>, deferred: seq<Deferred>) {
    var emitted := events + Scheduled(deferred);
    && (ready <==> Occurrences(emitted, Ready) > 0)
    && (synchronized <==> Changes(events) > 0)
    && Changes(Scheduled(deferred)) == 0
    && Occurrences(emitted, Synchronized) == (if synchronized then 1 else 0)
  }

  /** The repository's `ready` handler keeps the invariant. */
  lemma ReadyKeepsConsistent(ready: bool, synchronized: bool, events: seq<Event>, deferred: seq<Deferred>)
    requires Consistent(ready, synchronized, events, deferred)
    ensures Consistent(true, synchronized, events, deferred + [Emit(Ready)])
  {
    var emitted := events + Scheduled(deferred);
    ScheduledAppend(deferred, [Emit(Ready)]);
    assert Scheduled([Emit(Ready)]) == [Ready];
    assert events + Scheduled(deferred + [Emit(Ready)]) == emitted + [Ready];
    OccurrencesAppend(emitted, [Ready], Ready);
    OccurrencesAppend(emitted, [Ready], Synchronized);
    ChangesAppend(Scheduled(deferred), [Ready]);
    assert [Ready][1..] == [];
    assert Occurrences([Ready], Ready) == 1 && Occurrences([Ready], Synchronized) == 0 && Changes([Ready]) == 0;
  }

  /** The repository's `changed` handler keeps the invariant: only the first notification
      schedules `synchronized`. */
  lemma ChangedKeepsConsistent(ready: bool, synchronized: bool, events: seq<Event>, deferred: seq<Deferred>, data: ChangeData)
    requires Consistent(ready, synchronized, events, deferred)
    ensures Consistent(ready, true, events + [Changed(data)],
                       deferred + (if synchronized then [] else [Emit(Synchronized)]))
  {
    var extra := if synchronized then [] else [Emit(Synchronized)];
    var pending, added := Scheduled(deferred), Scheduled(extra);
    ScheduledAppend(deferred, extra);
    assert (events + [Changed(data)]) + Scheduled(deferred + extra) == (events + [Changed(data)]) + (pending + added);
    OccurrencesInsertAppend(events, Changed(data), pending, added, Synchronized);
    OccurrencesInsertAppend(events, Changed(data), pending, added, Ready);
    ChangesAppend(events, [Changed(data)]);
    ChangesAppend(pending, added);
  }

  /** Emitting a warning at once keeps the invariant. */
  lemma WarnKeepsConsistent(ready: bool, synchronized: bool, events: seq<Event>, deferred: seq<Deferred>, message: string)
    requires Consistent(ready, synchronized, events, deferred)
    ensures Consistent(ready, synchronized, events + [Warn(message)], deferred)
  {
    var pending := Scheduled(deferred);
    assert (events + [Warn(message)]) + pending == (events + [Warn(message)]) + (pending + []);
    assert pending + [] == pending;
    OccurrencesInsertAppend(events, Warn(message), pending, [], Synchronized);
    OccurrencesInsertAppend(events, Warn(message), pending, [], Ready);
    ChangesAppend(events, [Warn(message)]);
  }

  /** Running the oldest deferred callback keeps the invariant: an emission only moves its
      event from the queue to the log. */
  lemma TickKeepsConsistent(ready: bool, synchronized: bool, events: seq<Event>, deferred: seq<Deferred>)
    requires Consistent(ready, synchronized, events, deferred)
    requires deferred != []
    ensures Consistent(ready, synchronized,
                       if deferred[0].Emit? then events + [deferred[0].event] else events, deferred[1..])
  {
    assert deferred == [deferred[0]] + deferred[1..];
    ScheduledAppend([deferred[0]], deferred[1..]);
    ChangesAppend(Scheduled([deferred[0]]), Scheduled(deferred[1..]));
    if deferred[0].Emit? {
      assert Scheduled([deferred[0]]) == [deferred[0].event];
      assert events + Scheduled(deferred) == (events + [deferred[0].event]) + Scheduled(deferred[1..]);
      ChangesAppend(events, [deferred[0].event]);
    } else {
      assert Scheduled([deferred[0]]) == [];
      assert events + Scheduled(deferred) == events + Scheduled(deferred[1..]);
    }
  }

  class Unleash {
    /** What the constructor derived from its configuration. */
    const settings: Settings
    /** `createFallbackFunction(name, context, fallback)`, already applied. */
    const createFallback: (string, Context, Fallback) -> bool
    /** `getDefaultVariant()`. */
    const defaultVariant: Variant

    var ready: bool
    var synchronized: bool
    /** Events emitted so far, in order. */
    var events: seq<Event>
    /** Callbacks queued with `process.nextTick` and not yet run. */
    var deferred: seq<Deferred>
    /** Calls made to the metrics reporter, in order. */
    var metricsCalls: seq<MetricsCall>
    /** How many times `start()` has run. */
    var starts: nat

    /** The event invariant `Consistent` of the current fields. */
    ghost predicate Valid()
      reads this
    {
      Consistent(ready, synchronized, events, deferred)
    }

    /** The state just after a successful construction: not ready, not synchronized, nothing
        emitted, and the URL warning (if any) followed by the automatic start (unless
        disabled) queued for the next tick. */
    constructor (settings: Settings, createFallback: (string, Context, Fallback) -> bool, defaultVariant: Variant)
      ensures Valid()
      ensures this.settings == settings && this.defaultVariant == defaultVariant
      ensures this.createFallback == createFallback
      ensures !ready && !synchronized
      ensures events == [] && metricsCalls == [] && starts == 0
      ensures deferred ==
        (if settings.urlWarning.Some? then [Emit(Warn(settings.urlWarning.value))] else []) +
        (if settings.disableAutoStart then [] else [AutoStart])
    {
      this.settings := settings;
      this.createFallback := createFallback;
      this.defaultVariant := defaultVariant;
      ready := false;
      synchronized := false;
      events := [];
      metricsCalls := [];
      starts := 0;
      var warning := if settings.urlWarning.Some? then [Emit(Warn(settings.urlWarning.value))] else [];
      var start := if settings.disableAutoStart then [] else [AutoStart];
      deferred := warning + start;
      ScheduledAppend(warning, start);
    }

    /** The repository's `ready` handler: the facade becomes ready for good and re-emits
        `ready` on the next tick. */
    method OnRepositoryReady()
      requires Valid()
      modifies this`ready, this`deferred
      ensures Valid()
      ensures ready
      ensures deferred == old(deferred) + [Emit(Ready)]
    {
      ReadyKeepsConsistent(ready, synchronized, events, deferred);
      ready := true;
      deferred := deferred + [Emit(Ready)];
    }

    /** The repository's `changed` handler: the notification is re-emitted at once, and only
        the first one marks the facade synchronized and schedules `synchronized`. */
    method OnRepositoryChanged(data: ChangeData)
      requires Valid()
      modifies this`events, this`synchronized, this`deferred
      ensures Valid()
      ensures synchronized
      ensures events == old(events) + [Changed(data)]
      ensures deferred == old(deferred) + (if old(synchronized) then [] else [Emit(Synchronized)])
    {
      ChangedKeepsConsistent(ready, synchronized, events, deferred, data);
      var extra := if synchronized then [] else [Emit(Synchronized)];
      events := events + [Changed(data)];
      synchronized := true;
      deferred := deferred + extra;
    }

    /** One turn of the event loop: the oldest deferred callback runs. An emission moves its
        event to the log; the automatic start runs `start()`. */
    method Tick()
      requires Valid()
      modifies this`events, this`deferred, this`starts
      ensures Valid()
      ensures old(deferred) == [] ==> events == old(events) && deferred == [] && starts == old(starts)
      ensures old(deferred) != [] ==> deferred == old(deferred)[1..]
      ensures old(deferred) != [] && old(deferred)[0].Emit? ==>
        events == old(events) + [old(deferred)[0].event] && starts == old(starts)
      ensures old(deferred) != [] && old(deferred)[0].AutoStart? ==>
        events == old(events) && starts == old(starts) + 1
    {
      if deferred != [] {
        TickKeepsConsistent(ready, synchronized, events, deferred);
        var next := deferred[0];
        deferred := deferred[1..];
        match next {
          case Emit(e) =>
            events := events + [e];
          case AutoStart =>
            starts := starts + 1;
        }
      }
    }

    /** `count`: one `count(name, enabled)` call to the metrics reporter. */
    method Count(toggleName: string, enabled: bool)
      modifies this`metricsCalls
      ensures metricsCalls == old(metricsCalls) + [CountCall(toggleName, enabled)]
    {
      metricsCalls := metricsCalls + [CountCall(toggleName, enabled)];
    }

    /** `countVariant`: one `countVariant(name, variantName)` call to the metrics reporter. */
    method CountVariant(toggleName: string, variantName: string)
      modifies this`metricsCalls
      ensures metricsCalls == old(metricsCalls) + [CountVariantCall(toggleName, variantName)]
    {
      metricsCalls := metricsCalls + [CountVariantCall(toggleName, variantName)];
    }

    /** `isEnabled`: while not ready the caller's fallback decides, the client is not asked and
        a warning is emitted; once ready the client decides. Either way exactly the returned
        value is counted, and evaluation uses the static context overridden by the caller's. */
    method IsEnabled(name: string, context: Context, fallback: Fallback, client: Client) returns (result: bool)
      requires Valid()
      modifies this`events, this`metricsCalls
      ensures Valid()
      ensures var enhanced := EnhancedContext(settings.staticContext, context);
        result == if ready then client.isEnabled(name, enhanced, createFallback(name, enhanced, fallback))
                  else createFallback(name, enhanced, fallback)
      ensures events == old(events) + (if ready then [] else [Warn(NotInitializedWarning(name, BoolText(result)))])
      ensures metricsCalls == old(metricsCalls) + [CountCall(name, result)]
    {
      var enhancedContext := EnhancedContext(settings.staticContext, context);
      var fallbackValue := createFallback(name, enhancedContext, fallback);
      if ready {
        result := client.isEnabled(name, enhancedContext, fallbackValue);
      } else {
        result := fallbackValue;
        EmitWarning(NotInitializedWarning(name, BoolText(result)));
      }
      Count(name, result);
    }

    /** Emits a warning at once. */
    method EmitWarning(message: string)
      requires Valid()
      modifies this`events
      ensures Valid()
      ensures events == old(events) + [Warn(message)]
    {
      WarnKeepsConsistent(ready, synchronized, events, deferred, message);
      events := events + [Warn(message)];
    }

    /** The common body of `getVariant` and `forceGetVariant`, with the client entry point to
        use: while not ready the supplied fallback variant (or else the default variant) is
        returned with a warning; once ready the client answers. A named result is counted as
        `countVariant(name, result.name)`, an unnamed one as `count(name, result.enabled)`. */
    method EvaluateVariant(name: string, context: Context, fallbackVariant: Option<Variant>,
                           ask: (string, Context, Option<Variant>) -> Variant) returns (result: Variant)
      requires Valid()
      modifies this`events, this`metricsCalls
      ensures Valid()
      ensures result == if ready then ask(name, EnhancedContext(settings.staticContext, context), fallbackVariant)
                        else fallbackVariant.GetOr(defaultVariant)
      ensures events == old(events) + (if ready then [] else [Warn(NotInitializedWarning(name, ObjectText))])
      ensures metricsCalls == old(metricsCalls) +
        [if result.name != "" then CountVariantCall(name, result.name) else CountCall(name, result.enabled)]
    {
      var enhancedContext := EnhancedContext(settings.staticContext, context);
      if ready {
        result := ask(name, enhancedContext, fallbackVariant);
      } else {
        result := if fallbackVariant.Some? then fallbackVariant.value else defaultVariant;
        EmitWarning(NotInitializedWarning(name, ObjectText));
      }
      if result.name != "" {
        CountVariant(name, result.name);
      } else {
        Count(name, result.enabled);
      }
    }

    /** `getVariant`: the gated, counted answer of the client's `getVariant`. */
    method GetVariant(name: string, context: Context, fallbackVariant: Option<Variant>, client: Client) returns (result: Variant)
      requires Valid()
      modifies this`events, this`metricsCalls
      ensures Valid()
      ensures result == if ready then client.getVariant(name, EnhancedContext(settings.staticContext, context), fallbackVariant)
                        else fallbackVariant.GetOr(defaultVariant)
      ensures events == old(events) + (if ready then [] else [Warn(NotInitializedWarning(name, ObjectText))])
      ensures metricsCalls == old(metricsCalls) +
        [if result.name != "" then CountVariantCall(name, result.name) else CountCall(name, result.enabled)]
    {
      result := EvaluateVariant(name, context, fallbackVariant, client.getVariant);
    }

    /** `forceGetVariant`: the same gating and counting around the client's `forceGetVariant`. */
    method ForceGetVariant(name: string, context: Context, fallbackVariant: Option<Variant>, client: Client) returns (result: Variant)
      requires Valid()
      modifies this`events, this`metricsCalls
      ensures Valid()
      ensures result == if ready then client.forceGetVariant(name, EnhancedContext(settings.staticContext, context), fallbackVariant)
                        else fallbackVariant.GetOr(defaultVariant)
      ensures events == old(events) + (if ready then [] else [Warn(NotInitializedWarning(name, ObjectText))])
      ensures metricsCalls == old(metricsCalls) +
        [if result.name != "" then CountVariantCall(name, result.name) else CountCall(name, result.enabled)]
    {
      result := EvaluateVariant(name, context, fallbackVariant, client.forceGetVariant);
    }
  }

  /** `new Unleash(config)`: throws the configuration error with its message, or builds a
      facade in its initial state whose settings are those `Configure` derives. */
  method Create(config: UnleashConfig, defaultStrategies: seq<Strategy>, tmpDir: string,
                createFallback: (string, Context, Fallback) -> bool, defaultVariant: Variant)
    returns (r: Result<Unleash, ConfigError>)
    ensures Configure(config, defaultStrategies, tmpDir).Failure? ==>
      r == Failure(Configure(config, defaultStrategies, tmpDir).error)
    ensures Configure(config, defaultStrategies, tmpDir).Success? ==>
      && r.Success? && fresh(r.value) && r.value.Valid()
      && r.value.settings == Configure(config, defaultStrategies, tmpDir).value
      && r.value.createFallback == createFallback && r.value.defaultVariant == defaultVariant
      && !r.value.ready && !r.value.synchronized && r.value.events == [] && r.value.metricsCalls == []
      && r.value.starts == 0
      && r.value.deferred ==
        (if r.value.settings.urlWarning.Some? then [Emit(Warn(r.value.settings.urlWarning.value))] else []) +
        (if r.value.settings.disableAutoStart then [] else [AutoStart])
    ensures r.Failure? ==>
      r.error.Message() == if !Truthy(config.url) then "Unleash API \"url\" is required"
                           else "Unleash client \"appName\" is required"
  {
    var configured := Configure(config, defaultStrategies, tmpDir);
    match configured
    case Failure(e) =>
      r := Failure(e);
    case Success(settings) =>
      var facade := new Unleash(settings, createFallback, defaultVariant);
      r := Success(facade);
  }

  /** Before the repository is ready an evaluation falls back, warns and is counted. */
  method FallbackBeforeReady(settings: Settings, client: Client)
  {
    var facade := new Unleash(settings, (name, context, fallback) => false, Variant("disabled", false, None));
    var enabled := facade.IsEnabled("featureA", map[], NoFallback, client);
    assert !enabled && facade.metricsCalls == [CountCall("featureA", false)];
  }

  /** Only the first `changed` notification schedules `synchronized`. */
  method SynchronizedOnlyOnce(settings: Settings, data: ChangeData)
    requires settings.urlWarning.None? && settings.disableAutoStart
  {
    var facade := new Unleash(settings, (name, context, fallback) => false, Variant("disabled", false, None));
    facade.OnRepositoryReady();
    facade.OnRepositoryChanged(data);
    facade.OnRepositoryChanged(data);
    assert facade.deferred == [Emit(Ready), Emit(Synchronized)];
    assert facade.ready && facade.synchronized;
  }
}
