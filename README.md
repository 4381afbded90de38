# Unleash client facade: a verified model

This project models the outer facade of the Unleash Node.js feature-flag client: the
`Unleash` class in `src/unleash.ts`. The model covers:

- the constructor's checks on its configuration and the defaults it fills in;
- the normalisation of the server URL (`cleanUnleashUrl`);
- the `ready` and `synchronized` flags that the repository's notifications update;
- the evaluation entry points `isEnabled`, `getVariant` and `forceGetVariant`. Before the
  repository is ready they answer with a fallback and emit a warning. They report every
  answer to the metrics reporter.

The collaborators are not part of this model: the repository, the strategy-evaluating
client, the metrics reporter and the helpers. They appear only as parameters.

Modules:

- `Wrappers`: `Option` (an omitted JavaScript value) and `Result` (a thrown error).
- `UnleashUrl`: `cleanUnleashUrl` over `seq<char>`, with lemmas. These say the result always
  ends in a slash, cleaning is idempotent, a clean URL is left unchanged, exactly one
  trailing `/features` is stripped, and a warning is issued only in that case.
- `Contexts`: context objects as maps, the static context, and the spread merge
  `{ ...staticContext, ...context }`.
- `Configuration`: the constructor's validation and defaults as a pure function `Configure`.
  It also holds the strategy list (custom strategies before the defaults) and the strategy
  names sent to the metrics reporter.
- `Events`: the events the facade emits and the callbacks it defers with `process.nextTick`,
  with counting lemmas.
- `Unleash`: the class `Unleash`. Its fields are the flags, an ordered log of emitted events,
  the queue of deferred callbacks, and the log of metrics calls. Its methods are the
  repository handlers, one event-loop turn (`Tick`), and the evaluation entry points.
  `Create` is the constructor that can throw.

The object invariant `Unleash.Unleash.Valid` is `Unleash.Consistent` of the current fields.
It is stated over plain values, so each handler's preservation is a lemma of its own. It
states three things:

- the facade is ready exactly when a `ready` event has been emitted or is pending;
- it is synchronized exactly when a `changed` event has been emitted;
- the `synchronized` event is emitted or scheduled exactly once when synchronized, and never
  otherwise.

Every handler and entry point keeps `Valid`. No method sets `ready` or `synchronized` back to
false.

Modelling choices:

- The client's answers depend on the repository's current toggles. So a `Client` value,
  made of three opaque functions, is passed to each evaluation call.
- `createFallbackFunction` and `getDefaultVariant` are opaque. The facade receives them at
  construction.
- Emissions made with `process.nextTick` go to the `deferred` queue. `Tick` runs the oldest
  one. The automatic `start()` is queued the same way.
- JavaScript renders a variant object in a template literal as `[object Object]`. So the
  not-initialised warning of `getVariant` and `forceGetVariant` ends with that text, and it
  reads `isEnabled(<name>)` exactly as the source writes it.

## Model

| member | source | states |
|---|---|---|
| `UnleashUrl.ReplaceFeaturesAtEnd` | src/unleash.ts:199 | the end-anchored, non-global regex removes exactly one trailing `/features` when present and otherwise leaves the string unchanged |
| `UnleashUrl.CleanUnleashUrl` | src/unleash.ts:189-206 | the result ends in `/`; dropping that last slash leaves a prefix of the input; a warning naming the old URL is issued if and only if the input ends in `/features` |
| `UnleashUrl.CleanUrlKeepsCleanUrl` | src/unleash.ts:191-204 | an input already ending in `/` (hence not in `/features`) comes back unchanged, with no warning |
| `UnleashUrl.CleanUrlIdempotent` | src/unleash.ts:189-206 | cleaning a cleaned URL changes nothing and warns nothing |
| `UnleashUrl.CleanUrlStripsOneSuffix` | src/unleash.ts:191-204 | for `base + "/features"` the result is `base`, with a slash appended only when `base` lacks one |
| `UnleashUrl.CleanUrlAppendsSlash` | src/unleash.ts:202-204 | an input ending in neither `/` nor `/features` gains exactly one slash and no warning |
| `UnleashUrl.CleanUrlKeepsInnerSuffix` | src/unleash.ts:191-204 | for every `base` that itself ends in `/features`, `base + "/features"` becomes `base + "/"`: only the final suffix is removed |
| `UnleashUrl.CleanUrlDoubledSuffix` | src/unleash.ts:199 | an illustration of the lemma above: `.../api/features/features` becomes `.../api/features/` |
| `Contexts.StaticFields` | src/unleash.ts:101 | the static context has exactly the fields `appName` and `environment` |
| `Contexts.EnhancedContext` | src/unleash.ts:220 | the merged context has the static and the caller's fields; every caller field wins (even `undefined`); a static field survives only where the caller does not name it |
| `Contexts.EnhancedContextOfEmpty` | src/unleash.ts:219-220 | with the default empty context the evaluation context is the static context |
| `Contexts.EnhancedContextIdempotent` | src/unleash.ts:220 | merging the static context into an already merged context changes nothing |
| `Configuration.SupportedStrategies` | src/unleash.ts:150 | custom strategies keep their order and come before all default strategies |
| `Configuration.StrategyNames` | src/unleash.ts:159 | the metrics strategy list has one name per supported strategy, position by position |
| `Configuration.CustomStrategiesShadowDefaults` | src/unleash.ts:150-151 | a first-match lookup by name in the supported list finds the custom strategy of that name when one exists, and otherwise the first default of that name |
| `Configuration.Configure` | src/unleash.ts:65-101 | a falsy `url` fails with the url error before `appName` is looked at; a falsy `appName` fails next; otherwise the URL is cleaned, the static context is `{appName, environment}` with `environment` defaulting to `default`, and omitted options take their defaults (15000 ms refresh, 60000 ms metrics, metrics and auto-start enabled, the temp dir as backup path, no custom strategies) |
| `Configuration.EmptyEnvironmentIsKept` | src/unleash.ts:67 | an empty-string `environment` is kept as is: the default applies only to an omitted option |
| `Unleash.Create` | src/unleash.ts:65-198 | construction throws exactly the error `Configure` reports, with the message of line 91 or 94; otherwise it yields a fresh facade with those settings and the given fallback and default-variant helpers, not ready, not synchronized, having emitted, counted and started nothing, with the URL warning (if any) and then the automatic start (unless disabled) deferred |
| `Unleash.ReadyKeepsConsistent` | src/unleash.ts:124-129 | setting `ready` and deferring a `ready` event keeps the event invariant |
| `Unleash.ChangedKeepsConsistent` | src/unleash.ts:139-147 | logging `changed`, setting `synchronized` and deferring `synchronized` only when it was not yet set keeps the invariant, so `synchronized` is emitted at most once |
| `Unleash.WarnKeepsConsistent` | src/unleash.ts:228-231 | emitting a warning at once keeps the event invariant |
| `Unleash.TickKeepsConsistent` | src/unleash.ts:124-198 | running the oldest deferred callback (the `ready`, `synchronized` and URL-warning emissions and the automatic start) keeps the event invariant: an emission only moves its event from the queue to the log |
| `Unleash.Unleash.constructor` | src/unleash.ts:61-198 | both flags start false, nothing is emitted or counted, and the URL warning (if any) then the automatic start (unless disabled) are deferred to the next tick |
| `Unleash.Unleash.OnRepositoryReady` | src/unleash.ts:124-129 | the facade becomes ready and a `ready` event is deferred; the invariant is kept |
| `Unleash.Unleash.OnRepositoryChanged` | src/unleash.ts:139-147 | every `changed` notification is re-emitted at once; only the first one sets `synchronized` and defers a `synchronized` event, so it is emitted at most once |
| `Unleash.Unleash.Tick` | src/unleash.ts:184-186 | the oldest deferred callback runs: an emission moves its event to the log, the automatic start runs `start()` once |
| `Unleash.Unleash.Count` | src/unleash.ts:287-289 | one `count(name, enabled)` call is made to the metrics reporter |
| `Unleash.Unleash.CountVariant` | src/unleash.ts:291-293 | one `countVariant(name, variantName)` call is made to the metrics reporter |
| `Unleash.Unleash.EmitWarning` | src/unleash.ts:228-231 | a warning is appended to the event log at once (not deferred) and nothing else in the log changes; the event invariant is kept |
| `Unleash.Unleash.IsEnabled` | src/unleash.ts:217-235 | when not ready the fallback decides, the client is not asked and the not-initialised warning with the result is emitted; when ready the client decides; the evaluation context is the merged context; exactly the returned value is counted |
| `Unleash.Unleash.EvaluateVariant` | src/unleash.ts:240-255 | when not ready the supplied fallback variant or else the default variant is returned with a warning; when ready the client answers; a named result is counted with `countVariant(name, result.name)`, an unnamed one with `count(name, result.enabled)` |
| `Unleash.Unleash.GetVariant` | src/unleash.ts:237-256 | the gating, fallback and count routing above, around the client's `getVariant` |
| `Unleash.Unleash.ForceGetVariant` | src/unleash.ts:258-277 | the gating, fallback and count routing above, around the client's `forceGetVariant` |

## Left out

- `start()` and `destroy()` (src/unleash.ts:208-215) start and stop the repository and metrics lifecycles, which are asynchronous I/O. The model only counts runs of `start()` in `starts`.
- The construction of `Repository`, `Client`, `Metrics` and `FileStorageProvider`, and the helpers `resolveBootstrapProvider`, `generateInstanceId`, `createFallbackFunction` and `getDefaultVariant`: their code is not part of this model. The fallback and default-variant helpers are opaque parameters.
- The `repository` option that replaces the built-in repository (src/unleash.ts:105-106), and the options passed straight through to the collaborators: `projectName`, `instanceId`, `namePrefix`, the custom headers, `timeout`, `httpOptions`, `tags`, `bootstrap`, `bootstrapOverride` and `storageProvider`. The facade only defaults `bootstrap` to `{}` (src/unleash.ts:83, 103), uses `new FileStorageProvider(backupPath)` when `storageProvider` is falsy (src/unleash.ts:121), and passes `instanceId` through `generateInstanceId` (src/unleash.ts:99). None of this is modelled, and the model's `backupPath` matters only when no `storageProvider` is given.
- The default backup path `tmpdir()` (src/unleash.ts:21) is operating-system I/O. It is a parameter of `Configure`.
- Re-emission of the repository's, the client's and the metrics reporter's `error`, `warn`, `sent`, `count` and `registered` events (src/unleash.ts:131-137, 152-153, 168-182). This includes the prefixing of error messages, which mutates foreign `Error` objects.
- `getFeatureToggleDefinition` and `getFeatureToggleDefinitions` (src/unleash.ts:279-285) only pass a lookup through to the repository.
- Strategy evaluation, variant selection, hashing, polling and persistence are not in the facade's source. The `Client` functions stand for them.
- The fallback thunk is evaluated eagerly. The source builds a lazy thunk (src/unleash.ts:221) and hands it to the client (src/unleash.ts:225), so a caller's fallback function runs only when the client calls it. The model always evaluates it and gives the client the value. A fallback function that throws or has side effects behaves differently in the model.
- `Unleash.Unleash.constructor` receives already validated settings. The throwing constructor is `Unleash.Create`, a module-level method, because a Dafny constructor cannot fail.
- Events deferred with `process.nextTick` are ordered in one queue. The model does not capture the interleaving of Node.js's microtasks and promise callbacks with that queue.
- JavaScript falsy values other than `undefined` and the empty string (such as `null`, or a non-string `url`) are not modelled. `Option<string>` stands for an optional string option.
