# elysia-i18next, modelled in Dafny

A model of the core of `elysia-i18next`, a request-scoped i18n plugin for the
Elysia web framework that wraps the i18next engine. The plugin

- detects a language for each request from five sources in a fixed priority:
  the URL search parameter, a cookie, a routed path parameter, the
  request-scoped store, and a header (module `Detector`);
- merges the user's options over its defaults, makes sure the engine is
  initialised before the first request, gives every request a private clone of
  the engine, and applies the detected language to that clone before the route
  handler runs (module `Plugin`).

The engine itself is a black box (module `Engine`): a class `I18n` whose state
is whether it is initialised, how many times `init` was called on it, the
options of its latest `init`, and its active language. `init` marks the engine
initialised, records its options and takes the default language from the
options' `lng` entry when there is one; `cloneInstance` copies the state into a
fresh object; `changeLanguage` sets the active language.

Files: `wrappers.dfy` (Option, map lookup), `detector.dfy`, `engine.dfy`,
`plugin.dfy`.

How the properties are stated:

- The detector is a function, `Detector.Detect`, written as the source's chain
  of early returns. Beside it is an independent description of the rule: each
  source on its own (`Stops`: does its guard end the search; `Yield`: what it
  holds), the order as a list (`Priority`), and `FirstStop`/`Winner`, the first
  source in that order that stops the search. `DetectFollowsPriority` proves the
  chain equals the value of the winning source, so the result is always null or
  the value of exactly one source. Because `Detect` is a function over
  immutable values, it cannot change the context it reads.
- The hooks are methods over `Engine.I18n` objects with `modifies` clauses.
  Each is proved against a function on `EngineState`: `DeriveState` for the
  shared engine after a derive, `CloneOf` for the clone, `ApplyDetected` for the
  clone after the before-handle hook. The lemmas are about those functions.

The before-handle hook applies a detected language only when it is truthy
(`if (lng)`, src/index.ts:84), so neither null nor the empty string reaches
`changeLanguage`.

## Model

| member | source | states |
|---|---|---|
| `Detector.FirstStop` | src/index.ts:28-53 | the index it returns is the first source of the order whose guard ends the search; None only when no source does |
| `Detector.Winner` | src/index.ts:28-53 | the deciding source ends the search and no source of higher priority does |
| `Detector.WinnerUnique` | src/index.ts:28-53 | any source that stops the search with no higher source stopping is the winner, so exactly one source decides |
| `Detector.DetectFollowsPriority` | src/index.ts:28-53 | the early-return chain returns exactly the value held by the deciding source (null or one source's value) |
| `Detector.DecidedByHigherSources` | src/index.ts:31-52 | sources below the deciding one cannot change the result: contexts that agree up to and including it get the same answer |
| `Detector.SearchParamWins` | src/index.ts:31-34 | a present, non-empty query value is returned whatever the other sources hold |
| `Detector.CookieAfterQuery` | src/index.ts:36-39 | without a usable query value a non-empty cookie value is returned; a missing jar, a missing cookie or an empty value falls through as if neither source existed |
| `Detector.PathParamShadows` | src/index.ts:41-43 | a present path parameter is returned even when empty, and the store and headers then do not matter |
| `Detector.StoreThenHeader` | src/index.ts:45-52 | next a present store key gives its value, null included; failing that the header value, and null exactly when the header is absent |
| `Detector.EmptyValuesAsymmetry` | src/index.ts:32-43 | an empty query value is skipped while an empty path parameter is returned and decides the detection |
| `Detector.DefaultScenarios` | src/index.ts:28-65 | with the default names: query `fr` beats all, then cookie `de`, path `es`, store `it`, header `ja`, and nothing set gives null |
| `Plugin.Merge` | src/index.ts:69-72 | each field of the merged options comes from the user when supplied and from the defaults otherwise |
| `Plugin.DefaultsWhenNothingSupplied` | src/index.ts:56-72 | the defaults are no instance, empty init options and the standard detector named `lang`/`language`/`accept-language`/`lang`/`lang`; merging nothing keeps them |
| `Plugin.FullOverrideIgnoresDefaults` | src/index.ts:69-72 | when the user supplies every field the defaults do not influence the result |
| `Plugin.MergeIdempotent` | src/index.ts:69-72 | merging the same user options twice is the same as once |
| `Plugin.Derive` | src/index.ts:74-81 | on the configured instance or else the library engine, `init(initOptions)` runs only if it is uninitialised; the result is a fresh clone of that engine |
| `Plugin.InitAtMostOnce` | src/index.ts:75-78 | over any number of sequential derives `init` is called at most once, only from the uninitialised state; afterwards the engine is initialised, and every derive after the first leaves its state (language included) as the first left it; an already initialised engine is never changed |
| `Plugin.CloneLanguageAfterDerive` | src/index.ts:75-79 | the first request's clone carries the default language named by the init options (or the engine's prior language when they name none); later clones carry the engine's current language |
| `Plugin.ApplyDetectedLanguage` | src/index.ts:84-86 | a truthy detected language becomes the clone's language; null or empty leaves the clone unchanged; only the language can change and applying twice equals once |
| `Plugin.BeforeHandle` | src/index.ts:82-87 | the hook changes only the request's clone, and exactly as `ApplyDetected` of the detector's result |
| `Plugin.HandleRequest` | src/index.ts:73-88 | derive then before-handle: the handler's clone is fresh and carries the detected language when truthy, the engine's otherwise; the shared engine changes only by its first initialisation |
| `Plugin.TwoRequests` | src/index.ts:74-87 | two sequential requests get distinct clones, the second request's hooks leave the first clone as it was, and `init` ran at most once |
| `Engine.I18n.Init` | src/index.ts:77 | the engine becomes initialised with the given options, one more init call is counted, and its language becomes the options' default language when they name one and is kept otherwise |
| `Engine.I18n.CloneInstance` | src/index.ts:79 | a fresh engine with the same initialisation state, options and language, and no init calls of its own |
| `Engine.I18n.ChangeLanguage` | src/index.ts:85 | only the engine's language changes, to the given one |

## Left out

- Elysia plugin registration and hook wiring (`app.use`, the plugin name and seed, `as: 'global'`): framework plumbing with no logic of its own; `Plugin.HandleRequest` only fixes the order of the two hooks.
- Parsing of the request URL, the cookie header and the headers: external library calls. The context holds their results as maps; the query map holds the first value per name, as `URLSearchParams.get` returns.
- Names that JavaScript's `in` finds through the prototype chain: for a plain `params` or `store` object, a configured name such as `constructor` or `toString` is always present and yields an inherited function. The model looks up own keys only, so such names count as present only when the map holds them.
- Case-insensitive header names: the header map is looked up with the exact configured name.
- Cookie values that the framework parses into non-strings, and store values other than strings and null: the model's cookie value is a string and a store entry is a string or null, as the source's casts assume.
- A user option passed explicitly as `undefined`: the JavaScript spread copies it over the default; the model's user options only distinguish a supplied value from an absent field.
- Custom detectors are functions of the parsed context only; they do not see the rest of the framework context (such as the derived `i18n`).
- The i18next engine's internals: translation lookups, resource loading, language detection and fallback inside `init`, language resolution inside `changeLanguage`, and what `cloneInstance` copies beyond the language and initialisation state. The `t` handed to the request is the clone's own `t`, so the model represents it by the clone.
- The `await` suspension points and the check-then-init race between concurrent first requests: the model covers sequential requests only.
- Plugin.InitAtMostOnce: holds for sequential requests only; concurrent first requests can each observe an uninitialised engine and call `init` again.
- A rejecting `init` or a rejecting detector: host-framework error propagation, not modelled.
