/**
 * The plugin: its default options, the merge of user options over them, and
 * the two per-request hooks. The derive hook makes sure the engine is
 * initialised and hands the request a private clone; the before-handle hook
 * applies the detected language to that clone.
 */
module Plugin {
  import opened Wrappers
  import opened Detector
  import opened Engine

  /** The detector option: the rule of module Detector with its names, or a user function. */
  datatype LanguageDetector =
    | Standard(names: DetectorOptions)
    | Custom(detect: Context -> Option<string>)

  function RunDetector(d: LanguageDetector, ctx: Context): (lang: Option<string>) {
    match d
    case Standard(names) => Detect(names, ctx)
    case Custom(detect) => detect(ctx)
  }

  /** The complete options the hooks use; `instance == null` selects the library's engine. */
  datatype Options = Options(
    instance: I18n?,
    initOptions: InitOptions,
    detectLanguage: LanguageDetector)

  /** The options a user passes: each field may be left out (None). */
  datatype UserOptions = UserOptions(
    instance: Option<I18n?>,
    initOptions: Option<InitOptions>,
    detectLanguage: Option<LanguageDetector>)

  const NoOverrides: UserOptions := UserOptions(None, None, None)

  const DefaultOptions: Options :=
    Options(instance := null, initOptions := map[], detectLanguage := Standard(DefaultDetectorOptions))

  /** A shallow, field-by-field merge: each field the user supplies replaces the default. */
  function Merge(defaults: Options, user: UserOptions): (merged: Options)
    ensures user.instance.Some? ==> merged.instance == user.instance.value
    ensures user.instance.None? ==> merged.instance == defaults.instance
    ensures user.initOptions.Some? ==> merged.initOptions == user.initOptions.value
    ensures user.initOptions.None? ==> merged.initOptions == defaults.initOptions
    ensures user.detectLanguage.Some? ==> merged.detectLanguage == user.detectLanguage.value
    ensures user.detectLanguage.None? ==> merged.detectLanguage == defaults.detectLanguage
  {
    Options(
      if user.instance.Some? then user.instance.value else defaults.instance,
      if user.initOptions.Some? then user.initOptions.value else defaults.initOptions,
      if user.detectLanguage.Some? then user.detectLanguage.value else defaults.detectLanguage)
  }

  /** Supplying nothing keeps the defaults: no instance, empty init options, the standard detector. */
  lemma DefaultsWhenNothingSupplied()
    ensures Merge(DefaultOptions, NoOverrides) == DefaultOptions
    ensures DefaultOptions.instance == null && DefaultOptions.initOptions == map[]
    ensures DefaultOptions.detectLanguage.Standard?
    ensures DefaultOptions.detectLanguage.names.searchParamName == "lang"
    ensures DefaultOptions.detectLanguage.names.storeParamName == "language"
    ensures DefaultOptions.detectLanguage.names.headerName == "accept-language"
    ensures DefaultOptions.detectLanguage.names.cookieName == "lang"
    ensures DefaultOptions.detectLanguage.names.pathParamName == "lang"
  {
  }

  /** Supplying every field makes the defaults irrelevant. */
  lemma FullOverrideIgnoresDefaults(d1: Options, d2: Options, user: UserOptions)
    requires user.instance.Some? && user.initOptions.Some? && user.detectLanguage.Some?
    ensures Merge(d1, user) == Merge(d2, user)
    ensures Merge(d1, user) ==
              Options(user.instance.value, user.initOptions.value, user.detectLanguage.value)
  {
  }

  /** Merging the same user options again changes nothing. */
  lemma MergeIdempotent(defaults: Options, user: UserOptions)
    ensures Merge(Merge(defaults, user), user) == Merge(defaults, user)
  {
  }

  // ---------------------------------------------------------------------------
  // The derive hook.
  // ---------------------------------------------------------------------------

  /** The engine a request uses: the configured instance, or the library's own. */
  function EngineFor(options: Options, lib: I18n): (engine: I18n) {
    if options.instance != null then options.instance else lib
  }

  /** The shared engine's state after one derive: initialised once, untouched afterwards. */
  function DeriveState(s: EngineState, initOptions: InitOptions): (t: EngineState) {
    if s.isInitialized then s else AfterInit(s, initOptions)
  }

  method Derive(options: Options, lib: I18n) returns (i18n: I18n)
    modifies EngineFor(options, lib)
    ensures EngineFor(options, lib).State() ==
              DeriveState(old(EngineFor(options, lib).State()), options.initOptions)
    ensures fresh(i18n) && i18n.State() == CloneOf(EngineFor(options, lib).State())
  {
    var instance := EngineFor(options, lib);
    if !instance.isInitialized {
      instance.Init(options.initOptions);
    }
    i18n := instance.CloneInstance();
  }

  /** The shared engine's state after `n` derives in sequence. */
  function DeriveMany(s: EngineState, initOptions: InitOptions, n: nat): (t: EngineState)
    decreases n
  {
    if n == 0 then s else DeriveMany(DeriveState(s, initOptions), initOptions, n - 1)
  }

  /**
   * However many requests are derived, `init` is called at most once, and
   * only when the engine was not initialised; afterwards it is initialised,
   * and every derive after the first leaves its whole state, language
   * included, as the first left it.
   */
  lemma {:induction false} InitAtMostOnce(s: EngineState, initOptions: InitOptions, n: nat)
    ensures DeriveMany(s, initOptions, n).initCalls ==
              s.initCalls + (if n > 0 && !s.isInitialized then 1 else 0)
    ensures n > 0 ==> DeriveMany(s, initOptions, n).isInitialized
    ensures n > 0 ==> DeriveMany(s, initOptions, n) == DeriveState(s, initOptions)
    ensures s.isInitialized ==> DeriveMany(s, initOptions, n) == s
    decreases n
  {
    if n > 0 {
      var t := DeriveState(s, initOptions);
      InitAtMostOnce(t, initOptions, n - 1);
    }
  }

  /**
   * The clone a request receives carries the engine's language after the
   * derive: on the first request, the default language named by the init
   * options when they name one; on later ones, whatever the engine already had.
   */
  lemma CloneLanguageAfterDerive(s: EngineState, initOptions: InitOptions)
    ensures !s.isInitialized && LanguageOption in initOptions ==>
              CloneOf(DeriveState(s, initOptions)).language == Some(initOptions[LanguageOption])
    ensures !s.isInitialized && LanguageOption !in initOptions ==>
              CloneOf(DeriveState(s, initOptions)).language == s.language
    ensures s.isInitialized ==> CloneOf(DeriveState(s, initOptions)).language == s.language
  {
  }

  // ---------------------------------------------------------------------------
  // The before-handle hook.
  // ---------------------------------------------------------------------------

  /** A clone's state after the hook: a truthy detected language replaces the active one. */
  function ApplyDetected(s: EngineState, lng: Option<string>): (t: EngineState) {
    if Truthy(lng) then s.(language := lng) else s
  }

  /** Only a non-null, non-empty language reaches `changeLanguage`; nothing else changes. */
  lemma ApplyDetectedLanguage(s: EngineState, lng: Option<string>)
    ensures Truthy(lng) ==> ApplyDetected(s, lng).language == lng
    ensures !Truthy(lng) ==> ApplyDetected(s, lng) == s
    ensures ApplyDetected(s, lng).(language := s.language) == s
    ensures ApplyDetected(ApplyDetected(s, lng), lng) == ApplyDetected(s, lng)
  {
  }

  method BeforeHandle(options: Options, ctx: Context, i18n: I18n)
    modifies i18n
    ensures i18n.State() ==
              ApplyDetected(old(i18n.State()), RunDetector(options.detectLanguage, ctx))
  {
    var lng := RunDetector(options.detectLanguage, ctx);
    if Truthy(lng) {
      i18n.ChangeLanguage(lng.value);
    }
  }

  // ---------------------------------------------------------------------------
  // One request: derive, then before-handle.
  // ---------------------------------------------------------------------------

  /**
   * A request's hooks in order. The handler receives a fresh clone whose
   * language is the detected one when that is truthy and the engine's
   * otherwise; the shared engine is changed only by its first initialisation.
   */
  method HandleRequest(options: Options, lib: I18n, ctx: Context) returns (i18n: I18n)
    modifies EngineFor(options, lib)
    ensures fresh(i18n)
    ensures EngineFor(options, lib).State() ==
              DeriveState(old(EngineFor(options, lib).State()), options.initOptions)
    ensures i18n.State() ==
              ApplyDetected(CloneOf(EngineFor(options, lib).State()),
                            RunDetector(options.detectLanguage, ctx))
  {
    i18n := Derive(options, lib);
    BeforeHandle(options, ctx, i18n);
  }

  /**
   * Two requests in sequence get distinct clones; the second request's hooks
   * leave the first request's clone as it was.
   */
  method TwoRequests(options: Options, lib: I18n, first: Context, second: Context)
    returns (a: I18n, b: I18n)
    modifies EngineFor(options, lib)
    ensures fresh(a) && fresh(b) && a != b
    ensures a.State() == ApplyDetected(CloneOf(DeriveState(old(EngineFor(options, lib).State()),
                                                           options.initOptions)),
                                       RunDetector(options.detectLanguage, first))
    ensures b.State() == ApplyDetected(CloneOf(DeriveState(old(EngineFor(options, lib).State()),
                                                           options.initOptions)),
                                       RunDetector(options.detectLanguage, second))
    ensures EngineFor(options, lib).initCalls ==
              old(EngineFor(options, lib).initCalls) +
              (if old(EngineFor(options, lib).isInitialized) then 0 else 1)
  {
    a := HandleRequest(options, lib, first);
    b := HandleRequest(options, lib, second);
  }
}
