/**
 * The i18n engine the plugin wraps, as a black box with the least state the
 * plugin's hooks observe: whether it is initialised, how many times it has
 * been asked to initialise, the options it was initialised with, and its
 * active language. Translation lookups are not modelled.
 */
module Engine {
  import opened Wrappers

  /** Options forwarded verbatim to the engine's `init`; opaque to the plugin. */
  type InitOptions = map<string, string>

  /** The observable state of one engine object. */
  datatype EngineState = EngineState(
    isInitialized: bool,
    initCalls: nat,                  // how many times `init` was called on this object
    initOptions: Option<InitOptions>, // the options of the latest `init`
    language: Option<string>)        // the active language; None before one is set

  /** The state of an engine that nobody has initialised yet. */
  const Pristine: EngineState := EngineState(false, 0, None, None)

  /** The option key from which `init` takes the engine's default language. */
  const LanguageOption: string := "lng"

  /**
   * The state after `init(options)`: initialised with these options, and
   * with the default language they name, if they name one.
   */
  function AfterInit(s: EngineState, options: InitOptions): (t: EngineState) {
    EngineState(
      isInitialized := true,
      initCalls := s.initCalls + 1,
      initOptions := Some(options),
      language := if LanguageOption in options then Some(options[LanguageOption]) else s.language)
  }

  /** The state of a fresh clone: the same configuration and language, no init calls of its own. */
  function CloneOf(s: EngineState): (t: EngineState) {
    s.(initCalls := 0)
  }

  class I18n {
    var isInitialized: bool
    var initCalls: nat
    var initOptions: Option<InitOptions>
    var language: Option<string>

    function State(): EngineState
      reads this
    {
      EngineState(isInitialized, initCalls, initOptions, language)
    }

    /** A new engine, as the library's default export is before first use. */
    constructor ()
      ensures State() == Pristine
    {
      isInitialized, initCalls, initOptions, language := false, 0, None, None;
    }

    method Init(options: InitOptions)
      modifies this
      ensures State() == AfterInit(old(State()), options)
    {
      isInitialized := true;
      initCalls := initCalls + 1;
      initOptions := Some(options);
      if LanguageOption in options {
        language := Some(options[LanguageOption]);
      }
    }

    method CloneInstance() returns (clone: I18n)
      ensures fresh(clone) && clone.State() == CloneOf(State())
    {
      clone := new I18n();
      clone.isInitialized, clone.initOptions, clone.language := isInitialized, initOptions, language;
    }

    method ChangeLanguage(lng: string)
      modifies this
      ensures State() == old(State()).(language := Some(lng))
    {
      language := Some(lng);
    }
  }
}
