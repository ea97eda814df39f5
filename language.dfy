/**
 * The language context of context/LanguageContext.tsx: the provider's
 * language state, its restoration from and persistence to local storage,
 * the es/en toggle, the choice of translation bundle, and the guard of
 * `useLanguage`.
 */
module Language {
  import opened Wrappers

  const Spanish := "es"
  const English := "en"
  /** The local-storage key the choice is kept under. */
  const StorageKey := "app-lang"
  const OutsideProviderMessage := "useLanguage must be used within a LanguageProvider"

  /** The two translation bundles; their texts are not part of this model. */
  datatype Translations = Es | En

  /** `language === 'es' ? es : en`. */
  function TranslationsFor(language: string): (t: Translations)
    ensures t == Es <==> language == Spanish
    ensures t == En <==> language != Spanish
  {
    if language == Spanish then Es else En
  }

  /** The language `toggleLanguage` switches to. */
  function Toggled(language: string): (r: string)
    ensures r == English <==> language == Spanish
    ensures r == Spanish <==> language != Spanish
  {
    if language == Spanish then English else Spanish
  }

  /** Toggling twice is the identity exactly on the two real languages; any other stored value becomes "es". */
  lemma ToggleTwice(language: string)
    ensures Toggled(Toggled(language)) == language <==> language == Spanish || language == English
    ensures Toggled(Toggled(language)) == Spanish || Toggled(Toggled(language)) == English
  {
  }

  /** Every toggle changes the bundle on show, whatever the current value. */
  lemma ToggleSwitchesTranslations(language: string)
    ensures TranslationsFor(Toggled(language)) != TranslationsFor(language)
  {
  }

  /** The provider's state and the browser storage it writes to. */
  class LanguageProvider {
    var language: string
    var storage: map<string, string>

    constructor (storage: map<string, string>)
      ensures language == Spanish && this.storage == storage
    {
      language := Spanish;
      this.storage := storage;
    }

    /** `t`. */
    function Current(): Translations
      reads this
    {
      TranslationsFor(language)
    }

    /** The mount effect: a stored, non-empty value replaces the language, unchecked. */
    method Mount()
      modifies this
      ensures storage == old(storage)
      ensures StorageKey in storage && storage[StorageKey] != "" ==> language == storage[StorageKey]
      ensures !(StorageKey in storage && storage[StorageKey] != "") ==> language == old(language)
    {
      var saved: Option<string> := if StorageKey in storage then Some(storage[StorageKey]) else None;
      if saved.Some? && saved.value != "" {
        language := saved.value;
      }
    }

    /** `toggleLanguage`: switch, and persist the new language. */
    method ToggleLanguage()
      modifies this
      ensures language == Toggled(old(language))
      ensures storage == old(storage)[StorageKey := language]
    {
      var newLang := Toggled(language);
      language := newLang;
      storage := storage[StorageKey := newLang];
    }
  }

  /** `useLanguage()`: the context, or the error thrown outside a provider. */
  function UseLanguage(provider: Option<LanguageProvider>): (r: Result<LanguageProvider, string>)
    ensures r.Ok? <==> provider.Some?
    ensures r.Ok? ==> r.value == provider.value
    ensures r.Err? ==> r.error == OutsideProviderMessage
  {
    match provider
    case None => Err(OutsideProviderMessage)
    case Some(p) => Ok(p)
  }
}
