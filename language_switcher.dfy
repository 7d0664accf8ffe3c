/** The language toggle button of src/components/LanguageSwitcher.tsx. */
module LanguageSwitcher {
  import opened LanguageContext

  /** The other language. */
  function Toggle(language: Language): (r: Language)
    ensures r != language
  {
    if language == En then Te else En
  }

  /** The name a language goes by on the button. */
  function Name(language: Language): string {
    match language
    case En => "English"
    case Te => "తెలుగు"
  }

  /** The button shows "తెలుగు" while English is on and "English" while Telugu is on. */
  function Label(language: Language): (caption: string)
    ensures caption == Name(Toggle(language))
  {
    if language == En then "తెలుగు" else "English"
  }

  /** Toggling twice restores the language. */
  lemma ToggleTwice(language: Language)
    ensures Toggle(Toggle(language)) == language
  {
  }

  /** `toggleLanguage`: switches the shared language to the other one. */
  method ToggleLanguage(provider: LanguageProvider)
    modifies provider
    ensures provider.language == Toggle(old(provider.language))
    ensures old(provider.language) == En ==> provider.language == Te
    ensures old(provider.language) == Te ==> provider.language == En
  {
    provider.SetLanguage(if provider.language == En then Te else En);
  }
}
