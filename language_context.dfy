/** The translation table and lookup of src/contexts/LanguageContext.tsx. */
module LanguageContext {

  datatype Language = En | Te

  /** One row of the table: the English and the Telugu text. */
  datatype Entry = Entry(en: string, te: string)

  const Translations: map<string, Entry> := map[
    "login" := Entry("Login", "లాగిన్"),
    "signup" := Entry("Sign Up", "సైన్ అప్"),
    "profile" := Entry("Profile", "ప్రొఫైల్"),
    "helpCenter" := Entry("Help Center", "సహాయ కేంద్రం"),
    "logout" := Entry("Logout", "లాగ్అవుట్"),
    "welcomeTitle" := Entry("Welcome to Gamyam", "గమ్యంకు స్వాగతం"),
    "welcomeSubtitle" := Entry("Your trusted bus tracking companion", "మీ నమ్మకమైన బస్ ట్రాకింగ్ సహాయకుడు"),
    "selectBusType" := Entry("Select Bus Type", "బస్ రకాన్ని ఎంచుకోండి"),
    "localBus" := Entry("Local Bus", "లోకల్ బస్"),
    "districtBus" := Entry("District Bus", "జిల్లా బస్"),
    "stateBus" := Entry("State Bus", "రాష్ట్ర బస్"),
    "myProfile" := Entry("My Profile", "నా ప్రొఫైల్"),
    "profileInformation" := Entry("Profile Information", "ప్రొఫైల్ సమాచారం"),
    "fullName" := Entry("Full Name", "పూర్తి పేరు"),
    "email" := Entry("Email", "ఇమెయిల్"),
    "phoneNumber" := Entry("Phone Number", "ఫోన్ నంబర్"),
    "changePhoto" := Entry("Change Photo", "ఫోటో మార్చండి"),
    "saveChanges" := Entry("Save Changes", "మార్పులను సేవ్ చేయండి"),
    "back" := Entry("Back", "వెనుకకు"),
    "contactSupport" := Entry("Contact Support", "సపోర్ట్‌ను సంప్రదించండి"),
    "phoneSupport" := Entry("Phone Support", "ఫోన్ సపోర్ట్"),
    "emailSupport" := Entry("Email Support", "ఇమెయిల్ సపోర్ట్"),
    "tollFree" := Entry("Toll Free", "టోల్ ఫ్రీ"),
    "raiseTicket" := Entry("Raise a Complaint Ticket", "ఫిర్యాదు టికెట్ లేవనెత్తండి"),
    "loading" := Entry("Loading...", "లోడవుతోంది..."),
    "error" := Entry("Error", "లోపం"),
    "success" := Entry("Success", "విజయం"),
    "cancel" := Entry("Cancel", "రద్దు"),
    "save" := Entry("Save", "సేవ్"),
    "close" := Entry("Close", "మూసివేయండి"),
    "askMitrama" := Entry("Ask Mitrama", "మిత్రమాను అడగండి"),
    "typeMessage" := Entry("Type your message...", "మీ సందేశాన్ని టైప్ చేయండి..."),
    "send" := Entry("Send", "పంపండి")
  ]

  function Text(entry: Entry, language: Language): string {
    match language
    case En => entry.en
    case Te => entry.te
  }

  /** Every row has non-empty text in both languages. */
  ghost predicate AllEntriesNonEmpty() {
    forall key :: key in Translations ==> Translations[key].en != "" && Translations[key].te != ""
  }

  lemma TranslationsNonEmpty()
    ensures AllEntriesNonEmpty()
  {
  }

  /** `translations[key]?.[language] || key`: the row's text in the language,
      and the key itself for a key the table does not have. */
  function Translate(language: Language, key: string): (r: string)
    ensures key in Translations ==> r == Text(Translations[key], language)
    ensures key !in Translations ==> r == key
  {
    TranslationsNonEmpty();
    if key in Translations && Text(Translations[key], language) != "" then Text(Translations[key], language) else key
  }

  /** A non-empty key never translates to the empty string. */
  lemma TranslateNonEmpty(language: Language, key: string)
    requires key != ""
    ensures Translate(language, key) != ""
  {
    TranslationsNonEmpty();
  }

  /** Switching language can only change the text of keys that are in the table. */
  lemma OnlyTableKeysDependOnLanguage(key: string)
    requires Translate(En, key) != Translate(Te, key)
    ensures key in Translations
  {
  }

  /** The LanguageProvider: the current language and `t`. */
  class LanguageProvider {
    var language: Language

    constructor ()
      ensures language == En
    {
      language := En;
    }

    method SetLanguage(lang: Language)
      modifies this
      ensures language == lang
    {
      language := lang;
    }

    /** `t(key)` in the current language. */
    function T(key: string): (r: string)
      reads this
      ensures key in Translations ==> r == Text(Translations[key], language)
      ensures key !in Translations ==> r == key
    {
      Translate(language, key)
    }
  }
}
