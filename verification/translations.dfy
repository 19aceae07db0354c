/**
 The English/Kurdish translation layer: two fixed string tables, a lookup
 that falls back to the key itself, and the current language, which starts
 as English.
 */
module Translations {

  datatype Language = En | Ku

  /** The language code the provider stores. */
  function Code(l: Language): (code: string)
    ensures code == "en" || code == "ku"
    ensures l == En <==> code == "en"
  {
    match l
    case En => "en"
    case Ku => "ku"
  }

  const EnTable: map<string, string> := map[
    "app.title" := "Kurdistan Chat",
    "app.tagline" := "Connect with Kurdish speakers worldwide",
    "auth.signin" := "Sign In",
    "auth.signup" := "Sign Up",
    "auth.welcome" := "Welcome back to Kurdistan Chat",
    "auth.join" := "Join Kurdistan Chat and start connecting",
    "auth.email" := "Email",
    "auth.password" := "Password",
    "auth.confirmPassword" := "Confirm Password",
    "auth.fullName" := "Full Name",
    "auth.forgotPassword" := "Forgot password?",
    "auth.googleSignIn" := "Sign in with Google",
    "auth.googleSignUp" := "Sign up with Google",
    "auth.alreadyHaveAccount" := "Already have an account?",
    "auth.dontHaveAccount" := "Don't have an account yet?",
    "auth.createAccount" := "Create Account",
    "auth.cancel" := "Cancel",
    "profile.addPhoto" := "Add profile photo",
    "profile.changePhoto" := "Change photo",
    "chat.searchContacts" := "Search contacts...",
    "chat.typeMessage" := "Type a message...",
    "chat.selectContact" := "Select a contact to start chatting"
  ]

  const KuTable: map<string, string> := map[
    "app.title" := "چاتی کوردستان",
    "app.tagline" := "پەیوەندی لەگەڵ کوردزمانەکان لە سەرانسەری جیهان",
    "auth.signin" := "چوونە ژوورەوە",
    "auth.signup" := "خۆتۆمارکردن",
    "auth.welcome" := "بەخێربێیتەوە بۆ چاتی کوردستان",
    "auth.join" := "بەشداربە لە چاتی کوردستان و دەست بکە بە پەیوەندی",
    "auth.email" := "ئیمەیل",
    "auth.password" := "وشەی نهێنی",
    "auth.confirmPassword" := "دڵنیاکردنەوەی وشەی نهێنی",
    "auth.fullName" := "ناوی تەواو",
    "auth.forgotPassword" := "وشەی نهێنیت لەبیرچووە؟",
    "auth.googleSignIn" := "چوونە ژوورەوە بە گووگڵ",
    "auth.googleSignUp" := "خۆتۆمارکردن بە گووگڵ",
    "auth.alreadyHaveAccount" := "پێشتر هەژمارت هەیە؟",
    "auth.dontHaveAccount" := "هێشتا هەژمارت نیە؟",
    "auth.createAccount" := "دروستکردنی هەژمار",
    "auth.cancel" := "هەڵوەشاندنەوە",
    "profile.addPhoto" := "زیادکردنی وێنەی پرۆفایل",
    "profile.changePhoto" := "گۆڕینی وێنە",
    "chat.searchContacts" := "گەڕان بۆ پەیوەندییەکان...",
    "chat.typeMessage" := "پەیامێک بنووسە...",
    "chat.selectContact" := "پەیوەندییەک هەڵبژێرە بۆ دەستپێکردنی چات"
  ]

  /** The table of language `l`. */
  function Table(l: Language): map<string, string> {
    match l
    case En => EnTable
    case Ku => KuTable
  }

  /** Every translation is a non-empty string, so the fallback `|| key`
      only ever fires for a key the table lacks. */
  lemma ValuesNonEmpty(l: Language, key: string)
    requires key in Table(l)
    ensures Table(l)[key] != ""
  {
  }

  /** JavaScript's `a || b` on strings: the empty string is falsy. */
  function JsOr(a: string, b: string): string {
    if a != "" then a else b
  }

  /** The lookup `t`: the table entry when it is truthy, otherwise the key
      itself (a missing entry is `undefined`, which is falsy). */
  function T(l: Language, key: string): (r: string)
    ensures key in Table(l) ==> r == Table(l)[key]
    ensures key !in Table(l) ==> r == key
  {
    if key in Table(l) then
      ValuesNonEmpty(l, key);
      JsOr(Table(l)[key], key)
    else key
  }

  /** Both languages translate the same keys, so switching the language
      never changes whether a key has a translation. */
  lemma SameKeys()
    ensures EnTable.Keys == KuTable.Keys
  {
  }

  lemma TranslatedInBoth(key: string)
    ensures key in Table(En) <==> key in Table(Ku)
  {
    SameKeys();
  }

  /** Two lookups from the documented behaviour. */
  lemma SignInLabel()
    ensures T(En, "auth.signin") == "Sign In"
    ensures T(Ku, "auth.signin") == "چوونە ژوورەوە"
    ensures forall l :: T(l, "nonexistent.key") == "nonexistent.key"
  {
  }

  /** The provider's state: only the current language. */
  datatype Settings = Settings(language: Language)

  /** The provider starts in English. */
  function InitialSettings(): (s: Settings)
    ensures Code(s.language) == "en"
  {
    Settings(En)
  }

  /** `setLanguage`: afterwards lookups use the new language's table. */
  function SetLanguage(s: Settings, l: Language): (r: Settings)
    ensures r.language == l
    ensures forall key :: Lookup(r, key) == T(l, key)
  {
    Settings(l)
  }

  /** `t` as exposed through the provider. */
  function Lookup(s: Settings, key: string): string {
    T(s.language, key)
  }
}
