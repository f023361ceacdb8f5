/** The static content: the section texts keyed by callback token, and the fallback text. */
module Catalog {

  /** The two languages the bot speaks. */
  datatype Language = Czech | English

  /** The language code a token ends with. */
  function Suffix(lang: Language): string {
    match lang
    case Czech => "cs"
    case English => "en"
  }

  /** The six sections, in the order the language menu lists them. */
  const SectionNames: seq<string> := ["menu", "hours", "where", "contact", "preorder", "why"]

  /** The callback token of a section in a language: `<section>_<code>`. */
  function Token(section: string, lang: Language): string {
    section + "_" + Suffix(lang)
  }

  /** The section texts, keyed by the callback data of the button that shows them. */
  const Sections: map<string, string> := map[
    "menu_cs"     := "🥐 **COFFEE PERK MENU** ☕️\n\n☕ Výběrová káva\n🍳 Snídaně…",
    "hours_cs"    := "🕐 **KDY MÁME OTEVŘENO?**\n\n📅 Po–Pá: 7:30–17:00\n…",
    "where_cs"    := "📍 **KDE NÁS NAJDETE?**\n\n🏠 Vyskočilova 1100/2…",
    "contact_cs"  := "📞 **KONTAKTUJTE NÁS**\n\n📬 info@coffeeperk.cz\n…",
    "preorder_cs" := "📦 **PŘEDOBJEDNÁVKY**\n\nBrzy pošleme…",
    "why_cs"      := "😎 **PROČ K NÁM?**\n\n☕ Protože…",
    "menu_en"     := "🥐 **COFFEE PERK MENU** ☕️\n\n☕ Specialty coffee\n…",
    "hours_en"    := "🕐 **OPENING HOURS**\n\n📅 Mon–Fri: 7:30–17:00\n…",
    "where_en"    := "📍 **LOCATION**\n\n🏠 Vyskočilova 1100/2…",
    "contact_en"  := "📞 **CONTACT / BOOKING**\n\n📬 info@coffeeperk.cz\n…",
    "preorder_en" := "📦 **PRE-ORDER**\n\nComing soon…",
    "why_en"      := "😎 **WHY VISIT US?**\n\n☕ Because…"
  ]

  /** What a section lookup yields for a key the catalog does not have. */
  const NotFound: string := "❌ Sekce nenalezena."

  /** The catalog holds exactly the twelve section tokens: every section in both languages, nothing else. */
  lemma CatalogKeys(key: string)
    ensures key in Sections <==> exists i, lang :: 0 <= i < |SectionNames| && key == Token(SectionNames[i], lang)
  {
    if key in Sections {
      var i, lang := SectionOf(key);
    } else {
      forall i, lang | 0 <= i < |SectionNames| ensures key != Token(SectionNames[i], lang) {
        TokenInCatalog(i, lang);
      }
    }
  }

  /** Every section token is a catalog key. */
  lemma TokenInCatalog(i: int, lang: Language)
    requires 0 <= i < |SectionNames|
    ensures Token(SectionNames[i], lang) in Sections
  {
    var t := Token(SectionNames[i], lang);
    match lang
    case Czech =>
      if i == 0 { assert t == "menu_cs"; }
      else if i == 1 { assert t == "hours_cs"; }
      else if i == 2 { assert t == "where_cs"; }
      else if i == 3 { assert t == "contact_cs"; }
      else if i == 4 { assert t == "preorder_cs"; }
      else { assert t == "why_cs"; }
    case English =>
      if i == 0 { assert t == "menu_en"; }
      else if i == 1 { assert t == "hours_en"; }
      else if i == 2 { assert t == "where_en"; }
      else if i == 3 { assert t == "contact_en"; }
      else if i == 4 { assert t == "preorder_en"; }
      else { assert t == "why_en"; }
  }

  /** The section and language a catalog key stands for. */
  lemma SectionOf(key: string) returns (i: int, lang: Language)
    requires key in Sections
    ensures 0 <= i < |SectionNames| && key == Token(SectionNames[i], lang)
  {
    lang := if key[|key| - 2..] == "cs" then Czech else English;
    if key == "menu_cs" || key == "menu_en" { i := 0; }
    else if key == "hours_cs" || key == "hours_en" { i := 1; }
    else if key == "where_cs" || key == "where_en" { i := 2; }
    else if key == "contact_cs" || key == "contact_en" { i := 3; }
    else if key == "preorder_cs" || key == "preorder_en" { i := 4; }
    else { i := 5; }
  }

  /** No section text is empty, and none can be mistaken for the fallback text. */
  lemma SectionTextsFound(key: string)
    requires key in Sections
    ensures Sections[key] != NotFound && |Sections[key]| > 0
  {
  }
}
