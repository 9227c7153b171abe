/** The prompt catalog: one template per (variant, language) with a single
    placeholder, filled verbatim with the topic or the summary. */
module Prompts {
  import opened Text

  /** The three script variants the pipeline produces for every topic. */
  datatype Variant = Long | FromSummary | Short

  /** The catalog's two languages. */
  datatype Locale = Vi | En

  /** `'vi' if lang.startswith('vi') else 'en'`: every other code falls back to English. */
  function LocaleOf(lang: string): (k: Locale)
    ensures k == Vi <==> StartsWith(lang, "vi")
    ensures k == En <==> !StartsWith(lang, "vi")
  {
    if StartsWith(lang, "vi") then Vi else En
  }

  /** Template prose is abbreviated to stand-ins; each keeps the single
      placeholder between a quoted opening and the list of requirements. */
  function Catalog(v: Variant, k: Locale): Template {
    match (v, k)
    case (Long, Vi) => Template("<vi: long narrative script, 300-500 words, about> \"", "\" <vi: requirements>")
    case (Long, En) => Template("<en: long narrative script, 300-500 words, about> \"", "\" <en: requirements>")
    case (FromSummary, Vi) => Template("<vi: rewrite this Wikipedia summary>\n\n\"", "\"\n\n<vi: requirements>")
    case (FromSummary, En) => Template("<en: rewrite this Wikipedia summary>\n\n\"", "\"\n\n<en: requirements>")
    case (Short, Vi) => Template("<vi: short script, 100-150 words, about> \"", "\" <vi: requirements>")
    case (Short, En) => Template("<en: short script, 100-150 words, about> \"", "\" <en: requirements>")
  }

  /** The value a variant's template is filled with: the summary for
      `from_summary`, the topic for the other two. */
  function Subject(v: Variant, topic: string, summary: string): string {
    if v == FromSummary then summary else topic
  }

  /** The prompt sent to the external service for one variant. */
  function Prompt(v: Variant, topic: string, summary: string, lang: string): (p: string)
    ensures Unformat(Catalog(v, LocaleOf(lang)), p) == Some(Subject(v, topic, summary))
  {
    FormatRoundTrip(Catalog(v, LocaleOf(lang)), Subject(v, topic, summary));
    Format(Catalog(v, LocaleOf(lang)), Subject(v, topic, summary))
  }

  /** Two languages that agree on the "vi" test get the same prompt. */
  lemma PromptByLocale(v: Variant, topic: string, summary: string, a: string, b: string)
    requires StartsWith(a, "vi") == StartsWith(b, "vi")
    ensures Prompt(v, topic, summary, a) == Prompt(v, topic, summary, b)
  {
  }
}
