/** `generate_three_scripts`: for each variant, either the external text
    generator's answer or, when generation is not available or the call
    fails, the deterministic synthesizer's output. */
module Generation {
  import opened Text
  import opened Prompts
  import opened Fallback

  /** What one call to the external generator gives: its raw answer text,
      or a failure (any exception raised by the call). */
  datatype Outcome = Ok(text: string) | Fail

  /** The external generator, one call per variant and prompt.  It stands for
      the chat-completion request, whose answers are outside the model. */
  type Service = (Variant, string) -> Outcome

  /** `call_openai`: the answer comes back stripped; failures stay failures. */
  function Call(service: Service, v: Variant, prompt: string): (o: Outcome)
    ensures o.Ok? <==> service(v, prompt).Ok?
    ensures o.Ok? ==> o.text == Strip(service(v, prompt).text) && IsStripped(o.text)
  {
    match service(v, prompt)
    case Ok(raw) => Ok(Strip(raw))
    case Fail => Fail
  }

  /** The deterministic synthesizer for each variant; its output is never
      empty and ends with the variant's fixed closing. */
  function FallbackFor(v: Variant, topic: string, summary: string, lang: string): (r: string)
    ensures r != []
    ensures v == Long ==> EndsWith(r, ". " + LongCta(lang))
    ensures v == FromSummary ==> EndsWith(r, Attribution(lang))
    ensures v == Short ==> StartsWith(r, ShortHook(topic, lang)) && EndsWith(r, ShortCta(lang))
  {
    match v
    case Long => FormatLong(topic, summary, lang)
    case FromSummary => FormatFromSummary(summary, lang)
    case Short => FormatShort(topic, summary, lang)
  }

  /** The script a variant ends up with: the stripped answer when generation is
      available and the call succeeds, the synthesizer's output otherwise. */
  function ScriptFor(v: Variant, topic: string, summary: string, lang: string, capable: bool, service: Service): (r: string)
    ensures var o := service(v, Prompt(v, topic, summary, lang));
      (capable && o.Ok? ==> r == Strip(o.text)) &&
      (!(capable && o.Ok?) ==> r == FallbackFor(v, topic, summary, lang))
  {
    if capable then
      match Call(service, v, Prompt(v, topic, summary, lang))
      case Ok(text) => text
      case Fail => FallbackFor(v, topic, summary, lang)
    else FallbackFor(v, topic, summary, lang)
  }

  /** The three dictionary keys. */
  const Variants: set<Variant> := {Long, FromSummary, Short}

  lemma AllVariants(v: Variant)
    ensures v in Variants
  {
  }

  /** One of the three `try` blocks of `generate_three_scripts`: the prompt
      is the variant's template for `langKey` filled with the topic or the
      summary, and a failed call falls back to the synthesizer. */
  method GenerateOne(v: Variant, topic: string, summary: string, lang: string, langKey: Locale, capable: bool, service: Service)
    returns (script: string)
    requires langKey == LocaleOf(lang)
    ensures script == ScriptFor(v, topic, summary, lang, capable, service)
  {
    if capable {
      var prompt := Format(Catalog(v, langKey), if v == FromSummary then summary else topic);
      PromptIs(v, topic, summary, lang);
      match Call(service, v, prompt)
      case Ok(text) =>
        script := text;
      case Fail =>
        script := FallbackFor(v, topic, summary, lang);
    } else {
      script := FallbackFor(v, topic, summary, lang);
    }
  }

  lemma PromptIs(v: Variant, topic: string, summary: string, lang: string)
    ensures Prompt(v, topic, summary, lang) == Format(Catalog(v, LocaleOf(lang)), if v == FromSummary then summary else topic)
  {
  }

  /** `generate_three_scripts`: start from a dictionary with the three keys set
      to nothing, then fill the keys one after the other.  `capable` is the
      test that the client library is installed and the API key is set. */
  method GenerateThreeScripts(topic: string, summary: string, lang: string, capable: bool, service: Service)
    returns (scripts: map<Variant, Option<string>>)
    ensures scripts.Keys == Variants
    ensures forall v :: v in scripts ==> scripts[v] == Some(ScriptFor(v, topic, summary, lang, capable, service))
  {
    var langKey := LocaleOf(lang);
    scripts := map[Long := None, FromSummary := None, Short := None];
    var long := GenerateOne(Long, topic, summary, lang, langKey, capable, service);
    scripts := scripts[Long := Some(long)];
    var fromSummary := GenerateOne(FromSummary, topic, summary, lang, langKey, capable, service);
    scripts := scripts[FromSummary := Some(fromSummary)];
    var short := GenerateOne(Short, topic, summary, lang, langKey, capable, service);
    scripts := scripts[Short := Some(short)];
    Filled(scripts, long, fromSummary, short, (v: Variant) => ScriptFor(v, topic, summary, lang, capable, service));
  }

  /** A dictionary holding one script per variant. */
  lemma Filled(m: map<Variant, Option<string>>, long: string, fromSummary: string, short: string, script: Variant -> string)
    requires m == map[Long := None, FromSummary := None, Short := None][Long := Some(long)][FromSummary := Some(fromSummary)][Short := Some(short)]
    requires long == script(Long) && fromSummary == script(FromSummary) && short == script(Short)
    ensures m.Keys == Variants
    ensures forall v :: v in m ==> m[v] == Some(script(v))
  {
  }

  // ---------------------------------------------------------- properties

  /** A failed call for one variant sends only that variant to its synthesizer:
      the others keep exactly what they would have got. */
  lemma FailureIsolation(v: Variant, topic: string, summary: string, lang: string, capable: bool, service: Service)
    ensures var failing := (w: Variant, p: string) => if w == v then Fail else service(w, p);
      ScriptFor(v, topic, summary, lang, capable, failing) == FallbackFor(v, topic, summary, lang) &&
      forall w :: w != v ==>
        ScriptFor(w, topic, summary, lang, capable, failing) == ScriptFor(w, topic, summary, lang, capable, service)
  {
  }

  /** A script is not always non-empty, though: an answer of whitespace only is
      kept, stripped to the empty string. */
  lemma BlankAnswerKept(v: Variant, topic: string, summary: string, lang: string, service: Service, w: string)
    requires AllSpace(w) && service(v, Prompt(v, topic, summary, lang)) == Ok(w)
    ensures ScriptFor(v, topic, summary, lang, true, service) == []
  {
    StripUnique(w, [], []);
    assert w + [] + [] == w;
  }

  /** A successful answer is taken as it is, apart from the surrounding whitespace. */
  lemma AnswerTaken(v: Variant, topic: string, summary: string, lang: string, service: Service, w1: string, x: string, w2: string)
    requires AllSpace(w1) && AllSpace(w2) && IsStripped(x)
    requires service(v, Prompt(v, topic, summary, lang)) == Ok(w1 + x + w2)
    ensures ScriptFor(v, topic, summary, lang, true, service) == x
  {
    StripUnique(w1, x, w2);
  }

  /** The prompt of each variant carries the topic (for `long` and `short`)
      or the summary (for `from_summary`) verbatim. */
  lemma PromptCarriesSubject(v: Variant, topic: string, summary: string, lang: string)
    ensures Unformat(Catalog(v, LocaleOf(lang)), Prompt(v, topic, summary, lang))
         == Some(if v == FromSummary then summary else topic)
  {
  }
}
