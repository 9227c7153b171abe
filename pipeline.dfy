/** `process_topic` and its small helpers: the file names derived from a
    topic, the `--topics` list parse, and the summary used when the
    encyclopedia lookup fails. */
module Pipeline {
  import opened Text
  import opened Prompts
  import opened Fallback
  import opened Segmenter
  import opened Generation
  import opened Composition

  // ------------------------------------------------------------ file names

  /** `safe_name`: every space and every '/' becomes '_'. */
  function SafeName(topic: string): (r: string)
    ensures |r| == |topic|
    ensures ' ' !in r && '/' !in r
    ensures forall k :: 0 <= k < |topic| ==> (topic[k] in " /" ==> r[k] == '_') && (topic[k] !in " /" ==> r[k] == topic[k])
  {
    ReplaceChar(ReplaceChar(topic, ' ', '_'), '/', '_')
  }

  /** A name that is already safe is left alone. */
  lemma SafeNameKeeps(topic: string)
    requires ' ' !in topic && '/' !in topic
    ensures SafeName(topic) == topic
  {
    ReplaceAbsent(topic, ' ', '_');
    ReplaceAbsent(topic, '/', '_');
  }

  /** Making a name safe twice is making it safe once. */
  lemma SafeNameIdempotent(topic: string)
    ensures SafeName(SafeName(topic)) == SafeName(topic)
  {
    SafeNameKeeps(SafeName(topic));
  }

  /** Topics that differ only by ' ', '/' and '_' at the same places share
      their file names: "Rome Empire", "Rome/Empire" and "Rome_Empire" are
      written to one file. */
  lemma SafeNameMerges(a: string, b: string)
    requires |a| == |b|
    requires forall k :: 0 <= k < |a| ==> a[k] == b[k] || (a[k] in " /_" && b[k] in " /_")
    ensures SafeName(a) == SafeName(b)
  {
  }

  const Prefix := "script_"

  /** `script_{safe_name}.txt`, before it is put under the output folder. */
  function TextFileName(topic: string): (r: string)
    ensures StartsWith(r, Prefix) && EndsWith(r, ".txt") && |r| == |Prefix| + |topic| + 4
    ensures r[|Prefix|..|r| - 4] == SafeName(topic)
  {
    Prefix + SafeName(topic) + ".txt"
  }

  /** `script_{safe_name}.json`, before it is put under the output folder. */
  function JsonFileName(topic: string): (r: string)
    ensures StartsWith(r, Prefix) && EndsWith(r, ".json") && |r| == |Prefix| + |topic| + 5
    ensures r[|Prefix|..|r| - 5] == SafeName(topic)
  {
    Prefix + SafeName(topic) + ".json"
  }

  /** Two topics get the same text file exactly when they get the same safe
      name, and likewise for the metadata file. */
  lemma FileNamesBySafeName(a: string, b: string)
    ensures TextFileName(a) == TextFileName(b) <==> SafeName(a) == SafeName(b)
    ensures JsonFileName(a) == JsonFileName(b) <==> SafeName(a) == SafeName(b)
  {
    if TextFileName(a) == TextFileName(b) {
      assert SafeName(a) == TextFileName(a)[|Prefix|..|TextFileName(a)| - 4];
    }
    if JsonFileName(a) == JsonFileName(b) {
      assert SafeName(a) == JsonFileName(a)[|Prefix|..|JsonFileName(a)| - 5];
    }
  }

  /** A topic's two files never coincide. */
  lemma FileNamesDiffer(topic: string)
    ensures TextFileName(topic) != JsonFileName(topic)
  {
    var t := TextFileName(topic);
    var j := JsonFileName(topic);
    assert |j| == |t| + 1;
  }

  // ------------------------------------------------------------ topic list

  /** `[t.strip() for t in args.topics.split(',') if t.strip()]`. */
  function ParseTopics(arg: string): (ts: seq<string>)
    ensures forall k :: 0 <= k < |ts| ==> ts[k] != [] && IsStripped(ts[k]) && ',' !in ts[k]
  {
    var ps := Split(arg, ',');
    CleanWellFormed(ps);
    CleanAvoids(ps, ',');
    forall k | 0 <= k < |Clean(ps)|
      ensures IsStripped(Clean(ps)[k])
    {
      StripStripped(Clean(ps)[k]);
    }
    Clean(ps)
  }

  /** Topics written out with ',' and the same whitespace pad after every
      comma parse back into the same list. */
  lemma ParseTopicsOfJoined(ts: seq<string>, pad: string)
    requires AllSpace(pad) && ',' !in pad
    requires forall k :: 0 <= k < |ts| ==> ts[k] != [] && IsStripped(ts[k]) && ',' !in ts[k]
    ensures ParseTopics(Join([','] + pad, ts)) == ts
  {
    SpaceFacts();
    CleanSplitJoinFrom([], ts, ',', pad);
    assert [] + Join([','] + pad, ts) == Join([','] + pad, ts);
  }

  /** Parsing is stable: joining a parsed list with ',' and parsing again
      gives the same list. */
  lemma ParseTopicsStable(arg: string)
    ensures ParseTopics(Join(",", ParseTopics(arg))) == ParseTopics(arg)
  {
    ParseTopicsOfJoined(ParseTopics(arg), []);
    assert [','] + [] == ",";
  }

  // ------------------------------------------------------------ summary

  /** What the encyclopedia lookup gives: the summary text, or the message of
      the exception it raised. */
  datatype Fetch = Fetched(summary: string) | FetchError(reason: string)

  /** The placeholder summary written when the lookup fails. */
  const Diagnostic := Template("[Không lấy được Wikipedia. Lý do: ", "]")

  /** The summary `process_topic` works with. */
  function SummaryOf(f: Fetch): (s: string)
    ensures f.FetchError? ==> StartsWith(s, Diagnostic.before) && EndsWith(s, Diagnostic.after)
  {
    match f
    case Fetched(summary) => summary
    case FetchError(reason) => Format(Diagnostic, reason)
  }

  /** The failure reason can be read back out of the placeholder. */
  lemma DiagnosticCarriesReason(reason: string)
    ensures Unformat(Diagnostic, SummaryOf(FetchError(reason))) == Some(reason)
  {
    FormatRoundTrip(Diagnostic, reason);
  }

  // ------------------------------------------------------------ process_topic

  /** The machine-readable record `process_topic` saves as JSON. */
  datatype Meta = Meta(topic: string, lang: string, summary: string,
                       scripts: map<Variant, Option<string>>, segments: seq<Segment>)

  /** `process_topic`: derive the file names, settle the summary, generate the
      three scripts and cut the short one into timed segments.  `useAi` is
      accepted and, as in the script, never consulted. */
  method ProcessTopic(topic: string, lang: string, useAi: bool, fetch: Fetch, capable: bool, service: Service)
    returns (txtFile: string, jsonFile: string, meta: Meta)
    ensures txtFile == TextFileName(topic) && jsonFile == JsonFileName(topic)
    ensures meta.topic == topic && meta.lang == lang && meta.summary == SummaryOf(fetch)
    ensures meta.scripts.Keys == Variants
    ensures forall v :: v in meta.scripts ==>
      meta.scripts[v] == Some(ScriptFor(v, topic, SummaryOf(fetch), lang, capable, service))
    ensures meta.segments == SegmentsOf(ScriptFor(Short, topic, SummaryOf(fetch), lang, capable, service))
  {
    var safeName := ReplaceChar(ReplaceChar(topic, ' ', '_'), '/', '_');
    txtFile := Prefix + safeName + ".txt";
    jsonFile := Prefix + safeName + ".json";
    var summary := SummaryOf(fetch);
    var scripts := GenerateThreeScripts(topic, summary, lang, capable, service);
    AllVariants(Short);
    var short := scripts[Short];
    var segments := SplitScriptToSegments(short.value, lang);
    meta := Meta(topic, lang, summary, scripts, segments);
  }

  /** Offline in English, the saved segments of a topic free of '.' and
      newlines open with "Did you know about {topic}?", close with "Like and
      subscribe for more." and carry the points "Point 1:" to "Point 3:". */
  lemma OfflineEnglishSegments(topic: string, lang: string, fetch: Fetch, service: Service)
    requires '.' !in topic && '\n' !in topic && !StartsWith(lang, "vi")
    ensures var r := SegmentsOf(ScriptFor(Short, topic, SummaryOf(fetch), lang, false, service));
      |r| == 5 &&
      r[0].text == "Did you know about " + topic + "?" && r[4].text == "Like and subscribe for more." &&
      StartsWith(r[1].text, "Point 1:") && StartsWith(r[2].text, "Point 2:") && StartsWith(r[3].text, "Point 3:")
  {
    EnglishShortSegments(topic, SummaryOf(fetch), lang);
  }
}
