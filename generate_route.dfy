/**
 * The course-generation endpoint, `POST /api/generate`: the topic catalog,
 * the guard ladder that turns one request into one response, and the prompt
 * sent to the chat-completion service.
 *
 * The foreign calls are parameters: the request body as already decoded
 * (`Request`), the configured key, the chat-completion service as a function
 * from prompt to outcome (`Upstream`), and `JSON.parse` as a function from
 * text to an optional value of the caller's choosing.
 */
module GenerateRoute {
  import opened Options
  import opened JsStrings

  /** Display metadata of one topic of the catalog. */
  datatype Topic = Topic(title: string, duration: string, brief: string)

  /** The catalog `TOPICS`, keyed by slug. */
  const Topics: map<string, Topic> := map[
    "piano" := Topic(
      "Piano débutant — 5 min/jour",
      "5 min/jour pendant 10 jours",
      "Micro-parcours pour apprendre les bases du piano"),
    "html" := Topic(
      "HTML Essentials — 5 min/jour",
      "5 min/jour pendant 10 jours",
      "Découvrir les balises fondamentales, la structure d'une page et les bonnes pratiques d'accessibilité.")
  ]

  // ---------------------------------------------------------------------
  // Topic lookup
  // ---------------------------------------------------------------------

  /**
   * The names a JavaScript object literal inherits from `Object.prototype`;
   * indexing `TOPICS` with one of them yields a truthy value.
   */
  const ObjectPrototypeKeys: set<string> := {
    "constructor", "__proto__", "hasOwnProperty", "isPrototypeOf",
    "propertyIsEnumerable", "toString", "toLocaleString", "valueOf",
    "__defineGetter__", "__defineSetter__", "__lookupGetter__", "__lookupSetter__"
  }

  /**
   * The guard `!slug || !TOPICS[slug]` as written: it lets a slug through
   * when the lookup is truthy, which includes the inherited names.
   */
  function AdmittedAsWritten(slug: Option<string>): (r: bool)
    ensures r ==> slug.Some? && slug.value != ""
    ensures slug.Some? && slug.value in Topics ==> r
  {
    slug.Some? && slug.value != "" && (slug.value in Topics || slug.value in ObjectPrototypeKeys)
  }

  /**
   * `TOPICS[slug]` as written: an inherited member has no `title`,
   * `duration` or `brief`, and each reads as `undefined` in the template.
   */
  function MetaAsWritten(slug: string): (r: Topic)
    requires AdmittedAsWritten(Some(slug))
    ensures slug in Topics ==> r == Topics[slug]
    ensures slug !in Topics ==> slug in ObjectPrototypeKeys && r == Topic("undefined", "undefined", "undefined")
  {
    if slug in Topics then Topics[slug] else Topic("undefined", "undefined", "undefined")
  }

  /**
   * The guard as written passes exactly the slugs the intended lookup
   * admits and the inherited names: any other slug, such as "xyz", gets
   * the 400 response, and every inherited name gets through.
   */
  lemma GuardVersusLookup(slug: Option<string>)
    ensures AdmittedAsWritten(slug) <==> LookupTopic(slug).Some? || (slug.Some? && slug.value in ObjectPrototypeKeys)
  {
    if slug.Some? && slug.value in ObjectPrototypeKeys {
      assert slug.value != "";
    }
  }

  /** A slug such as "constructor" passes the guard as written and reaches the prompt. */
  lemma InheritedKeyPassesGuard()
    ensures AdmittedAsWritten(Some("constructor"))
    ensures LookupTopic(Some("constructor")).None?
    ensures Contains(PromptFor(MetaAsWritten("constructor")), TitleLabel + "undefined")
  {
    assert "constructor" in ObjectPrototypeKeys;
    assert "constructor" !in Topics;
    MakePromptEmbedsTopic("undefined", "undefined", "undefined");
  }

  /**
   * The intended lookup: the topic of a present, non-empty slug that is a
   * key of the catalog itself; `None` otherwise.
   */
  function LookupTopic(slug: Option<string>): (r: Option<Topic>)
    ensures r.Some? <==> slug.Some? && slug.value in Topics
    ensures r.Some? ==> r.value == Topics[slug.value]
    ensures slug.None? || slug.value == "" ==> r.None?
  {
    if slug.Some? && slug.value != "" && slug.value in Topics then Some(Topics[slug.value]) else None
  }

  /** The intended lookup refuses every inherited name, and admits nothing the written guard refuses. */
  lemma LookupTopicRefusesInherited(slug: Option<string>)
    ensures slug.Some? && slug.value in ObjectPrototypeKeys ==> LookupTopic(slug).None?
    ensures LookupTopic(slug).Some? ==> AdmittedAsWritten(slug)
  {
    if slug.Some? && slug.value in ObjectPrototypeKeys {
      assert slug.value !in Topics;
    }
  }

  // ---------------------------------------------------------------------
  // Prompt
  // ---------------------------------------------------------------------

  const PromptOpening := "Crée un micro-parcours JSON pour un apprentissage ludique et progressif.\n"
  const TitleLabel := "Titre: "
  const DurationLabel := "Durée: "
  const DescriptionLabel := "Description: "

  /** The requested JSON shape, up to the first requirement bullet. */
  const SchemaBlock :=
    "Structure demandée (en JSON uniquement) :\n"
    + "{\n"
    + "  \"title\": \"...\",\n"
    + "  \"slug\": \"...\",\n"
    + "  \"summary\": \"...\",\n"
    + "  \"duration\": \"...\",\n"
    + "  \"lessons\": [\n"
    + "    {\n"
    + "      \"day\": 1,\n"
    + "      \"title\": \"...\",\n"
    + "      \"text\": \"...\",\n"
    + "      \"imagePrompt\": \"...\"\n"
    + "    }\n"
    + "  ]\n"
    + "}\n"
    + "\n"
    + "Exigences :\n"
    + "- "

  /** The requirement that fixes the number of lessons. */
  const LessonCountRule := "10 leçons numérotées (day 1 à 10)"

  const StyleRules :=
    "\n- Ton clair, bienveillant et motivant\n"
    + "- Chaque 'text' doit tenir en 3 à 5 phrases maximum\n"
    + "- 'imagePrompt' = description simple d'une image illustrative\n"
    + "Réponds UNIQUEMENT avec un JSON valide."

  /**
   * `makePrompt(title, duration, brief)`: the user message of the chat
   * request. It opens with the request for a course and the title line,
   * and closes with the demand for valid JSON only.
   */
  function MakePrompt(title: string, duration: string, brief: string): (r: string)
    ensures PromptOpening + TitleLabel + title <= r
    ensures |StyleRules| <= |r| && r[|r| - |StyleRules|..] == StyleRules
  {
    Layout(PromptOpening, TitleLabel + title, DurationLabel + duration, DescriptionLabel + brief,
           SchemaBlock, LessonCountRule, StyleRules)
  }

  /** The template's layout: opening, three labelled lines, a blank line, then the schema and the rules. */
  function Layout(opening: string, titleLine: string, durationLine: string, descriptionLine: string,
                  schema: string, countRule: string, style: string): string
  {
    opening + titleLine + "\n" + durationLine + "\n" + descriptionLine + "\n\n" + schema + countRule + style
  }

  function PromptFor(meta: Topic): string
  {
    MakePrompt(meta.title, meta.duration, meta.brief)
  }

  /** Each labelled line and the lesson-count rule appear as blocks of the laid-out text. */
  lemma {:induction false} LayoutContainsParts(opening: string, t: string, d: string, b: string,
                                               schema: string, rule: string, style: string)
    ensures Contains(Layout(opening, t, d, b, schema, rule, style), t)
    ensures Contains(Layout(opening, t, d, b, schema, rule, style), d)
    ensures Contains(Layout(opening, t, d, b, schema, rule, style), b)
    ensures Contains(Layout(opening, t, d, b, schema, rule, style), rule)
  {
    var p := Layout(opening, t, d, b, schema, rule, style);
    var tail := "\n\n" + schema + rule + style;
    ContainsAt(t, t, 0);
    ContainsAt(d, d, 0);
    ContainsAt(b, b, 0);
    ContainsAt(rule, rule, 0);
    assert p == opening + t + ("\n" + d + "\n" + b + tail);
    ContainsWithin(opening, t, "\n" + d + "\n" + b + tail, t);
    assert p == (opening + t + "\n") + d + ("\n" + b + tail);
    ContainsWithin(opening + t + "\n", d, "\n" + b + tail, d);
    assert p == (opening + t + "\n" + d + "\n") + b + tail;
    ContainsWithin(opening + t + "\n" + d + "\n", b, tail, b);
    assert p == (opening + t + "\n" + d + "\n" + b + "\n\n" + schema) + rule + style;
    ContainsWithin(opening + t + "\n" + d + "\n" + b + "\n\n" + schema, rule, style, rule);
  }

  /**
   * Whatever the three values, the prompt carries each of them verbatim
   * after its label, and always asks for ten lessons numbered 1 to 10.
   */
  lemma MakePromptEmbedsTopic(title: string, duration: string, brief: string)
    ensures Contains(MakePrompt(title, duration, brief), TitleLabel + title)
    ensures Contains(MakePrompt(title, duration, brief), DurationLabel + duration)
    ensures Contains(MakePrompt(title, duration, brief), DescriptionLabel + brief)
    ensures Contains(MakePrompt(title, duration, brief), LessonCountRule)
  {
    LayoutContainsParts(PromptOpening, TitleLabel + title, DurationLabel + duration, DescriptionLabel + brief,
                        SchemaBlock, LessonCountRule, StyleRules);
  }

  // ---------------------------------------------------------------------
  // The request/response ladder
  // ---------------------------------------------------------------------

  /** The request as `req.json()` leaves it: unreadable (it threw), or a body with an optional `slug`. */
  datatype Request = Unreadable(reason: Option<string>) | Received(slug: Option<string>)

  /**
   * What the chat-completion call gives back: a thrown error (network or
   * body reading), a non-ok response with its text, or an ok response with
   * the optional `choices[0].message.content`.
   */
  datatype Upstream =
    | Unreachable(reason: Option<string>)
    | Rejected(text: string)
    | Answered(content: Option<string>)

  /** The JSON body of the response: `{ error }` or `{ plan }`. */
  datatype Body<V> = Error(error: string) | Plan(plan: V)

  datatype Response<V> = Response(status: int, body: Body<V>)

  const UnknownTopic := "Sujet inconnu"
  const MissingKey := "OPENAI_API_KEY manquant"
  const UpstreamErrorPrefix := "Erreur OpenAI : "
  const EmptyReply := "Réponse vide d'OpenAI"
  const InvalidJson := "Format JSON invalide"

  /** `process.env.OPENAI_API_KEY` is truthy: an unset or empty variable counts as missing. */
  predicate KeyConfigured(apiKey: Option<string>)
    ensures KeyConfigured(apiKey) ==> apiKey.Some?
    ensures apiKey == Some("") ==> !KeyConfigured(apiKey)
  {
    apiKey.Some? && apiKey.value != ""
  }

  /** `content?.trim()`. */
  function TrimmedContent(content: Option<string>): (r: Option<string>)
    ensures r.Some? <==> content.Some?
    ensures r.Some? ==> r.value == Trim(content.value)
  {
    match content
    case None => None
    case Some(c) => Some(Trim(c))
  }

  /** `!content` after trimming: absent, or nothing but whitespace, so that it trims to "". */
  predicate EmptyContent(content: Option<string>)
    ensures EmptyContent(content) <==> content.None? || Trim(content.value) == ""
  {
    if content.Some? then TrimEmptyIffBlank(content.value); AllWhitespace(content.value) else true
  }

  /**
   * `POST`: one request in, one response out, with the prompt sent to the
   * chat-completion service when the call is made (`sent`), `None` when
   * the ladder stops before it.
   */
  method Post<V>(req: Request, apiKey: Option<string>, openAi: string -> Upstream, parse: string -> Option<V>)
    returns (resp: Response<V>, sent: Option<string>)
    // every outcome has one of three statuses, and only 200 carries a plan
    ensures resp.status == 200 || resp.status == 400 || resp.status == 500
    ensures resp.status == 200 <==> resp.body.Plan?
    ensures resp.body.Error? ==> resp.body.error != ""
    // an unreadable request body goes to the outer catch
    ensures req.Unreadable? ==> resp == Response(500, Error(MessageOrUnknown(req.reason))) && sent == None
    // the slug guard comes first, whatever the key
    ensures resp.status == 400 <==> req.Received? && LookupTopic(req.slug).None?
    ensures resp.status == 400 ==> resp.body == Error(UnknownTopic) && sent == None
    // then the key guard
    ensures (req.Received? && LookupTopic(req.slug).Some? && !KeyConfigured(apiKey))
              ==> resp == Response(500, Error(MissingKey)) && sent == None
    // the outbound call is made exactly when both guards pass, with the topic's prompt
    ensures sent.Some? <==> req.Received? && LookupTopic(req.slug).Some? && KeyConfigured(apiKey)
    ensures sent.Some? ==> sent.value == PromptFor(LookupTopic(req.slug).value)
    // what the service gives back decides the rest
    ensures (sent.Some? && openAi(sent.value).Unreachable?)
              ==> resp == Response(500, Error(MessageOrUnknown(openAi(sent.value).reason)))
    ensures (sent.Some? && openAi(sent.value).Rejected?)
              ==> resp == Response(500, Error(UpstreamErrorPrefix + openAi(sent.value).text))
    ensures (sent.Some? && openAi(sent.value).Answered? && EmptyContent(openAi(sent.value).content))
              ==> resp == Response(500, Error(EmptyReply))
    ensures (sent.Some? && openAi(sent.value).Answered? && !EmptyContent(openAi(sent.value).content)
             && parse(Trim(openAi(sent.value).content.value)).None?)
              ==> resp == Response(500, Error(InvalidJson))
    // success is the one remaining path, and hands back the parsed value untouched
    ensures resp.status == 200 <==>
              sent.Some? && openAi(sent.value).Answered? && !EmptyContent(openAi(sent.value).content)
              && parse(Trim(openAi(sent.value).content.value)).Some?
    ensures resp.status == 200 ==> resp.body.plan == parse(Trim(openAi(sent.value).content.value)).value
  {
    sent := None;
    if req.Unreadable? {
      return Response(500, Error(MessageOrUnknown(req.reason))), None;
    }
    var meta := LookupTopic(req.slug);
    if meta.None? {
      return Response(400, Error(UnknownTopic)), None;
    }
    if !KeyConfigured(apiKey) {
      return Response(500, Error(MissingKey)), None;
    }
    var prompt := MakePrompt(meta.value.title, meta.value.duration, meta.value.brief);
    sent := Some(prompt);
    var res := openAi(prompt);
    if res.Unreachable? {
      return Response(500, Error(MessageOrUnknown(res.reason))), sent;
    }
    if res.Rejected? {
      return Response(500, Error(UpstreamErrorPrefix + res.text)), sent;
    }
    var content := TrimmedContent(res.content);
    if content.None? || content.value == "" {
      if content.Some? { TrimEmptyIffBlank(res.content.value); }
      return Response(500, Error(EmptyReply)), sent;
    }
    TrimEmptyIffBlank(res.content.value);
    var plan := parse(content.value);
    if plan.None? {
      return Response(500, Error(InvalidJson)), sent;
    }
    resp := Response(200, Plan(plan.value));
  }
}
