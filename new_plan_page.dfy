/**
 * The generation page, `/parcours/new?slug=…`: which of its four views it
 * shows, the effect that asks the endpoint for a plan and records the
 * outcome, and the list of lessons it renders once a plan is there.
 */
module NewPlanPage {
  import opened Options
  import opened JsStrings

  datatype Lesson = Lesson(day: int, title: string, text: string, imagePrompt: Option<string>)

  datatype Plan = Plan(title: string, slug: string, summary: string, duration: string, lessons: seq<Lesson>)

  /**
   * How the call to the endpoint ends: a non-ok status, an ok status whose
   * JSON carries an optional `plan`, or a thrown error (network failure,
   * unreadable JSON) with its optional message.
   */
  datatype Reply = NotOk | Delivered(plan: Option<Plan>) | Threw(message: Option<string>)

  const GenerationFailed := "Échec de la génération"

  /** The four things the page can show. */
  datatype View = MissingParameter | Failure(message: string) | Generating | Ready(plan: Plan)

  /**
   * The view for a state: a missing slug first, then a (truthy) error,
   * then the loading view while there is no plan, then the plan.
   */
  function SelectView(slug: string, error: Option<string>, plan: Option<Plan>): (v: View)
    ensures slug == "" <==> v == MissingParameter
    ensures v.Failure? ==> error == Some(v.message) && v.message != ""
    ensures v.Ready? ==> plan == Some(v.plan)
    ensures slug != "" && error.Some? && error.value != "" ==> v == Failure(error.value)
    ensures v == Generating <==> slug != "" && (error.None? || error.value == "") && plan.None?
  {
    if slug == "" then MissingParameter
    else if error.Some? && error.value != "" then Failure(error.value)
    else if plan.None? then Generating
    else Ready(plan.value)
  }

  /**
   * The state updates one run of the effect makes, as `(plan, error)`:
   * `setError` on a non-ok status or a thrown error, `setPlan` otherwise;
   * the other half of the state is left as it was.
   */
  function Settle(reply: Reply, plan: Option<Plan>, error: Option<string>): (r: (Option<Plan>, Option<string>))
    ensures reply.Delivered? ==> r.0 == reply.plan && r.1 == error
    ensures !reply.Delivered? ==> r.0 == plan && r.1.Some? && r.1.value != ""
    ensures reply.NotOk? ==> r.1 == Some(GenerationFailed)
  {
    match reply
    case NotOk => (plan, Some(GenerationFailed))
    case Threw(message) => (plan, Some(MessageOrUnknown(message)))
    case Delivered(p) => (p, error)
  }

  /**
   * From the initial state, one run sets exactly one of `plan` and `error`
   * when the reply carries a plan or fails, and the page then shows the
   * plan or the error; a non-ok status is reported as "Échec de la
   * génération", a thrown error without message as "Erreur inconnue".
   */
  lemma FetchRunSettles(slug: string, reply: Reply)
    requires slug != ""
    ensures reply.NotOk? ==> Settle(reply, None, None) == (None, Some(GenerationFailed))
    ensures reply.Threw? ==> Settle(reply, None, None) == (None, Some(MessageOrUnknown(reply.message)))
    ensures reply.Delivered? ==> Settle(reply, None, None) == (reply.plan, None)
    ensures !(reply.Delivered? && reply.plan.None?) ==>
              (Settle(reply, None, None).0.Some? <==> Settle(reply, None, None).1.None?)
    ensures var (plan, error) := Settle(reply, None, None);
            match reply
            case NotOk => SelectView(slug, error, plan) == Failure(GenerationFailed)
            case Threw(m) => SelectView(slug, error, plan) == Failure(MessageOrUnknown(m))
            case Delivered(p) => SelectView(slug, error, plan) == if p.Some? then Ready(p.value) else Generating
  {
  }

  // ---------------------------------------------------------------------
  // The ready view
  // ---------------------------------------------------------------------

  /** One `<li>` of the lesson list: "Jour {day} — {title}", the optional image line, the text. */
  datatype Entry = Entry(day: int, title: string, image: Option<string>, text: string)

  /** `l.imagePrompt && …`: the image line is shown for a present, non-empty prompt. */
  function ImageLine(imagePrompt: Option<string>): (r: Option<string>)
    ensures r.Some? <==> imagePrompt.Some? && imagePrompt.value != ""
    ensures r.Some? ==> r.value == imagePrompt.value
  {
    if imagePrompt.Some? && imagePrompt.value != "" then imagePrompt else None
  }

  /** `plan.lessons.map(…)`: one entry per lesson, in the order of the lessons. */
  function LessonEntries(lessons: seq<Lesson>): (r: seq<Entry>)
    ensures |r| == |lessons|
    ensures forall k :: 0 <= k < |lessons| ==>
              r[k].day == lessons[k].day && r[k].title == lessons[k].title && r[k].text == lessons[k].text
    ensures forall k :: 0 <= k < |lessons| ==>
              (r[k].image.Some? <==> lessons[k].imagePrompt.Some? && lessons[k].imagePrompt.value != "")
    ensures forall k :: 0 <= k < |lessons| && r[k].image.Some? ==> r[k].image == lessons[k].imagePrompt
  {
    if lessons == [] then []
    else
      var l := lessons[0];
      [Entry(l.day, l.title, ImageLine(l.imagePrompt), l.text)] + LessonEntries(lessons[1..])
  }

  // ---------------------------------------------------------------------
  // The page's state
  // ---------------------------------------------------------------------

  /** The page's state: the slug of its query string, and the `plan` and `error` the effect sets. */
  class GenerationPage {
    const slug: string
    var plan: Option<Plan>
    var error: Option<string>
    /** The slugs posted to `/api/generate`, in order. */
    var requests: seq<string>

    /** An error, once recorded, is a non-empty message, so `if (error)` shows it. */
    ghost predicate Valid()
      reads this
    {
      error.Some? ==> error.value != ""
    }

    /** `sp.get("slug") || ""`, with no plan and no error yet. */
    constructor (query: Option<string>)
      ensures Valid()
      ensures slug == query.GetOr("")
      ensures plan == None && error == None && requests == []
      ensures CurrentView() == if slug == "" then MissingParameter else Generating
    {
      slug := query.GetOr("");
      plan, error := None, None;
      requests := [];
    }

    /** What the page renders in its current state. */
    function CurrentView(): View
      reads this
    {
      SelectView(slug, error, plan)
    }

    /**
     * One run of the effect: without a slug, nothing is posted and nothing
     * changes; otherwise the slug is posted once and the reply settles the
     * state.
     */
    method RunEffect(reply: Reply)
      requires Valid()
      modifies this
      ensures Valid()
      ensures slug == "" ==> plan == old(plan) && error == old(error) && requests == old(requests)
      ensures slug != "" ==> requests == old(requests) + [slug]
      ensures slug != "" ==> (plan, error) == Settle(reply, old(plan), old(error))
      ensures slug == "" ==> CurrentView() == MissingParameter
      ensures (slug != "" && old(plan) == None && old(error) == None && !(reply.Delivered? && reply.plan.None?))
                ==> CurrentView().Failure? || CurrentView().Ready?
    {
      if slug == "" {
        return;
      }
      requests := requests + [slug];
      match reply {
        case NotOk =>
          error := Some(GenerationFailed);
        case Threw(message) =>
          error := Some(MessageOrUnknown(message));
        case Delivered(p) =>
          plan := p;
      }
    }
  }
}
