/**
 * The decision logic of the joke-submission route, `app/routes/jokes.new.tsx`:
 * the `action` that validates a submitted joke and stores it, the `loader`
 * that turns away visitors without a session, the optimistic-preview guard of
 * the page component, and the branch the route's `ErrorBoundary` picks.
 *
 * Collaborators are abstracted: the session is the user id it yields (or
 * none), the submitted form is the two entries `form.get` returns, and the
 * database is a map from joke id to joke whose fresh id is supplied by the caller.
 */
module JokesNew {
  import opened Wrappers
  import opened JsValues
  import opened Helpers

  type UserId = string
  type JokeId = string

  /** What `FormData.get(key)` returns: `null`, a `File`, or a string. */
  datatype FormEntry = Missing | Upload | Text(value: string)

  datatype Joke = Joke(id: JokeId, name: string, content: string, jokesterId: UserId)

  /** Per-field messages; `None` is the `undefined` of a field that passed. */
  datatype FieldErrors = FieldErrors(content: Option<string>, name: Option<string>)

  /** The submitted strings, echoed back so the form can be filled in again. */
  datatype Fields = Fields(content: string, name: string)

  /** What `action` produces: the thrown auth failure, a 400 payload, or a redirect. */
  datatype ActionResult =
    | Unauthorized
    | BadRequest(fieldErrors: Option<FieldErrors>, fields: Option<Fields>, formError: Option<string>)
    | Redirect(location: string)

  const FormNotSubmitted := "Form not submitted correctly."
  const JokePathPrefix := "/jokes/"

  /** `Object.values(fieldErrors).some(Boolean)`. */
  predicate AnyFieldError(errors: FieldErrors)
  {
    Truthy(errors.content) || Truthy(errors.name)
  }

  /** The length rules a joke must meet to be stored, stated without the validators. */
  predicate Acceptable(name: string, content: string)
  {
    JsLength(content) >= JokeContentMinLength && JsLength(name) >= JokeNameMinLength
  }

  /**
   * The response of `action` for a request whose session yields `session`,
   * whose form holds `content` and `name`, when the store would give the new
   * joke the id `newId`.
   */
  function ActionResponse(session: Option<UserId>, content: FormEntry, name: FormEntry, newId: JokeId): (r: ActionResult)
    // the session is checked before anything else
    ensures r.Unauthorized? <==> session.None?
    // a joke is accepted exactly when both fields are strings long enough
    ensures r.Redirect? <==> session.Some? && content.Text? && name.Text? && Acceptable(name.value, content.value)
    ensures r.Redirect? ==> r.location == JokePathPrefix + newId
    // a malformed form and invalid values give the two distinct 400 shapes
    ensures r.BadRequest? && r.formError.Some? <==> session.Some? && !(content.Text? && name.Text?)
    ensures r.BadRequest? ==> (r.fieldErrors.None? <==> r.formError.Some?) && (r.fields.None? <==> r.formError.Some?)
    ensures r.BadRequest? && r.formError.Some? ==> r.formError.value == FormNotSubmitted
    ensures r.BadRequest? && r.fieldErrors.Some? ==>
      && content.Text? && name.Text?
      && r.fields == Some(Fields(content.value, name.value))
      && r.fieldErrors.value == FieldErrors(ValidateJokeContent(content.value), ValidateJokeName(name.value))
      && (r.fieldErrors.value.content.Some? || r.fieldErrors.value.name.Some?)
  {
    match session
    case None => Unauthorized
    case Some(_) =>
      if !content.Text? || !name.Text? then
        BadRequest(None, None, Some(FormNotSubmitted))
      else
        var fieldErrors := FieldErrors(ValidateJokeContent(content.value), ValidateJokeName(name.value));
        var fields := Fields(content.value, name.value);
        if AnyFieldError(fieldErrors) then BadRequest(Some(fieldErrors), Some(fields), None)
        else Redirect(JokePathPrefix + newId)
  }

  /** A submission with a name and content that are both too short gets both messages. */
  lemma ShortSubmissionGetsBothFieldErrors(userId: UserId, newId: JokeId)
    ensures ActionResponse(Some(userId), Text("short"), Text("Hi"), newId)
         == BadRequest(Some(FieldErrors(Some(JokeContentTooShort), Some(JokeNameTooShort))),
                       Some(Fields("short", "Hi")), None)
  {
  }

  /** The joke table, keyed by joke id. */
  class JokeStore {
    var jokes: map<JokeId, Joke>

    constructor ()
      ensures jokes == map[]
    {
      jokes := map[];
    }

    /** Every joke is filed under its own id and meets the length rules. */
    ghost predicate AllAcceptable()
      reads this
    {
      forall id :: id in jokes ==> jokes[id].id == id && Acceptable(jokes[id].name, jokes[id].content)
    }

    /** `db.joke.create`: stores a new joke under the fresh id `newId`. */
    method Create(name: string, content: string, jokesterId: UserId, newId: JokeId) returns (joke: Joke)
      requires newId !in jokes
      modifies this
      ensures joke == Joke(newId, name, content, jokesterId)
      ensures jokes == old(jokes)[newId := joke]
    {
      joke := Joke(newId, name, content, jokesterId);
      jokes := jokes[newId := joke];
    }

    /**
     * `action`: answers the submission and, only when it is accepted, adds
     * exactly one joke, owned by the session user.
     */
    method Action(session: Option<UserId>, content: FormEntry, name: FormEntry, newId: JokeId)
      returns (r: ActionResult)
      requires newId !in jokes
      modifies this
      ensures r == ActionResponse(session, content, name, newId)
      ensures r.Redirect? ==>
        && jokes == old(jokes)[newId := Joke(newId, name.value, content.value, session.value)]
        && |jokes| == |old(jokes)| + 1
      ensures !r.Redirect? ==> jokes == old(jokes)
      ensures old(AllAcceptable()) ==> AllAcceptable()
    {
      if session.None? {
        return Unauthorized;
      }
      var userId := session.value;
      if !content.Text? || !name.Text? {
        return BadRequest(None, None, Some(FormNotSubmitted));
      }
      var fieldErrors := FieldErrors(ValidateJokeContent(content.value), ValidateJokeName(name.value));
      var fields := Fields(content.value, name.value);
      if AnyFieldError(fieldErrors) {
        return BadRequest(Some(fieldErrors), Some(fields), None);
      }
      var joke := Create(fields.name, fields.content, userId, newId);
      r := Redirect(JokePathPrefix + joke.id);
    }
  }

  /** An error caught by a route's error boundary. */
  datatype RouteError =
    | ErrorResponse(status: int, data: string)  // a thrown `Response`
    | UnexpectedError                             // any other thrown value

  datatype LoaderResult = EmptyJson | Thrown(error: RouteError)

  /** `loader`: a missing (falsy) user id throws a 401 response. */
  function Loader(userId: Option<UserId>): (r: LoaderResult)
    ensures r.Thrown? <==> userId.None? || userId.value == ""
    ensures r.Thrown? ==> r.error == ErrorResponse(401, "Unauthorized")
  {
    if !Truthy(userId) then Thrown(ErrorResponse(401, "Unauthorized")) else EmptyJson
  }

  datatype ErrorView =
    | LoginPrompt(message: string, loginLink: string)
    | GenericFailure(message: string)

  /** `ErrorBoundary`: a 401 response asks the visitor to log in; everything else is generic. */
  function ErrorBoundary(error: RouteError): (v: ErrorView)
    ensures v.LoginPrompt? <==> error.ErrorResponse? && error.status == 401
    ensures v.LoginPrompt? ==> v.loginLink == "/login"
  {
    if error.ErrorResponse? && error.status == 401 then
      LoginPrompt("You must be logged in to create a joke.", "/login")
    else
      GenericFailure("Something unexpected went wrong. Sorry about that.")
  }

  /** A visitor without a session who opens the page is shown the login prompt. */
  lemma SignedOutVisitorSeesLoginPrompt(userId: Option<UserId>)
    requires userId.None? || userId.value == ""
    ensures Loader(userId).Thrown? && ErrorBoundary(Loader(userId).error).LoginPrompt?
  {
  }

  /** The draft entries `navigation.formData` holds while a submission is in flight. */
  datatype Draft = Draft(content: FormEntry, name: FormEntry)

  /**
   * The optimistic-preview guard as written: the draft content is passed to
   * both validators, so the draft name is never checked.
   */
  function ShowPreview(draft: Option<Draft>): (shown: bool)
    ensures shown <==>
      && draft.Some? && draft.value.content.Text? && draft.value.name.Text?
      && JsLength(draft.value.content.value) >= JokeContentMinLength
  {
    match draft
    case None => false
    case Some(Draft(content, name)) =>
      && content.Text?
      && name.Text?
      && !Truthy(ValidateJokeContent(content.value))
      && !Truthy(ValidateJokeName(content.value))
  }

  /** The preview guard with the draft name passed to the name validator. */
  function ShowPreviewIntended(draft: Option<Draft>): (shown: bool)
    ensures shown <==>
      && draft.Some? && draft.value.content.Text? && draft.value.name.Text?
      && Acceptable(draft.value.name.value, draft.value.content.value)
  {
    match draft
    case None => false
    case Some(Draft(content, name)) =>
      && content.Text?
      && name.Text?
      && !Truthy(ValidateJokeContent(content.value))
      && !Truthy(ValidateJokeName(name.value))
  }

  /** The corrected guard previews exactly the drafts the action would store. */
  lemma PreviewIntendedMatchesAction(draft: Draft, userId: UserId, newId: JokeId)
    ensures ShowPreviewIntended(Some(draft)) <==> ActionResponse(Some(userId), draft.content, draft.name, newId).Redirect?
  {
  }

  /**
   * The guard as written previews a draft with an empty name, which the
   * action then rejects.
   */
  lemma PreviewShownForRejectedDraft(userId: UserId, newId: JokeId)
    ensures var draft := Draft(Text("Why did the chicken cross the road?"), Text(""));
      && ShowPreview(Some(draft))
      && !ShowPreviewIntended(Some(draft))
      && ActionResponse(Some(userId), draft.content, draft.name, newId)
         == BadRequest(Some(FieldErrors(None, Some(Required))), Some(Fields(draft.content.value, "")), None)
  {
  }
}
