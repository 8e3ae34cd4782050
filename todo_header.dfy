/**
 * The new-todo form (`TodoHeader`): validation of the typed title, the
 * placeholder shown while the create request is out, and how the request
 * settles.
 */
module TodoHeader {
  import opened Wrappers
  import opened Model
  import opened Text
  import opened App

  /**
   * The validation in `handleSubmit`: an all-white-space title is refused;
   * any other yields the id-0 placeholder for the trimmed title, not yet
   * completed and owned by the configured user.
   */
  function SubmitDecision(title: string, userId: int): (r: Option<Todo>)
    ensures r.None? <==> AllWhitespace(title)
    ensures r.Some? ==> r.value.id == 0 && r.value.userId == userId && !r.value.completed
    ensures r.Some? ==> r.value.title == Trim(title) && r.value.title != []
    ensures r.Some? ==> !IsWhitespace(r.value.title[0]) && !IsWhitespace(r.value.title[|r.value.title| - 1])
  {
    if |Trim(title)| == 0 then None
    else Some(Todo(0, userId, Trim(title), false))
  }

  class Header {
    var title: string
    var isSubmitting: bool

    constructor ()
      ensures title == "" && !isSubmitting
    {
      title := "";
      isSubmitting := false;
    }

    /** Typing; the field is disabled while a create is in flight. */
    method Type(text: string)
      requires !isSubmitting
      modifies this`title
      ensures title == text
    {
      title := text;
    }

    /**
     * `handleSubmit` up to the post. An empty title only reports the error.
     * Otherwise the form is marked submitting, the placeholder is shown and the
     * trimmed title is posted. The field is disabled while submitting, so no
     * second submission can start before this one settles.
     */
    method SubmitStart(app: Controller) returns (req: Option<Request>)
      requires !isSubmitting
      requires app.userId != 0
      modifies this`isSubmitting, app`errorMessage, app`tempTodo
      ensures AllWhitespace(title) ==> (req == None && !isSubmitting
        && app.errorMessage == Some(EmptyTitle) && app.tempTodo == old(app.tempTodo))
      ensures !AllWhitespace(title) ==> (req == Some(Post(Trim(title))) && isSubmitting
        && app.errorMessage == old(app.errorMessage)
        && app.tempTodo == SubmitDecision(title, app.userId))
    {
      var titleTrim := Trim(title);
      if |titleTrim| == 0 {
        app.errorMessage := Some(EmptyTitle);
        req := None;
      } else {
        isSubmitting := true;
        app.tempTodo := Some(Todo(0, app.userId, titleTrim, false));
        req := Some(Post(titleTrim));
      }
    }

    /**
     * The post settles. On success the server's todo, not the placeholder, is
     * appended and the field cleared; on failure the list and the typed text
     * are kept and the error is shown. Either way the placeholder goes away and
     * the form is enabled again.
     */
    method SubmitSettled(app: Controller, outcome: Outcome<Todo>)
      requires isSubmitting
      modifies this`title, this`isSubmitting, app`todos, app`errorMessage, app`tempTodo
      ensures outcome.Success? ==> (app.todos == old(app.todos) + [outcome.result] && title == ""
        && app.errorMessage == old(app.errorMessage))
      ensures outcome.Failure? ==> (app.todos == old(app.todos) && title == old(title)
        && app.errorMessage == Some(UnableToAdd))
      ensures !isSubmitting && app.tempTodo == None
      ensures old(app.PersistedOnly()) && (outcome.Success? ==> outcome.result.id != 0) ==> app.PersistedOnly()
    {
      match outcome {
        case Success(newTodo) =>
          app.AddTodo(newTodo);
          title := "";
        case Failure =>
          app.errorMessage := Some(UnableToAdd);
      }
      isSubmitting := false;
      app.tempTodo := None;
    }
  }
}
