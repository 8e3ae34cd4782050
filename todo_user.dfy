/**
 * One row of the list (`TodoUser`): its own editing state, the decision taken
 * when an edit is committed (blur or Enter), and the busy indicator.
 */
module TodoUser {
  import opened Wrappers
  import opened Model
  import opened Text
  import opened App

  /** What committing an edit asks for. */
  datatype Commit =
    | Ignore                       // not editing: nothing happens
    | Close                        // title unchanged: the editor closes, no call
    | DeleteRequest(id: int)       // empty title: the todo is deleted
    | UpdateRequest(todo: Todo)    // new title: the todo is updated

  /**
   * The three-way branch of `handleBlur`, on the trimmed edited title: empty
   * means delete, different from the current title means update with the
   * trimmed text, equal means just close.
   */
  function CommitDecision(isEditing: bool, editedTitle: string, todo: Todo): (c: Commit)
    ensures c.Ignore? <==> !isEditing
    ensures c.DeleteRequest? <==> isEditing && AllWhitespace(editedTitle)
    ensures c.DeleteRequest? ==> c.id == todo.id
    ensures c.UpdateRequest? <==> isEditing && !AllWhitespace(editedTitle) && Trim(editedTitle) != todo.title
    ensures c.UpdateRequest? ==>
      && c.todo.id == todo.id && c.todo.userId == todo.userId && c.todo.completed == todo.completed
      && c.todo.title == Trim(editedTitle) && c.todo.title != []
    ensures c.Close? <==> isEditing && !AllWhitespace(editedTitle) && Trim(editedTitle) == todo.title
  {
    if !isEditing then Ignore
    else
      var titleTrim := Trim(editedTitle);
      if titleTrim == [] then DeleteRequest(todo.id)
      else if titleTrim != todo.title then UpdateRequest(todo.(title := titleTrim))
      else Close
  }

  /**
   * Renaming to the title the update just sent is a no-op: once the list holds
   * the updated todo, opening the editor again (which starts from its title)
   * and committing issues no request.
   */
  lemma ReopenAfterUpdateCloses(editedTitle: string, todo: Todo)
    requires CommitDecision(true, editedTitle, todo).UpdateRequest?
    ensures var sent := CommitDecision(true, editedTitle, todo).todo;
      CommitDecision(true, sent.title, sent) == Close
  {
    TrimIdempotent(editedTitle);
  }

  /** Committing a title that differs only in surrounding white space issues no request. */
  lemma PaddedTitleCloses(todo: Todo, pre: string, post: string)
    requires todo.title != [] && !IsWhitespace(todo.title[0]) && !IsWhitespace(todo.title[|todo.title| - 1])
    requires AllWhitespace(pre) && AllWhitespace(post)
    ensures CommitDecision(true, pre + todo.title + post, todo) == Close
  {
    TrimCharacterization(pre + todo.title + post, pre, todo.title, post);
  }

  /** The row's loader flag: its id is being processed, or it is the id-0 placeholder. */
  predicate Busy(processedId: seq<int>, id: int)
    ensures id == 0 ==> Busy(processedId, id)
    ensures Busy(processedId, id) ==> id == 0 || |processedId| > 0
  {
    id in processedId || id == 0
  }

  /** How many requests for `id` are in flight. */
  function Pending(processedId: seq<int>, id: int): (n: nat)
    ensures n <= |processedId|
  {
    if processedId == [] then 0
    else (if processedId[0] == id then 1 else 0) + Pending(processedId[1..], id)
  }

  /** A row is busy exactly when it is the placeholder or a request for it is in flight. */
  lemma {:induction false} BusyIffPending(processedId: seq<int>, id: int)
    ensures Busy(processedId, id) <==> id == 0 || Pending(processedId, id) > 0
  {
    if processedId != [] {
      BusyIffPending(processedId[1..], id);
      assert processedId == [processedId[0]] + processedId[1..];
    }
  }

  /**
   * A request's start makes its id busy and adds one to its pending count;
   * once a settle empties the list, only the placeholder is busy.
   */
  lemma {:induction false} BusyAcrossRequests(processedId: seq<int>, id: int)
    ensures Busy(processedId + [id], id)
    ensures Pending(processedId + [id], id) == Pending(processedId, id) + 1
    ensures Busy([], id) <==> id == 0
  {
    assert (processedId + [id])[|processedId|] == id;
    if processedId != [] {
      BusyAcrossRequests(processedId[1..], id);
      assert (processedId + [id])[1..] == processedId[1..] + [id];
    }
  }

  class Item {
    var todo: Todo
    var isEditing: bool
    var editedTitle: string
    var isLoading: bool

    constructor (todo: Todo)
      ensures this.todo == todo && !isEditing && editedTitle == todo.title && !isLoading
    {
      this.todo := todo;
      isEditing := false;
      editedTitle := todo.title;
      isLoading := false;
    }

    /** The list re-renders the row (it is keyed by id) with the todo it now holds. */
    method ReceiveProps(t: Todo)
      requires t.id == todo.id
      modifies this`todo
      ensures todo == t
    {
      todo := t;
    }

    /**
     * Whether the loader overlay is shown: the row waits on its own request,
     * is the placeholder, or has a request for its id in flight.
     */
    predicate LoaderShown(processedId: seq<int>)
      reads this
      ensures isLoading ==> LoaderShown(processedId)
      ensures Busy(processedId, todo.id) ==> LoaderShown(processedId)
      ensures LoaderShown(processedId) ==> isLoading || Busy(processedId, todo.id)
      ensures LoaderShown(processedId) <==> isLoading || todo.id == 0 || Pending(processedId, todo.id) > 0
    {
      BusyIffPending(processedId, todo.id);
      Busy(processedId, todo.id) || isLoading
    }

    /** Double-click on the title: the editor opens with the current title. */
    method StartEditing()
      modifies this`isEditing, this`editedTitle
      ensures isEditing && editedTitle == todo.title
    {
      isEditing := true;
      editedTitle := todo.title;
    }

    /** Typing in the title field. */
    method Edit(text: string)
      requires isEditing
      modifies this`editedTitle
      ensures editedTitle == text
    {
      editedTitle := text;
    }

    /** Escape: the edited text is discarded and the editor closes, with no request. */
    method Escape()
      modifies this`isEditing, this`editedTitle
      ensures !isEditing && editedTitle == todo.title
    {
      editedTitle := todo.title;
      isEditing := false;
    }

    /**
     * `handleBlur` (also reached by Enter) up to its `await`. The row asks the
     * controller for a delete or an update and shows its loader, or closes the
     * editor, or does nothing when it is not editing.
     */
    method CommitStart(app: Controller) returns (c: Commit, req: Option<Request>)
      requires app.userId != 0
      modifies this`isEditing, this`isLoading, app`processedId
      ensures c == CommitDecision(old(isEditing), old(editedTitle), old(todo))
      ensures c.Ignore? ==> (req == None && isEditing == old(isEditing) && isLoading == old(isLoading)
        && app.processedId == old(app.processedId))
      ensures c.Close? ==> (req == None && !isEditing && isLoading == old(isLoading)
        && app.processedId == old(app.processedId))
      ensures c.DeleteRequest? ==> req == Some(Delete(todo.id))
      ensures c.UpdateRequest? ==> req == Some(Patch(todo.id, c.todo))
      ensures (c.DeleteRequest? || c.UpdateRequest?) ==> (isEditing && isLoading
        && app.processedId == old(app.processedId) + [todo.id]
        && Busy(app.processedId, todo.id) && LoaderShown(app.processedId))
    {
      c := Ignore;
      req := None;
      if isEditing {
        var titleTrim := Trim(editedTitle);
        if titleTrim == [] {
          c := DeleteRequest(todo.id);
          isLoading := true;
          ghost var before := app.processedId;
          var r := app.DeleteStart(todo.id);
          req := Some(r);
          assert app.processedId == before + [todo.id] && isEditing && isLoading;
        } else if titleTrim != todo.title {
          c := UpdateRequest(todo.(title := titleTrim));
          isLoading := true;
          ghost var before := app.processedId;
          var r := app.UpdateStart(c.todo);
          req := Some(r);
          assert app.processedId == before + [todo.id] && isEditing && isLoading;
        } else {
          c := Close;
          isEditing := false;
        }
      }
    }

    /**
     * `handleBlur` after `await onDelete(id)`. The controller never rejects a
     * delete, so the editor always closes, whether the delete succeeded or not.
     */
    method DeleteSettled(app: Controller, outcome: Outcome<()>)
      modifies this`isEditing, this`editedTitle, this`isLoading,
        app`todos, app`errorMessage, app`processedId
      ensures !isEditing && !isLoading && editedTitle == old(editedTitle)
      ensures outcome.Success? ==> (app.todos == TodoLists.RemoveById(old(app.todos), todo.id)
        && app.errorMessage == old(app.errorMessage))
      ensures outcome.Failure? ==> app.todos == old(app.todos) && app.errorMessage == Some(UnableToDelete)
      ensures app.processedId == []
    {
      var rejected := app.DeleteSettled(todo.id, outcome);
      if rejected {
        // The catch branch, which would restore the title, cannot be reached.
        assert false;
      }
      isEditing := false;
      isLoading := false;
    }

    /**
     * `handleBlur` after `await handleUpdateTodo(...)`. Success closes the
     * editor; the re-raised failure puts the original title back in the field
     * and leaves the editor open.
     */
    method UpdateSettled(app: Controller, sent: Todo, outcome: Outcome<Todo>)
      requires sent.id == todo.id
      modifies this`isEditing, this`editedTitle, this`isLoading,
        app`todos, app`errorMessage, app`processedId
      ensures outcome.Success? ==> (!isEditing && editedTitle == old(editedTitle)
        && app.todos == TodoLists.ReplaceById(old(app.todos), sent.id, outcome.result)
        && app.errorMessage == old(app.errorMessage))
      ensures outcome.Failure? ==> (isEditing == old(isEditing) && editedTitle == todo.title
        && app.todos == old(app.todos) && app.errorMessage == Some(UnableToUpdate))
      ensures !isLoading && app.processedId == []
    {
      var rejected := app.UpdateSettled(sent, outcome);
      if rejected {
        editedTitle := todo.title;
      } else {
        isEditing := false;
      }
      isLoading := false;
    }
  }
}
