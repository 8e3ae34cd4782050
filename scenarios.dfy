/** Client code that walks the controller and its components through whole runs. */
module Scenarios {
  import opened Wrappers
  import opened Model
  import opened TodoLists
  import opened App
  import opened TodoUser
  import opened TodoHeader
  import Text

  /** Clearing the title in the editor (to nothing but white space) deletes the todo; the list ends up empty. */
  method RenameToBlankDeletes(a: Todo, blank: string)
    requires Text.AllWhitespace(blank) && a.userId != 0
  {
    var app := new Controller(a.userId);
    app.LoadSettled(Success([a]));
    var row := new Item(a);
    row.StartEditing();
    row.Edit(blank);
    var c, req := row.CommitStart(app);
    assert req == Some(Delete(a.id));
    assert app.processedId == [a.id] && row.LoaderShown(app.processedId);
    row.DeleteSettled(app, Success(()));
    assert !row.isEditing && app.processedId == [];
    assert app.todos == [];
  }

  /** Adding a todo to an empty list: the server's todo enters the list, the placeholder never does. */
  method AddToEmptyList(userId: int, typed: string, created: Todo)
    requires !Text.AllWhitespace(typed) && userId != 0
  {
    var app := new Controller(userId);
    var form := new Header();
    form.Type(typed);
    var req := form.SubmitStart(app);
    assert req == Some(Post(Text.Trim(typed)));
    assert app.tempTodo == Some(Todo(0, userId, Text.Trim(typed), false));
    form.SubmitSettled(app, Success(created));
    assert app.todos == [created] && app.tempTodo == None && form.title == "" && !form.isSubmitting;
  }

  /**
   * The Completed view of a mixed list holds only the completed todo; the list
   * is untouched. The effect run after the load clears `isActive`.
   */
  method CompletedView(done: Todo, open: Todo)
    requires done.completed && !open.completed
  {
    var app := new Controller(done.userId);
    app.LoadSettled(Success([done, open]));
    app.ActiveEffect();
    assert !app.isActive && app.isActive == AllCompleted(app.todos);
    app.SetFilter(Completed);
    var shown := app.FilteredTodos();
    assert [done, open][1..] == [open] && [open][1..] == [];
    assert Filter(IsCompletedTodo, [open]) == [];
    assert shown == [done];
    assert app.todos == [done, open];
  }

  /** Settling one request clears the busy mark of another request still in flight. */
  method OneSettleClearsAllBusyMarks(a: Todo, b: Todo)
    requires a.id != b.id && b.id != 0 && a.userId != 0
  {
    var app := new Controller(a.userId);
    app.LoadSettled(Success([a, b]));
    var del := app.DeleteStart(a.id);
    assert FindIndex([a, b], b.id) == 1 by {
      assert [a, b][1..] == [b];
    }
    var toggle := app.ToggleStart(b.id);
    assert toggle == Some(Patch(b.id, b.(completed := !b.completed)));
    var rejected := app.DeleteSettled(a.id, Success(()));
    assert !Busy(app.processedId, b.id);
  }

  /** Toggling an id that is not in the list marks it busy but sends nothing. */
  method ToggleMissingId(id: int) {
    var app := new Controller(7);
    var toggle := app.ToggleStart(id);
    assert toggle == None && app.processedId == [id];
  }

  /** An update for an id no longer in the list overwrites the last todo. */
  method UpdateOfMissingIdOverwritesLast(a: Todo, b: Todo, sent: Todo)
    requires sent.id != a.id && sent.id != b.id && a.userId != 0
  {
    var app := new Controller(a.userId);
    app.LoadSettled(Success([a, b]));
    var req := app.UpdateStart(sent);
    var rejected := app.UpdateSettled(sent, Success(sent));
    assert [a, b][..1] == [a];
    assert app.todos == [a, sent];
  }
}
