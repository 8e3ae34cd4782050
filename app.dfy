/**
 * The application controller: the state slots of the `App` component and the
 * handlers that change them. Every handler that awaits the todo service is
 * split into a start step, which returns the request it issues, and a settle
 * step, which receives how that request ended.
 */
module App {
  import opened Wrappers
  import opened Model
  import opened TodoLists

  class Controller {
    /** The configured user; 0 stands for a missing (falsy) `USER_ID`. */
    const userId: int

    var todos: seq<Todo>
    var currentFilter: FilterKind
    var errorMessage: Option<ErrorMessage>
    var tempTodo: Option<Todo>
    var processedId: seq<int>
    var isActive: bool

    constructor (userId: int)
      ensures this.userId == userId
      ensures todos == [] && currentFilter == All && errorMessage == None
      ensures tempTodo == None && processedId == [] && isActive
    {
      this.userId := userId;
      todos := [];
      currentFilter := All;
      errorMessage := None;
      tempTodo := None;
      processedId := [];
      isActive := true;
    }

    /** The list as the chosen filter shows it. */
    function FilteredTodos(): (r: seq<Todo>)
      reads this
      ensures forall t :: t in r ==> t in todos
    {
      View(todos, currentFilter)
    }

    /** No todo in the list is the unsaved placeholder. */
    predicate PersistedOnly()
      reads this
    {
      forall t :: t in todos ==> t.id != 0
    }

    /** The effect that recomputes `isActive` whenever `todos` changes. */
    method ActiveEffect()
      modifies this`isActive
      ensures isActive <==> forall t :: t in todos ==> t.completed
    {
      isActive := AllCompleted(todos);
    }

    method SetFilter(f: FilterKind)
      modifies this`currentFilter
      ensures currentFilter == f
    {
      currentFilter := f;
    }

    /** The initial load: without a user nothing is fetched; otherwise the banner is cleared and the list fetched. */
    method LoadStart() returns (req: Option<Request>)
      modifies this`errorMessage
      ensures userId == 0 ==> req == None && errorMessage == old(errorMessage)
      ensures userId != 0 ==> req == Some(Fetch) && errorMessage == None
    {
      if userId == 0 {
        return None;
      }
      errorMessage := None;
      req := Some(Fetch);
    }

    /** The fetched list replaces `todos`; a failed fetch leaves it and reports the failure. */
    method LoadSettled(outcome: Outcome<seq<Todo>>)
      modifies this`todos, this`errorMessage
      ensures outcome.Success? ==> todos == outcome.result && errorMessage == old(errorMessage)
      ensures outcome.Failure? ==> todos == old(todos) && errorMessage == Some(UnableToLoad)
    {
      match outcome {
        case Success(list) => todos := list;
        case Failure => errorMessage := Some(UnableToLoad);
      }
    }

    /** `handleUpdateTodo` up to its `await`: the id is marked busy and the whole todo is sent. */
    method UpdateStart(updateTodo: Todo) returns (req: Request)
      requires userId != 0
      modifies this`processedId
      ensures processedId == old(processedId) + [updateTodo.id]
      ensures req == Patch(updateTodo.id, updateTodo)
    {
      processedId := processedId + [updateTodo.id];
      req := Patch(updateTodo.id, updateTodo);
    }

    /**
     * `handleUpdateTodo` after its `await`. The server's todo is spliced in at
     * the index `findIndex` gives for the id (see `ReplaceById` for a missing
     * id); a failure keeps the list, shows the update error and is re-raised
     * to the caller. Either way the whole busy list is cleared.
     */
    method UpdateSettled(updateTodo: Todo, outcome: Outcome<Todo>) returns (rejected: bool)
      modifies this`todos, this`errorMessage, this`processedId
      ensures rejected <==> outcome.Failure?
      ensures outcome.Success? ==>
        todos == ReplaceById(old(todos), updateTodo.id, outcome.result) && errorMessage == old(errorMessage)
      ensures outcome.Failure? ==> todos == old(todos) && errorMessage == Some(UnableToUpdate)
      ensures processedId == []
      ensures old(PersistedOnly()) && (outcome.Success? ==> outcome.result.id != 0) ==> PersistedOnly()
    {
      match outcome {
        case Success(todo) =>
          todos := ReplaceById(todos, updateTodo.id, todo);
          rejected := false;
        case Failure =>
          errorMessage := Some(UnableToUpdate);
          rejected := true;
      }
      processedId := [];
    }

    /**
     * `handleCompletedStatus` up to the call: the id is marked busy even when
     * no todo has it, and only a found todo is sent, with `completed` negated.
     */
    method ToggleStart(id: int) returns (req: Option<Request>)
      requires userId != 0
      modifies this`processedId
      ensures processedId == old(processedId) + [id]
      ensures FindIndex(todos, id) == -1 ==> req == None
      ensures FindIndex(todos, id) >= 0 ==>
        var found := todos[FindIndex(todos, id)];
        req == Some(Patch(id, found.(completed := !found.completed)))
    {
      var index := FindIndex(todos, id);
      processedId := processedId + [id];
      if index == -1 {
        req := None;
      } else {
        var found := todos[index];
        req := Some(Patch(found.id, found.(completed := !found.completed)));
      }
    }

    /** `handleCompletedStatus` once the call settles: like an update, but the failure is not re-raised. */
    method ToggleSettled(id: int, outcome: Outcome<Todo>)
      modifies this`todos, this`errorMessage, this`processedId
      ensures outcome.Success? ==>
        todos == ReplaceById(old(todos), id, outcome.result) && errorMessage == old(errorMessage)
      ensures outcome.Failure? ==> todos == old(todos) && errorMessage == Some(UnableToUpdate)
      ensures processedId == []
      ensures old(PersistedOnly()) && (outcome.Success? ==> outcome.result.id != 0) ==> PersistedOnly()
    {
      match outcome {
        case Success(todo) => todos := ReplaceById(todos, id, todo);
        case Failure => errorMessage := Some(UnableToUpdate);
      }
      processedId := [];
    }

    /** `addTodo`: the todo goes at the end. */
    method AddTodo(todo: Todo)
      modifies this`todos
      ensures todos == old(todos) + [todo]
    {
      todos := todos + [todo];
    }

    /** `deleteTodo` up to the call. */
    method DeleteStart(id: int) returns (req: Request)
      requires userId != 0
      modifies this`processedId
      ensures processedId == old(processedId) + [id]
      ensures req == Delete(id)
    {
      processedId := processedId + [id];
      req := Delete(id);
    }

    /**
     * `deleteTodo` once the call settles. The failure is caught here, so the
     * promise handed back to the caller always resolves.
     */
    method DeleteSettled(id: int, outcome: Outcome<()>) returns (rejected: bool)
      modifies this`todos, this`errorMessage, this`processedId
      ensures !rejected
      ensures outcome.Success? ==> todos == RemoveById(old(todos), id) && errorMessage == old(errorMessage)
      ensures outcome.Failure? ==> todos == old(todos) && errorMessage == Some(UnableToDelete)
      ensures processedId == []
      ensures old(PersistedOnly()) ==> PersistedOnly()
    {
      match outcome {
        case Success(_) => todos := RemoveById(todos, id);
        case Failure => errorMessage := Some(UnableToDelete);
      }
      processedId := [];
      rejected := false;
    }
  }
}
