/** The records the todo application works with. */
module Model {

  /** One task. Id 0 is the placeholder for a todo that the service has not created yet. */
  datatype Todo = Todo(id: int, userId: int, title: string, completed: bool)

  /** The list filter chosen in the footer. */
  datatype FilterKind = All | Active | Completed

  /**
   * The messages shown in the error banner. `UnableToUpdate` is the literal
   * 'Unable to update a todo'; the others stand for the members of the
   * application's `ErrorMessages` enumeration.
   */
  datatype ErrorMessage = EmptyTitle | UnableToLoad | UnableToAdd | UnableToUpdate | UnableToDelete

  /** A call issued to the remote todo service. */
  datatype Request =
    | Fetch                        // getTodos()
    | Post(title: string)          // postTodos(title)
    | Patch(id: int, body: Todo)   // patchTodo(id, body)
    | Delete(id: int)              // deleteTodos(id)
}
