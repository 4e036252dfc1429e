/// The persisted todo record (internal/todos/entities/todo.entity.go).
module Entities {

  /**
   * A stored todo: the identifier the repository assigns, and the three
   * columns the service reads and writes. The ORM's timestamps and
   * soft-delete marker are not part of the model.
   */
  datatype Todo = Todo(id: nat, title: string, description: string, done: bool)
}
