/// The externally visible projection of a todo (internal/todos/dto/todo.dto.go).
module Dto {
  import opened Entities

  /** What the HTTP API returns for a todo: exactly id, title, description, done. */
  datatype TodoView = TodoView(id: nat, title: string, description: string, done: bool)

  /** Projects a stored record onto its view, copying every exposed field unchanged. */
  function NewTodoDto(t: Todo): (v: TodoView)
    ensures v.id == t.id
    ensures v.title == t.title && v.description == t.description
    ensures v.done == t.done
  {
    TodoView(t.id, t.title, t.description, t.done)
  }

  /** The projection loses nothing the model stores: distinct records have distinct views. */
  lemma NewTodoDtoInjective(a: Todo, b: Todo)
    ensures NewTodoDto(a) == NewTodoDto(b) <==> a == b
  {
  }

  /** The views of a sequence of records, one per record, in the same order. */
  function Views(s: seq<Todo>): (r: seq<TodoView>)
    ensures |r| == |s|
    ensures forall i :: 0 <= i < |s| ==> r[i] == NewTodoDto(s[i])
  {
    if s == [] then [] else [NewTodoDto(s[0])] + Views(s[1..])
  }

  /** Projecting a list that grew at the end gives the old views plus the new one. */
  lemma ViewsAppend(s: seq<Todo>, t: Todo)
    ensures Views(s + [t]) == Views(s) + [NewTodoDto(t)]
  {
  }
}
