/// The scenarios the repository's tests walk through, replayed on the model
/// with their expected results proved as postconditions:
/// the service unit tests (internal/todos/todo.service_test.go) and the
/// end-to-end HTTP scenario (e2e/e2e_test.go).
module Scenarios {
  import opened Wrappers
  import opened Entities
  import opened Dto
  import opened Repository
  import opened Service
  import opened Controller

  /** Two creates, then List shows both, in the order they were created. */
  method ListInCreationOrder() returns (before: Result<seq<TodoView>, Error>, after: Result<seq<TodoView>, Error>)
    ensures before == Success([])
    ensures after.Success? && |after.value| == 2
    ensures after.value[0].title == "Buy milk" && after.value[1].title == "Walk dog"
  {
    var repo := new TodoRepo();
    var svc := new TodoService(repo);
    before := svc.List();
    var _ := svc.Create(CreateTodoInput("Buy milk", ""));
    var _ := svc.Create(CreateTodoInput("Walk dog", ""));
    after := svc.List();
  }

  /**
   * Update of the title alone, then of done alone, each leaving the other
   * fields as they were; update of an unknown id fails.
   */
  method UpdateFieldByField()
    returns (retitled: Result<TodoView, Error>, marked: Result<TodoView, Error>, missing: Result<TodoView, Error>)
    ensures retitled == Success(TodoView(1, "Buy bread", "From the store", false))
    ensures marked == Success(TodoView(1, "Buy bread", "From the store", true))
    ensures missing == Failure(RecordNotFound)
  {
    var repo := new TodoRepo();
    var svc := new TodoService(repo);
    var _ := svc.Create(CreateTodoInput("Buy milk", "From the store"));
    retitled := svc.Update(1, UpdateTodoInput("Buy bread", "", None));
    marked := svc.Update(1, UpdateTodoInput("", "", Some(true)));
    missing := svc.Update(999, UpdateTodoInput("Nope", "", None));
  }

  /** Delete of an existing record empties the repository; delete of an unknown id fails. */
  method DeleteExistingThenMissing() returns (deleted: Outcome<Error>, missing: Outcome<Error>, left: seq<Todo>)
    ensures deleted == Pass && left == []
    ensures missing == Fail(RecordNotFound)
  {
    var repo := new TodoRepo();
    var svc := new TodoService(repo);
    var _ := svc.Create(CreateTodoInput("Buy milk", ""));
    deleted := svc.Delete(1);
    missing := svc.Delete(999);
    left := repo.todos;
  }

  const Milk: Todo := Todo(1, "Buy milk", "From the store", false)
  const Bread: Todo := Todo(1, "Buy bread", "From the store", true)

  /** List on an empty repository, then create "Buy milk". */
  method ListEmptyThenCreate(api: TodoController) returns (listed: Response, created: Response)
    requires api.service.todos.Valid() && api.service.todos.State() == Empty
    modifies api.service.todos
    ensures api.service.todos.Valid() && api.service.todos.State() == Store([Milk], 2, false)
    ensures listed == Response(200, Json(ListPayload([])))
    ensures created == Response(201, Json(ViewPayload(NewTodoDto(Milk))))
  {
    listed := api.List();
    created := api.Create(Some(CreateTodoInput("Buy milk", "From the store")));
  }

  /** List and get the one record, then set its title and mark it done. */
  method ReadThenUpdate(api: TodoController, path: string) returns (listed: Response, fetched: Response, updated: Response)
    requires api.service.todos.Valid() && api.service.todos.State() == Store([Milk], 2, false)
    requires ParseID(path) == Success(1)
    modifies api.service.todos
    ensures api.service.todos.Valid() && api.service.todos.State() == Store([Bread], 2, false)
    ensures listed == Response(200, Json(ListPayload([NewTodoDto(Milk)])))
    ensures fetched == Response(200, Json(ViewPayload(NewTodoDto(Milk))))
    ensures updated == Response(200, Json(ViewPayload(NewTodoDto(Bread))))
  {
    assert Views([Milk]) == [NewTodoDto(Milk)];
    listed := api.List();
    assert IndexOf([Milk], 1) == Some(0);
    fetched := api.Get(path);
    updated := api.Update(path, Some(UpdateTodoInput("Buy bread", "", Some(true))));
  }

  /** Delete the record, get it again, and post a body that does not bind. */
  method DeleteThenMiss(api: TodoController, path: string) returns (deleted: Response, gone: Response, untitled: Response)
    requires api.service.todos.Valid() && api.service.todos.State() == Store([Bread], 2, false)
    requires ParseID(path) == Success(1)
    modifies api.service.todos
    ensures api.service.todos.State() == Store([], 2, false)
    ensures deleted == Response(204, NoBody)
    ensures gone == Response(404, ErrorBody)
    ensures untitled == Response(400, ErrorBody)
  {
    assert IndexOf([Bread], 1) == Some(0);
    deleted := api.Delete(path);
    gone := api.Get(path);
    untitled := api.Create(None);
  }

  /**
   * The HTTP walk-through: list empty, create, list, get, update title and
   * done, delete, get the deleted id, and create with a body that does not
   * bind (no title).
   */
  method EndToEnd() returns (statuses: seq<nat>)
    ensures statuses == [200, 201, 200, 200, 200, 204, 404, 400]
  {
    var repo := new TodoRepo();
    var svc := new TodoService(repo);
    var api := new TodoController(svc);
    var path := FormatDecimal(1);
    ParseFormatRoundTrip(1);
    var r0, r1 := ListEmptyThenCreate(api);
    var r2, r3, r4 := ReadThenUpdate(api, path);
    var r5, r6, r7 := DeleteThenMiss(api, path);
    statuses := [r0.status, r1.status, r2.status, r3.status, r4.status, r5.status, r6.status, r7.status];
  }
}
