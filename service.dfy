/// The todo service (internal/todos/todo.service.go): maps records to views,
/// checks existence before update and delete, and turns an update request into
/// the partial column set the repository writes.
module Service {
  import opened Wrappers
  import opened Entities
  import opened Dto
  import opened Repository

  /** The body of a create request, once bound. */
  datatype CreateTodoInput = CreateTodoInput(title: string, description: string)

  /** The body of an update request, once bound; `done` is absent unless the request carries it. */
  datatype UpdateTodoInput = UpdateTodoInput(title: string, description: string, done: Option<bool>)

  /** What an operation returns together with the repository state it leaves behind. */
  datatype Step<+R> = Step(result: R, store: Store)

  /**
   * The partial-update policy: a column is in the set iff the input supplies
   * it, and an empty title or description counts as not supplied.
   */
  function UpdateColumns(input: UpdateTodoInput): (c: Columns)
    ensures c.title.Some? <==> input.title != ""
    ensures c.description.Some? <==> input.description != ""
    ensures c.done.Some? <==> input.done.Some?
    ensures c.title.Some? ==> c.title.value == input.title
    ensures c.description.Some? ==> c.description.value == input.description
    ensures c.done.Some? ==> c.done.value == input.done.value
  {
    Columns(if input.title != "" then Some(input.title) else None,
            if input.description != "" then Some(input.description) else None,
            input.done)
  }

  // Specification of each service operation as a function of the repository state.

  function ListResult(st: Store): Result<seq<TodoView>, Error> {
    if st.faulty then Failure(StorageFailure) else Success(Views(st.todos))
  }

  function GetResult(st: Store, id: nat): Result<TodoView, Error> {
    if st.faulty then Failure(StorageFailure)
    else match Lookup(st.todos, id)
      case Success(t) => Success(NewTodoDto(t))
      case Failure(e) => Failure(e)
  }

  function CreateStep(st: Store, input: CreateTodoInput): Step<Result<TodoView, Error>> {
    if st.faulty then Step(Failure(StorageFailure), st)
    else
      var t := Todo(st.nextID, input.title, input.description, false);
      Step(Success(NewTodoDto(t)), st.(todos := st.todos + [t], nextID := st.nextID + 1))
  }

  function UpdateStep(st: Store, id: nat, input: UpdateTodoInput): Step<Result<TodoView, Error>> {
    if st.faulty then Step(Failure(StorageFailure), st)
    else match IndexOf(st.todos, id)
      case None => Step(Failure(RecordNotFound), st)
      case Some(k) =>
        var t := Apply(st.todos[k], UpdateColumns(input));
        Step(Success(NewTodoDto(t)), st.(todos := st.todos[k := t]))
  }

  function DeleteStep(st: Store, id: nat): Step<Outcome<Error>> {
    if st.faulty then Step(Fail(StorageFailure), st)
    else match IndexOf(st.todos, id)
      case None => Step(Fail(RecordNotFound), st)
      case Some(k) => Step(Pass, st.(todos := Remove(st.todos, k)))
  }

  // Properties of the operations.

  /** Listing a healthy empty repository gives no views and no error. */
  lemma ListEmpty()
    ensures ListResult(Empty) == Success([])
  {
  }

  /** List gives one view per record, in insertion order, each the record's projection. */
  lemma ListMatchesRecords(st: Store)
    requires !st.faulty
    ensures ListResult(st).Success?
    ensures |ListResult(st).value| == |st.todos|
    ensures forall i :: 0 <= i < |st.todos| ==> ListResult(st).value[i] == NewTodoDto(st.todos[i])
  {
  }

  /**
   * Create assigns the counter's id, which no live record carries, stores the
   * input's title and description with done false, and appends the record:
   * a later Get finds it and a later List shows it last.
   */
  lemma CreateThenGetAndList(st: Store, input: CreateTodoInput)
    requires WellFormed(st) && !st.faulty
    ensures var s := CreateStep(st, input);
      && s.result == Success(TodoView(st.nextID, input.title, input.description, false))
      && (forall i :: 0 <= i < |st.todos| ==> st.todos[i].id < s.result.value.id)
      && GetResult(s.store, st.nextID) == s.result
      && ListResult(s.store) == Success(ListResult(st).value + [s.result.value])
      && WellFormed(s.store)
  {
    var t := Todo(st.nextID, input.title, input.description, false);
    IndexOfAppend(st.todos, t, st.nextID);
    ViewsAppend(st.todos, t);
  }

  /** Ids increase strictly from one create to the next. */
  lemma CreateIdsIncrease(st: Store, a: CreateTodoInput, b: CreateTodoInput)
    requires !st.faulty
    ensures var first := CreateStep(st, a);
      var second := CreateStep(first.store, b);
      second.result.value.id == first.result.value.id + 1
  {
  }

  /** Update of an id with no record fails with "not found" and writes nothing. */
  lemma UpdateAbsentUnchanged(st: Store, id: nat, input: UpdateTodoInput)
    requires !st.faulty && GetResult(st, id).Failure?
    ensures UpdateStep(st, id, input) == Step(Failure(RecordNotFound), st)
  {
  }

  /**
   * A successful update changes only the supplied, non-empty fields of the
   * record with that id; its id and every other record stay as they were.
   */
  lemma UpdateOnlySuppliedFields(st: Store, id: nat, input: UpdateTodoInput, k: nat)
    requires !st.faulty && IndexOf(st.todos, id) == Some(k)
    ensures var s := UpdateStep(st, id, input);
      && |s.store.todos| == |st.todos|
      && (forall j :: 0 <= j < |st.todos| && j != k ==> s.store.todos[j] == st.todos[j])
      && s.store.todos[k].id == id
      && s.store.todos[k].title == (if input.title == "" then st.todos[k].title else input.title)
      && s.store.todos[k].description ==
           (if input.description == "" then st.todos[k].description else input.description)
      && s.store.todos[k].done == (if input.done.None? then st.todos[k].done else input.done.value)
      && s.store.nextID == st.nextID
  {
  }

  /** An update never blanks a title that was set, whatever the input. */
  lemma UpdateKeepsTitleNonEmpty(t: Todo, input: UpdateTodoInput)
    requires t.title != ""
    ensures Apply(t, UpdateColumns(input)).title != ""
  {
  }

  /** The view a successful update returns is what Get returns on the new state. */
  lemma UpdateReturnsFreshGet(st: Store, id: nat, input: UpdateTodoInput)
    requires UpdateStep(st, id, input).result.Success?
    ensures var s := UpdateStep(st, id, input);
      s.result == GetResult(s.store, id)
  {
    var k := IndexOf(st.todos, id).value;
    var t := Apply(st.todos[k], UpdateColumns(input));
    IndexOfSameIds(st.todos, st.todos[k := t], id);
  }

  /** Update keeps the repository invariant. */
  lemma UpdatePreservesWellFormed(st: Store, id: nat, input: UpdateTodoInput)
    requires WellFormed(st)
    ensures WellFormed(UpdateStep(st, id, input).store)
  {
  }

  /** Delete of an id with no record fails with "not found" and removes nothing. */
  lemma DeleteAbsentUnchanged(st: Store, id: nat)
    requires !st.faulty && GetResult(st, id).Failure?
    ensures DeleteStep(st, id) == Step(Fail(RecordNotFound), st)
  {
  }

  /**
   * A successful delete removes exactly the record with that id, keeps the
   * others in order, and a later Get of that id fails with "not found".
   */
  lemma DeleteThenGetFails(st: Store, id: nat)
    requires WellFormed(st) && DeleteStep(st, id).result.Pass?
    ensures var s := DeleteStep(st, id);
      && multiset(s.store.todos) + multiset{Lookup(st.todos, id).value} == multiset(st.todos)
      && GetResult(s.store, id) == Failure(RecordNotFound)
      && WellFormed(s.store)
  {
  }

  /**
   * The service (`TodoService`): holds the repository and drives it. Each
   * method is specified by the matching function above.
   */
  class TodoService {
    const todos: TodoRepo

    constructor (todos: TodoRepo)
      ensures this.todos == todos
    {
      this.todos := todos;
    }

    /** All records as views, in repository order. */
    method List() returns (r: Result<seq<TodoView>, Error>)
      ensures r == ListResult(todos.State())
    {
      var all := todos.FindAll();
      if all.Failure? {
        return Failure(all.error);
      }
      var records := all.value;
      var dtos := new TodoView[|records|];
      for i := 0 to |records|
        invariant forall j :: 0 <= j < i ==> dtos[j] == NewTodoDto(records[j])
      {
        dtos[i] := NewTodoDto(records[i]);
      }
      assert dtos[..] == Views(records);
      return Success(dtos[..]);
    }

    /** Stores a new record built from the input, done false, and returns its view. */
    method Create(input: CreateTodoInput) returns (r: Result<TodoView, Error>)
      requires todos.Valid()
      modifies todos
      ensures todos.Valid()
      ensures Step(r, todos.State()) == CreateStep(old(todos.State()), input)
      ensures r.Success? ==> r.value.id !in old(todos.issued)
      ensures todos.issued == if r.Success? then old(todos.issued) + {r.value.id} else old(todos.issued)
    {
      var todo := Todo(0, input.title, input.description, false);
      var stored := todos.Create(todo);
      if stored.Failure? {
        return Failure(stored.error);
      }
      return Success(NewTodoDto(stored.value));
    }

    /** The view of the record with id `id`. */
    method Get(id: nat) returns (r: Result<TodoView, Error>)
      ensures r == GetResult(todos.State(), id)
    {
      var todo := todos.FindByID(id);
      if todo.Failure? {
        return Failure(todo.error);
      }
      return Success(NewTodoDto(todo.value));
    }

    /** Checks the record exists, writes the supplied columns, and returns the fresh view. */
    method Update(id: nat, input: UpdateTodoInput) returns (r: Result<TodoView, Error>)
      requires todos.Valid()
      modifies todos
      ensures todos.Valid()
      ensures Step(r, todos.State()) == UpdateStep(old(todos.State()), id, input)
      ensures todos.issued == old(todos.issued)
    {
      var found := todos.FindByID(id);
      if found.Failure? {
        return Failure(found.error);
      }
      var columns := NoColumns;
      if input.title != "" {
        columns := columns.(title := Some(input.title));
      }
      if input.description != "" {
        columns := columns.(description := Some(input.description));
      }
      if input.done.Some? {
        columns := columns.(done := Some(input.done.value));
      }
      assert columns == UpdateColumns(input);
      var written := todos.UpdatesByID(id, columns);
      if written.Fail? {
        return Failure(written.error);
      }
      UpdateReturnsFreshGet(old(todos.State()), id, input);
      r := Get(id);
    }

    /** Checks the record exists, then removes it. */
    method Delete(id: nat) returns (r: Outcome<Error>)
      requires todos.Valid()
      modifies todos
      ensures todos.Valid()
      ensures Step(r, todos.State()) == DeleteStep(old(todos.State()), id)
      ensures todos.issued == old(todos.issued)
    {
      var found := todos.FindByID(id);
      if found.Failure? {
        return Fail(found.error);
      }
      r := todos.DeleteByID(id);
    }
  }
}
