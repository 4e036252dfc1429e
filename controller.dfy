/// The HTTP handlers (internal/todos/todo.controller.go): parse the path id,
/// call the service, and choose the status code and body of the response.
module Controller {
  import opened Wrappers
  import opened Dto
  import opened Repository
  import opened Service

  // ---------------------------------------------------------------------------
  // Path id parsing: strconv.ParseUint(param, 10, 64), any failure "invalid id".

  const MaxUint64: nat := 0xFFFF_FFFF_FFFF_FFFF
  const InvalidIdMessage: string := "invalid id"

  predicate IsDigit(c: char) {
    '0' <= c <= '9'
  }

  function DigitValue(c: char): nat
    requires IsDigit(c)
  {
    c as int - '0' as int
  }

  /** Every character is an ASCII decimal digit (no sign, no underscore, no space). */
  predicate IsDecimal(s: string) {
    forall i :: 0 <= i < |s| ==> IsDigit(s[i])
  }

  /** The number a string of decimal digits denotes, most significant digit first. */
  function DecimalValue(s: string): nat
    requires IsDecimal(s)
  {
    if s == [] then 0 else DecimalValue(s[..|s| - 1]) * 10 + DigitValue(s[|s| - 1])
  }

  /**
   * ParseUint's digit loop: scans left to right from accumulator `acc`,
   * rejecting a non-digit and stopping with a range error as soon as the
   * value would exceed 2^64 - 1.
   */
  function ScanDigits(s: string, acc: nat): Option<nat>
    decreases |s|
  {
    if s == [] then Some(acc)
    else if !IsDigit(s[0]) then None
    else
      var next := acc * 10 + DigitValue(s[0]);
      if next > MaxUint64 then None else ScanDigits(s[1..], next)
  }

  /** Extending a digit string never makes its value smaller. */
  lemma {:induction false} PrefixValueBound(s: string, n: nat)
    requires IsDecimal(s) && n <= |s|
    ensures IsDecimal(s[..n]) && DecimalValue(s[..n]) <= DecimalValue(s)
    decreases |s| - n
  {
    if n < |s| {
      var init := s[..|s| - 1];
      assert init[..n] == s[..n];
      PrefixValueBound(init, n);
    } else {
      assert s[..n] == s;
    }
  }

  /**
   * Scanning `s` after a prefix `p` already scanned gives the value of `p + s`
   * exactly when `s` is all digits and that value fits in 64 bits.
   */
  lemma {:induction false} ScanDigitsValue(p: string, s: string)
    requires IsDecimal(p) && DecimalValue(p) <= MaxUint64
    ensures ScanDigits(s, DecimalValue(p)) ==
      if IsDecimal(p + s) && DecimalValue(p + s) <= MaxUint64 then Some(DecimalValue(p + s)) else None
    decreases |s|
  {
    if s == [] {
      assert p + s == p;
    } else if !IsDigit(s[0]) {
      assert (p + s)[|p|] == s[0];
    } else {
      var q := p + [s[0]];
      assert q[..|q| - 1] == p;
      assert q + s[1..] == p + s;
      if DecimalValue(q) > MaxUint64 {
        if IsDecimal(p + s) {
          assert (p + s)[..|q|] == q;
          PrefixValueBound(p + s, |q|);
        }
      } else {
        ScanDigitsValue(q, s[1..]);
      }
    }
  }

  /**
   * `parseID`: succeeds exactly on a non-empty string of ASCII digits whose
   * value fits in an unsigned 64-bit integer, and then returns that value.
   */
  function ParseID(param: string): (r: Result<nat, string>)
    ensures r.Success? <==> param != [] && IsDecimal(param) && DecimalValue(param) <= MaxUint64
    ensures r.Success? ==> r.value == DecimalValue(param) && r.value <= MaxUint64
    ensures r.Failure? ==> r.error == InvalidIdMessage
  {
    if param == [] then Failure(InvalidIdMessage)
    else
      assert [] + param == param;
      ScanDigitsValue([], param);
      match ScanDigits(param, 0)
      case Some(v) => Success(v)
      case None => Failure(InvalidIdMessage)
  }

  function DigitChar(d: nat): (c: char)
    requires d < 10
    ensures IsDigit(c) && DigitValue(c) == d
  {
    ('0' as int + d) as char
  }

  /** The decimal form of `n` without leading zeros, as a client writes an id into a path. */
  function FormatDecimal(n: nat): (s: string)
    ensures s != [] && IsDecimal(s)
    decreases n
  {
    if n < 10 then [DigitChar(n)] else FormatDecimal(n / 10) + [DigitChar(n % 10)]
  }

  lemma {:induction false} FormatDecimalValue(n: nat)
    ensures DecimalValue(FormatDecimal(n)) == n
    decreases n
  {
    var s := FormatDecimal(n);
    if n < 10 {
      assert s[..|s| - 1] == [];
    } else {
      assert s[..|s| - 1] == FormatDecimal(n / 10);
      FormatDecimalValue(n / 10);
    }
  }

  /** Every id a 64-bit counter can hold survives printing and parsing. */
  lemma ParseFormatRoundTrip(n: nat)
    requires n <= MaxUint64
    ensures ParseID(FormatDecimal(n)) == Success(n)
  {
    FormatDecimalValue(n);
  }

  /** Leading zeros are accepted and ignored: a path "007" names todo 7. */
  lemma ParseIgnoresLeadingZero(s: string)
    requires s != []
    ensures ParseID("0" + s) == ParseID(s)
  {
  }

  // ---------------------------------------------------------------------------
  // Status selection.

  const StatusOK: nat := 200
  const StatusCreated: nat := 201
  const StatusNoContent: nat := 204
  const StatusBadRequest: nat := 400
  const StatusNotFound: nat := 404
  const StatusInternalServerError: nat := 500

  datatype Handler = ListTodos | CreateTodo | GetTodo | UpdateTodo | DeleteTodo

  /** The handlers routed under `/api/todos/:id`. */
  predicate TakesId(h: Handler) {
    h == GetTodo || h == UpdateTodo || h == DeleteTodo
  }

  /** What a successful handler has to send. */
  datatype Payload = ViewPayload(view: TodoView) | ListPayload(views: seq<TodoView>) | NoPayload

  /** How far a request got: rejected before the service, failed in it, or served. */
  datatype HandlerOutcome =
    | InvalidIdParam
    | BindFailure
    | ServiceError(cause: Error)
    | Served(payload: Payload)

  /** A response body: an error object, a JSON value, or nothing at all. */
  datatype Body = ErrorBody | Json(payload: Payload) | NoBody

  datatype Response = Response(status: nat, body: Body)

  /**
   * The status each handler writes for each outcome: 400 before the service
   * is reached, 404 for any service error on an id route and 500 on the
   * others, and 200, 201 or 204 on success.
   */
  function Respond(h: Handler, o: HandlerOutcome): (resp: Response)
    ensures 200 <= resp.status < 300 <==> o.Served?
    ensures resp.status == StatusBadRequest <==> o.InvalidIdParam? || o.BindFailure?
    ensures resp.status == StatusNotFound <==> o.ServiceError? && TakesId(h)
    ensures resp.status == StatusInternalServerError <==> o.ServiceError? && !TakesId(h)
    ensures resp.body == ErrorBody <==> !o.Served?
    ensures resp.body == NoBody <==> o.Served? && h == DeleteTodo
    ensures o.Served? && h != DeleteTodo ==> resp.body == Json(o.payload)
    ensures o.Served? ==> resp.status == (match h
      case CreateTodo => StatusCreated
      case DeleteTodo => StatusNoContent
      case _ => StatusOK)
  {
    match o
    case InvalidIdParam => Response(StatusBadRequest, ErrorBody)
    case BindFailure => Response(StatusBadRequest, ErrorBody)
    case ServiceError(_) =>
      Response(if TakesId(h) then StatusNotFound else StatusInternalServerError, ErrorBody)
    case Served(p) =>
      match h
      case ListTodos => Response(StatusOK, Json(p))
      case CreateTodo => Response(StatusCreated, Json(p))
      case GetTodo => Response(StatusOK, Json(p))
      case UpdateTodo => Response(StatusOK, Json(p))
      case DeleteTodo => Response(StatusNoContent, NoBody)
  }

  /** The status depends on whether the service failed, never on which error it was. */
  lemma ServiceErrorKindIrrelevant(h: Handler, e1: Error, e2: Error)
    ensures Respond(h, ServiceError(e1)) == Respond(h, ServiceError(e2))
  {
  }

  // ---------------------------------------------------------------------------
  // The outcome of each handler, as a function of the repository state.

  function ViewOutcome(r: Result<TodoView, Error>): HandlerOutcome {
    match r
    case Success(v) => Served(ViewPayload(v))
    case Failure(e) => ServiceError(e)
  }

  function ListOutcome(st: Store): HandlerOutcome {
    match ListResult(st)
    case Success(vs) => Served(ListPayload(vs))
    case Failure(e) => ServiceError(e)
  }

  function CreateOutcome(st: Store, body: Option<CreateTodoInput>): HandlerOutcome {
    if body.None? then BindFailure else ViewOutcome(CreateStep(st, body.value).result)
  }

  function GetOutcome(st: Store, param: string): HandlerOutcome {
    match ParseID(param)
    case Failure(_) => InvalidIdParam
    case Success(id) => ViewOutcome(GetResult(st, id))
  }

  function UpdateOutcome(st: Store, param: string, body: Option<UpdateTodoInput>): HandlerOutcome {
    match ParseID(param)
    case Failure(_) => InvalidIdParam
    case Success(id) =>
      if body.None? then BindFailure else ViewOutcome(UpdateStep(st, id, body.value).result)
  }

  function DeleteOutcome(st: Store, param: string): HandlerOutcome {
    match ParseID(param)
    case Failure(_) => InvalidIdParam
    case Success(id) =>
      match DeleteStep(st, id).result
      case Pass => Served(NoPayload)
      case Fail(e) => ServiceError(e)
  }

  /** An id that does not parse is answered 400 on every id route, whatever the state. */
  lemma InvalidIdIsBadRequest(st: Store, param: string, body: Option<UpdateTodoInput>)
    requires ParseID(param).Failure?
    ensures Respond(GetTodo, GetOutcome(st, param)).status == StatusBadRequest
    ensures Respond(UpdateTodo, UpdateOutcome(st, param, body)).status == StatusBadRequest
    ensures Respond(DeleteTodo, DeleteOutcome(st, param)).status == StatusBadRequest
  {
  }

  /**
   * The controller (`TodoController`). A body that failed to bind is passed
   * as None. Each handler's response is `Respond` of its outcome; a request
   * rejected before the service leaves the repository untouched.
   */
  class TodoController {
    const service: TodoService

    constructor (service: TodoService)
      ensures this.service == service
    {
      this.service := service;
    }

    /** GET /api/todos */
    method List() returns (resp: Response)
      ensures resp == Respond(ListTodos, ListOutcome(service.todos.State()))
    {
      var todos := service.List();
      if todos.Failure? {
        return Respond(ListTodos, ServiceError(todos.error));
      }
      return Respond(ListTodos, Served(ListPayload(todos.value)));
    }

    /** POST /api/todos */
    method Create(body: Option<CreateTodoInput>) returns (resp: Response)
      requires service.todos.Valid()
      modifies service.todos
      ensures service.todos.Valid()
      ensures resp == Respond(CreateTodo, CreateOutcome(old(service.todos.State()), body))
      ensures body.None? ==> unchanged(service.todos)
      ensures body.Some? ==>
        service.todos.State() == CreateStep(old(service.todos.State()), body.value).store
    {
      if body.None? {
        return Respond(CreateTodo, BindFailure);
      }
      var todo := service.Create(body.value);
      if todo.Failure? {
        return Respond(CreateTodo, ServiceError(todo.error));
      }
      return Respond(CreateTodo, Served(ViewPayload(todo.value)));
    }

    /** GET /api/todos/:id */
    method Get(param: string) returns (resp: Response)
      ensures resp == Respond(GetTodo, GetOutcome(service.todos.State(), param))
    {
      var id := ParseID(param);
      if id.Failure? {
        return Respond(GetTodo, InvalidIdParam);
      }
      var todo := service.Get(id.value);
      if todo.Failure? {
        return Respond(GetTodo, ServiceError(todo.error));
      }
      return Respond(GetTodo, Served(ViewPayload(todo.value)));
    }

    /** PATCH /api/todos/:id: the id is checked before the body is bound. */
    method Update(param: string, body: Option<UpdateTodoInput>) returns (resp: Response)
      requires service.todos.Valid()
      modifies service.todos
      ensures service.todos.Valid()
      ensures resp == Respond(UpdateTodo, UpdateOutcome(old(service.todos.State()), param, body))
      ensures ParseID(param).Failure? || body.None? ==> unchanged(service.todos)
      ensures ParseID(param).Success? && body.Some? ==>
        service.todos.State() == UpdateStep(old(service.todos.State()), ParseID(param).value, body.value).store
      ensures service.todos.issued == old(service.todos.issued)
    {
      var id := ParseID(param);
      if id.Failure? {
        return Respond(UpdateTodo, InvalidIdParam);
      }
      if body.None? {
        return Respond(UpdateTodo, BindFailure);
      }
      var todo := service.Update(id.value, body.value);
      if todo.Failure? {
        return Respond(UpdateTodo, ServiceError(todo.error));
      }
      return Respond(UpdateTodo, Served(ViewPayload(todo.value)));
    }

    /** DELETE /api/todos/:id */
    method Delete(param: string) returns (resp: Response)
      requires service.todos.Valid()
      modifies service.todos
      ensures service.todos.Valid()
      ensures resp == Respond(DeleteTodo, DeleteOutcome(old(service.todos.State()), param))
      ensures ParseID(param).Failure? ==> unchanged(service.todos)
      ensures ParseID(param).Success? ==>
        service.todos.State() == DeleteStep(old(service.todos.State()), ParseID(param).value).store
      ensures service.todos.issued == old(service.todos.issued)
    {
      var id := ParseID(param);
      if id.Failure? {
        return Respond(DeleteTodo, InvalidIdParam);
      }
      var done := service.Delete(id.value);
      if done.Fail? {
        return Respond(DeleteTodo, ServiceError(done.error));
      }
      return Respond(DeleteTodo, Served(NoPayload));
    }
  }
}
