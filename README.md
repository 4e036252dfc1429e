# Todo API — a verified Dafny model

This project models the core of a small CRUD HTTP service for todo items. The
service layer (`TodoService`) runs over a repository of todo records. It maps
records to their external view (`TodoDto`), checks that a record exists before
updating or deleting it, and turns an update request into a partial column set.
In that set an empty title or description counts as "not supplied". The HTTP
handlers (`TodoController`) parse the path id as an unsigned 64-bit decimal
number and choose the status code of each response.

The repository is modelled with the semantics of the in-memory repository that
the service's unit tests use (`mockTodoRepo`):
- records are kept in insertion order;
- ids come from a counter that starts at 1 and only grows;
- lookups and writes are linear searches for the first record with the id;
- delete splices the record out.

Modules, one per file:

| file | module | models |
|---|---|---|
| `wrappers.dfy` | `Wrappers` | `Option`, `Result`, `Outcome` (Go's nil values and `error` returns) |
| `entities.dfy` | `Entities` | the `Todo` record (id, title, description, done) |
| `dto.dfy` | `Dto` | `TodoView` and the projection `NewTodoDto` |
| `repository.dfy` | `Repository` | the repository as class `TodoRepo`, and the search/update/splice functions that specify it |
| `service.dfy` | `Service` | class `TodoService`; each operation is also a function of the repository state (`ListResult`, `GetResult`, `CreateStep`, `UpdateStep`, `DeleteStep`), and the lemmas state properties of those functions |
| `controller.dfy` | `Controller` | `ParseID`, the status selection `Respond`, and class `TodoController` with one method per handler |
| `scenarios.dfy` | `Scenarios` | the unit-test and end-to-end scenarios, with their expected results as postconditions |

Each class method's postcondition ties its result and the new repository state
to the matching specification function. The lemmas beside those functions
prove what the source promises about them.

The ORM-backed repository can also fail with a storage error. The model
represents this with the `faulty` flag of `TodoRepo`: while it is set, every
repository call fails with `StorageFailure` and changes nothing. The in-memory
repository starts with the flag cleared and never sets it.

Three facts about the code that the model keeps:
- `get`, `update` and `delete` answer 404 for every service error, storage
  failures included (internal/todos/todo.controller.go:50-54, 69-73, 83-86).
  Only `list` and `create` answer 500 (internal/todos/todo.controller.go:23-26,
  37-40).
- The service does not check the title on create: it passes the input's title
  and description to the repository as they are
  (internal/todos/todo.service.go:38-45). An empty title can only be refused
  by request binding, which is outside the model.
- Delete removes the record, as the in-memory repository splices it out
  (internal/todos/todo.service_test.go:64-70).

## Model

| member | source | states |
|---|---|---|
| Dto.NewTodoDto | internal/todos/dto/todo.dto.go:12-19 | the view carries the record's id, title, description and done unchanged |
| Dto.NewTodoDtoInjective | internal/todos/dto/todo.dto.go:5-19 | two records have the same view iff they are equal, so the projection drops nothing the model stores |
| Dto.Views | internal/todos/todo.service.go:31-34 | one view per record, same length, the i-th view is the projection of the i-th record |
| Dto.ViewsAppend | internal/todos/todo.service.go:31-34 | the views of a list with one record appended are the old views plus that record's view |
| Repository.IndexOf | internal/todos/todo.service_test.go:30-37 | the linear search finds the first position holding the id, or reports that no position holds it |
| Repository.Lookup | internal/todos/todo.service_test.go:30-37 | FindByID on a healthy store returns a stored record with that id, or "record not found" exactly when no record has it |
| Repository.Apply | internal/todos/todo.service_test.go:46-58 | a present column overwrites its field; an absent column leaves its field as it was; the id never changes |
| Repository.Remove | internal/todos/todo.service_test.go:64-70 | splicing removes exactly one record: one shorter, the others in their old relative order, same multiset minus the removed record |
| Repository.IndexOfSameIds | internal/todos/todo.service_test.go:46-60 | the search result depends only on the ids; an update that keeps ids keeps every record findable where it was |
| Repository.IndexOfAppend | internal/todos/todo.service_test.go:39-44 | after an append, earlier matches stay where they were and the appended record is found at the end |
| Repository.IndexOfUnique | internal/todos/todo.service_test.go:30-37 | with increasing ids, each record is the one found for its id |
| Repository.RemovePreservesIncreasing | internal/todos/todo.service_test.go:64-70 | splicing out a record keeps ids strictly increasing |
| Repository.RemovedIdGone | internal/todos/todo.service_test.go:64-70 | once spliced out, the removed id is no longer found |
| Repository.TodoRepo.constructor | internal/todos/todo.service_test.go:20-22 | a new repository has no records, assigns id 1 first, and has issued no ids |
| Repository.TodoRepo.FindAll | internal/todos/todo.service_test.go:24-28 | returns all records in insertion order; fails only with a storage failure |
| Repository.TodoRepo.FindByID | internal/todos/todo.service_test.go:30-37 | the loop returns the record the search specifies, or "record not found" |
| Repository.TodoRepo.Create | internal/todos/todo.service_test.go:39-44 | assigns the counter's id, never one issued before, increments the counter and appends the record; on failure nothing changes |
| Repository.TodoRepo.UpdatesByID | internal/todos/todo.service_test.go:46-62 | writes the present columns to the matching record only; an absent id gives "record not found" and changes nothing |
| Repository.TodoRepo.DeleteByID | internal/todos/todo.service_test.go:64-72 | splices the matching record out and keeps the ids increasing; an absent id gives "record not found" and changes nothing |
| Service.UpdateColumns | internal/todos/todo.service.go:64-73 | the column set holds title iff the input title is non-empty, description iff the input description is non-empty, done iff done is present, each with the input's value |
| Service.ListEmpty | internal/todos/todo.service_test.go:74-81 | listing a new repository gives an empty list and no error |
| Service.ListMatchesRecords | internal/todos/todo.service.go:26-35 | on a healthy store, List returns as many views as there are records, in order, each the record's projection |
| Service.CreateThenGetAndList | internal/todos/todo.service.go:38-48 | create returns the view with the counter's id, the input's title and description, and done false; the id exceeds every live id; Get finds it, List shows it last, and the invariant holds |
| Service.CreateIdsIncrease | internal/todos/todo.service_test.go:39-44 | two creates in a row get consecutive ids |
| Service.UpdateAbsentUnchanged | internal/todos/todo.service.go:59-62 | update of an id that Get does not find fails with "record not found" and leaves the state as it was |
| Service.UpdateOnlySuppliedFields | internal/todos/todo.service.go:64-76 | a successful update changes only the supplied non-empty fields of the record; its id, the other records and the counter are unchanged |
| Service.UpdateKeepsTitleNonEmpty | internal/todos/todo.service.go:64-67 | no update input can blank a non-empty title |
| Service.UpdateReturnsFreshGet | internal/todos/todo.service.go:74-78 | the view update returns equals Get of that id on the new state |
| Service.UpdatePreservesWellFormed | internal/todos/todo.service.go:59-79 | update keeps ids increasing and below the counter |
| Service.DeleteAbsentUnchanged | internal/todos/todo.service.go:81-84 | delete of an id that Get does not find fails with "record not found" and changes nothing |
| Service.DeleteThenGetFails | internal/todos/todo.service.go:81-86 | a successful delete removes exactly that record, keeps the invariant, and a later Get fails with "record not found" |
| Service.TodoService.List | internal/todos/todo.service.go:26-35 | the loop fills the view array so the result is ListResult of the current state |
| Service.TodoService.Create | internal/todos/todo.service.go:38-48 | result and new state are CreateStep of the old state; the id was never issued before, and it is the only id added to the issued set |
| Service.TodoService.Get | internal/todos/todo.service.go:50-57 | the result is GetResult of the current state |
| Service.TodoService.Update | internal/todos/todo.service.go:59-79 | builds the column set by conditional insertion; result and new state are UpdateStep of the old state; no id is issued |
| Service.TodoService.Delete | internal/todos/todo.service.go:81-86 | result and new state are DeleteStep of the old state; no id is issued |
| Controller.ScanDigitsValue | internal/todos/todo.controller.go:91 | the digit loop with its overflow stop accepts exactly the all-digit strings whose value fits in 64 bits, and returns that value |
| Controller.ParseID | internal/todos/todo.controller.go:90-96 | succeeds iff the parameter is a non-empty string of ASCII digits whose value is at most 2^64-1, returning that value; otherwise fails with "invalid id" |
| Controller.FormatDecimal | e2e/e2e_test.go:109 | the decimal form a client writes into the path is a non-empty string of digits |
| Controller.FormatDecimalValue | e2e/e2e_test.go:109 | the decimal form denotes the number it was made from |
| Controller.ParseFormatRoundTrip | internal/todos/todo.controller.go:90-96 | every 64-bit id written in decimal parses back to itself |
| Controller.ParseIgnoresLeadingZero | internal/todos/todo.controller.go:91 | a leading zero changes neither acceptance nor value |
| Controller.Respond | internal/todos/todo.controller.go:21-88 | 2xx iff served; 400 iff the id or body was rejected; 404 iff the service failed on an id route; 500 iff it failed on list or create; error body iff not served; 201 for create, 204 with no body for delete, 200 otherwise |
| Controller.ServiceErrorKindIrrelevant | internal/todos/todo.controller.go:50-54 | the response to a service error does not depend on which error it was |
| Controller.InvalidIdIsBadRequest | internal/todos/todo.controller.go:45-49 | an id that does not parse gives 400 on get, update and delete, whatever the state and body |
| Controller.TodoController.List | internal/todos/todo.controller.go:21-28 | the response is Respond of the list outcome on the current state |
| Controller.TodoController.Create | internal/todos/todo.controller.go:30-42 | a body that does not bind gives 400 and leaves the repository untouched; otherwise the service's create decides the response and new state |
| Controller.TodoController.Get | internal/todos/todo.controller.go:44-56 | the response is Respond of the get outcome on the current state |
| Controller.TodoController.Update | internal/todos/todo.controller.go:58-75 | a bad id, then a body that does not bind, each give 400 without calling the service; otherwise the service's update decides the response and new state |
| Controller.TodoController.Delete | internal/todos/todo.controller.go:77-88 | a bad id gives 400 without calling the service; otherwise the service's delete decides the response and new state |
| Scenarios.ListInCreationOrder | internal/todos/todo.service_test.go:74-92 | an empty list, then two creates listed in creation order |
| Scenarios.UpdateFieldByField | internal/todos/todo.service_test.go:130-153 | updating the title keeps description and done; marking done keeps the new title; an unknown id fails |
| Scenarios.DeleteExistingThenMissing | internal/todos/todo.service_test.go:155-171 | deleting the only record empties the repository; deleting an unknown id fails |
| Scenarios.EndToEnd | e2e/e2e_test.go:56-163 | the HTTP walk-through answers 200, 201, 200, 200, 200, 204, 404, 400 |
| Scenarios.ListEmptyThenCreate | e2e/e2e_test.go:61-92 | listing an empty repository gives an empty array; create answers 201 with id 1 and done false |
| Scenarios.ReadThenUpdate | e2e/e2e_test.go:94-136 | list and get show "Buy milk"; the update answers 200 with the new title, done true and the description kept |
| Scenarios.DeleteThenMiss | e2e/e2e_test.go:138-162 | delete answers 204 with no body; the deleted id then gives 404; a body that does not bind gives 400 |

## Left out

- Dependency-injection wiring, application start-up, route registration and schema migration: they only connect the parts.
- The ORM-backed repository itself: its generic library code is not part of this model. Its behaviour is taken from the in-memory repository, plus the `faulty` flag for storage failures.
- Timestamps and soft delete: the model has no clock. A deleted record is removed rather than hidden, so it is invisible to FindAll and FindByID as required.
- JSON binding and validation: whether a request body binds is an input (`None` when it fails). So "missing title gives 400" holds because such a body does not bind. The binding rules themselves are not modelled.
- Error message text: error responses carry an error body without its message. Only the parse error's text "invalid id" is kept.
- Concurrency: every operation is modelled as one sequential step.
- Service.TodoService.Update: a storage failure lasts for the whole service call, because `faulty` does not change during it. The ORM-backed repository can fail on the final re-read (internal/todos/todo.service.go:78) after `UpdatesByID` has written. The service then reports an error, and `update` answers 404, although the record has changed. The model does not capture that case. Its contracts, and those of Controller.TodoController.Update, promise "error implies no change" only under this assumption.
- Repository.TodoRepo.Create: the counter is an unbounded natural, so 64-bit wrap-around of the id counter is not modelled.
- Controller.ParseID: the result is not truncated to a 32-bit `uint`; the model assumes a 64-bit platform.
- Repository.TodoRepo.FindAll: the query options of `FindAll` are not modelled, because the service never passes any.
