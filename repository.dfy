/// The repository the service runs over, with the semantics of the in-memory
/// repository in internal/todos/todo.service_test.go (`mockTodoRepo`): records
/// kept in insertion order, ids handed out from a counter that starts at 1.
module Repository {
  import opened Wrappers
  import opened Entities

  /** Failures a repository call reports. */
  datatype Error =
    | RecordNotFound  // no stored record carries the requested id
    | StorageFailure  // the backing store could not serve the call

  /**
   * The column set of a partial update: a column is written iff it is present.
   * Stands for the `map[string]interface{}` keyed "title", "description", "done".
   */
  datatype Columns = Columns(title: Option<string>, description: Option<string>, done: Option<bool>)

  const NoColumns: Columns := Columns(None, None, None)

  /**
   * A snapshot of the repository: its records in insertion order, the id the
   * next create assigns, and whether the backing store fails every call.
   */
  datatype Store = Store(todos: seq<Todo>, nextID: nat, faulty: bool)

  /** The state of a newly constructed in-memory repository. */
  const Empty: Store := Store([], 1, false)

  /** Records appear in strictly increasing id order (so ids are unique). */
  ghost predicate IdsIncreasing(s: seq<Todo>) {
    forall i, j :: 0 <= i < j < |s| ==> s[i].id < s[j].id
  }

  /** The invariant every reachable repository state satisfies. */
  ghost predicate WellFormed(st: Store) {
    && 1 <= st.nextID
    && IdsIncreasing(st.todos)
    && forall i :: 0 <= i < |st.todos| ==> 1 <= st.todos[i].id < st.nextID
  }

  /** The position of the first record with id `id`, if any: what the linear searches find. */
  function IndexOf(s: seq<Todo>, id: nat): (r: Option<nat>)
    ensures r.Some? ==> r.value < |s| && s[r.value].id == id
    ensures r.Some? ==> forall j :: 0 <= j < r.value ==> s[j].id != id
    ensures r.None? ==> forall j :: 0 <= j < |s| ==> s[j].id != id
  {
    if s == [] then None
    else if s[0].id == id then Some(0)
    else match IndexOf(s[1..], id)
      case None => None
      case Some(k) => Some(k + 1)
  }

  /** What FindByID answers on a healthy store: the record with that id, or "record not found". */
  function Lookup(s: seq<Todo>, id: nat): (r: Result<Todo, Error>)
    ensures r.Success? ==> r.value in s && r.value.id == id
    ensures r.Failure? ==> r.error == RecordNotFound && forall i :: 0 <= i < |s| ==> s[i].id != id
  {
    match IndexOf(s, id)
    case Some(k) => Success(s[k])
    case None => Failure(RecordNotFound)
  }

  /** Record `t` after the columns present in `c` are written to it. */
  function Apply(t: Todo, c: Columns): (r: Todo)
    ensures r.id == t.id
    ensures r.title == (if c.title.Some? then c.title.value else t.title)
    ensures r.description == (if c.description.Some? then c.description.value else t.description)
    ensures r.done == (if c.done.Some? then c.done.value else t.done)
  {
    var title := if c.title.Some? then c.title.value else t.title;
    var description := if c.description.Some? then c.description.value else t.description;
    var done := if c.done.Some? then c.done.value else t.done;
    Todo(t.id, title, description, done)
  }

  /** `s` with its `k`-th record spliced out; the rest keep their relative order. */
  function Remove(s: seq<Todo>, k: nat): (r: seq<Todo>)
    requires k < |s|
    ensures |r| == |s| - 1
    ensures forall i :: 0 <= i < |r| ==> r[i] == s[if i < k then i else i + 1]
    ensures multiset(r) + multiset{s[k]} == multiset(s)
  {
    assert s == s[..k] + [s[k]] + s[k + 1..];
    s[..k] + s[k + 1..]
  }

  /** The search result depends only on the ids, position by position. */
  lemma IndexOfSameIds(s: seq<Todo>, t: seq<Todo>, id: nat)
    requires |s| == |t|
    requires forall i :: 0 <= i < |s| ==> s[i].id == t[i].id
    ensures IndexOf(s, id) == IndexOf(t, id)
  {
  }

  /** Appending a record leaves earlier matches alone and makes the new record findable. */
  lemma {:induction false} IndexOfAppend(s: seq<Todo>, t: Todo, id: nat)
    ensures IndexOf(s + [t], id) ==
      if IndexOf(s, id).Some? then IndexOf(s, id)
      else if t.id == id then Some(|s|)
      else None
  {
    if s != [] {
      assert (s + [t])[1..] == s[1..] + [t];
      IndexOfAppend(s[1..], t, id);
    }
  }

  /** With increasing ids, every record is the one found for its id. */
  lemma IndexOfUnique(s: seq<Todo>, k: nat)
    requires IdsIncreasing(s) && k < |s|
    ensures IndexOf(s, s[k].id) == Some(k)
  {
  }

  /** Splicing a record out keeps the ids increasing. */
  lemma RemovePreservesIncreasing(s: seq<Todo>, k: nat)
    requires IdsIncreasing(s) && k < |s|
    ensures IdsIncreasing(Remove(s, k))
  {
  }

  /** Once its record is spliced out, an id is no longer found. */
  lemma RemovedIdGone(s: seq<Todo>, k: nat)
    requires IdsIncreasing(s) && k < |s|
    ensures IndexOf(Remove(s, k), s[k].id).None?
  {
  }

  /**
   * The in-memory repository (`mockTodoRepo`): a slice of records and the
   * next id to assign. `faulty` stands for the storage failures the ORM-backed
   * repository can report; the in-memory repository starts healthy and never
   * sets it itself. The ghost `issued` records every id ever assigned.
   */
  class TodoRepo {
    var todos: seq<Todo>
    var nextID: nat
    var faulty: bool
    ghost var issued: set<nat>

    ghost predicate Valid()
      reads this
    {
      && WellFormed(State())
      && (forall x | x in issued :: 1 <= x < nextID)
      && (forall i | 0 <= i < |todos| :: todos[i].id in issued)
    }

    /** The repository's current state as a value. */
    function State(): Store
      reads this
    {
      Store(todos, nextID, faulty)
    }

    /** `newMockTodoRepo`: no records, and the first id to assign is 1. */
    constructor ()
      ensures Valid() && State() == Empty && issued == {}
    {
      todos, nextID, faulty := [], 1, false;
      issued := {};
    }

    /** Every record, in insertion order, as a copy. */
    method FindAll() returns (r: Result<seq<Todo>, Error>)
      ensures r == if faulty then Failure(StorageFailure) else Success(todos)
    {
      if faulty {
        return Failure(StorageFailure);
      }
      return Success(todos);
    }

    /** Linear search for the record with id `id`. */
    method FindByID(id: nat) returns (r: Result<Todo, Error>)
      ensures r == if faulty then Failure(StorageFailure) else Lookup(todos, id)
    {
      if faulty {
        return Failure(StorageFailure);
      }
      var i := 0;
      while i < |todos|
        invariant 0 <= i <= |todos|
        invariant forall j :: 0 <= j < i ==> todos[j].id != id
      {
        if todos[i].id == id {
          return Success(todos[i]);
        }
        i := i + 1;
      }
      return Failure(RecordNotFound);
    }

    /**
     * Stores `entity` under the next id and appends it. Returns the stored
     * record, which carries the assigned id.
     */
    method Create(entity: Todo) returns (r: Result<Todo, Error>)
      requires Valid()
      modifies this`todos, this`nextID, this`issued
      ensures Valid()
      ensures old(faulty) ==> r == Failure(StorageFailure) && unchanged(this)
      ensures !old(faulty) ==>
        && r == Success(entity.(id := old(nextID)))
        && todos == old(todos) + [r.value]
        && nextID == old(nextID) + 1
        && r.value.id !in old(issued)
        && issued == old(issued) + {r.value.id}
    {
      if faulty {
        return Failure(StorageFailure);
      }
      var stored := entity.(id := nextID);
      nextID := nextID + 1;
      todos := todos + [stored];
      issued := issued + {stored.id};
      return Success(stored);
    }

    /** Writes the columns present in `columns` to the record with id `id`. */
    method UpdatesByID(id: nat, columns: Columns) returns (r: Outcome<Error>)
      requires Valid()
      modifies this`todos
      ensures Valid()
      ensures old(faulty) ==> r == Fail(StorageFailure) && todos == old(todos)
      ensures !old(faulty) ==> match IndexOf(old(todos), id)
        case None => r == Fail(RecordNotFound) && todos == old(todos)
        case Some(k) => r == Pass && todos == old(todos)[k := Apply(old(todos)[k], columns)]
    {
      if faulty {
        return Fail(StorageFailure);
      }
      var i := 0;
      while i < |todos|
        invariant 0 <= i <= |todos|
        invariant todos == old(todos)
        invariant forall j :: 0 <= j < i ==> todos[j].id != id
      {
        if todos[i].id == id {
          var t := todos[i];
          if columns.title.Some? {
            t := t.(title := columns.title.value);
          }
          if columns.description.Some? {
            t := t.(description := columns.description.value);
          }
          if columns.done.Some? {
            t := t.(done := columns.done.value);
          }
          todos := todos[i := t];
          return Pass;
        }
        i := i + 1;
      }
      return Fail(RecordNotFound);
    }

    /** Splices the record with id `id` out of the repository. */
    method DeleteByID(id: nat) returns (r: Outcome<Error>)
      requires Valid()
      modifies this`todos
      ensures Valid()
      ensures old(faulty) ==> r == Fail(StorageFailure) && todos == old(todos)
      ensures !old(faulty) ==> match IndexOf(old(todos), id)
        case None => r == Fail(RecordNotFound) && todos == old(todos)
        case Some(k) => r == Pass && todos == Remove(old(todos), k)
    {
      if faulty {
        return Fail(StorageFailure);
      }
      var i := 0;
      while i < |todos|
        invariant 0 <= i <= |todos|
        invariant todos == old(todos)
        invariant forall j :: 0 <= j < i ==> todos[j].id != id
      {
        if todos[i].id == id {
          RemovePreservesIncreasing(todos, i);
          todos := Remove(todos, i);
          return Pass;
        }
        i := i + 1;
      }
      return Fail(RecordNotFound);
    }
  }
}
