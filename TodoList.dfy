/**
 * The task records of the home page and the three pure list updaters its
 * handlers pass to `setTodos`: prepend (create), map with a record update
 * (toggle and its rollback) and filter (delete).
 */
module TodoList {
  import opened Wrappers

  /**
   * One task as the server returns it. The timestamps are assigned by the
   * server and never interpreted by the client.
   */
  datatype Todo = Todo(
    id: int,
    title: string,
    description: Option<string>,
    completed: bool,
    createdAt: string,
    updatedAt: string)

  /** Some record in `todos` carries identifier `id`. */
  predicate HasId(todos: seq<Todo>, id: int) {
    exists i :: 0 <= i < |todos| && todos[i].id == id
  }

  /** Every record with identifier `id` has completion flag `c`. */
  predicate FlagIs(todos: seq<Todo>, id: int, c: bool) {
    forall i :: 0 <= i < |todos| && todos[i].id == id ==> todos[i].completed == c
  }

  /** No two records share an identifier, as the server assigns them. */
  predicate UniqueIds(todos: seq<Todo>) {
    forall i, j :: 0 <= i < j < |todos| ==> todos[i].id != todos[j].id
  }

  /** `[created, ...prev]`: the record the server created goes in front. */
  function Prepend(created: Todo, todos: seq<Todo>): (r: seq<Todo>)
    ensures |r| == |todos| + 1
    ensures r[0] == created
    ensures forall i :: 0 <= i < |todos| ==> r[i + 1] == todos[i]
    ensures multiset(r) == multiset(todos) + multiset{created}
  {
    [created] + todos
  }

  /**
   * `prev.map(todo => todo.id === id ? { ...todo, completed: value } : todo)`:
   * every record with identifier `id` gets completion flag `value`, every
   * other field and every other record stays as it was.
   */
  function SetCompleted(todos: seq<Todo>, id: int, value: bool): (r: seq<Todo>)
    ensures |r| == |todos|
    ensures forall i :: 0 <= i < |todos| && todos[i].id == id ==>
      r[i] == todos[i].(completed := value)
    ensures forall i :: 0 <= i < |todos| && todos[i].id != id ==> r[i] == todos[i]
  {
    if todos == [] then []
    else
      var head := if todos[0].id == id then todos[0].(completed := value) else todos[0];
      [head] + SetCompleted(todos[1..], id, value)
  }

  /**
   * `prev.filter(t => t.id !== id)`: the records whose identifier differs
   * from `id`, and no others.
   */
  function RemoveId(todos: seq<Todo>, id: int): (r: seq<Todo>)
    ensures |r| <= |todos|
    ensures !HasId(r, id)
    ensures forall t :: t in r <==> t in todos && t.id != id
  {
    if todos == [] then []
    else if todos[0].id == id then RemoveId(todos[1..], id)
    else [todos[0]] + RemoveId(todos[1..], id)
  }

  /** `a` is `b` with some records left out and the rest in their order. */
  ghost predicate IsSubsequence(a: seq<Todo>, b: seq<Todo>)
    decreases |b|
  {
    if a == [] then true
    else if b == [] then false
    else if a[0] == b[0] then IsSubsequence(a[1..], b[1..])
    else IsSubsequence(a, b[1..])
  }

  /** Number of records in `todos` with identifier `id`. */
  function CountId(todos: seq<Todo>, id: int): (n: nat)
    ensures n <= |todos|
    ensures n == 0 <==> !HasId(todos, id)
  {
    if todos == [] then 0
    else (if todos[0].id == id then 1 else 0) + CountId(todos[1..], id)
  }

  // ---------------------------------------------------------------- toggle

  /**
   * When the flag captured by the event handler is the one the matching
   * records actually carry, the optimistic flip followed by the rollback
   * gives back the original list exactly; when it is not, it does not.
   */
  lemma RollbackRestores(todos: seq<Todo>, id: int, c: bool)
    ensures SetCompleted(SetCompleted(todos, id, !c), id, c) == todos <==> FlagIs(todos, id, c)
  {
  }

  /**
   * The last flag written to a record wins: rolling back after the optimistic
   * step is the same as writing the captured flag once.
   */
  lemma SetCompletedLastWins(todos: seq<Todo>, id: int, a: bool, b: bool)
    ensures SetCompleted(SetCompleted(todos, id, a), id, b) == SetCompleted(todos, id, b)
  {
  }

  /** After either toggle step every record with identifier `id` carries the written flag. */
  lemma SetCompletedWrites(todos: seq<Todo>, id: int, value: bool)
    ensures FlagIs(SetCompleted(todos, id, value), id, value)
    ensures forall i :: 0 <= i < |todos| ==> SetCompleted(todos, id, value)[i].id == todos[i].id
  {
  }

  /**
   * With unique identifiers, the flag a row's checkbox hands to the toggle
   * handler is the flag every record with that identifier carries.
   */
  lemma FlagOfUniqueRecord(todos: seq<Todo>, i: int)
    requires UniqueIds(todos) && 0 <= i < |todos|
    ensures FlagIs(todos, todos[i].id, todos[i].completed)
  {
  }

  /** Neither toggle step changes an identifier, so unique identifiers stay unique. */
  lemma SetCompletedKeepsUniqueIds(todos: seq<Todo>, id: int, value: bool)
    requires UniqueIds(todos)
    ensures UniqueIds(SetCompleted(todos, id, value))
  {
  }

  /** Toggling touches an identifier only where it occurs: with no matching record nothing changes. */
  lemma SetCompletedAbsent(todos: seq<Todo>, id: int, value: bool)
    requires !HasId(todos, id)
    ensures SetCompleted(todos, id, value) == todos
  {
  }

  /**
   * A rollback that settles after the same record was deleted finds nothing
   * to restore: the deletion stands.
   */
  lemma RollbackAfterDelete(todos: seq<Todo>, id: int, value: bool)
    ensures SetCompleted(RemoveId(todos, id), id, value) == RemoveId(todos, id)
  {
  }

  /** Deleting a record after toggling it leaves what deleting it alone leaves. */
  lemma {:induction false} DeleteAfterToggle(todos: seq<Todo>, id: int, value: bool)
    ensures RemoveId(SetCompleted(todos, id, value), id) == RemoveId(todos, id)
  {
    if todos != [] {
      DeleteAfterToggle(todos[1..], id, value);
      assert SetCompleted(todos, id, value)[1..] == SetCompleted(todos[1..], id, value);
    }
  }

  // ---------------------------------------------------------------- delete

  /** The filter keeps the surviving records in their relative order. */
  lemma {:induction false} RemoveIdIsSubsequence(todos: seq<Todo>, id: int)
    ensures IsSubsequence(RemoveId(todos, id), todos)
  {
    if todos != [] {
      RemoveIdIsSubsequence(todos[1..], id);
      var rest := RemoveId(todos[1..], id);
      if todos[0].id != id {
        assert RemoveId(todos, id) == [todos[0]] + rest;
        assert ([todos[0]] + rest)[1..] == rest;
      } else {
        // the first surviving record cannot be the removed head
        assert rest != [] ==> rest[0] in rest && rest[0] != todos[0];
      }
    }
  }

  /** The filter distributes over concatenation, so no record changes place relative to another. */
  lemma {:induction false} RemoveIdAppend(a: seq<Todo>, b: seq<Todo>, id: int)
    ensures RemoveId(a + b, id) == RemoveId(a, id) + RemoveId(b, id)
  {
    if a != [] {
      assert (a + b)[1..] == a[1..] + b;
      RemoveIdAppend(a[1..], b, id);
    } else {
      assert a + b == b;
    }
  }

  /** The filter removes exactly the matching records. */
  lemma {:induction false} RemoveIdCount(todos: seq<Todo>, id: int)
    ensures |RemoveId(todos, id)| == |todos| - CountId(todos, id)
  {
    if todos != [] {
      RemoveIdCount(todos[1..], id);
    }
  }

  /** Deleting an identifier that is not on the page leaves the page as it is. */
  lemma {:induction false} RemoveIdAbsent(todos: seq<Todo>, id: int)
    requires !HasId(todos, id)
    ensures RemoveId(todos, id) == todos
  {
    if todos != [] {
      assert todos[0].id != id;
      RemoveIdAbsent(todos[1..], id);
    }
  }

  /** Deleting twice is deleting once. */
  lemma RemoveIdIdempotent(todos: seq<Todo>, id: int)
    ensures RemoveId(RemoveId(todos, id), id) == RemoveId(todos, id)
  {
  }

  // ---------------------------------------------------------------- create

  /** A created record survives the deletion of an identifier other than its own, and stays in front. */
  lemma RemoveOtherAfterCreate(created: Todo, todos: seq<Todo>, id: int)
    requires created.id != id
    ensures RemoveId(Prepend(created, todos), id) == Prepend(created, RemoveId(todos, id))
  {
  }
}
