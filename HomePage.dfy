/**
 * The authenticated home page: the session check, the task list and its four
 * handlers (load, create, toggle, delete) and logout. Every remote call is
 * replaced by its outcome, handed to the method that continues after it.
 */
module HomePage {
  import opened Wrappers
  import opened JsString
  import opened TodoList

  /** The signed-in user the page shows; the page fills it in itself. */
  datatype User = User(id: string, email: string, name: Option<string>, createdAt: string)

  /** What the page posts to create a task. */
  datatype CreateRequest = CreateRequest(title: string, description: Option<string>)

  const SIGN_IN_ROUTE := "/signin"
  const LOAD_FAILED := "Failed to load todos"
  const CREATE_FAILED := "Failed to create todo"
  const UPDATE_FAILED := "Failed to update todo"
  const DELETE_FAILED := "Failed to delete todo"

  /** The placeholder user set once the session probe succeeds; `now` is the clock reading. */
  function SessionUser(now: string): User {
    User("me", "authenticated", Some("User"), now)
  }

  /**
   * `{ title, description: description || undefined }`: the title goes as
   * typed (untrimmed), an empty description is left out.
   */
  function NewTodoRequest(title: string, description: string): (req: CreateRequest)
    ensures req.title == title
    ensures req.description.None? <==> !Truthy(description)
    ensures req.description.Some? ==> req.description.value == description
  {
    CreateRequest(title, if Truthy(description) then Some(description) else None)
  }

  /**
   * The state the page component holds. `token` is the stored access token
   * and `navigations` the routes pushed to the router, oldest first.
   */
  class TaskView {
    var user: Option<User>
    var todos: seq<Todo>
    var loading: bool
    var error: Option<string>
    var title: string
    var description: string
    var submitting: bool
    var token: Option<string>
    var navigations: seq<string>

    /** A freshly mounted page, with whatever token storage already holds. */
    constructor (storedToken: Option<string>)
      ensures user == None && todos == [] && loading && error == None
      ensures title == "" && description == "" && !submitting
      ensures token == storedToken && navigations == []
    {
      user, todos, loading, error := None, [], true, None;
      title, description, submitting := "", "", false;
      token, navigations := storedToken, [];
    }

    /**
     * The session check, run once on mount. `probeOk` is whether the probe
     * request succeeded and `now` the clock reading. On success the user is
     * set and a load is started (the result says so; the load settles later
     * through FetchTodos, after `loading` is already false). On failure the
     * page goes to sign-in and no load is started.
     */
    method CheckAuth(probeOk: bool, now: string) returns (loadStarted: bool)
      modifies this
      ensures loadStarted == probeOk
      ensures probeOk ==> user == Some(SessionUser(now)) && navigations == old(navigations)
      ensures !probeOk ==> user == old(user) && navigations == old(navigations) + [SIGN_IN_ROUTE]
      ensures !loading
      ensures todos == old(todos) && error == old(error) && token == old(token)
      ensures title == old(title) && description == old(description) && submitting == old(submitting)
    {
      if probeOk {
        user := Some(SessionUser(now));
        loadStarted := true;
      } else {
        navigations := navigations + [SIGN_IN_ROUTE];
        loadStarted := false;
      }
      loading := false;
    }

    /**
     * A full load settles: the server's list replaces the page's verbatim,
     * in server order; a failure keeps the list and reports it. A success
     * does not clear an earlier error.
     */
    method FetchTodos(response: Remote<seq<Todo>>)
      modifies this`todos, this`error
      ensures response.Ok? ==> todos == response.value && error == old(error)
      ensures response.Failed? ==> todos == old(todos) && error == Some(LOAD_FAILED)
    {
      match response {
        case Ok(list) => todos := list;
        case Failed => error := Some(LOAD_FAILED);
      }
    }

    /** Typing into the title field. */
    method EditTitle(text: string)
      modifies this`title
      ensures title == text
    {
      title := text;
    }

    /** Typing into the description field. */
    method EditDescription(text: string)
      modifies this`description
      ensures description == text
    {
      description := text;
    }

    /**
     * Submitting the form, up to the request. A title that trims to nothing
     * stops here with no request and no change at all. Otherwise the page is
     * marked as submitting, the error is cleared and the request is built
     * from the fields as they are.
     */
    method BeginSubmit() returns (request: Option<CreateRequest>)
      modifies this`submitting, this`error
      ensures request.None? <==> IsBlank(title)
      ensures request.None? ==> submitting == old(submitting) && error == old(error)
      ensures request.Some? ==>
        request.value == NewTodoRequest(title, description) && submitting && error == None
    {
      TrimFalsyIffBlank(title);
      if !Truthy(Trim(title)) {
        return None;
      }
      submitting := true;
      error := None;
      request := Some(NewTodoRequest(title, description));
    }

    /**
     * The create request settles: on success the created record goes in
     * front and both fields are emptied; on failure the list and the fields
     * stay and the error is set. Either way submission ends.
     */
    method FinishSubmit(response: Remote<Todo>)
      modifies this`todos, this`title, this`description, this`error, this`submitting
      ensures !submitting
      ensures response.Ok? ==>
        todos == Prepend(response.value, old(todos)) && title == "" && description == ""
        && error == old(error)
      ensures response.Failed? ==>
        todos == old(todos) && title == old(title) && description == old(description)
        && error == Some(CREATE_FAILED)
    {
      match response {
        case Ok(created) =>
          todos := Prepend(created, todos);
          title, description := "", "";
        case Failed =>
          error := Some(CREATE_FAILED);
      }
      submitting := false;
    }

    /**
     * The whole submit handler when nothing else happens while the request is
     * in flight: a blank title changes nothing; otherwise the error is
     * cleared, then the create succeeds (one record more, in front, fields
     * emptied) or fails (list unchanged, error set), and submission ends.
     */
    method HandleSubmit(response: Remote<Todo>) returns (request: Option<CreateRequest>)
      modifies this`todos, this`title, this`description, this`error, this`submitting
      ensures request.None? <==> IsBlank(old(title))
      ensures request.None? ==>
        todos == old(todos) && error == old(error) && submitting == old(submitting)
        && title == old(title) && description == old(description)
      ensures request.Some? ==> request.value == NewTodoRequest(old(title), old(description))
      ensures request.Some? && response.Ok? ==>
        todos == Prepend(response.value, old(todos)) && |todos| == |old(todos)| + 1
        && todos[1..] == old(todos) && title == "" && description == ""
        && error == None && !submitting
      ensures request.Some? && response.Failed? ==>
        todos == old(todos) && title == old(title) && description == old(description)
        && error == Some(CREATE_FAILED) && !submitting
    {
      request := BeginSubmit();
      if request.Some? {
        FinishSubmit(response);
      }
    }

    /**
     * The optimistic half of a toggle: before any request, every record with
     * identifier `id` gets the negation of the flag `completed` handed in by
     * the checkbox. The result is the flag sent to the server.
     */
    method BeginToggle(id: int, completed: bool) returns (sent: bool)
      modifies this`todos
      ensures sent == !completed
      ensures todos == SetCompleted(old(todos), id, !completed)
    {
      todos := SetCompleted(todos, id, !completed);
      sent := !completed;
    }

    /**
     * The update request settles. A confirmation leaves the optimistic list
     * standing; a failure writes the captured flag `completed` back onto the
     * matching records (it does not negate again) and sets the error.
     */
    method SettleToggle(id: int, completed: bool, confirmed: bool)
      modifies this`todos, this`error
      ensures confirmed ==> todos == old(todos) && error == old(error)
      ensures !confirmed ==>
        todos == SetCompleted(old(todos), id, completed) && error == Some(UPDATE_FAILED)
    {
      if !confirmed {
        todos := SetCompleted(todos, id, completed);
        error := Some(UPDATE_FAILED);
      }
    }

    /**
     * The whole toggle handler with nothing in between its two steps. On
     * confirmation the flipped list stands; on failure the matching records
     * end with the captured flag, which is the original list exactly when
     * the captured flag was theirs.
     */
    method ToggleComplete(id: int, completed: bool, confirmed: bool) returns (sent: bool)
      modifies this`todos, this`error
      ensures sent == !completed
      ensures confirmed ==> todos == SetCompleted(old(todos), id, !completed) && error == old(error)
      ensures !confirmed ==>
        todos == SetCompleted(old(todos), id, completed) && error == Some(UPDATE_FAILED)
      ensures !confirmed ==> (todos == old(todos) <==> FlagIs(old(todos), id, completed))
    {
      sent := BeginToggle(id, completed);
      SettleToggle(id, completed, confirmed);
      SetCompletedLastWins(old(todos), id, !completed, completed);
      RollbackRestores(old(todos), id, completed);
    }

    /**
     * Clicking the checkbox of row `i`: the handler gets that row's
     * identifier and its flag as rendered. With unique identifiers a failed
     * update gives back the page's list exactly.
     */
    method ClickCheckbox(i: nat, confirmed: bool)
      requires i < |todos|
      modifies this`todos, this`error
      ensures confirmed ==> todos == SetCompleted(old(todos), old(todos)[i].id, !old(todos)[i].completed)
      ensures confirmed ==> todos[i].completed == !old(todos)[i].completed
      ensures confirmed ==> error == old(error)
      ensures !confirmed ==>
        todos == SetCompleted(old(todos), old(todos)[i].id, old(todos)[i].completed)
        && error == Some(UPDATE_FAILED)
      ensures !confirmed && UniqueIds(old(todos)) ==> todos == old(todos)
    {
      var row := todos[i];
      if UniqueIds(todos) {
        FlagOfUniqueRecord(todos, i);
      }
      var _ := ToggleComplete(row.id, row.completed, confirmed);
    }

    /**
     * Delete: nothing is removed until the server confirms. Then every record
     * with identifier `id` goes and the rest keep their order; a failure
     * keeps the list and sets the error.
     */
    method DeleteTodo(id: int, confirmed: bool)
      modifies this`todos, this`error
      ensures confirmed ==>
        todos == RemoveId(old(todos), id) && !HasId(todos, id) && error == old(error)
      ensures !confirmed ==> todos == old(todos) && error == Some(DELETE_FAILED)
    {
      if confirmed {
        todos := RemoveId(todos, id);
      } else {
        error := Some(DELETE_FAILED);
      }
    }

    /** Logout: the stored token is removed and the page goes to sign-in; nothing else changes. */
    method Logout()
      modifies this`token, this`navigations
      ensures token == None
      ensures navigations == old(navigations) + [SIGN_IN_ROUTE]
    {
      token := None;
      navigations := navigations + [SIGN_IN_ROUTE];
    }
  }

  // ------------------------------------------------------------ scenarios

  /** A single unfinished task is toggled; the server refuses the update. */
  method ToggleFailureScenario(now: string) {
    var view := new TaskView(Some("token"));
    var started := view.CheckAuth(true, now);
    assert started;
    var task := Todo(1, "Write report", None, false, "t0", "t0");
    view.FetchTodos(Ok([task]));
    var sent := view.BeginToggle(1, false);
    assert sent && view.todos[0].completed;
    view.SettleToggle(1, false, false);
    assert view.todos == [task] && view.error == Some(UPDATE_FAILED);
  }

  /** "Buy milk" is added to an empty page and the server creates task 7. */
  method CreateScenario(now: string) {
    var view := new TaskView(Some("token"));
    var _ := view.CheckAuth(true, now);
    view.FetchTodos(Ok([]));
    view.EditTitle("Buy milk");
    assert !IsBlank(view.title) by { assert !IsWhitespace(view.title[0]); }
    var created := Todo(7, "Buy milk", None, false, "t1", "t1");
    var request := view.HandleSubmit(Ok(created));
    assert request == Some(CreateRequest("Buy milk", None));
    assert view.todos == [created] && view.title == "" && view.description == "";
  }

  /** The probe is rejected: the page goes to sign-in and loads nothing. */
  method RejectedProbeScenario(now: string) {
    var view := new TaskView(None);
    var started := view.CheckAuth(false, now);
    assert !started && view.user == None && view.todos == [];
    assert view.navigations == [SIGN_IN_ROUTE] && !view.loading;
  }
}
