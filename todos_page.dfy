/** The todos page: six pieces of component state and the handlers that update them.
    Each handler is specified by a step function from the state before it and the
    server's response to the state after it and the effects it causes; the class
    `Page` holds the state in fields and its methods are proved to follow the steps. */
module TodosPage {
  import opened Text
  import opened TodoList
  import opened Effects

  datatype PageState = PageState(
    todos: seq<Todo>,
    title: string,            // shared input buffer: new todo title, or the title being edited
    description: string,      // input buffer for a new todo's description
    editingId: Option<string>,
    isLoggedIn: bool,
    loading: bool)

  /** The state after a handler and the effects it caused, in order. */
  datatype Step = Step(state: PageState, effects: seq<Effect>)

  const TodoPath := "/api/v1/todo"
  const CheckAuthPath := "/api/auth/check-auth"
  const LogoutPath := "/api/auth/logout"
  const GateDelayMs := 1600
  const FieldsRequired := "All fields are required."
  const LogoutFailed := FailureMark + "Logout failed. Please try again."

  function ItemPath(id: string): string {
    TodoPath + "/" + id
  }

  /** The state a page starts in, before either activation effect completes. */
  function InitialState(): PageState {
    PageState([], "", "", None, false, true)
  }

  /** The action gate's answer to a logged-out user: an error toast, then
      navigation to the login page scheduled after a short delay. */
  function GateEffects(action: string): (r: seq<Effect>)
    ensures |r| == 2 && r[0].Toast? && r[0].kind == Error && r[1] == Navigate(LoginRoute, After(1600))
    ensures r[0].text == "Please login to " + action + " Todo."
    ensures forall e :: e in r ==> !e.Request?
  {
    [Toast(Error, "Please login to " + action + " Todo."), Navigate(LoginRoute, After(GateDelayMs))]
  }

  /** `checkAuth`: the session counts as authenticated only when the transport
      succeeded and the body says so; an exception counts as logged out. */
  function CheckAuth(resp: Response): (r: bool)
    ensures resp.Threw? ==> !r
    ensures resp.Parsed? ==> (r <==> resp.ok && resp.success)
  {
    match resp
    case Threw => false
    case Parsed(ok, _, success, _, _) => ok && success
  }

  /** The `fetchTodos` activation effect. */
  function FetchTodosStep(s: PageState, resp: Response): (r: Step)
    ensures r.effects == [Request(Get, TodoPath, NoBody)]
    ensures r.state.loading <==> s.loading && resp.Threw?
    ensures resp.Parsed? && resp.todos.Some? ==> r.state.todos == resp.todos.value
    ensures !(resp.Parsed? && resp.todos.Some?) ==> r.state.todos == s.todos
    ensures r.state.(todos := s.todos, loading := s.loading) == s
  {
    var request := Request(Get, TodoPath, NoBody);
    match resp
    case Threw => Step(s, [request])
    case Parsed(_, _, _, _, fetched) =>
      var s' := s.(loading := false);
      if fetched.Some? then Step(s'.(todos := fetched.value), [request]) else Step(s', [request])
  }

  /** The `verifyAuth` activation effect: `isLoggedIn` is set from `checkAuth`. */
  function VerifyAuthStep(s: PageState, resp: Response): (r: Step)
    ensures r.effects == [Request(Get, CheckAuthPath, NoBody)]
    ensures r.state.isLoggedIn ==> resp.Parsed? && resp.ok && resp.success
    ensures resp.Parsed? && resp.ok && resp.success ==> r.state.isLoggedIn
    ensures r.state.(isLoggedIn := s.isLoggedIn) == s
  {
    Step(s.(isLoggedIn := CheckAuth(resp)), [Request(Get, CheckAuthPath, NoBody)])
  }

  /** Typing into the title input (both the new-todo input and the edit input). */
  function TitleTypedStep(s: PageState, value: string): (r: Step)
    ensures r.effects == [] && r.state.title == value
    ensures r.state.(title := s.title) == s
  {
    Step(s.(title := value), [])
  }

  /** Typing into the description input. */
  function DescriptionTypedStep(s: PageState, value: string): (r: Step)
    ensures r.effects == [] && r.state.description == value
    ensures r.state.(description := s.description) == s
  {
    Step(s.(description := value), [])
  }

  /** `handleAddTodo`: session gate, then the blank check, then the create request.
      The response is not checked for `res.ok`: any parsed body is appended. */
  function AddTodoStep(s: PageState, resp: Response): (r: Step)
    ensures !s.isLoggedIn ==> r == Step(s, GateEffects("add"))
    ensures s.isLoggedIn && (IsBlank(s.title) || IsBlank(s.description)) ==>
              r == Step(s, [Toast(Error, FieldsRequired)])
    ensures s.isLoggedIn && !IsBlank(s.title) && !IsBlank(s.description) ==>
              && |r.effects| >= 1
              && r.effects[0] == Request(Post, TodoPath, TodoFields(s.title, s.description))
              && (resp.Threw? ==> r.state == s && |r.effects| == 1)
              && (resp.Parsed? ==>
                    && r.effects[1..] == [Toast(Success, resp.message)]
                    && |r.state.todos| == |s.todos| + 1
                    && r.state.todos[..|s.todos|] == s.todos
                    && r.state.todos[|s.todos|] == resp.todo
                    && r.state.title == "" && r.state.description == ""
                    && r.state.(todos := s.todos, title := s.title, description := s.description) == s)
  {
    TrimEmptyIffBlank(s.title);
    TrimEmptyIffBlank(s.description);
    if !s.isLoggedIn then Step(s, GateEffects("add"))
    else if Trim(s.title) == [] || Trim(s.description) == [] then Step(s, [Toast(Error, FieldsRequired)])
    else
      var request := Request(Post, TodoPath, TodoFields(s.title, s.description));
      match resp
      case Threw => Step(s, [request])
      case Parsed(_, message, _, todo, _) =>
        Step(s.(todos := Appended(s.todos, todo), title := "", description := ""),
             [request, Toast(Success, message)])
  }

  /** `handleDelete`: session gate, then the delete request. Any parsed body is
      toasted as a success; the record is removed only when `res.ok`. */
  function DeleteStep(s: PageState, id: string, resp: Response): (r: Step)
    ensures !s.isLoggedIn ==> r == Step(s, GateEffects("delete"))
    ensures s.isLoggedIn ==>
              && |r.effects| >= 1
              && r.effects[0] == Request(Delete, ItemPath(id), NoBody)
              && (resp.Threw? ==> r.state == s && |r.effects| == 1)
              && (resp.Parsed? ==> r.effects[1..] == [Toast(Success, resp.message)])
              && (resp.Parsed? && resp.ok ==> r.state.todos == RemoveId(s.todos, id))
              && (resp.Parsed? && !resp.ok ==> r.state.todos == s.todos)
    ensures forall t :: t in r.state.todos <==>
              t in s.todos && (t.id != id || !s.isLoggedIn || !(resp.Parsed? && resp.ok))
    ensures r.state.(todos := s.todos) == s
  {
    if !s.isLoggedIn then Step(s, GateEffects("delete"))
    else
      var request := Request(Delete, ItemPath(id), NoBody);
      match resp
      case Threw => Step(s, [request])
      case Parsed(ok, message, _, _, _) =>
        var todos := if ok then RemoveId(s.todos, id) else s.todos;
        Step(s.(todos := todos), [request, Toast(Success, message)])
  }

  /** `handleEditClick`: session gate, then enter edit mode on `id` with its
      current title in the buffer; a previous edit target is simply replaced. */
  function EditClickStep(s: PageState, id: string, currentTitle: string): (r: Step)
    ensures !s.isLoggedIn ==> r == Step(s, GateEffects("edit"))
    ensures s.isLoggedIn ==> r.effects == [] && r.state.editingId == Some(id) && r.state.title == currentTitle
    ensures r.state.todos == s.todos && r.state.description == s.description
    ensures r.state.isLoggedIn == s.isLoggedIn && r.state.loading == s.loading
  {
    if !s.isLoggedIn then Step(s, GateEffects("edit"))
    else Step(s.(editingId := Some(id), title := currentTitle), [])
  }

  /** `handleSave`: no session gate. Any parsed body is toasted as a success;
      when `res.ok` the matching records take the buffered title and edit mode ends. */
  function SaveStep(s: PageState, id: string, resp: Response): (r: Step)
    ensures |r.effects| >= 1 && r.effects[0] == Request(Put, ItemPath(id), TitleField(s.title))
    ensures resp.Threw? ==> r.state == s && |r.effects| == 1
    ensures resp.Parsed? ==> r.effects[1..] == [Toast(Success, resp.message)]
    ensures resp.Parsed? && !resp.ok ==> r.state == s
    ensures resp.Parsed? && resp.ok ==>
              && |r.state.todos| == |s.todos|
              && (forall i :: 0 <= i < |s.todos| ==>
                    r.state.todos[i].id == s.todos[i].id && r.state.todos[i].description == s.todos[i].description)
              && (forall i :: 0 <= i < |s.todos| && s.todos[i].id == id ==> r.state.todos[i].title == s.title)
              && (forall i :: 0 <= i < |s.todos| && s.todos[i].id != id ==> r.state.todos[i] == s.todos[i])
              && r.state.editingId == None && r.state.title == ""
              && r.state.(todos := s.todos, editingId := s.editingId, title := s.title) == s
  {
    var request := Request(Put, ItemPath(id), TitleField(s.title));
    match resp
    case Threw => Step(s, [request])
    case Parsed(ok, message, _, _, _) =>
      var effects := [request, Toast(Success, message)];
      if ok then Step(s.(todos := RetitleId(s.todos, id, s.title), editingId := None, title := ""), effects)
      else Step(s, effects)
  }

  /** `handleLogout`: never changes the page state; navigates at once only on `res.ok`. */
  function LogoutStep(s: PageState, resp: Response): (r: Step)
    ensures r.state == s
    ensures |r.effects| >= 2 && r.effects[0] == Request(Get, LogoutPath, NoBody)
    ensures resp.Threw? ==> r.effects[1..] == [Toast(Error, LogoutFailed)]
    ensures resp.Parsed? && resp.ok ==>
              r.effects[1..] == [Toast(Success, SuccessMark + resp.message), Navigate(LoginRoute, Immediate)]
    ensures resp.Parsed? && !resp.ok ==> r.effects[1..] == [Toast(Error, WarningMark + resp.message)]
  {
    var request := Request(Get, LogoutPath, NoBody);
    match resp
    case Threw => Step(s, [request, Toast(Error, LogoutFailed)])
    case Parsed(ok, message, _, _, _) =>
      if ok then Step(s, [request, Toast(Success, SuccessMark + message), Navigate(LoginRoute, Immediate)])
      else Step(s, [request, Toast(Error, WarningMark + message)])
  }

  /** Loading the list twice from the same server answer gives the same list as loading it once. */
  lemma FetchTodosIdempotent(s: PageState, resp: Response)
    ensures FetchTodosStep(FetchTodosStep(s, resp).state, resp).state == FetchTodosStep(s, resp).state
  {
  }

  /** The component: its state lives in fields that each handler updates through
      its setters, and every effect a handler causes is appended to `effects`. */
  class Page {
    var todos: seq<Todo>
    var title: string
    var description: string
    var editingId: Option<string>
    var isLoggedIn: bool
    var loading: bool
    var effects: seq<Effect>

    function State(): PageState
      reads this
    {
      PageState(todos, title, description, editingId, isLoggedIn, loading)
    }

    constructor ()
      ensures State() == InitialState() && effects == []
    {
      todos, title, description := [], "", "";
      editingId, isLoggedIn, loading := None, false, true;
      effects := [];
    }

    method FetchTodos(resp: Response)
      modifies this
      ensures State() == FetchTodosStep(old(State()), resp).state
      ensures effects == old(effects) + FetchTodosStep(old(State()), resp).effects
    {
      effects := effects + [Request(Get, TodoPath, NoBody)];
      if resp.Parsed? {
        loading := false;
        if resp.todos.Some? {
          todos := resp.todos.value;
        }
      }
    }

    method VerifyAuth(resp: Response)
      modifies this
      ensures State() == VerifyAuthStep(old(State()), resp).state
      ensures effects == old(effects) + VerifyAuthStep(old(State()), resp).effects
    {
      effects := effects + [Request(Get, CheckAuthPath, NoBody)];
      isLoggedIn := CheckAuth(resp);
    }

    method SetTitle(value: string)
      modifies this
      ensures State() == TitleTypedStep(old(State()), value).state && effects == old(effects)
    {
      title := value;
    }

    method SetDescription(value: string)
      modifies this
      ensures State() == DescriptionTypedStep(old(State()), value).state && effects == old(effects)
    {
      description := value;
    }

    method HandleAddTodo(resp: Response)
      modifies this
      ensures State() == AddTodoStep(old(State()), resp).state
      ensures effects == old(effects) + AddTodoStep(old(State()), resp).effects
    {
      if !isLoggedIn {
        effects := effects + GateEffects("add");
        return;
      }
      if Trim(title) == [] || Trim(description) == [] {
        effects := effects + [Toast(Error, FieldsRequired)];
        return;
      }
      PostTodo(resp);
    }

    /** The `try` block of `handleAddTodo`: post the buffers, then append whatever todo the body carries. */
    method PostTodo(resp: Response)
      modifies this
      ensures var request := Request(Post, TodoPath, TodoFields(old(title), old(description)));
        match resp
        case Threw => State() == old(State()) && effects == old(effects) + [request]
        case Parsed(_, message, _, todo, _) =>
          && State() == old(State()).(todos := Appended(old(todos), todo), title := "", description := "")
          && effects == old(effects) + [request, Toast(Success, message)]
    {
      effects := effects + [Request(Post, TodoPath, TodoFields(title, description))];
      if resp.Parsed? {
        effects := effects + [Toast(Success, resp.message)];
        todos := Appended(todos, resp.todo);
        title := "";
        description := "";
      }
    }

    method HandleDelete(id: string, resp: Response)
      modifies this
      ensures State() == DeleteStep(old(State()), id, resp).state
      ensures effects == old(effects) + DeleteStep(old(State()), id, resp).effects
    {
      if !isLoggedIn {
        effects := effects + GateEffects("delete");
        return;
      }
      effects := effects + [Request(Delete, ItemPath(id), NoBody)];
      if resp.Parsed? {
        effects := effects + [Toast(Success, resp.message)];
        if resp.ok {
          todos := RemoveId(todos, id);
        }
      }
    }

    method HandleEditClick(id: string, currentTitle: string)
      modifies this
      ensures State() == EditClickStep(old(State()), id, currentTitle).state
      ensures effects == old(effects) + EditClickStep(old(State()), id, currentTitle).effects
    {
      if !isLoggedIn {
        effects := effects + GateEffects("edit");
        return;
      }
      editingId := Some(id);
      title := currentTitle;
    }

    method HandleSave(id: string, resp: Response)
      modifies this
      ensures State() == SaveStep(old(State()), id, resp).state
      ensures effects == old(effects) + SaveStep(old(State()), id, resp).effects
    {
      effects := effects + [Request(Put, ItemPath(id), TitleField(title))];
      if resp.Parsed? {
        effects := effects + [Toast(Success, resp.message)];
        if resp.ok {
          todos := RetitleId(todos, id, title);
          editingId := None;
          title := "";
        }
      }
    }

    method HandleLogout(resp: Response)
      modifies this
      ensures State() == LogoutStep(old(State()), resp).state
      ensures effects == old(effects) + LogoutStep(old(State()), resp).effects
    {
      effects := effects + [Request(Get, LogoutPath, NoBody)];
      if resp.Threw? {
        effects := effects + [Toast(Error, LogoutFailed)];
      } else if resp.ok {
        effects := effects + [Toast(Success, SuccessMark + resp.message)];
        effects := effects + [Navigate(LoginRoute, Immediate)];
      } else {
        effects := effects + [Toast(Error, WarningMark + resp.message)];
      }
    }
  }
}
