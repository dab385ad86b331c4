/** Runs of the todos page: a sequence of events (the two activation effects
    completing, typing, and button clicks together with the server's answers)
    folded through the step functions, and what holds of every such run. */
module TodosTrace {
  import opened TodoList
  import opened Effects
  import opened TodosPage

  datatype Event =
    | TodosLoaded(resp: Response)
    | AuthChecked(resp: Response)
    | TitleTyped(value: string)
    | DescriptionTyped(value: string)
    | AddClicked(resp: Response)
    | DeleteClicked(id: string, resp: Response)
    | EditClicked(id: string, currentTitle: string)
    | SaveClicked(id: string, resp: Response)
    | LogoutClicked(resp: Response)

  function Apply(s: PageState, e: Event): Step {
    match e
    case TodosLoaded(resp) => FetchTodosStep(s, resp)
    case AuthChecked(resp) => VerifyAuthStep(s, resp)
    case TitleTyped(value) => TitleTypedStep(s, value)
    case DescriptionTyped(value) => DescriptionTypedStep(s, value)
    case AddClicked(resp) => AddTodoStep(s, resp)
    case DeleteClicked(id, resp) => DeleteStep(s, id, resp)
    case EditClicked(id, currentTitle) => EditClickStep(s, id, currentTitle)
    case SaveClicked(id, resp) => SaveStep(s, id, resp)
    case LogoutClicked(resp) => LogoutStep(s, resp)
  }

  /** Whether the rendered page offers the control that raises `e`: the logout
      button exactly when logged in; the per-todo buttons exactly once loading is
      over, on every listed todo; Save in place of Edit on the todo being edited,
      and Edit carrying that todo's title. */
  function Enabled(s: PageState, e: Event): (r: bool)
    ensures e.LogoutClicked? ==> (r <==> s.isLoggedIn)
    ensures (e.DeleteClicked? || e.EditClicked? || e.SaveClicked?) && r ==> !s.loading && e.id in Ids(s.todos)
    ensures e.EditClicked? && r ==>
              s.editingId != Some(e.id) && exists t :: t in s.todos && t.id == e.id && t.title == e.currentTitle
    ensures e.SaveClicked? && r ==> s.editingId == Some(e.id)
    ensures e.DeleteClicked? && !s.loading && e.id in Ids(s.todos) ==> r
    ensures && e.EditClicked? && !s.loading && s.editingId != Some(e.id)
            && (exists t :: t in s.todos && t.id == e.id && t.title == e.currentTitle)
            ==> r
    ensures e.SaveClicked? && !s.loading && s.editingId == Some(e.id) && e.id in Ids(s.todos) ==> r
    ensures !(e.LogoutClicked? || e.DeleteClicked? || e.EditClicked? || e.SaveClicked?) ==> r
  {
    match e
    case LogoutClicked(_) => s.isLoggedIn
    case DeleteClicked(id, _) => !s.loading && id in Ids(s.todos)
    case EditClicked(id, currentTitle) =>
      && !s.loading && s.editingId != Some(id)
      && exists t :: t in s.todos && t.id == id && t.title == currentTitle
    case SaveClicked(id, _) => !s.loading && s.editingId == Some(id) && id in Ids(s.todos)
    case _ => true
  }

  /** The final state of a run and all effects it caused, in order. */
  function Run(s: PageState, events: seq<Event>): Step
    decreases |events|
  {
    if events == [] then Step(s, [])
    else
      var first := Apply(s, events[0]);
      var rest := Run(first.state, events[1..]);
      Step(rest.state, first.effects + rest.effects)
  }

  /** Every event of the run was offered by the page when it happened. */
  predicate Feasible(s: PageState, events: seq<Event>)
    decreases |events|
  {
    events == [] || (Enabled(s, events[0]) && Feasible(Apply(s, events[0]).state, events[1..]))
  }

  /** The session check never answered "logged in" during the run. */
  predicate AuthAlwaysFails(events: seq<Event>) {
    forall k :: 0 <= k < |events| && events[k].AuthChecked? ==> !CheckAuth(events[k].resp)
  }

  /** The identifiers a run's server answers hand to the page (created and listed todos). */
  function ServerIds(events: seq<Event>): set<string>
    decreases |events|
  {
    if events == [] then {}
    else
      var here := match events[0]
        case AddClicked(Parsed(_, _, _, todo, _)) => {todo.id}
        case TodosLoaded(Parsed(_, _, _, _, Some(fetched))) => Ids(fetched)
        case _ => {};
      here + ServerIds(events[1..])
  }

  /** While the session check keeps failing, a logged-out page that is not
      editing anything never sends a write request and never starts editing. */
  lemma {:induction false} LoggedOutRunSendsNoWrites(s: PageState, events: seq<Event>)
    requires !s.isLoggedIn && s.editingId == None
    requires Feasible(s, events) && AuthAlwaysFails(events)
    ensures !Run(s, events).state.isLoggedIn && Run(s, events).state.editingId == None
    ensures forall e :: e in Run(s, events).effects ==> !IsWriteRequest(e)
    decreases |events|
  {
    if events != [] {
      var first := Apply(s, events[0]);
      assert events[0].AuthChecked? ==> !CheckAuth(events[0].resp);
      assert !first.state.isLoggedIn && first.state.editingId == None;
      assert forall e :: e in first.effects ==> !IsWriteRequest(e);
      assert AuthAlwaysFails(events[1..]) by {
        forall k | 0 <= k < |events[1..]| && events[1..][k].AuthChecked?
          ensures !CheckAuth(events[1..][k].resp)
        {
          assert events[1..][k] == events[k + 1];
        }
      }
      LoggedOutRunSendsNoWrites(first.state, events[1..]);
    }
  }

  /** From the page's first render: if the session check answers "not logged in"
      (or has not answered yet), no create, update or delete request is ever sent. */
  lemma NoWritesWithoutSession(events: seq<Event>)
    requires Feasible(InitialState(), events) && AuthAlwaysFails(events)
    ensures forall e :: e in Run(InitialState(), events).effects ==> !IsWriteRequest(e)
  {
    LoggedOutRunSendsNoWrites(InitialState(), events);
  }

  /** From the first render, with its empty list, every listed id came from a server answer. */
  lemma ListedIdsComeFromServer(events: seq<Event>)
    ensures Ids(Run(InitialState(), events).state.todos) <= ServerIds(events)
  {
    IdsComeFromServer(InitialState(), events);
  }

  /** The page never makes up an identifier: every listed id was already listed
      or came from a server answer during the run. */
  lemma {:induction false} IdsComeFromServer(s: PageState, events: seq<Event>)
    ensures Ids(Run(s, events).state.todos) <= Ids(s.todos) + ServerIds(events)
    decreases |events|
  {
    if events != [] {
      var first := Apply(s, events[0]);
      assert Ids(first.state.todos) <= Ids(s.todos) + ServerIds(events) by {
        match events[0]
        case DeleteClicked(id, resp) =>
          RemoveIdIds(s.todos, id);
        case SaveClicked(id, resp) =>
          RetitleIdIds(s.todos, id, s.title);
        case _ =>
      }
      IdsComeFromServer(first.state, events[1..]);
    }
  }
}
