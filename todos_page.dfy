/**
 * The todos page (src/app/todos/page.tsx): its state, the handlers that call
 * the todo API and update the cached list, the redirect on an unauthenticated
 * visit, and the priority badges.
 *
 * Each handler is first stated as a function over a `View` of the page
 * state; the class `TodosPage` performs it step by step and is proved to
 * reach that view. A call's reply is an input and passes through the
 * response interceptor before the handler sees it.
 */
module Todos {
  import opened Wrappers
  import opened Browser
  import opened Api
  import opened TodoList

  const CreatedMessage := "Todo created successfully!"
  const UpdatedMessage := "Todo updated successfully!"
  const DeletedMessage := "Todo deleted successfully!"

  /** The page's state variables. */
  datatype View = View(todos: seq<Todo>, loading: bool, error: Option<string>, success: Option<string>,
                       showAddForm: bool, title: string, description: string, priority: int)

  /** The state as first rendered. */
  const Initial := View([], true, None, None, false, "", "", 1)

  /** The `catch` branch every handler shares: show the normalised message, keep everything else. */
  function Failed(v: View, e: Thrown): View
  {
    v.(error := Some(GetErrorMessage(e)))
  }

  /** `fetchTodos` once `todoApi.getAll` has settled to `o`. */
  function Fetched(v: View, o: Outcome<seq<Todo>>): View
  {
    match o
    case Success(list) => v.(todos := list, loading := false)
    case Failure(e) => Failed(v, e).(loading := false)
  }

  /** `handleAddTodo` once `todoApi.create` has settled to `o`. */
  function Added(v: View, o: Outcome<Todo>): View
  {
    match o
    case Success(created) =>
      v.(todos := v.todos + [created], success := Some(CreatedMessage),
         title := "", description := "", priority := 1, showAddForm := false)
    case Failure(e) => Failed(v, e)
  }

  /** `handleToggleComplete(id)` once `todoApi.toggleComplete` has settled to `o`. */
  function Toggled(v: View, id: int, o: Outcome<Todo>): View
  {
    match o
    case Success(updated) => v.(todos := ReplaceById(v.todos, id, updated), success := Some(UpdatedMessage))
    case Failure(e) => Failed(v, e)
  }

  /** `handleDeleteTodo(id)`, confirmed, once `todoApi.delete` has settled to `o`. */
  function Deleted(v: View, id: int, o: Outcome<()>): View
  {
    match o
    case Success(_) => v.(todos := RemoveById(v.todos, id), success := Some(DeletedMessage))
    case Failure(e) => Failed(v, e)
  }

  // ----------------------------------------------------------------- lemmas

  /** A failed call leaves the list (and all but the message and `loading`) as it was. */
  lemma FailedCallKeepsList(v: View, id: int, e: Thrown)
    ensures Failed(v, e).todos == v.todos && Failed(v, e).error == Some(GetErrorMessage(e))
    ensures Failed(v, e).(error := v.error) == v
    ensures Fetched(v, Failure(e)) == Failed(v, e).(loading := false)
    ensures Added(v, Failure(e)) == Failed(v, e)
    ensures Toggled(v, id, Failure(e)) == Failed(v, e)
    ensures Deleted(v, id, Failure(e)) == Failed(v, e)
  {
  }

  /** Loading replaces the list wholesale and ends with `loading` false either way. */
  lemma FetchReplacesList(v: View, o: Outcome<seq<Todo>>)
    ensures !Fetched(v, o).loading
    ensures o.Success? ==> Fetched(v, o).todos == o.value
    ensures o.Failure? ==> Fetched(v, o).todos == v.todos
  {
  }

  /** A successful add appends exactly the returned todo and resets the form. */
  lemma AddAppendsCreated(v: View, created: Todo)
    ensures var r := Added(v, Success(created));
            |r.todos| == |v.todos| + 1 && r.todos[..|v.todos|] == v.todos && r.todos[|v.todos|] == created &&
            r.title == "" && r.description == "" && r.priority == 1 && !r.showAddForm &&
            r.success == Some(CreatedMessage) && r.error == v.error
  {
  }

  /** With unique ids, a successful toggle of entry k's id replaces entry k only. */
  lemma ToggleReplacesEntry(v: View, k: int, updated: Todo)
    requires UniqueIds(v.todos) && 0 <= k < |v.todos|
    ensures Toggled(v, v.todos[k].id, Success(updated)).todos == v.todos[k := updated]
  {
  }

  /** With unique ids, a successful delete of entry k's id removes entry k only. */
  lemma DeleteRemovesEntry(v: View, k: int)
    requires UniqueIds(v.todos) && 0 <= k < |v.todos|
    ensures Deleted(v, v.todos[k].id, Success(())).todos == v.todos[..k] + v.todos[k + 1..]
  {
    RemoveExactlyOne(v.todos, k);
  }

  // ---------------------------------------------------------------- priority

  const LowLabel := "Low"
  const MediumLabel := "Medium"
  const HighLabel := "High"
  const UnknownLabel := "Unknown"

  const LowBadge := "bg-green-100 text-green-800 border-green-300"
  const MediumBadge := "bg-yellow-100 text-yellow-800 border-yellow-300"
  const HighBadge := "bg-red-100 text-red-800 border-red-300"
  const DefaultBadge := "bg-gray-100 text-gray-800 border-gray-300"

  /** `getPriorityColor` */
  function PriorityColor(priority: int): string
  {
    match priority
    case 1 => LowBadge
    case 2 => MediumBadge
    case 3 => HighBadge
    case _ => DefaultBadge
  }

  /** `getPriorityLabel` */
  function PriorityLabel(priority: int): string
  {
    match priority
    case 1 => LowLabel
    case 2 => MediumLabel
    case 3 => HighLabel
    case _ => UnknownLabel
  }

  /** The label is total, and only 1, 2 and 3 have a known one, each its own. */
  lemma PriorityLabelTotal(p: int, q: int)
    ensures PriorityLabel(1) == LowLabel && PriorityLabel(2) == MediumLabel && PriorityLabel(3) == HighLabel
    ensures PriorityLabel(p) in {LowLabel, MediumLabel, HighLabel, UnknownLabel}
    ensures PriorityLabel(p) == UnknownLabel <==> !(1 <= p <= 3)
    ensures 1 <= p <= 3 && PriorityLabel(p) == PriorityLabel(q) ==> p == q
  {
  }

  /** The colour splits priorities exactly as the label does, with gray for the unknown ones. */
  lemma PriorityColorFollowsLabel(p: int, q: int)
    ensures PriorityColor(1) == LowBadge && PriorityColor(2) == MediumBadge && PriorityColor(3) == HighBadge
    ensures PriorityColor(p) == DefaultBadge <==> PriorityLabel(p) == UnknownLabel
    ensures PriorityColor(p) == PriorityColor(q) <==> PriorityLabel(p) == PriorityLabel(q)
  {
  }

  // -------------------------------------------------------------------- page

  /** `TodosPage`: its state variables and handlers. */
  class TodosPage {
    var todos: seq<Todo>
    var loading: bool
    var error: Option<string>
    var success: Option<string>
    var showAddForm: bool
    var title: string
    var description: string
    var priority: int
    const window: Window

    function Snapshot(): View
      reads this
    {
      View(todos, loading, error, success, showAddForm, title, description, priority)
    }

    constructor (window: Window)
      ensures this.window == window
      ensures Snapshot() == Initial
    {
      this.window := window;
      todos, loading, error, success := [], true, None, None;
      showAddForm, title, description, priority := false, "", "", 1;
    }

    /**
     * The effect run whenever `isAuthenticated` changes: an anonymous visitor
     * is sent to the login page and nothing is fetched.
     */
    method OnAuthChange(isAuthenticated: bool, o: Outcome<seq<Todo>>) returns (sent: Option<Request>)
      modifies this, window
      ensures !isAuthenticated ==>
                sent == None && Snapshot() == old(Snapshot()) &&
                window.Snapshot() == old(window.Snapshot()).(location := LoginRoute)
      ensures isAuthenticated ==>
                sent == Some(GetAllTodosRequest) && Snapshot() == Fetched(old(Snapshot()), o) &&
                window.Snapshot() == AfterCall(old(window.Snapshot()), o)
    {
      if !isAuthenticated {
        window.Navigate(LoginRoute);
        sent := None;
        return;
      }
      var request := FetchTodos(o);
      sent := Some(request);
    }

    method FetchTodos(o: Outcome<seq<Todo>>) returns (sent: Request)
      modifies this, window
      ensures sent == GetAllTodosRequest
      ensures Snapshot() == Fetched(old(Snapshot()), o)
      ensures window.Snapshot() == AfterCall(old(window.Snapshot()), o)
    {
      loading := true;
      sent := GetAllTodosRequest;
      var reply := OnResponse(window, o);
      match reply {
        case Success(data) => todos := data;
        case Failure(e) => error := Some(GetErrorMessage(e));
      }
      loading := false;
    }

    /** Submitting the add form sends its fields as the new todo. */
    method HandleAddTodo(o: Outcome<Todo>) returns (sent: Request, body: TodoRequest)
      modifies this, window
      ensures sent == CreateTodoRequest && body == TodoRequest(old(title), old(description), old(priority))
      ensures Snapshot() == Added(old(Snapshot()), o)
      ensures window.Snapshot() == AfterCall(old(window.Snapshot()), o)
    {
      sent, body := CreateTodoRequest, TodoRequest(title, description, priority);
      var reply := OnResponse(window, o);
      match reply {
        case Success(newTodo) =>
          todos := todos + [newTodo];
          success := Some(CreatedMessage);
          title := "";
          description := "";
          priority := 1;
          showAddForm := false;
        case Failure(e) =>
          error := Some(GetErrorMessage(e));
      }
    }

    method HandleToggleComplete(id: int, o: Outcome<Todo>) returns (sent: Request)
      modifies this, window
      ensures sent == ToggleCompleteRequest(id)
      ensures Snapshot() == Toggled(old(Snapshot()), id, o)
      ensures window.Snapshot() == AfterCall(old(window.Snapshot()), o)
    {
      sent := ToggleCompleteRequest(id);
      var reply := OnResponse(window, o);
      match reply {
        case Success(updatedTodo) =>
          todos := ReplaceById(todos, id, updatedTodo);
          success := Some(UpdatedMessage);
        case Failure(e) =>
          error := Some(GetErrorMessage(e));
      }
    }

    /** Deleting asks for confirmation first; a declined delete calls nothing and changes nothing. */
    method HandleDeleteTodo(id: int, confirmed: bool, o: Outcome<()>) returns (sent: Option<Request>)
      modifies this, window
      ensures !confirmed ==>
                sent == None && Snapshot() == old(Snapshot()) && window.Snapshot() == old(window.Snapshot())
      ensures confirmed ==>
                sent == Some(DeleteTodoRequest(id)) && Snapshot() == Deleted(old(Snapshot()), id, o) &&
                window.Snapshot() == AfterCall(old(window.Snapshot()), o)
    {
      if !confirmed {
        sent := None;
        return;
      }
      sent := Some(DeleteTodoRequest(id));
      var reply := OnResponse(window, o);
      match reply {
        case Success(_) =>
          todos := RemoveById(todos, id);
          success := Some(DeletedMessage);
        case Failure(e) =>
          error := Some(GetErrorMessage(e));
      }
    }

    /** The header button: show or hide the add form. */
    method ToggleAddForm()
      modifies this
      ensures Snapshot() == old(Snapshot()).(showAddForm := !old(showAddForm))
    {
      showAddForm := !showAddForm;
    }
  }
}
