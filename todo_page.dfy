/** The signed-in user's todo view: the status filter, the text box for a new
    todo, the set of todos ticked for deletion and the handlers that turn
    clicks into requests. Every request goes through the authenticated client. */
module TodoPage {
  import opened Wrappers
  import opened Text
  import opened Wire
  import opened OrderedSet
  import opened TodoModel
  import opened BrowserStorage
  import opened AuthStore

  const TodosPath := "/todos"

  const CreatedMessage := "Todo baru berhasil dibuat!"
  const MarkedMessage := "Status Todo berhasil diperbarui!"
  const DeletedMessage := "Todo berhasil dihapus!"
  const DeleteFailedMessage := "Gagal menghapus todo. Token mungkin tidak valid."

  /** `/todos/${id}`. */
  function TodoPath(id: string): string
  {
    TodosPath + "/" + id
  }

  /** `/todos/${id}/mark`. */
  function MarkPath(id: string): string
  {
    TodosPath + "/" + id + "/mark"
  }

  /** The parameters `queryFn` appends for the current filter: a single
      `filters` parameter holding the serialized `isDone` for "done" and
      "undone", nothing at all for "all". */
  function ListParams(filter: StatusFilter): (r: seq<(string, string)>)
    ensures filter == All <==> r == []
    ensures filter != All ==> r == [("filters", IsDoneFilter(filter == Done))]
    ensures filter == Done ==> r == [("filters", "{\"isDone\":true}")]
    ensures filter == Undone ==> r == [("filters", "{\"isDone\":false}")]
  {
    IsDoneFilterText(filter == Done);
    match filter
    case All => []
    case Done => [("filters", "{\"isDone\":true}")]
    case Undone => [("filters", "{\"isDone\":false}")]
  }

  /** The action `handleMarkTodo` sends: always the opposite of the todo's
      current state. */
  function MarkAction(isDone: bool): (action: string)
    ensures action == "DONE" || action == "UNDONE"
    ensures action == "UNDONE" <==> isDone
    ensures action == "DONE" <==> !isDone
  {
    if isDone then "UNDONE" else "DONE"
  }

  /** `authApiClient.get("/todos", { params })`. */
  function ListRequest(filter: StatusFilter): (r: Effect)
    ensures r.Request? && r.client == Authenticated && r.verb == Get && r.path == "/todos"
    ensures r.payload.Query? && (r.payload.params == [] <==> filter == All)
    ensures r.payload == Query(ListParams(filter))
  {
    Request(Authenticated, Get, TodosPath, Query(ListParams(filter)))
  }

  /** `authApiClient.post("/todos", { item: newItem })`: a body with the single
      key `item`, holding the text. */
  function CreateRequest(text: string): (r: Effect)
    ensures r.Request? && r.client == Authenticated && r.verb == Post && r.path == "/todos"
    ensures r.payload.Body? && r.payload.fields.Keys == {"item"} && r.payload.fields["item"] == text
  {
    Request(Authenticated, Post, TodosPath, Body(map["item" := text]))
  }

  /** `authApiClient.put(`/todos/${id}/mark`, { action })`: the path names the
      todo, and the single key `action` asks for the opposite state. */
  function MarkRequest(id: string, isDone: bool): (r: Effect)
    ensures r.Request? && r.client == Authenticated && r.verb == Put
    ensures |r.path| == |"/todos/"| + |id| + |"/mark"|
    ensures r.path[..|"/todos/"|] == "/todos/" && r.path[|"/todos/"|..|r.path| - |"/mark"|] == id
    ensures r.path[|r.path| - |"/mark"|..] == "/mark"
    ensures r.payload.Body? && r.payload.fields.Keys == {"action"}
    ensures r.payload.fields["action"] == (if isDone then "UNDONE" else "DONE")
  {
    Request(Authenticated, Put, MarkPath(id), Body(map["action" := MarkAction(isDone)]))
  }

  /** `authApiClient.delete(`/todos/${id}`)`: no body, and the id is what
      follows `/todos/` in the path. */
  function DeleteRequest(id: string): (r: Effect)
    ensures r.Request? && r.client == Authenticated && r.verb == Delete && r.payload == NoPayload
    ensures |r.path| == |"/todos/"| + |id|
    ensures r.path[..|"/todos/"|] == "/todos/" && r.path[|"/todos/"|..] == id
  {
    Request(Authenticated, Delete, TodoPath(id), NoPayload)
  }

  /** One delete request per id, in the order of `ids`. */
  function DeleteRequests(ids: seq<string>): (r: seq<Effect>)
    ensures |r| == |ids|
    ensures forall k :: 0 <= k < |ids| ==> r[k] == DeleteRequest(ids[k])
  {
    if ids == [] then []
    else DeleteRequests(ids[..|ids| - 1]) + [DeleteRequest(ids[|ids| - 1])]
  }

  /** Different ids are deleted through different paths. */
  lemma DeleteRequestInjective(a: string, b: string)
    requires DeleteRequest(a) == DeleteRequest(b)
    ensures a == b
  {
    var n := |TodosPath + "/"|;
    assert TodoPath(a)[n..] == a;
    assert TodoPath(b)[n..] == b;
  }

  /** Deleting a selection issues exactly one request for each selected id
      and none for any other id. */
  lemma DeletesMatchSelection(ids: seq<string>)
    requires NoDuplicates(ids)
    ensures NoDuplicates(DeleteRequests(ids))
    ensures forall id :: DeleteRequest(id) in DeleteRequests(ids) <==> id in ids
  {
    var r := DeleteRequests(ids);
    forall i, j | 0 <= i < j < |r| ensures r[i] != r[j] {
      if r[i] == r[j] {
        DeleteRequestInjective(ids[i], ids[j]);
      }
    }
    forall id | DeleteRequest(id) in r ensures id in ids {
      var k :| 0 <= k < |r| && r[k] == DeleteRequest(id);
      DeleteRequestInjective(ids[k], id);
    }
  }

  const ConfirmPrefix := "Apakah Anda yakin ingin menghapus "
  const ConfirmSuffix := " item terpilih?"

  /** The text of the confirmation dialog: the question names the number of
      selected items in decimal, and that number reads back as the count. */
  function ConfirmMessage(count: nat): (r: string)
    ensures |r| > |ConfirmPrefix| + |ConfirmSuffix|
    ensures r[..|ConfirmPrefix|] == ConfirmPrefix && r[|r| - |ConfirmSuffix|..] == ConfirmSuffix
    ensures var digits := r[|ConfirmPrefix|..|r| - |ConfirmSuffix|];
      && (forall i :: 0 <= i < |digits| ==> IsDigit(digits[i]))
      && DecimalValue(digits) == count
  {
    var digits := DecimalString(count);
    var r := ConfirmPrefix + digits + ConfirmSuffix;
    assert r[|ConfirmPrefix|..|r| - |ConfirmSuffix|] == digits;
    DecimalRoundTrip(count);
    r
  }

  /** The view's state apart from its effect log. */
  datatype ViewState = ViewState(newTodoText: string, selected: seq<string>, filter: StatusFilter, todos: seq<Todo>)

  class TodoView {
    var newTodoText: string
    /** `selectedTodos`, in insertion order. */
    var selected: seq<string>
    var filter: StatusFilter
    /** The entries of the last list response. */
    var todos: seq<Todo>
    var effects: seq<Effect>

    ghost predicate Valid()
      reads this
    {
      NoDuplicates(selected)
    }

    function State(): ViewState
      reads this
    {
      ViewState(newTodoText, selected, filter, todos)
    }

    constructor ()
      ensures Valid()
      ensures State() == ViewState("", [], All, []) && effects == []
    {
      newTodoText, selected, filter, todos, effects := "", [], All, [], [];
    }

    /** The delete-selected button is disabled exactly when nothing is selected. */
    function DeleteSelectedDisabled(): (r: bool)
      reads this
      ensures r <==> (forall id :: id !in selected)
    {
      if |selected| == 0 then true
      else
        assert selected[0] in selected;
        false
    }

    /** A filter button: the filter changes and nothing else. */
    method SetFilter(f: StatusFilter)
      modifies this
      ensures State() == old(State()).(filter := f) && effects == old(effects)
    {
      filter := f;
    }

    /** Typing in the new-todo box. */
    method EditNewTodoText(text: string)
      modifies this
      ensures State() == old(State()).(newTodoText := text) && effects == old(effects)
    {
      newTodoText := text;
    }

    /** `queryFn`: the list is requested with the current filter's parameters. */
    method FetchTodos()
      modifies this
      ensures State() == old(State()) && effects == old(effects) + [ListRequest(filter)]
    {
      effects := effects + [ListRequest(filter)];
    }

    /** A list response replaces the displayed list; nothing is merged. */
    method ReceiveTodos(entries: seq<Todo>)
      modifies this
      ensures State() == old(State()).(todos := entries) && effects == old(effects)
    {
      todos := entries;
    }

    /** `handleCreateTodo`: a create request is sent exactly when the text box
        holds something besides whitespace, and it carries the text untrimmed. */
    method HandleCreateTodo() returns (sent: bool)
      modifies this
      ensures sent <==> !AllWhitespace(newTodoText)
      ensures sent ==> effects == old(effects) + [CreateRequest(newTodoText)]
      ensures !sent ==> effects == old(effects)
      ensures State() == old(State())
    {
      var text := newTodoText;
      sent := HasText(text);
      if sent {
        effects := effects + [CreateRequest(text)];
      }
    }

    /** The create call settles. Only success has a handler: it reports and
        clears the text box. A failure changes nothing. */
    method CreateSettled(ok: bool)
      modifies this
      ensures ok ==>
        State() == old(State()).(newTodoText := "") && effects == old(effects) + [Toast(Success, CreatedMessage)]
      ensures !ok ==> State() == old(State()) && effects == old(effects)
    {
      if ok {
        effects := effects + [Toast(Success, CreatedMessage)];
        newTodoText := "";
      }
    }

    /** `handleMarkTodo`: asks the server to flip the todo's state. */
    method HandleMarkTodo(id: string, isDone: bool)
      modifies this
      ensures State() == old(State()) && effects == old(effects) + [MarkRequest(id, isDone)]
    {
      effects := effects + [MarkRequest(id, isDone)];
    }

    /** The mark call settles; only success is reported. */
    method MarkSettled(ok: bool)
      modifies this
      ensures State() == old(State())
      ensures effects == old(effects) + (if ok then [Toast(Success, MarkedMessage)] else [])
    {
      if ok {
        effects := effects + [Toast(Success, MarkedMessage)];
      }
    }

    /** `handleToggleSelectTodo`: the id joins the selection at its end or
        leaves it, closing the gap; no other id and nothing else changes, and
        no request is sent. */
    method HandleToggleSelectTodo(id: string, checked: bool)
      requires Valid()
      modifies this
      ensures Valid()
      ensures checked ==> selected == Add(old(selected), id)
      ensures !checked ==> selected == Remove(old(selected), id)
      ensures checked && id !in old(selected) ==> selected == old(selected) + [id]
      ensures !checked && id in old(selected) ==>
        exists i | 0 <= i < |old(selected)| :: old(selected)[i] == id && selected == old(selected)[..i] + old(selected)[i + 1..]
      ensures forall other :: other != id ==> (other in selected <==> other in old(selected))
      ensures id in selected <==> checked
      ensures State() == old(State()).(selected := selected) && effects == old(effects)
    {
      var next := selected;
      if checked {
        next := Add(next, id);
      } else {
        if id in next {
          RemoveKeepsOrder(next, id);
        }
        next := Remove(next, id);
      }
      selected := next;
    }

    /** `handleSingleDeleteTodo`: one delete request for that todo. */
    method HandleSingleDeleteTodo(id: string)
      modifies this
      ensures State() == old(State()) && effects == old(effects) + [DeleteRequest(id)]
    {
      effects := effects + [DeleteRequest(id)];
    }

    /** A delete call settles: success and failure are both reported. */
    method DeleteSettled(ok: bool)
      modifies this
      ensures State() == old(State())
      ensures effects == old(effects) + [if ok then Toast(Success, DeletedMessage) else Toast(Failure, DeleteFailedMessage)]
    {
      if ok {
        effects := effects + [Toast(Success, DeletedMessage)];
      } else {
        effects := effects + [Toast(Failure, DeleteFailedMessage)];
      }
    }

    /** `handleDeleteSelected`. With nothing selected nothing happens. Otherwise
        the user is asked to confirm the count; a refusal changes nothing; on
        confirmation one delete request per selected id goes out, in insertion
        order, and the selection is emptied at once, whatever the requests'
        outcome. */
    method HandleDeleteSelected(confirmed: bool)
      requires Valid()
      modifies this
      ensures Valid()
      ensures old(selected) == [] ==> State() == old(State()) && effects == old(effects)
      ensures old(selected) != [] && !confirmed ==>
        State() == old(State()) && effects == old(effects) + [Confirm(ConfirmMessage(|old(selected)|))]
      ensures old(selected) != [] && confirmed ==>
        State() == old(State()).(selected := [])
        && effects == old(effects) + [Confirm(ConfirmMessage(|old(selected)|))] + DeleteRequests(old(selected))
    {
      if |selected| > 0 {
        effects := effects + [Confirm(ConfirmMessage(|selected|))];
        if confirmed {
          var ids := selected;
          var start := effects;
          var i := 0;
          while i < |ids|
            invariant 0 <= i <= |ids|
            invariant effects == start + DeleteRequests(ids[..i])
            invariant State() == old(State())
          {
            assert ids[..i + 1][..i] == ids[..i];
            effects := effects + [DeleteRequest(ids[i])];
            i := i + 1;
          }
          assert ids[..|ids|] == ids;
          selected := [];
        }
      }
    }

    /** `handleLogout`: the session ends and the login page is shown. */
    method HandleLogout(store: SessionStore, storage: LocalStorage)
      modifies this, store, storage
      ensures storage.items == ClearedStorage(old(storage.items))
      ensures store.token == None && store.user == None
      ensures State() == old(State()) && effects == old(effects) + [Navigate("/login")]
    {
      store.Logout(storage);
      effects := effects + [Navigate("/login")];
    }
  }
}
