/** The todo record and the three list updates of the todos page:
    spread-append on create, `filter` on delete and `map` on save. */
module TodoList {

  /** A todo as the server returns it; `id` is the server's `_id`. */
  datatype Todo = Todo(id: string, title: string, description: string)

  /** The identifiers present in a list. */
  function Ids(todos: seq<Todo>): set<string> {
    set t | t in todos :: t.id
  }

  /** `[...prev, todo]`: the new record goes last and the earlier ones stay as they were. */
  function Appended(todos: seq<Todo>, t: Todo): (r: seq<Todo>)
    ensures |r| == |todos| + 1
    ensures r[..|todos|] == todos && r[|todos|] == t
    ensures Ids(r) == Ids(todos) + {t.id}
  {
    var r := todos + [t];
    assert forall u :: u in r <==> u in todos || u == t;
    r
  }

  /** `prev.filter((todo) => todo._id !== id)`. */
  function RemoveId(todos: seq<Todo>, id: string): (r: seq<Todo>)
    ensures |r| <= |todos|
    ensures forall t :: t in r <==> t in todos && t.id != id
  {
    if todos == [] then []
    else if todos[0].id == id then RemoveId(todos[1..], id)
    else [todos[0]] + RemoveId(todos[1..], id)
  }

  /** `prev.map((todo) => (todo._id === id ? { ...todo, title } : todo))`. */
  function RetitleId(todos: seq<Todo>, id: string, title: string): (r: seq<Todo>)
    ensures |r| == |todos|
    ensures forall i :: 0 <= i < |r| ==> r[i].id == todos[i].id && r[i].description == todos[i].description
    ensures forall i :: 0 <= i < |r| && todos[i].id == id ==> r[i].title == title
    ensures forall i :: 0 <= i < |r| && todos[i].id != id ==> r[i] == todos[i]
  {
    if todos == [] then []
    else
      var head := if todos[0].id == id then todos[0].(title := title) else todos[0];
      [head] + RetitleId(todos[1..], id, title)
  }

  /** Filtering works element by element, so records that are kept keep their relative order. */
  lemma {:induction false} RemoveIdConcat(a: seq<Todo>, b: seq<Todo>, id: string)
    ensures RemoveId(a + b, id) == RemoveId(a, id) + RemoveId(b, id)
  {
    if a == [] {
      assert a + b == b;
    } else {
      assert (a + b)[0] == a[0];
      assert (a + b)[1..] == a[1..] + b;
      RemoveIdConcat(a[1..], b, id);
    }
  }

  /** Deleting an absent identifier leaves the list as it was. */
  lemma {:induction false} RemoveIdAbsent(todos: seq<Todo>, id: string)
    requires id !in Ids(todos)
    ensures RemoveId(todos, id) == todos
  {
    if todos != [] {
      assert todos[0] in todos;
      assert Ids(todos[1..]) <= Ids(todos) by {
        forall u | u in Ids(todos[1..]) ensures u in Ids(todos) {
          var t :| t in todos[1..] && t.id == u;
          assert t in todos;
        }
      }
      RemoveIdAbsent(todos[1..], id);
      assert todos == [todos[0]] + todos[1..];
    }
  }

  /** After a delete, the identifiers left are the old ones minus the deleted one. */
  lemma RemoveIdIds(todos: seq<Todo>, id: string)
    ensures Ids(RemoveId(todos, id)) == Ids(todos) - {id}
  {
  }

  /** Saving a title never adds, drops or changes an identifier. */
  lemma RetitleIdIds(todos: seq<Todo>, id: string, title: string)
    ensures Ids(RetitleId(todos, id, title)) == Ids(todos)
  {
  }

  /** Saving a title for an absent identifier leaves the list as it was. */
  lemma RetitleIdAbsent(todos: seq<Todo>, id: string, title: string)
    requires id !in Ids(todos)
    ensures RetitleId(todos, id, title) == todos
  {
  }
}
