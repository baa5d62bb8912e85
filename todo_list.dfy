/**
 * The list updates the todos page applies to its cached `todos` once a call
 * has succeeded: append the created record (`[...todos, newTodo]`), replace by
 * id (`todos.map(...)`) and remove by id (`todos.filter(...)`).
 */
module TodoList {
  import opened Api

  /** No two cached entries share an id. */
  predicate UniqueIds(todos: seq<Todo>)
  {
    forall i, j :: 0 <= i < j < |todos| ==> todos[i].id != todos[j].id
  }

  /** No cached entry has id `id`. */
  predicate Absent(todos: seq<Todo>, id: int)
  {
    forall i :: 0 <= i < |todos| ==> todos[i].id != id
  }

  /** `todos.map(todo => todo.id === id ? updated : todo)` */
  function ReplaceById(todos: seq<Todo>, id: int, updated: Todo): (r: seq<Todo>)
    ensures |r| == |todos|
    ensures forall i :: 0 <= i < |todos| ==> r[i] == (if todos[i].id == id then updated else todos[i])
  {
    if todos == [] then []
    else [if todos[0].id == id then updated else todos[0]] + ReplaceById(todos[1..], id, updated)
  }

  /** `todos.filter(todo => todo.id !== id)` */
  function RemoveById(todos: seq<Todo>, id: int): (r: seq<Todo>)
    ensures |r| <= |todos|
  {
    if todos == [] then []
    else (if todos[0].id == id then [] else [todos[0]]) + RemoveById(todos[1..], id)
  }

  /** An entry survives removal exactly when it was cached with another id. */
  lemma {:induction false} RemoveByIdMembers(todos: seq<Todo>, id: int)
    ensures forall t :: t in RemoveById(todos, id) <==> t in todos && t.id != id
    ensures Absent(RemoveById(todos, id), id)
    decreases |todos|
  {
    if todos != [] {
      RemoveByIdMembers(todos[1..], id);
      assert todos == [todos[0]] + todos[1..];
    }
  }

  /** Removal works piece by piece, so the survivors keep their relative order. */
  lemma {:induction false} RemoveByIdDistributes(a: seq<Todo>, b: seq<Todo>, id: int)
    ensures RemoveById(a + b, id) == RemoveById(a, id) + RemoveById(b, id)
    decreases |a|
  {
    if a == [] {
      assert a + b == b;
    } else {
      var head := if a[0].id == id then [] else [a[0]];
      assert (a + b)[0] == a[0] && (a + b)[1..] == a[1..] + b;
      calc {
        RemoveById(a + b, id);
        head + RemoveById(a[1..] + b, id);
        { RemoveByIdDistributes(a[1..], b, id); }
        head + (RemoveById(a[1..], id) + RemoveById(b, id));
        (head + RemoveById(a[1..], id)) + RemoveById(b, id);
        RemoveById(a, id) + RemoveById(b, id);
      }
    }
  }

  /** Entries with other ids survive removal untouched. */
  lemma {:induction false} RemoveAbsentId(todos: seq<Todo>, id: int)
    requires Absent(todos, id)
    ensures RemoveById(todos, id) == todos
    decreases |todos|
  {
    if todos != [] {
      RemoveAbsentId(todos[1..], id);
    }
  }

  /** With unique ids, the id of entry k occurs neither before nor after it. */
  lemma UniqueAroundEntry(todos: seq<Todo>, k: int)
    requires UniqueIds(todos) && 0 <= k < |todos|
    ensures Absent(todos[..k], todos[k].id) && Absent(todos[k + 1..], todos[k].id)
  {
  }

  /** Removing the id of an entry that no other entry shares drops just that entry. */
  lemma RemoveSoleEntry(before: seq<Todo>, x: Todo, after: seq<Todo>)
    requires Absent(before, x.id) && Absent(after, x.id)
    ensures RemoveById(before + [x] + after, x.id) == before + after
  {
    var id := x.id;
    assert RemoveById([x], id) == RemoveById([x][1..], id) by {
      assert [x][0] == x;
    }
    assert [x][1..] == [];
    calc {
      RemoveById(before + [x] + after, id);
      { RemoveByIdDistributes(before + [x], after, id); }
      RemoveById(before + [x], id) + RemoveById(after, id);
      { RemoveByIdDistributes(before, [x], id); }
      RemoveById(before, id) + RemoveById([x], id) + RemoveById(after, id);
      { RemoveAbsentId(before, id); RemoveAbsentId(after, id); }
      before + [] + after;
    }
    assert before + [] + after == before + after;
  }

  /** With unique ids, removing the id of entry k removes that entry and nothing else. */
  lemma RemoveExactlyOne(todos: seq<Todo>, k: int)
    requires UniqueIds(todos) && 0 <= k < |todos|
    ensures RemoveById(todos, todos[k].id) == todos[..k] + todos[k + 1..]
  {
    UniqueAroundEntry(todos, k);
    assert todos == todos[..k] + [todos[k]] + todos[k + 1..];
    RemoveSoleEntry(todos[..k], todos[k], todos[k + 1..]);
  }

  /** With unique ids, replacing by the id of entry k changes that entry only. */
  lemma ReplaceExactlyOne(todos: seq<Todo>, k: int, updated: Todo)
    requires UniqueIds(todos) && 0 <= k < |todos|
    ensures ReplaceById(todos, todos[k].id, updated) == todos[k := updated]
  {
  }

  /** Replacing an id that is not cached changes nothing. */
  lemma ReplaceAbsentId(todos: seq<Todo>, id: int, updated: Todo)
    requires Absent(todos, id)
    ensures ReplaceById(todos, id, updated) == todos
  {
  }

  /** Each update keeps ids unique, given a server reply that keeps the id it was asked about. */
  lemma UpdatesKeepIdsUnique(todos: seq<Todo>, id: int, t: Todo)
    requires UniqueIds(todos)
    ensures Absent(todos, t.id) ==> UniqueIds(todos + [t])
    ensures t.id == id ==> UniqueIds(ReplaceById(todos, id, t))
    ensures UniqueIds(RemoveById(todos, id))
  {
    RemoveKeepsIdsUnique(todos, id);
  }

  lemma {:induction false} RemoveKeepsIdsUnique(todos: seq<Todo>, id: int)
    requires UniqueIds(todos)
    ensures UniqueIds(RemoveById(todos, id))
    decreases |todos|
  {
    if todos != [] {
      var rest := RemoveById(todos[1..], id);
      RemoveKeepsIdsUnique(todos[1..], id);
      RemoveByIdMembers(todos[1..], id);
      // the head's id appears nowhere in the tail, hence nowhere in what survives of it
      forall i | 0 <= i < |rest|
        ensures rest[i].id != todos[0].id
      {
        assert rest[i] in todos[1..];
      }
    }
  }
}
