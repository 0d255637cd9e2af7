/** The todo list page (app/todos/view/page.tsx): completion toggle, deletion,
    search with the all/active/completed filter, the counters, and the
    enhancement of fetched todos. */
module Todos {
  import opened Common
  import opened Http

  datatype Priority = Low | MediumPriority | High

  /** A todo as `/todos/view` returns it. */
  datatype Stored = Stored(title: string, description: string, createdAt: string)

  /** A todo as the page keeps it. */
  datatype Todo = Todo(
    id: Option<string>,
    title: string,
    description: string,
    createdAt: string,
    completed: bool,
    priority: Priority)

  datatype Mode = All | Active | Completed

  /** `toggleTodoCompletion(id)` (app/todos/view/page.tsx:129-132). */
  function ToggleCompletion(todos: seq<Todo>, id: string): (r: seq<Todo>)
    ensures |r| == |todos|
    ensures forall i :: 0 <= i < |r| ==>
              r[i].completed == (todos[i].completed != (todos[i].id == Some(id)))
              && r[i].(completed := todos[i].completed) == todos[i]
  {
    seq(|todos|, i requires 0 <= i < |todos| =>
      if todos[i].id == Some(id) then todos[i].(completed := !todos[i].completed) else todos[i])
  }

  /** Only the matching todos change, and only in `completed`; toggling twice
      restores the list. */
  lemma ToggleFlipsOnlyTheMatch(todos: seq<Todo>, id: string)
    ensures var r := ToggleCompletion(todos, id);
      forall i :: 0 <= i < |todos| ==>
        (todos[i].id == Some(id) ==> r[i].completed == !todos[i].completed && r[i].(completed := todos[i].completed) == todos[i])
        && (todos[i].id != Some(id) ==> r[i] == todos[i])
    ensures ToggleCompletion(ToggleCompletion(todos, id), id) == todos
  {
  }

  /** The delete confirmation (app/todos/view/page.tsx:154). */
  function DeleteById(todos: seq<Todo>, id: Option<string>): seq<Todo> {
    Filter(todos, (t: Todo) => t.id != id)
  }

  lemma DeleteKeepsTheOthers(todos: seq<Todo>, id: Option<string>)
    ensures var r := DeleteById(todos, id);
      && IsSubsequence(r, todos)
      && (forall i :: 0 <= i < |r| ==> r[i].id != id)
      && (forall i :: 0 <= i < |todos| && todos[i].id != id ==> todos[i] in r)
  {
    FilterIsSubsequence(todos, (t: Todo) => t.id != id);
  }

  predicate MatchesSearch(t: Todo, query: string) {
    Contains(ToLower(t.title), ToLower(query)) || Contains(ToLower(t.description), ToLower(query))
  }

  predicate MatchesMode(t: Todo, mode: Mode) {
    mode == All || (mode == Active && !t.completed) || (mode == Completed && t.completed)
  }

  function Shown(query: string, mode: Mode): Todo -> bool {
    (t: Todo) => MatchesSearch(t, query) && MatchesMode(t, mode)
  }

  /** `filteredTodos` (app/todos/view/page.tsx:198-205). */
  function FilteredTodos(todos: seq<Todo>, query: string, mode: Mode): seq<Todo> {
    Filter(todos, Shown(query, mode))
  }

  /** The result keeps the list's order and holds exactly the todos that match
      both the search and the mode. */
  lemma FilteredTodosExactly(todos: seq<Todo>, query: string, mode: Mode)
    ensures var r := FilteredTodos(todos, query, mode);
      && IsSubsequence(r, todos)
      && (forall i :: 0 <= i < |r| ==> MatchesSearch(r[i], query) && MatchesMode(r[i], mode))
      && (forall i :: 0 <= i < |todos| && MatchesSearch(todos[i], query) && MatchesMode(todos[i], mode) ==>
            todos[i] in r)
  {
    FilterIsSubsequence(todos, Shown(query, mode));
  }

  /** For a fixed query, "active" and "completed" split "all": each is the
      "all" result narrowed by completion, and their sizes add up. */
  lemma ModesPartitionAll(todos: seq<Todo>, query: string)
    ensures var all := FilteredTodos(todos, query, All);
      && FilteredTodos(todos, query, Active) == Filter(all, (t: Todo) => !t.completed)
      && FilteredTodos(todos, query, Completed) == Filter(all, (t: Todo) => t.completed)
      && |FilteredTodos(todos, query, Active)| + |FilteredTodos(todos, query, Completed)| == |all|
  {
    var all := FilteredTodos(todos, query, All);
    FilterFilter(todos, Shown(query, All), (t: Todo) => !t.completed, Shown(query, Active));
    FilterFilter(todos, Shown(query, All), (t: Todo) => t.completed, Shown(query, Completed));
    FilterSplit(all, (t: Todo) => !t.completed, (t: Todo) => t.completed);
  }

  datatype Stats = Stats(total: nat, completed: nat, active: nat)

  /** `stats` (app/todos/view/page.tsx:207-211). */
  function StatsOf(todos: seq<Todo>): Stats {
    Stats(|todos|, |Filter(todos, (t: Todo) => t.completed)|, |Filter(todos, (t: Todo) => !t.completed)|)
  }

  lemma StatsAddUp(todos: seq<Todo>)
    ensures StatsOf(todos).completed + StatsOf(todos).active == StatsOf(todos).total
  {
    FilterSplit(todos, (t: Todo) => t.completed, (t: Todo) => !t.completed);
  }

  /** The spread of a fetched todo with id `todo-<index>`; the random
      completion and priority of each index come from `draw`
      (app/todos/view/page.tsx:77-82). */
  function Enhance(fetched: seq<Stored>, draw: nat -> (bool, Priority)): (r: seq<Todo>)
    ensures |r| == |fetched|
    ensures forall i :: 0 <= i < |r| ==>
              r[i].id == Some(IndexedId("todo-", i))
              && r[i].title == fetched[i].title && r[i].description == fetched[i].description
              && r[i].createdAt == fetched[i].createdAt
              && r[i].completed == draw(i).0 && r[i].priority == draw(i).1
  {
    seq(|fetched|, i requires 0 <= i < |fetched| =>
      Todo(Some(IndexedId("todo-", i)), fetched[i].title, fetched[i].description, fetched[i].createdAt,
           draw(i).0, draw(i).1))
  }

  lemma EnhancedIdsDistinct(fetched: seq<Stored>, draw: nat -> (bool, Priority))
    ensures var r := Enhance(fetched, draw);
      forall i, j :: 0 <= i < |r| && 0 <= j < |r| && i != j ==> r[i].id != r[j].id
  {
    var r := Enhance(fetched, draw);
    forall i, j | 0 <= i < |r| && 0 <= j < |r| && i != j
      ensures r[i].id != r[j].id
    {
      IndexedIdInjective("todo-", i, j);
    }
  }

  /** `fetchTodos` (app/todos/view/page.tsx:70-99): the new list, and whether
      the error toast shows. A 404 means "no todos" and is not an error. */
  function FetchTodos(previous: seq<Todo>, reply: ListReply<Stored>, draw: nat -> (bool, Priority)): (seq<Todo>, bool) {
    match reply
    case Listed(items) => (Enhance(ItemsOr(items), draw), false)
    case Refused(status) => if status == Some(404) then ([], false) else (previous, true)
  }

  lemma FetchTodosCases(previous: seq<Todo>, reply: ListReply<Stored>, draw: nat -> (bool, Priority))
    ensures reply == Refused(Some(404)) ==> FetchTodos(previous, reply, draw) == ([], false)
    ensures reply.Refused? && reply.status != Some(404) ==> FetchTodos(previous, reply, draw) == (previous, true)
    ensures reply.Listed? ==> !FetchTodos(previous, reply, draw).1
                              && |FetchTodos(previous, reply, draw).0| == |ItemsOr(reply.items)|
  {
  }
}
