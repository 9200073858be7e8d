/** The runtime todo list: what a valid list is, and the normalization that every write and read goes through. */
module Todos {
  import opened Wrappers
  import opened Text

  const MAX_TODOS: nat := 20
  const MAX_ID: nat := 64
  const MAX_CONTENT: nat := 300

  datatype TodoStatus = Pending | InProgress | Completed | UnknownStatus(text: string)

  datatype Todo = Todo(id: string, content: string, status: TodoStatus)

  function Trimmed(t: Todo): Todo {
    Todo(TrimSpace(t.id), TrimSpace(t.content), t.status)
  }

  predicate ValidTodo(t: Todo) {
    && TrimSpace(t.id) != "" && |t.id| <= MAX_ID
    && TrimSpace(t.content) != "" && |t.content| <= MAX_CONTENT
    && !t.status.UnknownStatus?
  }

  ghost predicate OneInProgress(n: seq<Todo>) {
    forall i, j :: 0 <= i < j < |n| ==> !(n[i].status.InProgress? && n[j].status.InProgress?)
  }

  /** A list as it is stored: trimmed valid items with distinct ids, at most one of them in progress. */
  ghost predicate ValidList(todos: seq<Todo>) {
    && |todos| <= MAX_TODOS
    && (forall i :: 0 <= i < |todos| ==> ValidTodo(todos[i]) && Trimmed(todos[i]) == todos[i])
    && (forall i, j :: 0 <= i < j < |todos| ==> todos[i].id != todos[j].id)
    && OneInProgress(todos)
  }

  function TrimAll(todos: seq<Todo>): (r: seq<Todo>)
    ensures |r| == |todos|
  {
    seq(|todos|, i requires 0 <= i < |todos| => Trimmed(todos[i]))
  }

  /** The trimmed list if it is valid. */
  ghost function Normalized(todos: seq<Todo>): Option<seq<Todo>> {
    if ValidList(TrimAll(todos)) then Some(TrimAll(todos)) else None
  }

  predicate AllCompleted(todos: seq<Todo>) {
    forall i :: 0 <= i < |todos| ==> todos[i].status == Completed
  }

  // ----- Trimming twice is trimming once -----

  lemma {:induction false} TrimLeftHead(s: string)
    ensures TrimLeft(s) == "" || !IsSpace(TrimLeft(s)[0])
  {
    if s != "" && IsSpace(s[0]) {
      TrimLeftHead(s[1..]);
    }
  }

  lemma {:induction false} TrimRightLast(s: string)
    ensures TrimRight(s) == "" || !IsSpace(TrimRight(s)[|TrimRight(s)| - 1])
  {
    if s != "" && IsSpace(s[|s| - 1]) {
      TrimRightLast(s[..|s| - 1]);
    }
  }

  lemma {:induction false} TrimSpaceTwice(s: string)
    ensures TrimSpace(TrimSpace(s)) == TrimSpace(s)
  {
    hide IsSpace;
    var left := TrimLeft(s);
    TrimLeftHead(s);
    TrimRightLast(left);
    if left != "" {
      TrimRightKeepsHead(left);
      TrimSpaceOfLine(TrimRight(left));
    }
  }

  lemma {:induction false} TrimmedTwice(t: Todo)
    ensures Trimmed(Trimmed(t)) == Trimmed(t)
  {
    hide TrimSpace;
    TrimSpaceTwice(t.id);
    TrimSpaceTwice(t.content);
  }

  /** A stored list reads back as it was stored: normalizing it again changes nothing. */
  lemma {:induction false} NormalizedTwice(todos: seq<Todo>)
    requires Normalized(todos).Some?
    ensures Normalized(Normalized(todos).value) == Normalized(todos)
    ensures ValidList(Normalized(todos).value)
  {
    hide Trimmed, ValidTodo;
    var n := TrimAll(todos);
    assert TrimAll(n) == n;
  }

  // ----- What the store holds -----

  /** A stored item; `text` and `done` are what older items carry instead of content and status. */
  datatype StoreItem = StoreItem(id: string, content: string, status: string, text: string, done: bool)

  function StatusText(status: TodoStatus): string {
    match status
    case Pending => "pending"
    case InProgress => "in_progress"
    case Completed => "completed"
    case UnknownStatus(text) => text
  }

  function StatusOf(text: string): TodoStatus {
    if text == "pending" then Pending
    else if text == "in_progress" then InProgress
    else if text == "completed" then Completed
    else UnknownStatus(text)
  }

  function ToStore(t: Todo): StoreItem {
    StoreItem(t.id, t.content, StatusText(t.status), t.content, t.status == Completed)
  }

  function FromStore(item: StoreItem): Todo {
    Todo(item.id, if item.content == "" then item.text else item.content,
         if item.status == "" then (if item.done then Completed else Pending) else StatusOf(item.status))
  }

  function AllToStore(todos: seq<Todo>): seq<StoreItem> {
    seq(|todos|, i requires 0 <= i < |todos| => ToStore(todos[i]))
  }

  function AllFromStore(items: seq<StoreItem>): seq<Todo> {
    seq(|items|, i requires 0 <= i < |items| => FromStore(items[i]))
  }

  /** Reading: every item must be valid as it stands, and the whole list once trimmed. */
  ghost function ReadBack(items: seq<StoreItem>): Option<seq<Todo>> {
    if forall i :: 0 <= i < |items| ==> ValidTodo(FromStore(items[i])) then Normalized(AllFromStore(items)) else None
  }

  lemma {:induction false} ItemReadsBack(t: Todo)
    requires ValidTodo(t)
    ensures FromStore(ToStore(t)) == t
  {
    assert TrimLeft("") == "" && TrimRight("") == "";
  }

  /** A list that was accepted and stored reads back as it was accepted, through the older fields as well. */
  lemma {:induction false} StoredReadsBack(todos: seq<Todo>)
    requires Normalized(todos).Some?
    ensures ReadBack(AllToStore(Normalized(todos).value)) == Normalized(todos)
  {
    hide ValidTodo, Trimmed, ToStore, FromStore;
    var n := Normalized(todos).value;
    NormalizedTwice(todos);
    forall i | 0 <= i < |n| ensures FromStore(AllToStore(n)[i]) == n[i] {
      ItemReadsBack(n[i]);
    }
    assert AllFromStore(AllToStore(n)) == n;
  }

  /** Reads items in order; the first that is not valid ends it. */
  method ReadTodos(items: seq<StoreItem>) returns (r: Option<seq<Todo>>)
    ensures r == ReadBack(items)
  {
    hide ValidTodo, FromStore, Normalized;
    var todos: seq<Todo> := [];
    for i := 0 to |items|
      invariant todos == AllFromStore(items)[..i]
      invariant forall k :: 0 <= k < i ==> ValidTodo(FromStore(items[k]))
    {
      var todo := FromStore(items[i]);
      if !ValidTodo(todo) {
        return None;
      }
      todos := todos + [todo];
    }
    assert todos == AllFromStore(items);
    r := NormalizeTodos(todos);
  }

  // ----- The loop -----

  ghost predicate IdsSeen(n: seq<Todo>, seen: set<string>) {
    && (forall i :: 0 <= i < |n| ==> ValidTodo(n[i]) && n[i].id in seen)
    && (forall id :: id in seen ==> exists i :: 0 <= i < |n| && n[i].id == id)
    && (forall i, j :: 0 <= i < j < |n| ==> n[i].id != n[j].id)
  }

  ghost predicate NoneInProgress(n: seq<Todo>) {
    forall i :: 0 <= i < |n| ==> !n[i].status.InProgress?
  }

  ghost predicate ProgressIs(n: seq<Todo>, inProgress: nat) {
    (inProgress == 0 <==> NoneInProgress(n)) && (inProgress <= 1 <==> OneInProgress(n))
  }

  ghost predicate SoFar(n: seq<Todo>, seen: set<string>, inProgress: nat) {
    IdsSeen(n, seen) && ProgressIs(n, inProgress)
  }

  lemma {:induction false} OneMore(n: seq<Todo>, seen: set<string>, inProgress: nat, t: Todo)
    requires SoFar(n, seen, inProgress) && ValidTodo(t) && t.id !in seen
    ensures SoFar(n + [t], seen + {t.id}, inProgress + if t.status.InProgress? then 1 else 0)
  {
    hide ValidTodo, IdsSeen, ProgressIs;
    OneMoreSeen(n, seen, t);
    ProgressStep(n, inProgress, t);
  }

  lemma {:induction false} OneMoreSeen(n: seq<Todo>, seen: set<string>, t: Todo)
    requires IdsSeen(n, seen) && ValidTodo(t) && t.id !in seen
    ensures IdsSeen(n + [t], seen + {t.id})
  {
    hide ValidTodo;
    var n' := n + [t];
    assert n'[|n|] == t && forall i :: 0 <= i < |n| ==> n'[i] == n[i];
    forall id | id in seen + {t.id} ensures exists i :: 0 <= i < |n'| && n'[i].id == id {
      if id != t.id {
        var i :| 0 <= i < |n| && n[i].id == id;
        assert n'[i].id == id;
      }
    }
  }

  lemma {:induction false} ProgressStep(n: seq<Todo>, inProgress: nat, t: Todo)
    requires ProgressIs(n, inProgress)
    ensures ProgressIs(n + [t], inProgress + if t.status.InProgress? then 1 else 0)
  {
    var n' := n + [t];
    assert n'[|n|] == t && forall i :: 0 <= i < |n| ==> n'[i] == n[i];
    if inProgress > 0 {
      var i :| 0 <= i < |n| && n[i].status.InProgress?;
      assert n'[i].status.InProgress?;
    }
    if inProgress > 1 {
      var i, j :| 0 <= i < j < |n| && n[i].status.InProgress? && n[j].status.InProgress?;
      assert n'[i].status.InProgress? && n'[j].status.InProgress?;
    }
  }

  /** A prefix that cannot be extended makes the whole list invalid. */
  lemma {:induction false} Refused(todos: seq<Todo>, n: seq<Todo>, seen: set<string>, inProgress: nat)
    requires |n| < |todos| && n == TrimAll(todos)[..|n|] && SoFar(n, seen, inProgress)
    requires !ValidTodo(Trimmed(todos[|n|])) || Trimmed(todos[|n|]).id in seen
    ensures Normalized(todos).None?
  {
    hide ValidTodo, Trimmed;
    var all, k := TrimAll(todos), |n|;
    assert all[k] == Trimmed(todos[k]) && forall i :: 0 <= i < k ==> all[i] == n[i];
  }

  lemma {:induction false} Accepted(todos: seq<Todo>, n: seq<Todo>, seen: set<string>, inProgress: nat)
    requires |todos| <= MAX_TODOS && n == TrimAll(todos) && SoFar(n, seen, inProgress)
    ensures Normalized(todos) == if inProgress > 1 then None else Some(n)
  {
    hide ValidTodo, Trimmed;
    forall i | 0 <= i < |n| ensures Trimmed(n[i]) == n[i] {
      TrimmedTwice(todos[i]);
    }
  }

  method NormalizeTodos(todos: seq<Todo>) returns (r: Option<seq<Todo>>)
    ensures r == Normalized(todos)
  {
    hide ValidTodo, Trimmed, SoFar, Normalized;
    if |todos| > MAX_TODOS {
      TooMany(todos);
      return None;
    }
    var normalized, seen: set<string>, inProgress := [], {}, 0;
    NoneYet();
    for i := 0 to |todos|
      invariant |normalized| == i && normalized == TrimAll(todos)[..i]
      invariant inProgress >= 0 && SoFar(normalized, seen, inProgress)
    {
      var todo := Trimmed(todos[i]);
      if !ValidTodo(todo) || todo.id in seen {
        Refused(todos, normalized, seen, inProgress);
        return None;
      }
      OneMore(normalized, seen, inProgress, todo);
      if todo.status.InProgress? {
        inProgress := inProgress + 1;
      }
      seen := seen + {todo.id};
      normalized := normalized + [todo];
    }
    assert normalized == TrimAll(todos);
    Accepted(todos, normalized, seen, inProgress);
    r := if inProgress > 1 then None else Some(normalized);
  }

  lemma {:induction false} NoneYet()
    ensures SoFar([], {}, 0)
  {
  }

  lemma {:induction false} TooMany(todos: seq<Todo>)
    requires |todos| > MAX_TODOS
    ensures Normalized(todos).None?
  {
    hide ValidTodo, Trimmed;
  }
}
