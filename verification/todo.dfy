/**
 * The to-do list manager of the daily briefing script: an ordered, in-memory list of task
 * descriptions driven by a menu loop with four choices (add, view, complete, exit).
 * Positions shown to the user and typed back are 1-based.
 */
module Todo {

  /** One line of a listing: a 1-based position and the task at that position. */
  datatype Entry = Entry(position: int, task: string)

  /** What "view" reports: the empty-list notice, or the numbered tasks in order. */
  datatype ViewResult = EmptyList | Listing(entries: seq<Entry>)

  /** What "mark task as complete" reports once it has a position (or finds nothing to do). */
  datatype CompleteResult =
    | NothingToComplete
    | InvalidTaskNumber
    | Completed(task: string)

  /**
   * One pass of the menu loop as read from the console: the menu choice, then the task text
   * (read only for choice "1") and the task number (read only for choice "3" on a non-empty
   * list, already converted to an integer).
   */
  datatype Request = Request(choice: string, task: string, taskNum: int)

  /** What one pass of the menu loop reports. */
  datatype Outcome =
    | TaskAdded
    | Shown(view: ViewResult)
    | Completion(shown: seq<Entry>, result: CompleteResult)
    | Goodbye
    | InvalidChoice

  /** The list and the loop flag after one pass, with what the pass reported. */
  datatype Transition = Transition(todos: seq<string>, running: bool, outcome: Outcome)

  /** How a run of the menu loop ended: the final list, one report per pass, and whether "4" ended it. */
  datatype SessionEnd = SessionEnd(todos: seq<string>, outcomes: seq<Outcome>, stopped: bool)

  /** The tasks of `s` numbered consecutively from `first`, in order. */
  function Numbered(s: seq<string>, first: int): (entries: seq<Entry>)
    ensures |entries| == |s|
    ensures forall i :: 0 <= i < |s| ==> entries[i] == Entry(first + i, s[i])
    decreases |s|
  {
    if s == [] then [] else [Entry(first, s[0])] + Numbered(s[1..], first + 1)
  }

  /** `s` with the element at 0-based index `i` taken out; later elements move down by one. */
  function RemoveAt(s: seq<string>, i: int): (r: seq<string>)
    requires 0 <= i < |s|
    ensures |r| == |s| - 1
    ensures forall j :: 0 <= j < i ==> r[j] == s[j]
    ensures forall j :: i <= j < |r| ==> r[j] == s[j + 1]
    ensures multiset(r) + multiset{s[i]} == multiset(s)
  {
    assert s == s[..i] + [s[i]] + s[i + 1..];
    s[..i] + s[i + 1..]
  }

  /** The list and report after "mark task as complete" with task number `k`. */
  function CompleteSpec(todos: seq<string>, k: int): (r: (seq<string>, CompleteResult))
    ensures todos == [] ==> r == (todos, NothingToComplete)
    ensures todos != [] && (k < 1 || k > |todos|) ==> r == (todos, InvalidTaskNumber)
    ensures 1 <= k <= |todos| ==> r.1 == Completed(todos[k - 1]) && r.0 == RemoveAt(todos, k - 1)
  {
    if todos == [] then (todos, NothingToComplete)
    else if 1 <= k <= |todos| then (RemoveAt(todos, k - 1), Completed(todos[k - 1]))
    else (todos, InvalidTaskNumber)
  }

  /** One pass of the menu loop on the list `todos`, as a value. */
  function Next(todos: seq<string>, req: Request): (t: Transition)
    ensures t.running <==> req.choice != "4"
    ensures req.choice == "1" ==> t.todos == todos + [req.task] && t.outcome == TaskAdded
    ensures req.choice == "2" ==>
      t.todos == todos && t.outcome == Shown(if todos == [] then EmptyList else Listing(Numbered(todos, 1)))
    ensures req.choice == "3" ==>
      t.outcome.Completion? && (t.todos, t.outcome.result) == CompleteSpec(todos, req.taskNum)
    ensures req.choice == "3" ==> t.outcome.shown == Numbered(todos, 1)
    ensures req.choice !in {"1", "2", "3"} ==> t.todos == todos
    ensures req.choice == "4" ==> t.todos == todos && t.outcome == Goodbye
    ensures req.choice !in {"1", "2", "3", "4"} ==> t.outcome == InvalidChoice
  {
    match req.choice
    case "1" => Transition(todos + [req.task], true, TaskAdded)
    case "2" => Transition(todos, true, Shown(if todos == [] then EmptyList else Listing(Numbered(todos, 1))))
    case "3" =>
      var (rest, result) := CompleteSpec(todos, req.taskNum);
      Transition(rest, true, Completion(Numbered(todos, 1), result))
    case "4" => Transition(todos, false, Goodbye)
    case _ => Transition(todos, true, InvalidChoice)
  }

  /**
   * The menu loop run on `reqs` from the list `todos`: passes are taken in order until
   * choice "4" breaks the loop or the requests run out.
   */
  function Session(todos: seq<string>, reqs: seq<Request>): (r: SessionEnd)
    ensures |r.outcomes| <= |reqs|
    ensures r.stopped <==> exists i :: 0 <= i < |reqs| && reqs[i].choice == "4"
    ensures r.stopped ==> |r.outcomes| > 0 && reqs[|r.outcomes| - 1].choice == "4"
    ensures forall i :: 0 <= i < |r.outcomes| - 1 ==> reqs[i].choice != "4"
    ensures !r.stopped ==> |r.outcomes| == |reqs|
    decreases |reqs|
  {
    if reqs == [] then SessionEnd(todos, [], false)
    else
      var t := Next(todos, reqs[0]);
      if !t.running then SessionEnd(t.todos, [t.outcome], true)
      else
        var rest := Session(t.todos, reqs[1..]);
        assert forall i :: 1 <= i < |reqs| ==> reqs[i] == reqs[1..][i - 1];
        SessionEnd(rest.todos, [t.outcome] + rest.outcomes, rest.stopped)
  }

  /** Once "4" has ended the loop, whatever input would have followed is never read. */
  lemma {:induction false} StopIgnoresLaterInput(todos: seq<string>, reqs: seq<Request>, later: seq<Request>)
    requires Session(todos, reqs).stopped
    ensures Session(todos, reqs + later) == Session(todos, reqs)
    decreases |reqs|
  {
    var t := Next(todos, reqs[0]);
    assert (reqs + later)[0] == reqs[0];
    if t.running {
      assert (reqs + later)[1..] == reqs[1..] + later;
      StopIgnoresLaterInput(t.todos, reqs[1..], later);
    }
  }

  /** The request for "add a task" with description `task`. */
  function AddRequest(task: string): Request
  {
    Request("1", task, 0)
  }

  /** One "add a task" request per description in `tasks`, in order. */
  function AddRequests(tasks: seq<string>): seq<Request>
    decreases |tasks|
  {
    if tasks == [] then [] else [AddRequest(tasks[0])] + AddRequests(tasks[1..])
  }

  /** A pass that adds `task` hands the longer list on to the rest of the loop. */
  lemma SessionAfterAdd(todos: seq<string>, task: string, rest: seq<Request>)
    ensures Session(todos, [AddRequest(task)] + rest).todos == Session(todos + [task], rest).todos
  {
    assert ([AddRequest(task)] + rest)[1..] == rest;
  }

  /** Adding each of `tasks` in turn appends them, in order, after the existing tasks. */
  lemma {:induction false} AddsAppend(todos: seq<string>, tasks: seq<string>)
    ensures Session(todos, AddRequests(tasks)).todos == todos + tasks
    decreases |tasks|
  {
    if tasks == [] {
      assert todos + tasks == todos;
    } else {
      SessionAfterAdd(todos, tasks[0], AddRequests(tasks[1..]));
      AddsAppend(todos + [tasks[0]], tasks[1..]);
      assert todos + [tasks[0]] + tasks[1..] == todos + tasks;
    }
  }

  /** After adding `tasks` to an empty list, viewing lists exactly them, numbered 1..N in order. */
  lemma AddsThenView(tasks: seq<string>)
    ensures Next(Session([], AddRequests(tasks)).todos, Request("2", "", 0)).outcome
         == Shown(if tasks == [] then EmptyList else Listing(Numbered(tasks, 1)))
  {
    AddsAppend([], tasks);
    assert [] + tasks == tasks;
  }

  /**
   * The manager's state: the task list and whether the menu loop is still running.
   * The list is created empty at start-up and is lost when the program ends.
   */
  class TodoList {
    var todos: seq<string>
    var running: bool

    constructor ()
      ensures todos == [] && running
    {
      todos := [];
      running := true;
    }

    /** Choice "1": append `task` at the end; the earlier tasks keep their positions. */
    method Add(task: string)
      modifies this
      ensures todos == old(todos) + [task]
      ensures |todos| == |old(todos)| + 1 && todos[|todos| - 1] == task
      ensures forall i :: 0 <= i < |old(todos)| ==> todos[i] == old(todos)[i]
      ensures running == old(running)
    {
      todos := todos + [task];
    }

    /** Choice "2": the empty-list notice, or every task numbered from 1 in insertion order. */
    method View() returns (r: ViewResult)
      ensures r.EmptyList? <==> todos == []
      ensures r.Listing? ==> |r.entries| == |todos|
      ensures r.Listing? ==> forall i :: 0 <= i < |todos| ==> r.entries[i] == Entry(i + 1, todos[i])
    {
      if todos == [] {
        return EmptyList;
      }
      var entries: seq<Entry> := [];
      var i := 0;
      while i < |todos|
        invariant 0 <= i <= |todos|
        invariant |entries| == i
        invariant forall j :: 0 <= j < i ==> entries[j] == Entry(j + 1, todos[j])
      {
        entries := entries + [Entry(i + 1, todos[i])];
        i := i + 1;
      }
      r := Listing(entries);
    }

    /**
     * Choice "3" once the task number `k` is known: on a non-empty list with 1 <= k <= N,
     * remove and report the k-th task; otherwise report and change nothing.
     */
    method Complete(k: int) returns (r: CompleteResult)
      modifies this
      ensures old(todos) == [] ==> r == NothingToComplete && todos == old(todos)
      ensures old(todos) != [] && (k < 1 || k > |old(todos)|) ==> r == InvalidTaskNumber && todos == old(todos)
      ensures 1 <= k <= |old(todos)| ==>
        r == Completed(old(todos)[k - 1]) && todos == old(todos)[..k - 1] + old(todos)[k..]
      ensures (todos, r) == CompleteSpec(old(todos), k)
      ensures running == old(running)
    {
      if todos == [] {
        r := NothingToComplete;
      } else if 1 <= k <= |todos| {
        r := Completed(todos[k - 1]);
        todos := todos[..k - 1] + todos[k..];
      } else {
        r := InvalidTaskNumber;
      }
    }

    /** One pass of the menu loop: dispatch on the choice; only "4" stops the loop. */
    method Step(req: Request) returns (out: Outcome)
      requires running
      modifies this
      ensures Transition(todos, running, out) == Next(old(todos), req)
    {
      if req.choice == "1" {
        Add(req.task);
        out := TaskAdded;
      } else if req.choice == "2" {
        var v := View();
        out := Shown(v);
      } else if req.choice == "3" {
        var shown: seq<Entry> := [];
        if todos != [] {
          var v := View();
          shown := v.entries;
        }
        var result := Complete(req.taskNum);
        out := Completion(shown, result);
      } else if req.choice == "4" {
        running := false;
        out := Goodbye;
      } else {
        out := InvalidChoice;
      }
    }
  }

  /**
   * The whole to-do section of the script: start from an empty list and run the menu loop
   * on `reqs` until choice "4" or until the requests run out.
   */
  method Run(reqs: seq<Request>) returns (todos: seq<string>, outcomes: seq<Outcome>, stopped: bool)
    ensures SessionEnd(todos, outcomes, stopped) == Session([], reqs)
    ensures stopped <==> exists i :: 0 <= i < |reqs| && reqs[i].choice == "4"
  {
    var m := new TodoList();
    var i := 0;
    outcomes := [];
    while i < |reqs| && m.running
      invariant 0 <= i <= |reqs|
      invariant m.running ==>
        var rest := Session(m.todos, reqs[i..]);
        Session([], reqs) == SessionEnd(rest.todos, outcomes + rest.outcomes, rest.stopped)
      invariant !m.running ==> Session([], reqs) == SessionEnd(m.todos, outcomes, true)
      decreases |reqs| - i
    {
      assert reqs[i..][0] == reqs[i] && reqs[i..][1..] == reqs[i + 1..];
      var out := m.Step(reqs[i]);
      outcomes := outcomes + [out];
      i := i + 1;
    }
    if m.running {
      assert reqs[i..] == [];
    }
    todos, stopped := m.todos, !m.running;
  }
}
