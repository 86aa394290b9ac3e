# Daily briefing: greetings and to-do list manager

A Dafny model of a greeting helper that picks a greeting from a time-of-day key, and of a daily
briefing script that greets the user by the hour and then runs an in-memory to-do list from a menu.

- **The greetings module** (`6-modules-and-packages/greetings.py`): `get_greeting(name, time_of_day)`
  builds a table of four greetings keyed by "morning", "afternoon", "evening" and "day" and returns the
  entry for the key, or "Hello, <name>!" for any other key. Modelled in module `Greetings` as the pure
  function `GetGreeting`.
- **The daily briefing script** (`exercise_01_solution.py`):
  - the start-up greeting chosen from the hour (before 12: morning; before 17: afternoon; otherwise
    evening), modelled in module `Briefing` as `HourGreeting`, with a lemma that it agrees with
    `Greetings.GetGreeting` applied to the part of the day;
  - the to-do list manager, modelled in module `Todo`. The class `TodoList` holds the list of task
    descriptions (`todos: seq<string>`) and the loop flag `running`; its methods `Add`, `View` and
    `Complete` are the add, view and complete menu branches, and `Step` dispatches on the menu choice,
    handling exit ("4") and unrecognised choices itself. The pure functions
    `Next` (one pass of the menu loop) and `Session` (the loop run over a sequence of inputs) specify
    them, and the method `Run` is the whole `while True` loop started from an empty list, proved
    against `Session`.

Each pass of the loop reads a menu choice and, depending on it, a task description (choice "1") or a
task number (choice "3" on a non-empty list); the model takes the three as one `Request`. Console
output is modelled as returned `Outcome` values, one constructor per message the script prints.

## Model

| member | source | states |
|---|---|---|
| Greetings.GreetingsMap | 6-modules-and-packages/greetings.py:13-18 | the table has exactly the four keys morning, afternoon, evening, day |
| Greetings.GetGreeting | 6-modules-and-packages/greetings.py:11-19 | "morning", "afternoon", "evening" give "Good morning/afternoon/evening, name!"; the default key "day" and every key outside the table give "Hello, name!"; every result ends with name + "!" |
| Greetings.UnknownKeyIsDefault | 6-modules-and-packages/greetings.py:17-19 | a key missing from the table yields the same greeting as the default key "day" |
| Briefing.PartOfDay | exercise_01_solution.py:11-16 | the hour falls in exactly one of morning (< 12), afternoon (12 to 16), evening (>= 17) |
| Briefing.HourGreeting | exercise_01_solution.py:11-16 | hour < 12 gives "Good morning, name!", 12 <= hour < 17 "Good afternoon, name!", hour >= 17 "Good evening, name!" |
| Briefing.HourGreetingAgreesWithModule | exercise_01_solution.py:11-16 | the hour-based greeting equals the greetings module's greeting for the hour's part of the day |
| Briefing.HourGreetingDeterminesPart | exercise_01_solution.py:11-16 | two hours get the same greeting exactly when they fall in the same part of the day |
| Todo.Numbered | exercise_01_solution.py:62-63 | the listing has one entry per task, the i-th entry being the i-th task at position first + i, in insertion order |
| Todo.RemoveAt | exercise_01_solution.py:72 | removing index i shortens the list by one, keeps earlier tasks in place, shifts later tasks down by one, and takes out exactly that one task |
| Todo.CompleteSpec | exercise_01_solution.py:64-75 | empty list: "nothing to complete", list unchanged; position outside 1..N: "invalid task number", list unchanged; 1 <= k <= N: the k-th task is reported and removed |
| Todo.Next | exercise_01_solution.py:44-80 | only choice "4" stops the loop; "1" appends the task; "2" shows the empty notice or the tasks numbered from 1 and changes nothing; "3" shows the numbered list then completes as CompleteSpec says; "4" leaves the list unchanged and reports the farewell; unrecognised choices leave the list unchanged and report an invalid choice |
| Todo.Session | exercise_01_solution.py:44-80 | the loop stops exactly when some input is choice "4", after processing that input and nothing beyond it; otherwise it processes every input |
| Todo.StopIgnoresLaterInput | exercise_01_solution.py:76-78 | once choice "4" has broken the loop, further input changes neither the list nor the reports |
| Todo.SessionAfterAdd | exercise_01_solution.py:53-56 | a pass that adds a task continues the loop on the list extended by that task |
| Todo.AddsAppend | exercise_01_solution.py:53-56 | adding a sequence of tasks appends exactly those tasks, in order, after the existing ones |
| Todo.AddsThenView | exercise_01_solution.py:53-63 | viewing after adding tasks to an empty list lists exactly those tasks, numbered 1..N in the order added, and reports the empty list when none were added |
| Todo.TodoList.constructor | exercise_01_solution.py:42 | the list starts empty and the loop running |
| Todo.TodoList.Add | exercise_01_solution.py:53-56 | the task is appended at the end: length grows by one, the last task is the new one, earlier tasks are unchanged |
| Todo.TodoList.View | exercise_01_solution.py:57-63 | reports empty exactly when the list is empty; otherwise the pairs (i, todos[i-1]) for i = 1..N; the list is not changed |
| Todo.TodoList.Complete | exercise_01_solution.py:64-75 | removes and returns exactly todos[k-1] when 1 <= k <= N (new list todos[..k-1] + todos[k..]); otherwise reports nothing-to-complete or invalid number and leaves the list unchanged |
| Todo.TodoList.Step | exercise_01_solution.py:51-80 | the new list, loop flag and report are those of Next on the old list |
| Todo.Run | exercise_01_solution.py:42-80 | the loop from an empty list ends in the state and with the reports Session gives, and stops exactly when some input is choice "4" |

## Left out

- Reading the clock and formatting the date (`datetime.now()`, `strftime`): the hour is a parameter of `Briefing.HourGreeting`.
- The random choice of a motivational quote and the quote list: a nondeterministic library call over static data.
- All console printing and prompting, the banner, and the wording of the messages; `say_hello` and `say_goodbye`, which only print. Each message is an `Outcome` constructor instead.
- `Greetings.GetGreeting` takes the time of day explicitly; the Python default argument "day" is covered by the case for the key "day".
- Converting the typed task number with `int(...)`: the script does not catch a non-numeric entry, so such input raises and ends the program. `Request.taskNum` is the already-converted integer, and no recovery from that failure is modelled.
- The exception-handling demo `8-exception-handling/t.py` (console input and floating-point division) is not part of this model.
- `Todo.Run` and `Todo.Session` take the requests read so far: when the requests run out with `stopped == false`, the loop is still waiting at the menu prompt for its next choice. End of input (the unhandled `EOFError` from `input()`, which ends the script with a traceback) is not modelled.
