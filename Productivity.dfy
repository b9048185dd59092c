/**
 * The task list and note pad of the productivity hub screen. The screen's state is a
 * class; its handlers replace the task list with pure transforms of the old list.
 */
module Productivity {
  import opened Wrappers
  import opened Text

  datatype Priority = High | Medium | Low

  /** The string value of a priority, as the `<select>` and the task records carry it. */
  function PriorityName(p: Priority): string {
    match p
    case High => "high"
    case Medium => "medium"
    case Low => "low"
  }

  datatype Task = Task(id: string, text: string, completed: bool, priority: Priority, dueDate: Option<string>)

  datatype Note = Note(id: string, title: string, content: string, createdAt: string)

  const InitialTasks: seq<Task> := [
    Task("1", "Review project proposal", false, High, Some("2024-01-15")),
    Task("2", "Send follow-up emails", false, Medium, None),
    Task("3", "Update task management system", true, Low, None)
  ]

  const InitialNotes: seq<Note> := [
    Note("1", "Meeting Notes", "Discussed project timeline and deliverables...", "2024-01-14"),
    Note("2", "Ideas", "New feature ideas for the productivity app...", "2024-01-13")
  ]

  const Gray := "text-gray-500"

  /** The text colour class shown beside a task of the given priority. */
  function PriorityColor(priority: string): (r: string)
    ensures r == Gray <==> priority !in {"high", "medium", "low"}
  {
    match priority
    case "high" => "text-red-500"
    case "medium" => "text-yellow-500"
    case "low" => "text-green-500"
    case _ => Gray
  }

  /** Every priority a task can carry has its own colour, and none of them is the fallback grey. */
  lemma PriorityColorsDistinct(p: Priority, q: Priority)
    ensures PriorityColor(PriorityName(p)) != Gray
    ensures PriorityColor(PriorityName(p)) == PriorityColor(PriorityName(q)) <==> p == q
  {
  }

  /** One task after `toggleTask(id)`: the flag flips when the id matches. */
  function ToggledTask(t: Task, id: string): Task {
    if t.id == id then t.(completed := !t.completed) else t
  }

  /** `tasks.map(...)` in `toggleTask(id)`: only the completion flag of the tasks with that id changes. */
  function ToggledTasks(tasks: seq<Task>, id: string): (r: seq<Task>)
    ensures |r| == |tasks|
    ensures forall i :: 0 <= i < |tasks| ==> r[i] == tasks[i].(completed := r[i].completed)
    ensures forall i :: 0 <= i < |tasks| ==> (r[i].completed != tasks[i].completed <==> tasks[i].id == id)
  {
    if tasks == [] then [] else [ToggledTask(tasks[0], id)] + ToggledTasks(tasks[1..], id)
  }

  /** Toggling the same id twice gives back the original list. */
  lemma ToggleTwice(tasks: seq<Task>, id: string)
    ensures ToggledTasks(ToggledTasks(tasks, id), id) == tasks
  {
    var once := ToggledTasks(tasks, id);
    var twice := ToggledTasks(once, id);
    forall i | 0 <= i < |tasks| ensures twice[i] == tasks[i] {
      assert once[i] == tasks[i].(completed := once[i].completed);
      assert twice[i] == once[i].(completed := twice[i].completed);
    }
  }

  /** `tasks.filter(task => task.id !== id)` in `deleteTask(id)`. */
  function DeletedTasks(tasks: seq<Task>, id: string): (r: seq<Task>)
    ensures forall t :: t in r <==> t in tasks && t.id != id
    ensures |r| <= |tasks|
  {
    if tasks == [] then []
    else (if tasks[0].id == id then [] else [tasks[0]]) + DeletedTasks(tasks[1..], id)
  }

  /** The number of tasks carrying the id `id` whose completion flag is `completed`. */
  function CountWithId(tasks: seq<Task>, id: string, completed: bool): nat {
    if tasks == [] then 0
    else (if tasks[0].id == id && tasks[0].completed == completed then 1 else 0) + CountWithId(tasks[1..], id, completed)
  }

  /** Deleting removes exactly the tasks with that id. */
  lemma {:induction false} DeletedLength(tasks: seq<Task>, id: string)
    ensures |DeletedTasks(tasks, id)| == |tasks| - CountWithId(tasks, id, true) - CountWithId(tasks, id, false)
  {
    if tasks != [] {
      DeletedLength(tasks[1..], id);
    }
  }

  /** Deleting distributes over concatenation, so the kept tasks stay in their original order. */
  lemma {:induction false} DeletedAppend(a: seq<Task>, b: seq<Task>, id: string)
    ensures DeletedTasks(a + b, id) == DeletedTasks(a, id) + DeletedTasks(b, id)
  {
    if a == [] {
      assert a + b == b;
    } else {
      assert (a + b)[1..] == a[1..] + b;
      DeletedAppend(a[1..], b, id);
    }
  }

  /** Deleting an id that no task carries changes nothing. */
  lemma {:induction false} DeleteAbsent(tasks: seq<Task>, id: string)
    requires forall i :: 0 <= i < |tasks| ==> tasks[i].id != id
    ensures DeletedTasks(tasks, id) == tasks
  {
    if tasks != [] {
      DeleteAbsent(tasks[1..], id);
    }
  }

  /** Deleting twice is deleting once. */
  lemma DeleteIdempotent(tasks: seq<Task>, id: string)
    ensures DeletedTasks(DeletedTasks(tasks, id), id) == DeletedTasks(tasks, id)
  {
    var r := DeletedTasks(tasks, id);
    forall i | 0 <= i < |r| ensures r[i].id != id {
      assert r[i] in r;
    }
    DeleteAbsent(r, id);
  }

  /** `tasks.filter(t => !t.completed).length`: the number shown as "pending". */
  function PendingCount(tasks: seq<Task>): (n: nat)
    ensures n <= |tasks|
  {
    if tasks == [] then 0
    else (if tasks[0].completed then 0 else 1) + PendingCount(tasks[1..])
  }

  /** The pending count never exceeds the number of tasks, and equals it exactly when none is completed. */
  lemma {:induction false} PendingBounds(tasks: seq<Task>)
    ensures PendingCount(tasks) <= |tasks|
    ensures PendingCount(tasks) == |tasks| <==> forall i :: 0 <= i < |tasks| ==> !tasks[i].completed
  {
    if tasks != [] {
      PendingBounds(tasks[1..]);
      assert forall i :: 1 <= i < |tasks| ==> tasks[i] == tasks[1..][i - 1];
    }
  }

  /** Toggling an id makes every completed task with it pending and every pending one completed. */
  lemma {:induction false} PendingAfterToggle(tasks: seq<Task>, id: string)
    ensures PendingCount(ToggledTasks(tasks, id)) + CountWithId(tasks, id, false)
         == PendingCount(tasks) + CountWithId(tasks, id, true)
  {
    if tasks != [] {
      PendingAfterToggle(tasks[1..], id);
      assert ToggledTasks(tasks, id)[1..] == ToggledTasks(tasks[1..], id);
    }
  }

  /** The state of the productivity hub screen. */
  class ProductivityHub {
    var tasks: seq<Task>
    var notes: seq<Note>
    var newTask: string
    var newTaskPriority: Priority
    var selectedNote: Option<Note>
    var isCreatingNote: bool
    var newNoteTitle: string
    var newNoteContent: string

    constructor ()
      ensures tasks == InitialTasks && notes == InitialNotes
      ensures newTask == "" && newTaskPriority == Medium
      ensures selectedNote == None && !isCreatingNote
      ensures newNoteTitle == "" && newNoteContent == ""
    {
      tasks := InitialTasks;
      notes := InitialNotes;
      newTask := "";
      newTaskPriority := Medium;
      selectedNote := None;
      isCreatingNote := false;
      newNoteTitle := "";
      newNoteContent := "";
    }

    /** The count shown beside the list heading. */
    function Pending(): (n: nat)
      reads this
      ensures n <= |tasks|
    {
      PendingBounds(tasks);
      PendingCount(tasks)
    }

    /** Typing into the new-task input. */
    method SetNewTask(text: string)
      modifies this`newTask
      ensures newTask == text
    {
      newTask := text;
    }

    /** Choosing a priority in the select box. */
    method SetNewTaskPriority(p: Priority)
      modifies this`newTaskPriority
      ensures newTaskPriority == p
    {
      newTaskPriority := p;
    }

    /**
     * `addTask`: a blank input changes nothing; otherwise a pending task with the untrimmed
     * text and the selected priority goes in front of the old tasks and the input is cleared.
     * `id` stands for the `Date.now()` string.
     */
    method AddTask(id: string)
      modifies this`tasks, this`newTask
      ensures IsBlank(old(newTask)) ==> tasks == old(tasks) && newTask == old(newTask)
      ensures !IsBlank(old(newTask)) ==>
        && tasks == [Task(id, old(newTask), false, newTaskPriority, None)] + old(tasks)
        && newTask == ""
        && PendingCount(tasks) == PendingCount(old(tasks)) + 1
    {
      if !IsBlank(newTask) {
        var task := Task(id, newTask, false, newTaskPriority, None);
        assert ([task] + tasks)[1..] == tasks;
        tasks := [task] + tasks;
        newTask := "";
      }
    }

    /** A key press in the new-task input: Enter adds the task, every other key does nothing. */
    method NewTaskKeyPress(key: string, id: string)
      modifies this`tasks, this`newTask
      ensures key == "Enter" && !IsBlank(old(newTask)) ==>
        tasks == [Task(id, old(newTask), false, newTaskPriority, None)] + old(tasks) && newTask == ""
      ensures key != "Enter" || IsBlank(old(newTask)) ==> tasks == old(tasks) && newTask == old(newTask)
    {
      if key == "Enter" {
        AddTask(id);
      }
    }

    /** `toggleTask(id)` */
    method ToggleTask(id: string)
      modifies this`tasks
      ensures tasks == ToggledTasks(old(tasks), id)
    {
      tasks := ToggledTasks(tasks, id);
    }

    /** `deleteTask(id)` */
    method DeleteTask(id: string)
      modifies this`tasks
      ensures tasks == DeletedTasks(old(tasks), id)
      ensures forall t :: t in tasks ==> t.id != id
    {
      tasks := DeletedTasks(tasks, id);
    }

    /** The "New Note" button opens the note form. */
    method OpenNoteForm()
      modifies this`isCreatingNote
      ensures isCreatingNote
    {
      isCreatingNote := true;
    }

    method SetNoteTitle(title: string)
      modifies this`newNoteTitle
      ensures newNoteTitle == title
    {
      newNoteTitle := title;
    }

    method SetNoteContent(content: string)
      modifies this`newNoteContent
      ensures newNoteContent == content
    {
      newNoteContent := content;
    }

    /**
     * `addNote`: with a blank title or blank content nothing changes; otherwise the note goes
     * in front of the old notes, dated with the date part of `nowIso` (the `toISOString()`
     * of the current time), and the form is cleared and closed.
     */
    method AddNote(id: string, nowIso: string)
      modifies this`notes, this`newNoteTitle, this`newNoteContent, this`isCreatingNote
      ensures IsBlank(old(newNoteTitle)) || IsBlank(old(newNoteContent)) ==>
        && notes == old(notes) && newNoteTitle == old(newNoteTitle)
        && newNoteContent == old(newNoteContent) && isCreatingNote == old(isCreatingNote)
      ensures !IsBlank(old(newNoteTitle)) && !IsBlank(old(newNoteContent)) ==>
        && notes == [Note(id, old(newNoteTitle), old(newNoteContent), DatePart(nowIso))] + old(notes)
        && newNoteTitle == "" && newNoteContent == "" && !isCreatingNote
    {
      if !IsBlank(newNoteTitle) && !IsBlank(newNoteContent) {
        var note := Note(id, newNoteTitle, newNoteContent, DatePart(nowIso));
        notes := [note] + notes;
        newNoteTitle := "";
        newNoteContent := "";
        isCreatingNote := false;
      }
    }

    /** The form's Cancel button: closes the form and clears both fields. */
    method CancelNote()
      modifies this`newNoteTitle, this`newNoteContent, this`isCreatingNote
      ensures newNoteTitle == "" && newNoteContent == "" && !isCreatingNote
    {
      isCreatingNote := false;
      newNoteTitle := "";
      newNoteContent := "";
    }

    /** Clicking a note opens it in the detail view. */
    method SelectNote(note: Note)
      modifies this`selectedNote
      ensures selectedNote == Some(note)
    {
      selectedNote := Some(note);
    }

    /** Closing the detail view. */
    method CloseNote()
      modifies this`selectedNote
      ensures selectedNote == None
    {
      selectedNote := None;
    }
  }
}
