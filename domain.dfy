/**
 * The records the client works with (client/src/types/types.ts) and the
 * status and priority enumerations with their wire strings.
 *
 * A task's `status` and `priority` are kept as the strings the server sent:
 * the board and the chart are defined for any string, and what they do with
 * a value outside the enumeration is part of what is modelled.
 */
module Domain {
  import opened Wrappers

  /** The four task statuses, in board order. */
  datatype Status = Todo | InProgress | InReview | Done

  const AllStatuses: seq<Status> := [Todo, InProgress, InReview, Done]

  /** The status as it travels on the wire and is stored. */
  function StatusWire(st: Status): string
  {
    match st
    case Todo => "TODO"
    case InProgress => "IN_PROGRESS"
    case InReview => "IN_REVIEW"
    case Done => "DONE"
  }

  /** Reads a wire string back as a status; None for any other string. */
  function ParseStatus(s: string): (r: Option<Status>)
    ensures r.Some? ==> StatusWire(r.value) == s
    ensures r.None? ==> forall st: Status :: StatusWire(st) != s
  {
    if s == "TODO" then Some(Todo)
    else if s == "IN_PROGRESS" then Some(InProgress)
    else if s == "IN_REVIEW" then Some(InReview)
    else if s == "DONE" then Some(Done)
    else None
  }

  lemma ParseStatusWire(st: Status)
    ensures ParseStatus(StatusWire(st)) == Some(st)
  {
  }

  predicate IsStatus(s: string)
  {
    ParseStatus(s).Some?
  }

  /** The three priorities. */
  datatype Priority = Low | Medium | High

  function PriorityWire(p: Priority): string
  {
    match p
    case Low => "low"
    case Medium => "medium"
    case High => "high"
  }

  function ParsePriority(s: string): (r: Option<Priority>)
    ensures r.Some? ==> PriorityWire(r.value) == s
    ensures r.None? ==> forall p: Priority :: PriorityWire(p) != s
  {
    if s == "low" then Some(Low)
    else if s == "medium" then Some(Medium)
    else if s == "high" then Some(High)
    else None
  }

  lemma ParsePriorityWire(p: Priority)
    ensures ParsePriority(PriorityWire(p)) == Some(p)
  {
  }

  predicate IsPriority(s: string)
  {
    ParsePriority(s).Some?
  }

  /** `toLowerCase` on the ASCII letters; every other character is kept. */
  function LowerChar(c: char): char
  {
    if 'A' <= c <= 'Z' then (c as int + 32) as char else c
  }

  function Lower(s: string): (r: string)
    ensures |r| == |s|
    ensures forall i :: 0 <= i < |s| ==> r[i] == LowerChar(s[i])
    ensures forall i :: 0 <= i < |r| ==> !('A' <= r[i] <= 'Z')
  {
    seq(|s|, i requires 0 <= i < |s| => LowerChar(s[i]))
  }

  datatype Task = Task(
    id: string,
    taskName: string,
    description: string,
    projectId: string,
    status: string,
    priority: string,
    dueDate: string,
    createdAt: string,
    updatedAt: string)

  datatype Project = Project(
    id: string,
    projectName: string,
    description: string,
    createdAt: string,
    updatedAt: string,
    userId: string,
    isPublic: bool,
    isArchived: bool)

  datatype User = User(id: string, email: string, name: string)

  /** The predicate `task => task.id === id`. */
  function HasId(id: string): Task -> bool
  {
    (t: Task) => t.id == id
  }

  /** The predicate `task => task.status === status`. */
  function HasStatus(status: string): Task -> bool
  {
    (t: Task) => t.status == status
  }
}
