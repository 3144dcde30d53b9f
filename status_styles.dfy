/**
 * The status and priority lookup tables of the client
 * (client/src/lib/utils.ts): colours and labels for each status, colours
 * for each priority, and the status options offered by the task form
 * (client/src/utils/constant.ts).
 */
module StatusStyles {
  import opened Wrappers
  import opened Domain
  import Kanban

  /** `getStatusColor`: badge colours; an unknown status gets the TODO colours. */
  function StatusColor(status: string): (r: string)
    ensures r == "bg-gray-100 text-gray-800" <==> !IsStatus(status) || status == "TODO"
  {
    match ParseStatus(status)
    case Some(Todo) => "bg-gray-100 text-gray-800"
    case Some(InProgress) => "bg-blue-100 text-blue-800"
    case Some(InReview) => "bg-yellow-100 text-yellow-800"
    case Some(Done) => "bg-green-100 text-green-800"
    case None => "bg-gray-100 text-gray-800"
  }

  /** `getPriorityColor`: defined for the three priorities only. */
  function PriorityColor(priority: string): (r: Option<string>)
    ensures r.None? <==> !IsPriority(priority)
  {
    match ParsePriority(priority)
    case Some(Low) => Some("bg-green-400")
    case Some(Medium) => Some("bg-orange-400")
    case Some(High) => Some("bg-red-400")
    case None => None
  }

  /** `getStatusColorCard`: card colours; an unknown status gets a colour of its own. */
  function StatusColorCard(status: string): (r: string)
    ensures r == "bg-gray-100 text-gray-800" <==> !IsStatus(status)
  {
    match ParseStatus(status)
    case Some(Todo) => "bg-neutral-700"
    case Some(InProgress) => "bg-sky-500"
    case Some(InReview) => "bg-yellow-500"
    case Some(Done) => "bg-green-500"
    case None => "bg-gray-100 text-gray-800"
  }

  /** `getStatusLabel`: the display name, or "Unknown". */
  function StatusLabel(status: string): (r: string)
    ensures r == "Unknown" <==> !IsStatus(status)
  {
    match ParseStatus(status)
    case Some(Todo) => "Todo"
    case Some(InProgress) => "In Progress"
    case Some(InReview) => "In Review"
    case Some(Done) => "Done"
    case None => "Unknown"
  }

  /** `getColumnColor`: lane border colours; an unknown status gets the TODO border. */
  function ColumnColor(status: string): (r: string)
    ensures r == "border-gray-200" <==> !IsStatus(status) || status == "TODO"
  {
    match ParseStatus(status)
    case Some(Todo) => "border-gray-200"
    case Some(InProgress) => "border-blue-200"
    case Some(InReview) => "border-yellow-200"
    case Some(Done) => "border-green-900"
    case None => "border-gray-200"
  }

  /** An entry of a select box: the stored value and the text shown. */
  datatype SelectOption = SelectOption(value: string, displayValue: string)

  /** `statusOptions` */
  const StatusOptions: seq<SelectOption> := [
    SelectOption("TODO", "Todo"),
    SelectOption("IN_PROGRESS", "In Progress"),
    SelectOption("IN_REVIEW", "In Review"),
    SelectOption("DONE", "Done")
  ]

  /** Unknown statuses fall back to the TODO entry in the badge and border tables. */
  lemma UnknownStatusFallsBackToTodo(status: string)
    requires !IsStatus(status)
    ensures StatusColor(status) == StatusColor(StatusWire(Todo))
    ensures ColumnColor(status) == ColumnColor(StatusWire(Todo))
  {
  }

  /** The card table's fallback differs from every status's card colour. */
  lemma UnknownCardColorIsDistinct(status: string, st: Status)
    requires !IsStatus(status)
    ensures StatusColorCard(status) != StatusColorCard(StatusWire(st))
  {
    ParseStatusWire(st);
  }

  /** Every table tells the four statuses apart. */
  lemma TablesSeparateStatuses(a: Status, b: Status)
    requires a != b
    ensures StatusColor(StatusWire(a)) != StatusColor(StatusWire(b))
    ensures StatusColorCard(StatusWire(a)) != StatusColorCard(StatusWire(b))
    ensures StatusLabel(StatusWire(a)) != StatusLabel(StatusWire(b))
    ensures ColumnColor(StatusWire(a)) != ColumnColor(StatusWire(b))
  {
    ParseStatusWire(a);
    ParseStatusWire(b);
  }

  /** The three priorities get three different colours. */
  lemma PriorityColorsDistinct(a: Priority, b: Priority)
    requires a != b
    ensures PriorityColor(PriorityWire(a)).Some? && PriorityColor(PriorityWire(b)).Some?
    ensures PriorityColor(PriorityWire(a)) != PriorityColor(PriorityWire(b))
  {
    ParsePriorityWire(a);
    ParsePriorityWire(b);
  }

  /**
   * The label of a status, the form's option for it and the board's lane for
   * it all show the same text, in the same order.
   */
  lemma LabelsAgree()
    ensures |StatusOptions| == |Kanban.Columns|
    ensures forall i :: 0 <= i < |StatusOptions| ==>
      && StatusOptions[i].value == StatusWire(Kanban.Columns[i].status)
      && StatusLabel(StatusOptions[i].value) == StatusOptions[i].displayValue
      && StatusOptions[i].displayValue == Kanban.Columns[i].columnName
  {
  }
}
