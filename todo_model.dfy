/** What the two list views share: a todo as the server returns it and the
    done/undone status filter, which both views send as `filters`. */
module TodoModel {
  import opened Json

  datatype Todo = Todo(id: string, item: string, isDone: bool, userId: string, ownerName: string)

  datatype StatusFilter = All | Done | Undone

  const IsDonePrefix := "{\"isDone\":"

  /** `JSON.stringify({ isDone: isDone })`: the key, the boolean literal and the
      closing brace; the literal is `true` exactly for a done filter. */
  function IsDoneFilter(isDone: bool): (r: string)
    ensures |r| > |IsDonePrefix| + 1
    ensures r[..|IsDonePrefix|] == IsDonePrefix && r[|r| - 1] == '}'
    ensures r[|IsDonePrefix|..|r| - 1] == (if isDone then "true" else "false")
  {
    IsDonePrefix + BoolLiteral(isDone) + "}"
  }

  /** The serialized filter is the literal text the todo view writes. */
  lemma IsDoneFilterText(isDone: bool)
    ensures IsDoneFilter(isDone) == if isDone then "{\"isDone\":true}" else "{\"isDone\":false}"
  {
  }
}
