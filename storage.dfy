/**
 * The browser state the pages share: the named localStorage slots and the
 * "dark" class of the document element. The JSON text of a slot is
 * abstracted to what parsing it yields.
 */
module Storage {
  import opened Wrappers
  import opened ChecklistTypes

  /** What `localStorage.getItem(key)` holds: nothing (null), the empty
      string, the serialisation of a value, or text that `JSON.parse`
      rejects. */
  datatype Slot<T> = Absent | EmptyText | Stored(value: T) | Corrupt

  datatype LoadError = JsonParseError

  /** `saved ? JSON.parse(saved) : []`: a missing or empty slot reads as the
      empty list, a stored list as itself, and unparsable text throws. */
  function ReadListOrEmpty<T>(slot: Slot<seq<T>>): (r: Result<seq<T>, LoadError>)
    ensures r.Err? <==> slot.Corrupt?
    ensures r.Ok? && r.value != [] ==> slot == Stored(r.value)
  {
    match slot
    case Absent => Ok([])
    case EmptyText => Ok([])
    case Stored(v) => Ok(v)
    case Corrupt => Err(JsonParseError)
  }

  /** The slot a page writes with `setItem(key, JSON.stringify(list))`
      reads back as that list. */
  lemma WriteThenRead<T>(list: seq<T>)
    ensures ReadListOrEmpty(Stored(list)) == Ok(list)
  {
  }

  class Browser {
    /** localStorage "checklists" */
    var checklists: Slot<seq<ChecklistEntry>>
    /** localStorage "revisionTypes" */
    var revisionTypes: Slot<seq<string>>
    /** localStorage "engineSerials" */
    var engineSerials: Slot<seq<string>>
    /** localStorage "darkMode", a raw string */
    var darkMode: Option<string>
    /** whether `document.documentElement` carries the class "dark" */
    var darkClass: bool

    constructor(checklists: Slot<seq<ChecklistEntry>>, revisionTypes: Slot<seq<string>>,
                engineSerials: Slot<seq<string>>, darkMode: Option<string>)
      ensures this.checklists == checklists && this.revisionTypes == revisionTypes
      ensures this.engineSerials == engineSerials && this.darkMode == darkMode
      ensures !darkClass
    {
      this.checklists := checklists;
      this.revisionTypes := revisionTypes;
      this.engineSerials := engineSerials;
      this.darkMode := darkMode;
      this.darkClass := false;
    }
  }
}
