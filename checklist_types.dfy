/**
 * The record shape of one inspection and the status vocabulary with its
 * display tables.
 */
module ChecklistTypes {
  import opened Wrappers
  import opened Dates

  /** The closed condition rating of one component: good, fair, bad. */
  datatype ComponentStatus = Bon | Moyen | Mauvais

  const ALL_STATUSES: seq<ComponentStatus> := [Bon, Moyen, Mauvais]

  /** The spelling of a status as it is stored and printed. */
  function StatusName(s: ComponentStatus): string
  {
    match s
    case Bon => "bon"
    case Moyen => "moyen"
    case Mauvais => "mauvais"
  }

  /** The status a stored string denotes, if any. */
  function ParseStatus(text: string): (r: Option<ComponentStatus>)
    ensures r.Some? ==> StatusName(r.value) == text
    ensures r.None? ==> forall s :: StatusName(s) != text
  {
    if text == "bon" then Some(Bon)
    else if text == "moyen" then Some(Moyen)
    else if text == "mauvais" then Some(Mauvais)
    else None
  }

  /** Exactly three statuses, with three distinct spellings that read back. */
  lemma StatusVocabulary()
    ensures |ALL_STATUSES| == 3
    ensures forall s :: s in ALL_STATUSES
    ensures forall s :: ParseStatus(StatusName(s)) == Some(s)
    ensures forall s, t :: StatusName(s) == StatusName(t) ==> s == t
  {
    forall s ensures s in ALL_STATUSES {
      match s
      case Bon => assert ALL_STATUSES[0] == s;
      case Moyen => assert ALL_STATUSES[1] == s;
      case Mauvais => assert ALL_STATUSES[2] == s;
    }
  }

  /** The seven inspected subsystems, one status each. */
  datatype Components = Components(
    admission: ComponentStatus,
    gazoil: ComponentStatus,
    exhaust: ComponentStatus,
    hoses: ComponentStatus,
    structure: ComponentStatus,
    chassis: ComponentStatus,
    safetyEquipment: ComponentStatus)
  {
    /** The status held under one key. */
    function Status(k: ComponentKey): ComponentStatus
    {
      match k
      case Admission => admission
      case Gazoil => gazoil
      case Exhaust => exhaust
      case Hoses => hoses
      case Structure => structure
      case Chassis => chassis
      case SafetyEquipment => safetyEquipment
    }
  }

  /** The keys of the `components` object. */
  datatype ComponentKey = Admission | Gazoil | Exhaust | Hoses | Structure | Chassis | SafetyEquipment

  /** The keys in the order the interface declares them. `Object.entries` on
      a stored record follows the property order of the stored JSON text
      instead; the model lists the history dialog in this order. */
  const COMPONENT_KEYS: seq<ComponentKey> :=
    [Admission, Gazoil, Exhaust, Hoses, Structure, Chassis, SafetyEquipment]

  /** The property name of each key in the stored JSON object. */
  function KeyName(k: ComponentKey): string
  {
    match k
    case Admission => "admission"
    case Gazoil => "gazoil"
    case Exhaust => "exhaust"
    case Hoses => "hoses"
    case Structure => "structure"
    case Chassis => "chassis"
    case SafetyEquipment => "safetyEquipment"
  }

  const COMPONENT_PROPERTY_NAMES: set<string> :=
    {"admission", "gazoil", "exhaust", "hoses", "structure", "chassis", "safetyEquipment"}

  /** The `components` object as stored: its property set is exactly the
      seven names, and each name holds the status of its key. */
  function ToRecord(c: Components): (m: map<string, ComponentStatus>)
    ensures m.Keys == COMPONENT_PROPERTY_NAMES
    ensures forall k :: KeyName(k) in m && m[KeyName(k)] == c.Status(k)
  {
    map["admission" := c.admission, "gazoil" := c.gazoil, "exhaust" := c.exhaust,
        "hoses" := c.hoses, "structure" := c.structure, "chassis" := c.chassis,
        "safetyEquipment" := c.safetyEquipment]
  }

  /** Seven keys, each listed once, with seven distinct property names. */
  lemma ComponentKeysComplete()
    ensures |COMPONENT_KEYS| == 7
    ensures forall k :: k in COMPONENT_KEYS
    ensures forall i, j :: 0 <= i < j < |COMPONENT_KEYS| ==> COMPONENT_KEYS[i] != COMPONENT_KEYS[j]
    ensures forall k, l :: KeyName(k) == KeyName(l) ==> k == l
    ensures forall k :: KeyName(k) in COMPONENT_PROPERTY_NAMES
    ensures |COMPONENT_PROPERTY_NAMES| == 7
  {
    forall k ensures k in COMPONENT_KEYS {
      match k
      case Admission => assert COMPONENT_KEYS[0] == k;
      case Gazoil => assert COMPONENT_KEYS[1] == k;
      case Exhaust => assert COMPONENT_KEYS[2] == k;
      case Hoses => assert COMPONENT_KEYS[3] == k;
      case Structure => assert COMPONENT_KEYS[4] == k;
      case Chassis => assert COMPONENT_KEYS[5] == k;
      case SafetyEquipment => assert COMPONENT_KEYS[6] == k;
    }
    var m := ToRecord(Components(Bon, Bon, Bon, Bon, Bon, Bon, Bon));
    assert |m| == 7;
  }

  /** One inspection record. The field `type` of the stored object is called
      `revisionType` here, `type` being a Dafny keyword. */
  datatype ChecklistEntry = ChecklistEntry(
    id: string,
    date: CalendarDate,
    revisionType: string,
    serialNumber: string,
    hourCounter: int,
    components: Components,
    observations: string,
    photos: seq<string>)

  /** Badge classes used by the list views. */
  const STATUS_COLORS: map<ComponentStatus, string> :=
    map[Bon := "bg-green-100 text-green-800",
        Moyen := "bg-yellow-100 text-yellow-800",
        Mauvais := "bg-red-100 text-red-800"]

  /** Glyphs shown beside a status. */
  const STATUS_ICONS: map<ComponentStatus, string> :=
    map[Bon := "✓", Moyen := "⚠", Mauvais := "✕"]

  /** Both tables are defined on every status and give distinct values to
      distinct statuses. */
  lemma StatusTablesTotalAndDistinct()
    ensures forall s :: s in STATUS_COLORS && s in STATUS_ICONS
    ensures forall s, t :: STATUS_COLORS[s] == STATUS_COLORS[t] ==> s == t
    ensures forall s, t :: STATUS_ICONS[s] == STATUS_ICONS[t] ==> s == t
    ensures STATUS_ICONS[Bon] == "✓" && STATUS_ICONS[Moyen] == "⚠" && STATUS_ICONS[Mauvais] == "✕"
  {
    forall s ensures s in STATUS_COLORS && s in STATUS_ICONS {
      match s
      case Bon =>
      case Moyen =>
      case Mauvais =>
    }
  }

  /** The default revision types, in this order. */
  const REVISION_TYPES: seq<string> :=
    ["Préventive", "Corrective", "Complète", "Périodique", "Après panne"]

  lemma RevisionTypesDistinct()
    ensures |REVISION_TYPES| == 5
    ensures forall i, j :: 0 <= i < j < |REVISION_TYPES| ==> REVISION_TYPES[i] != REVISION_TYPES[j]
  {
  }
}
