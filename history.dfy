/**
 * The history page: the stored inspections, the search box over them,
 * delete, view, and the JSON export.
 */
module History {
  import opened Wrappers
  import opened Dates
  import opened ChecklistTypes
  import opened Storage
  import opened Inspections
  import opened PdfGenerator

  /** Download name of the JSON export, dated with the current day. */
  function ExportFileName(today: CalendarDate): string
  {
    "inspections-export-" + FormatIso(today) + ".json"
  }

  /** Exports of different days (four-digit years) get different names. */
  lemma ExportFileNameInjective(d1: CalendarDate, d2: CalendarDate)
    requires d1.year < 10000 && d2.year < 10000
    ensures ExportFileName(d1) == ExportFileName(d2) <==> d1 == d2
  {
    FormatIsoFields(d1);
    FormatIsoFields(d2);
    var f1, f2 := ExportFileName(d1), ExportFileName(d2);
    if f1 == f2 {
      assert f1[19..29] == FormatIso(d1);
      assert f2[19..29] == FormatIso(d2);
      FormatIsoInjective(d1, d2);
    }
  }

  const DETAIL_BADGE_CLASS := "px-2 py-0.5 rounded-full text-xs "

  /** One line of the details dialog: the property name, the badge class
      and the status text. */
  datatype DetailRow = DetailRow(key: string, badgeClass: string, status: string)

  /** `Object.entries(components)` in the dialog, in key order. */
  function DetailRows(c: Components): seq<DetailRow>
  {
    StatusTablesTotalAndDistinct();
    seq(|COMPONENT_KEYS|, i requires 0 <= i < |COMPONENT_KEYS| =>
      DetailRow(KeyName(COMPONENT_KEYS[i]),
                DETAIL_BADGE_CLASS + STATUS_COLORS[c.Status(COMPONENT_KEYS[i])],
                StatusName(c.Status(COMPONENT_KEYS[i]))))
  }

  /** Each dialog line shows a property of the stored record with that
      property's status, in that status's colour. */
  lemma DetailRowsShowRecord(c: Components)
    ensures |DetailRows(c)| == 7
    ensures forall i :: 0 <= i < |DetailRows(c)| ==>
      DetailRows(c)[i].key in ToRecord(c)
      && DetailRows(c)[i].status == StatusName(ToRecord(c)[DetailRows(c)[i].key])
      && DetailRows(c)[i].badgeClass == DETAIL_BADGE_CLASS + STATUS_COLORS[ToRecord(c)[DetailRows(c)[i].key]]
  {
    StatusTablesTotalAndDistinct();
    var rows, record := DetailRows(c), ToRecord(c);
    forall i | 0 <= i < |rows|
      ensures rows[i].key in record
      ensures rows[i].status == StatusName(record[rows[i].key])
      ensures rows[i].badgeClass == DETAIL_BADGE_CLASS + STATUS_COLORS[record[rows[i].key]]
    {
      assert rows[i].key == KeyName(COMPONENT_KEYS[i]);
    }
  }

  /** No property is listed twice. */
  lemma DetailRowsDistinct(c: Components)
    ensures forall i, j :: 0 <= i < j < |DetailRows(c)| ==> DetailRows(c)[i].key != DetailRows(c)[j].key
  {
    ComponentKeysComplete();
    var rows := DetailRows(c);
    forall i, j | 0 <= i < j < |rows|
      ensures rows[i].key != rows[j].key
    {
      assert rows[i].key == KeyName(COMPONENT_KEYS[i]);
      assert rows[j].key == KeyName(COMPONENT_KEYS[j]);
    }
  }

  /** Every property of the stored record is listed. */
  lemma DetailRowsCoverRecord(c: Components)
    ensures forall key :: key in ToRecord(c) ==>
      exists i :: 0 <= i < |DetailRows(c)| && DetailRows(c)[i].key == key
  {
    var rows := DetailRows(c);
    forall key | key in ToRecord(c)
      ensures exists i :: 0 <= i < |rows| && rows[i].key == key
    {
      var k: ComponentKey := if key == "admission" then Admission
        else if key == "gazoil" then Gazoil
        else if key == "exhaust" then Exhaust
        else if key == "hoses" then Hoses
        else if key == "structure" then Structure
        else if key == "chassis" then Chassis
        else SafetyEquipment;
      assert KeyName(k) == key;
      var i := match k
        case Admission => 0 case Gazoil => 1 case Exhaust => 2 case Hoses => 3
        case Structure => 4 case Chassis => 5 case SafetyEquipment => 6;
      assert COMPONENT_KEYS[i] == k;
      assert rows[i].key == KeyName(COMPONENT_KEYS[i]);
    }
  }

  class HistoryPage {
    const browser: Browser
    var searchTerm: string
    var checklists: seq<ChecklistEntry>
    var filteredChecklists: seq<ChecklistEntry>
    var selectedChecklist: Option<ChecklistEntry>

    /** The shown list is the search over the full list, as the search
        effect re-establishes after every change of either. */
    predicate FilterSettled()
      reads this
    {
      filteredChecklists == Search(checklists, searchTerm)
    }

    constructor(browser: Browser)
      ensures this.browser == browser
      ensures searchTerm == "" && checklists == [] && filteredChecklists == []
      ensures selectedChecklist == None
      ensures FilterSettled()
    {
      this.browser := browser;
      searchTerm := "";
      checklists := [];
      filteredChecklists := [];
      selectedChecklist := None;
    }

    /** The mount effect, followed by the search effect that the change of
        the full list triggers: a missing or empty slot shows nothing, a
        stored list is searched with the current term (and so shown whole
        for the empty term of a fresh page), and unparsable text throws
        before any state is set. */
    method Load() returns (r: Result<(), LoadError>)
      modifies this
      ensures browser.checklists.Absent? || browser.checklists.EmptyText? ==>
        r.Ok? && checklists == [] && filteredChecklists == []
      ensures browser.checklists.Stored? ==>
        r.Ok? && checklists == browser.checklists.value
      ensures r.Ok? ==> FilterSettled()
      ensures r.Ok? && searchTerm == "" ==> filteredChecklists == checklists
      ensures browser.checklists.Corrupt? ==>
        r.Err? && checklists == old(checklists) && filteredChecklists == old(filteredChecklists)
      ensures searchTerm == old(searchTerm) && selectedChecklist == old(selectedChecklist)
    {
      var loaded := ReadListOrEmpty(browser.checklists);
      if loaded.Err? {
        return Err(loaded.error);
      }
      checklists := loaded.value;
      filteredChecklists := loaded.value;
      filteredChecklists := Search(checklists, searchTerm);
      r := Ok(());
    }

    /** Typing in the search box, followed by the search effect. */
    method SetSearchTerm(term: string)
      modifies this
      ensures searchTerm == term && checklists == old(checklists)
      ensures selectedChecklist == old(selectedChecklist)
      ensures FilterSettled()
    {
      searchTerm := term;
      filteredChecklists := Search(checklists, searchTerm);
    }

    /** `handleDelete`: drop every entry with the id, persist the new list,
        and let the search effect refresh the shown list. */
    method Delete(id: string)
      modifies this, browser
      ensures checklists == WithoutId(old(checklists), id)
      ensures browser.checklists == Stored(checklists)
      ensures browser.revisionTypes == old(browser.revisionTypes)
      ensures browser.engineSerials == old(browser.engineSerials)
      ensures browser.darkMode == old(browser.darkMode) && browser.darkClass == old(browser.darkClass)
      ensures searchTerm == old(searchTerm) && selectedChecklist == old(selectedChecklist)
      ensures FilterSettled()
    {
      var newChecklists := WithoutId(checklists, id);
      checklists := newChecklists;
      browser.checklists := Stored(newChecklists);
      filteredChecklists := Search(checklists, searchTerm);
    }

    /** `handleView`: select the entry and render its report. */
    method View(entry: ChecklistEntry) returns (report: seq<DrawOp>)
      modifies this
      ensures selectedChecklist == Some(entry)
      ensures report == Document(entry)
      ensures checklists == old(checklists) && filteredChecklists == old(filteredChecklists)
      ensures searchTerm == old(searchTerm)
    {
      selectedChecklist := Some(entry);
      report := GeneratePdf(entry);
    }

    /** `handleDownload`: the whole in-memory list under a dated name. */
    method Download(today: CalendarDate) returns (fileName: string, exported: seq<ChecklistEntry>)
      ensures fileName == ExportFileName(today)
      ensures exported == checklists
    {
      fileName := ExportFileName(today);
      exported := checklists;
    }
  }

  /** Deleting from a settled page keeps exactly the remaining matches on
      screen: the entries shown afterwards are those shown before minus the
      deleted id. */
  lemma DeleteThenSearch(list: seq<ChecklistEntry>, id: string, term: string)
    ensures Search(WithoutId(list, id), term) == WithoutId(Search(list, term), id)
  {
    if term != "" {
      DeleteCommutesWithMatching(list, id, term);
    }
  }

  lemma {:induction false} DeleteCommutesWithMatching(list: seq<ChecklistEntry>, id: string, term: string)
    ensures Matching(WithoutId(list, id), term) == WithoutId(Matching(list, term), id)
    decreases |list|
  {
    if list != [] {
      DeleteCommutesWithMatching(list[1..], id, term);
    }
  }
}
