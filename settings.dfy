/**
 * The settings page: the editable lists of revision types and engine
 * serial numbers, the dark-mode switch, and the export of all data.
 */
module Settings {
  import opened Wrappers
  import opened Text
  import opened ChecklistTypes
  import opened Storage

  /** `b.toString()` for a boolean; the read side compares with "true". */
  function ShowBool(b: bool): (r: string)
    ensures LoadDarkMode(Some(r)) == b
  {
    if b then "true" else "false"
  }

  /** `localStorage.getItem("darkMode") === "true"`. */
  predicate LoadDarkMode(stored: Option<string>)
  {
    stored == Some("true")
  }

  /** `list.filter((_, i) => i !== index)`. */
  function RemoveAt<T>(list: seq<T>, index: int): (r: seq<T>)
    ensures |r| <= |list|
    ensures forall x :: x in r ==> x in list
    decreases |list|
  {
    if list == [] then []
    else (if index == 0 then [] else [list[0]]) + RemoveAt(list[1..], index - 1)
  }

  /** Removing a shown position deletes that one element and keeps the
      order of the rest; any other index leaves the list as it is. */
  lemma {:induction false} RemoveAtSplice<T>(list: seq<T>, index: int)
    ensures 0 <= index < |list| ==> RemoveAt(list, index) == list[..index] + list[index + 1..]
    ensures !(0 <= index < |list|) ==> RemoveAt(list, index) == list
    decreases |list|
  {
    if list != [] {
      RemoveAtSplice(list[1..], index - 1);
      if 0 < index < |list| {
        assert list[1..][..index - 1] == list[1..index];
        assert list[1..][index..] == list[index + 1..];
        assert [list[0]] + list[1..index] == list[..index];
      } else if index != 0 {
        assert [list[0]] + list[1..] == list;
      }
    }
  }

  /** What the export button downloads. */
  datatype ExportBundle = ExportBundle(
    checklists: seq<ChecklistEntry>,
    revisionTypes: seq<string>,
    engineSerials: seq<string>)

  const EXPORT_FILE_NAME: string := "checklist-data-export.json"

  class SettingsPage {
    const browser: Browser
    var revisionTypes: seq<string>
    var newRevisionType: string
    var engineSerials: seq<string>
    var newEngineSerial: string
    var darkMode: bool

    /** The page state agrees with what a reload would read from storage. */
    predicate InSync()
      reads this, browser
    {
      && ReadListOrEmpty(browser.revisionTypes) == Ok(revisionTypes)
      && ReadListOrEmpty(browser.engineSerials) == Ok(engineSerials)
      && LoadDarkMode(browser.darkMode) == darkMode
      && browser.darkClass == darkMode
    }

    constructor(browser: Browser)
      ensures this.browser == browser
      ensures revisionTypes == [] && engineSerials == []
      ensures newRevisionType == "" && newEngineSerial == ""
      ensures !darkMode
    {
      this.browser := browser;
      revisionTypes := [];
      newRevisionType := "";
      engineSerials := [];
      newEngineSerial := "";
      darkMode := false;
    }

    /** The mount effect. A missing or empty "revisionTypes" slot is seeded
        with the defaults, which are also written back; a stored list is
        kept. A missing or empty "engineSerials" slot leaves the serials
        as they were. Unparsable text in either slot throws at that point,
        and nothing after it runs. */
    method Mount() returns (r: Result<(), LoadError>)
      modifies this, browser
      ensures r.Ok? <==> !old(browser.revisionTypes).Corrupt? && !old(browser.engineSerials).Corrupt?
      ensures old(browser.revisionTypes).Corrupt? ==>
        revisionTypes == old(revisionTypes) && engineSerials == old(engineSerials)
        && darkMode == old(darkMode) && browser.revisionTypes == old(browser.revisionTypes)
        && browser.darkClass == old(browser.darkClass)
      ensures old(browser.revisionTypes).Absent? || old(browser.revisionTypes).EmptyText? ==>
        revisionTypes == REVISION_TYPES && browser.revisionTypes == Stored(REVISION_TYPES)
      ensures old(browser.revisionTypes).Stored? ==>
        revisionTypes == old(browser.revisionTypes).value && browser.revisionTypes == old(browser.revisionTypes)
      ensures !old(browser.revisionTypes).Corrupt? ==>
        (old(browser.engineSerials).Stored? ==> engineSerials == old(browser.engineSerials).value)
        && (!old(browser.engineSerials).Stored? ==> engineSerials == old(engineSerials))
      ensures old(browser.engineSerials).Corrupt? ==>
        darkMode == old(darkMode) && browser.darkClass == old(browser.darkClass)
      ensures r.Ok? ==> darkMode == LoadDarkMode(browser.darkMode) && browser.darkClass == darkMode
      ensures r.Ok? && old(engineSerials) == [] ==> InSync()
      ensures browser.checklists == old(browser.checklists) && browser.engineSerials == old(browser.engineSerials)
      ensures browser.darkMode == old(browser.darkMode)
      ensures newRevisionType == old(newRevisionType) && newEngineSerial == old(newEngineSerial)
    {
      match browser.revisionTypes {
        case Corrupt =>
          return Err(JsonParseError);
        case Stored(v) =>
          revisionTypes := v;
        case _ =>
          revisionTypes := REVISION_TYPES;
          browser.revisionTypes := Stored(REVISION_TYPES);
      }
      match browser.engineSerials {
        case Corrupt =>
          return Err(JsonParseError);
        case Stored(v) =>
          engineSerials := v;
        case _ =>
      }
      var isDark := LoadDarkMode(browser.darkMode);
      darkMode := isDark;
      browser.darkClass := isDark;
      r := Ok(());
    }

    method SetNewRevisionType(value: string)
      modifies this
      ensures newRevisionType == value
      ensures revisionTypes == old(revisionTypes) && engineSerials == old(engineSerials)
      ensures newEngineSerial == old(newEngineSerial) && darkMode == old(darkMode)
    {
      newRevisionType := value;
    }

    method SetNewEngineSerial(value: string)
      modifies this
      ensures newEngineSerial == value
      ensures revisionTypes == old(revisionTypes) && engineSerials == old(engineSerials)
      ensures newRevisionType == old(newRevisionType) && darkMode == old(darkMode)
    {
      newEngineSerial := value;
    }

    /** `handleAddRevisionType`: a blank input is ignored; otherwise the
        input, untrimmed, is appended, persisted, and the input cleared. */
    method AddRevisionType()
      modifies this, browser
      ensures IsBlank(old(newRevisionType)) ==>
        revisionTypes == old(revisionTypes) && newRevisionType == old(newRevisionType)
        && browser.revisionTypes == old(browser.revisionTypes)
      ensures !IsBlank(old(newRevisionType)) ==>
        revisionTypes == old(revisionTypes) + [old(newRevisionType)] && newRevisionType == ""
        && browser.revisionTypes == Stored(revisionTypes)
      ensures engineSerials == old(engineSerials) && newEngineSerial == old(newEngineSerial)
      ensures darkMode == old(darkMode)
      ensures browser.checklists == old(browser.checklists) && browser.engineSerials == old(browser.engineSerials)
      ensures browser.darkMode == old(browser.darkMode) && browser.darkClass == old(browser.darkClass)
      ensures old(InSync()) ==> InSync()
    {
      TrimEmptyIffBlank(newRevisionType);
      if Trim(newRevisionType) == [] {
        return;
      }
      var updatedTypes := revisionTypes + [newRevisionType];
      revisionTypes := updatedTypes;
      browser.revisionTypes := Stored(updatedTypes);
      newRevisionType := "";
    }

    /** `handleRemoveRevisionType`: drop the element at `index`, persist. */
    method RemoveRevisionType(index: int)
      modifies this, browser
      ensures revisionTypes == RemoveAt(old(revisionTypes), index)
      ensures 0 <= index < |old(revisionTypes)| ==>
        revisionTypes == old(revisionTypes)[..index] + old(revisionTypes)[index + 1..]
      ensures browser.revisionTypes == Stored(revisionTypes)
      ensures engineSerials == old(engineSerials) && newEngineSerial == old(newEngineSerial)
      ensures newRevisionType == old(newRevisionType) && darkMode == old(darkMode)
      ensures browser.checklists == old(browser.checklists) && browser.engineSerials == old(browser.engineSerials)
      ensures browser.darkMode == old(browser.darkMode) && browser.darkClass == old(browser.darkClass)
      ensures old(InSync()) ==> InSync()
    {
      RemoveAtSplice(revisionTypes, index);
      var updatedTypes := RemoveAt(revisionTypes, index);
      revisionTypes := updatedTypes;
      browser.revisionTypes := Stored(updatedTypes);
    }

    /** `handleAddEngineSerial`: as for revision types. */
    method AddEngineSerial()
      modifies this, browser
      ensures IsBlank(old(newEngineSerial)) ==>
        engineSerials == old(engineSerials) && newEngineSerial == old(newEngineSerial)
        && browser.engineSerials == old(browser.engineSerials)
      ensures !IsBlank(old(newEngineSerial)) ==>
        engineSerials == old(engineSerials) + [old(newEngineSerial)] && newEngineSerial == ""
        && browser.engineSerials == Stored(engineSerials)
      ensures revisionTypes == old(revisionTypes) && newRevisionType == old(newRevisionType)
      ensures darkMode == old(darkMode)
      ensures browser.checklists == old(browser.checklists) && browser.revisionTypes == old(browser.revisionTypes)
      ensures browser.darkMode == old(browser.darkMode) && browser.darkClass == old(browser.darkClass)
      ensures old(InSync()) ==> InSync()
    {
      TrimEmptyIffBlank(newEngineSerial);
      if Trim(newEngineSerial) == [] {
        return;
      }
      var updatedSerials := engineSerials + [newEngineSerial];
      engineSerials := updatedSerials;
      browser.engineSerials := Stored(updatedSerials);
      newEngineSerial := "";
    }

    /** `handleRemoveEngineSerial`: as for revision types. */
    method RemoveEngineSerial(index: int)
      modifies this, browser
      ensures engineSerials == RemoveAt(old(engineSerials), index)
      ensures 0 <= index < |old(engineSerials)| ==>
        engineSerials == old(engineSerials)[..index] + old(engineSerials)[index + 1..]
      ensures browser.engineSerials == Stored(engineSerials)
      ensures revisionTypes == old(revisionTypes) && newRevisionType == old(newRevisionType)
      ensures newEngineSerial == old(newEngineSerial) && darkMode == old(darkMode)
      ensures browser.checklists == old(browser.checklists) && browser.revisionTypes == old(browser.revisionTypes)
      ensures browser.darkMode == old(browser.darkMode) && browser.darkClass == old(browser.darkClass)
      ensures old(InSync()) ==> InSync()
    {
      RemoveAtSplice(engineSerials, index);
      var updatedSerials := RemoveAt(engineSerials, index);
      engineSerials := updatedSerials;
      browser.engineSerials := Stored(updatedSerials);
    }

    /** `handleToggleDarkMode`: flip, persist as text, and set the class. */
    method ToggleDarkMode()
      modifies this, browser
      ensures darkMode == !old(darkMode)
      ensures browser.darkMode == Some(ShowBool(darkMode))
      ensures LoadDarkMode(browser.darkMode) == darkMode
      ensures browser.darkClass == darkMode
      ensures revisionTypes == old(revisionTypes) && engineSerials == old(engineSerials)
      ensures newRevisionType == old(newRevisionType) && newEngineSerial == old(newEngineSerial)
      ensures browser.checklists == old(browser.checklists)
      ensures browser.revisionTypes == old(browser.revisionTypes) && browser.engineSerials == old(browser.engineSerials)
      ensures old(InSync()) ==> InSync()
    {
      var newDarkMode := !darkMode;
      darkMode := newDarkMode;
      browser.darkMode := Some(ShowBool(newDarkMode));
      browser.darkClass := newDarkMode;
    }

    /** `handleExportData`: the stored inspections (a missing or empty slot
        counts as "[]") with the two lists as the page shows them. */
    method ExportData() returns (fileName: string, r: Result<ExportBundle, LoadError>)
      ensures fileName == EXPORT_FILE_NAME
      ensures r.Err? <==> browser.checklists.Corrupt?
      ensures r.Ok? ==> r.value.revisionTypes == revisionTypes && r.value.engineSerials == engineSerials
      ensures r.Ok? && browser.checklists.Stored? ==> r.value.checklists == browser.checklists.value
      ensures r.Ok? && !browser.checklists.Stored? ==> r.value.checklists == []
    {
      fileName := EXPORT_FILE_NAME;
      var loaded := ReadListOrEmpty(browser.checklists);
      if loaded.Err? {
        return fileName, Err(loaded.error);
      }
      r := Ok(ExportBundle(loaded.value, revisionTypes, engineSerials));
    }
  }
}
