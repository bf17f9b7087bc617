/**
 * The reports page: pick one stored inspection, preview it on screen, and
 * render it as a PDF.
 */
module Reports {
  import opened Wrappers
  import opened Text
  import opened Dates
  import opened ChecklistTypes
  import opened Storage
  import opened Inspections
  import opened PdfGenerator

  /** The page's own badge tables, keyed by the stored spelling. */
  const RENDER_COLORS: map<string, string> :=
    map["bon" := "bg-green-100 text-green-800",
        "moyen" := "bg-yellow-100 text-yellow-800",
        "mauvais" := "bg-red-100 text-red-800"]

  const RENDER_ICONS: map<string, string> :=
    map["bon" := "✓", "moyen" := "⚠", "mauvais" := "✕"]

  /** The page's tables have exactly the three status spellings as keys and
      agree with the shared status tables. */
  lemma RenderTablesAgree()
    ensures RENDER_COLORS.Keys == RENDER_ICONS.Keys == {"bon", "moyen", "mauvais"}
    ensures forall s :: StatusName(s) in RENDER_COLORS && RENDER_COLORS[StatusName(s)] == STATUS_COLORS[s]
    ensures forall s :: StatusName(s) in RENDER_ICONS && RENDER_ICONS[StatusName(s)] == STATUS_ICONS[s]
  {
    forall s ensures StatusName(s) in RENDER_COLORS && RENDER_COLORS[StatusName(s)] == STATUS_COLORS[s]
      && StatusName(s) in RENDER_ICONS && RENDER_ICONS[StatusName(s)] == STATUS_ICONS[s]
    {
      match s
      case Bon =>
      case Moyen =>
      case Mauvais =>
    }
  }

  const BADGE_BASE_CLASS := "px-2 py-1 rounded-full text-xs "

  /** A rendered status pill: its class attribute and its text. */
  datatype Badge = Badge(className: string, text: string)

  /** `renderComponentStatus(status)`. A spelling outside the tables yields
      the class "undefined" and no glyph, as the template does for names
      that are not properties of `Object.prototype`. */
  function RenderComponentStatus(status: string): (b: Badge)
    ensures ParseStatus(status).Some? ==>
      b.className == BADGE_BASE_CLASS + STATUS_COLORS[ParseStatus(status).value]
      && b.text == PdfGenerator.BadgeText(ParseStatus(status).value)
    ensures ParseStatus(status).None? ==>
      b.className == BADGE_BASE_CLASS + "undefined" && b.text == " " + status
  {
    RenderTablesAgree();
    var colour := if status in RENDER_COLORS then RENDER_COLORS[status] else "undefined";
    var icon := if status in RENDER_ICONS then RENDER_ICONS[status] else "";
    Badge(BADGE_BASE_CLASS + colour, icon + " " + status)
  }

  /** One thumbnail of the photo strip. */
  datatype Thumbnail = Thumbnail(src: string, alt: string)

  function PhotoAlt(i: nat): string
  {
    "Photo " + NatToString(i + 1)
  }

  /** Thumbnails of distinct positions carry distinct alternative texts. */
  lemma PhotoAltInjective(i: nat, j: nat)
    ensures PhotoAlt(i) == PhotoAlt(j) <==> i == j
  {
    if PhotoAlt(i) == PhotoAlt(j) {
      assert PhotoAlt(i)[6..] == NatToString(i + 1);
      assert PhotoAlt(j)[6..] == NatToString(j + 1);
      ParseNatToString(i + 1);
      ParseNatToString(j + 1);
    }
  }

  /** The photo strip: one thumbnail per photo, in order, each labelled by
      its one-based position. */
  function Thumbnails(photos: seq<string>): (r: seq<Thumbnail>)
    ensures |r| == |photos|
    ensures forall i :: 0 <= i < |r| ==> r[i].src == photos[i] && r[i].alt == PhotoAlt(i)
  {
    seq(|photos|, i requires 0 <= i < |photos| => Thumbnail(photos[i], PhotoAlt(i)))
  }

  /** What the on-screen preview shows. The observations and photo sections
      are absent (None) when the inspection has none. */
  datatype ReportPreview = ReportPreview(
    info: seq<(string, string)>,
    components: seq<(string, Badge)>,
    observations: Option<string>,
    photos: Option<seq<Thumbnail>>)

  /** The labels of the seven component lines, in key order. */
  const PREVIEW_LABELS: seq<string> :=
    ["Circuit d'admission", "Circuit de gazoil", "Circuit d'échappement", "Flexibles",
     "Structure", "Châssis", "Équipements de sécurité"]

  /** The component lines: one per key, in key order, each with its badge. */
  function PreviewComponents(c: Components): seq<(string, Badge)>
  {
    seq(|COMPONENT_KEYS|, i requires 0 <= i < |COMPONENT_KEYS| =>
      (PREVIEW_LABELS[i], RenderComponentStatus(StatusName(c.Status(COMPONENT_KEYS[i])))))
  }

  /** The general-information lines. */
  function PreviewInfo(e: ChecklistEntry): seq<(string, string)>
  {
    [("Date:", FormatLong(e.date)),
     ("Type:", e.revisionType),
     ("N° Série:", e.serialNumber),
     ("Compteur:", IntToString(e.hourCounter) + " heures")]
  }

  function Preview(e: ChecklistEntry): ReportPreview
  {
    ReportPreview(
      PreviewInfo(e),
      PreviewComponents(e.components),
      if e.observations != "" then Some(e.observations) else None,
      if |e.photos| > 0 then Some(Thumbnails(e.photos)) else None)
  }

  /** A stored status renders as the report's badge text. */
  lemma BadgeOfStatus(s: ComponentStatus)
    ensures RenderComponentStatus(StatusName(s))
      == Badge(BADGE_BASE_CLASS + STATUS_COLORS[s], PdfGenerator.BadgeText(s))
  {
    StatusVocabulary();
  }

  /** The component list of the preview is the report's table: same labels
      in the same order, and each badge reads as the report's badge. */
  lemma PreviewComponentsMatchReport(c: Components)
    ensures |PreviewComponents(c)| == |ComponentItems(c)| == 7
    ensures forall i :: 0 <= i < 7 ==>
      PreviewComponents(c)[i].0 == ComponentItems(c)[i].caption
      && PreviewComponents(c)[i].1.text == PdfGenerator.BadgeText(ComponentItems(c)[i].status)
      && PreviewComponents(c)[i].1.className == BADGE_BASE_CLASS + STATUS_COLORS[ComponentItems(c)[i].status]
  {
    StatusTablesTotalAndDistinct();
    ComponentItemsFollowKeys(c);
    var rows, items := PreviewComponents(c), ComponentItems(c);
    forall i | 0 <= i < 7
      ensures rows[i].0 == items[i].caption
      ensures rows[i].1 == Badge(BADGE_BASE_CLASS + STATUS_COLORS[items[i].status],
                                 PdfGenerator.BadgeText(items[i].status))
    {
      BadgeOfStatus(items[i].status);
    }
  }

  /** The preview and the PDF agree on which optional sections exist. */
  lemma PreviewSectionsMatchReport(e: ChecklistEntry)
    ensures Preview(e).observations.Some?
      <==> DrawText("Observations", 20, OBSERVATIONS_Y, Left) in Document(e)
    ensures Preview(e).photos.Some? <==> DrawText("Photos", 20, PhotosY(e), Left) in Document(e)
  {
    ObservationsSection(e);
    PhotosSection(e);
  }

  /** The preview prints the type, the serial number and the hour counter
      as the PDF's information block does. */
  lemma PreviewInfoMatchesReport(e: ChecklistEntry)
    ensures DrawText(PreviewInfo(e)[1].1, 80, 70, Left) in Document(e)
    ensures DrawText(PreviewInfo(e)[2].1, 80, 80, Left) in Document(e)
    ensures DrawText(PreviewInfo(e)[3].1, 80, 90, Left) in Document(e)
  {
    InfoRowsPlaced(e);
  }

  /** The text of one entry in the inspection picker: "dd/MM/yyyy", then
      the serial number and the type. */
  function OptionLabel(e: ChecklistEntry): string
  {
    FormatDayMonthYear(e.date, '/') + " - " + e.serialNumber + " (" + e.revisionType + ")"
  }

  /** For four-digit years a picker entry is the ten-character date followed
      by " - serial (type)". */
  lemma OptionLabelParts(e: ChecklistEntry)
    requires e.date.year < 10000
    ensures var r := OptionLabel(e);
      |r| >= 13 && r[..10] == FormatDayMonthYear(e.date, '/')
      && r[10..] == " - " + e.serialNumber + " (" + e.revisionType + ")"
  {
    FormatDayMonthYearFields(e.date, '/');
    var date := FormatDayMonthYear(e.date, '/');
    var rest := " - " + e.serialNumber + " (" + e.revisionType + ")";
    assert OptionLabel(e) == date + rest;
    assert (date + rest)[..10] == date;
    assert (date + rest)[10..] == rest;
  }

  /** Picker entries of four-digit years start with the same ten characters
      exactly when the inspections share a date. */
  lemma OptionLabelDates(e1: ChecklistEntry, e2: ChecklistEntry)
    requires e1.date.year < 10000 && e2.date.year < 10000
    ensures OptionLabel(e1)[..10] == OptionLabel(e2)[..10] <==> e1.date == e2.date
  {
    OptionLabelParts(e1);
    OptionLabelParts(e2);
    FormatDayMonthYearInjective(e1.date, e2.date, '/');
  }

  /** The entry the selection effect picks: nothing for the empty id,
      otherwise the first entry with that id, if any. */
  function Selected(list: seq<ChecklistEntry>, id: string): (r: Option<ChecklistEntry>)
    ensures id == "" ==> r.None?
    ensures id != "" ==> (r.Some? <==> exists e :: e in list && e.id == id)
    ensures r.Some? ==> r.value in list && r.value.id == id
  {
    if id == "" then None else FindById(list, id)
  }

  class ReportsPage {
    const browser: Browser
    var checklists: seq<ChecklistEntry>
    var selectedId: string
    var selectedChecklist: Option<ChecklistEntry>

    /** The selection effect has caught up with the id and the list. */
    predicate SelectionSettled()
      reads this
    {
      selectedChecklist == Selected(checklists, selectedId)
    }

    constructor(browser: Browser)
      ensures this.browser == browser
      ensures checklists == [] && selectedId == "" && selectedChecklist == None
      ensures SelectionSettled()
    {
      this.browser := browser;
      checklists := [];
      selectedId := "";
      selectedChecklist := None;
    }

    /** The mount effect, then the selection effect it triggers. */
    method Load() returns (r: Result<(), LoadError>)
      modifies this
      ensures browser.checklists.Absent? || browser.checklists.EmptyText? ==> r.Ok? && checklists == []
      ensures browser.checklists.Stored? ==> r.Ok? && checklists == browser.checklists.value
      ensures browser.checklists.Corrupt? ==>
        r.Err? && checklists == old(checklists) && selectedChecklist == old(selectedChecklist)
      ensures selectedId == old(selectedId)
      ensures r.Ok? ==> SelectionSettled()
    {
      var loaded := ReadListOrEmpty(browser.checklists);
      if loaded.Err? {
        return Err(loaded.error);
      }
      checklists := loaded.value;
      selectedChecklist := Selected(checklists, selectedId);
      r := Ok(());
    }

    /** Choosing in the picker, then the selection effect. */
    method Select(id: string)
      modifies this
      ensures selectedId == id && checklists == old(checklists)
      ensures SelectionSettled()
    {
      selectedId := id;
      if selectedId != "" {
        selectedChecklist := FindById(checklists, selectedId);
      } else {
        selectedChecklist := None;
      }
    }

    /** `handleGeneratePDF`: a report exactly when an inspection is
        selected, and then the report of that inspection. */
    method GenerateReport() returns (r: Option<seq<DrawOp>>)
      ensures r.Some? <==> selectedChecklist.Some?
      ensures r.Some? ==> r.value == Document(selectedChecklist.value)
    {
      if selectedChecklist.Some? {
        var ops := GeneratePdf(selectedChecklist.value);
        return Some(ops);
      }
      return None;
    }

    /** What the page shows below the picker. */
    method Render() returns (r: Option<ReportPreview>)
      ensures r.Some? <==> selectedChecklist.Some?
      ensures r.Some? ==> r.value == Preview(selectedChecklist.value)
    {
      if selectedChecklist.Some? {
        return Some(Preview(selectedChecklist.value));
      }
      return None;
    }
  }
}
