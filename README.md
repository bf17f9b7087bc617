# Thermal Checklist Pro — a Dafny model

Thermal Checklist Pro is a browser application for recording inspections of
thermal engines. One inspection holds:

- a date, a revision type, the engine's serial number and its hour counter;
- a rating (`bon`, `moyen`, `mauvais`) for each of seven components;
- free-text observations and a list of photos.

Inspections are kept in the browser's `localStorage` under `"checklists"`.
The pages that work on them are:

- the history page, which lists, searches, deletes, views and exports them;
- the reports page, which previews one inspection and renders it as a PDF;
- the settings page, which edits the lists of revision types and engine serial numbers, switches dark mode and exports all data;
- a step-by-step wizard for a new checklist.

This project models those parts and proves properties about them:

- **Value types** become datatypes. **Pure helpers** become functions with named results. **Page state** becomes a class per page, with methods for the page's handlers.
- **Storage:** the browser's storage is a `Storage.Browser` object. Each slot is either absent, empty text, a parsed value, or text that `JSON.parse` rejects.
- **PDF:** `generatePDF` is modelled as the ordered list of drawing calls it makes (`DrawOp`). `PdfGenerator.Document` is the specification of that list. The method `PdfGenerator.GeneratePdf` builds the list step by step, one helper method per section, and is proved equal to it.

Modules, in dependency order:

- `Wrappers`: `Option` and `Result`.
- `Text`: the JavaScript string built-ins the pages use — `toLowerCase`, `includes`, `trim` and decimal printing.
- `Dates`: calendar dates and the three date patterns printed.
- `ChecklistTypes`: the record shape, the status vocabulary and the shared tables.
- `Storage`: the storage slots.
- `Inspections`: the collection operations the pages share — search, delete by id and find by id.
- `PdfGenerator`: the PDF layout.
- `History`, `Settings`, `Reports` and `ChecklistWizard`: the pages.

Three behaviours of the code differ from what a reader might expect, and the model follows the code:

- **Stored text that does not parse.** One might expect such text to count as an empty list. The code calls `JSON.parse` unguarded, so the mount effects of the history, reports and settings pages throw. The model returns `Err` there. The history and reports pages keep their state as it was. The settings page keeps the revision types it has already loaded or seeded (and, for a missing slot, written back), because its effect sets them before it parses the serial numbers.
- **Page breaks.** One might expect a long report to continue on a second page. `generatePDF` never starts a new page. `PdfGenerator.PhotosPastPageBottom` shows the result: when an inspection has both observations and photos, the first photo is placed at y = 304, below the bottom of an A4 page (297 mm).
- **The wizard.** One might expect a form that validates and saves. The wizard validates nothing and saves nothing. Its step counter has no upper bound: on step 4 the "Terminer" button moves to an empty step 5, titled "Étape 5/4", as `ChecklistWizard.FinishGoesPastLastStep` shows.

## Model

| member | source | states |
|---|---|---|
| ChecklistTypes.ParseStatus | src/types/checklist.ts:2 | a stored string denotes a status exactly when it is one of the three spellings, and then it is that status's spelling |
| ChecklistTypes.StatusVocabulary | src/types/checklist.ts:2 | there are exactly three statuses; their spellings are distinct and each reads back as its status |
| ChecklistTypes.ToRecord | src/types/checklist.ts:10-18 | the stored `components` object has exactly the seven property names, and each holds its component's status |
| ChecklistTypes.ComponentKeysComplete | src/types/checklist.ts:10-18 | the seven keys are listed once each in declaration order, with seven distinct property names |
| ChecklistTypes.StatusTablesTotalAndDistinct | src/types/checklist.ts:23-33 | the badge-class and icon tables are defined on every status and give distinct statuses distinct values; the icons are ✓, ⚠ and ✕ |
| ChecklistTypes.RevisionTypesDistinct | src/types/checklist.ts:35-41 | there are five default revision types, pairwise distinct |
| Text.Lower | src/pages/History.tsx:35-36 | `toLowerCase` keeps the length and maps every character by the per-character rule |
| Text.LowerIdempotent | src/pages/History.tsx:35-36 | lower-casing twice gives the same string as lower-casing once |
| Text.IncludesAt | src/pages/History.tsx:35-36 | `includes` holds exactly when the term occupies some run of consecutive positions of the text |
| Text.TrimStart | src/pages/Settings.tsx:48 | what remains after trimming the front never starts with a JavaScript whitespace character |
| Text.TrimEmptyIffBlank | src/pages/Settings.tsx:48 | `trim()` gives the empty string exactly when every character is JavaScript whitespace or line terminator |
| Text.NatToString | src/utils/pdfGenerator.ts:52 | a number prints as a non-empty string of decimal digits |
| Text.ParseNatToString | src/utils/pdfGenerator.ts:52 | the printed digits of a number read back as that number |
| Text.ParseIntToString | src/utils/pdfGenerator.ts:52 | a printed integer starts with a minus sign exactly when it is negative, and its digits read back as its magnitude |
| Text.IntToStringInjective | src/utils/pdfGenerator.ts:52 | two integers print the same exactly when they are equal |
| Dates.FormatDayMonthYearFields | src/utils/pdfGenerator.ts:170 | for four-digit years "dd-MM-yyyy" is ten characters with separators at 2 and 5, and each field reads back as the date's own field |
| Dates.FormatDayMonthYearInjective | src/utils/pdfGenerator.ts:170 | two dates with four-digit years print the same exactly when they are equal |
| Dates.FormatIsoFields | src/pages/History.tsx:70 | for four-digit years "yyyy-MM-dd" is ten characters with dashes at 4 and 7, and each field reads back |
| Dates.FormatIsoInjective | src/pages/History.tsx:70 | two dates with four-digit years print the same ISO text exactly when they are equal |
| Dates.FormatLongFields | src/utils/pdfGenerator.ts:37 | for four-digit years "dd MMMM yyyy" is the two-digit day, a space, the French month name of the date's month, a space and the four-digit year; day and year read back |
| Dates.FormatLongInjective | src/pages/Reports.tsx:112 | two dates with four-digit years print the same long French text exactly when they are equal |
| Dates.MonthNamesDistinct | src/utils/pdfGenerator.ts:37 | the twelve French month names are pairwise distinct |
| Storage.ReadListOrEmpty | src/pages/History.tsx:25-26 | reading fails exactly on unparsable text; a non-empty list read back is exactly the stored one |
| Storage.WriteThenRead | src/pages/History.tsx:47 | a list written with `setItem(JSON.stringify(..))` reads back as itself |
| Inspections.Matching | src/pages/History.tsx:33-37 | the filtered list holds exactly the entries whose lower-cased serial number or type contains the lower-cased term, in their original order |
| Inspections.Search | src/pages/History.tsx:31-42 | the empty term shows the whole list; any other term shows exactly the matching entries, as a subsequence |
| Inspections.MatchingConcat | src/pages/History.tsx:33-37 | filtering distributes over concatenation |
| Inspections.MatchingOnlyLowerMatters | src/pages/History.tsx:35-36 | terms with the same lower-case form select the same entries |
| Inspections.SearchIgnoresCase | src/pages/History.tsx:31-42 | searches for terms that differ only in case show the same list |
| Inspections.SearchLowerTerm | src/pages/History.tsx:31-42 | searching for the lower-cased term shows the same list as searching for the term |
| Inspections.MatchingIdempotent | src/pages/History.tsx:33-37 | filtering an already filtered list changes nothing |
| Inspections.SearchIdempotent | src/pages/History.tsx:31-42 | searching the search result again with the same term changes nothing |
| Inspections.WithoutId | src/pages/History.tsx:45 | deletion keeps exactly the entries with another id, in their original order |
| Inspections.WithoutUnknownId | src/pages/History.tsx:45 | deleting an id no entry carries leaves the list as it is |
| Inspections.WithoutIdLength | src/pages/History.tsx:45 | deletion removes as many entries as carry the id |
| Inspections.WithoutIdConcat | src/pages/History.tsx:45 | deletion distributes over concatenation |
| Inspections.WithoutIdIdempotent | src/pages/History.tsx:45 | deleting the same id twice is deleting it once |
| Inspections.DeleteMiddle | src/pages/History.tsx:45 | deleting the middle entry of three (with unique ids) leaves the outer two in order |
| Inspections.FindById | src/pages/Reports.tsx:28 | the lookup finds an entry exactly when one carries the id, and what it finds is in the list with that id |
| Inspections.FindByIdIsFirst | src/pages/Reports.tsx:28 | the lookup returns the first entry that carries the id |
| Inspections.FindAfterDelete | src/pages/History.tsx:45 | once an id is deleted, no lookup finds it |
| Inspections.DeleteKeepsOthers | src/pages/History.tsx:45 | deleting one id changes no lookup of another id |
| PdfGenerator.GetStatusColor | src/utils/pdfGenerator.ts:7-18 | every colour channel lies in 0..255, and the gray default is returned exactly for strings outside the three spellings |
| PdfGenerator.StatusColorDistinguishes | src/utils/pdfGenerator.ts:7-18 | two strings get the same colour exactly when they denote the same status (or both denote none) |
| PdfGenerator.StatusColorTable | src/utils/pdfGenerator.ts:9-14 | `bon` is green (39,174,96), `moyen` yellow (241,196,15) and `mauvais` red (231,76,60) |
| PdfGenerator.ComponentItemsFollowKeys | src/utils/pdfGenerator.ts:74-82 | the report table has one row per component key, in key order, each with that key's status |
| PdfGenerator.GeneratePdf | src/utils/pdfGenerator.ts:20-171 | the drawing calls made are exactly the specified document |
| PdfGenerator.DrawInfoRows | src/utils/pdfGenerator.ts:55-60 | the information loop draws, for every item in order, its caption with a colon at x 20 and its value at x 80 |
| PdfGenerator.DrawComponentRows | src/utils/pdfGenerator.ts:92-114 | the table loop draws every row in order, with its band, label, coloured pill and badge text, so every component label appears at x 25 on its own row |
| PdfGenerator.DrawObservations | src/utils/pdfGenerator.ts:117-137 | the observations block is drawn exactly as specified: nothing for empty observations, otherwise the heading at y 234 as its second call and the wrapped observations at y 249 as its last |
| PdfGenerator.DrawPhotos | src/utils/pdfGenerator.ts:140-167 | the photo heading, the count and one placeholder cell per photo are drawn exactly as specified |
| PdfGenerator.InfoRowsPlaced | src/utils/pdfGenerator.ts:48-60 | the type, serial-number and hour-counter captions and values sit at rows y = 70, 80 and 90; the counter reads "`n` heures" |
| PdfGenerator.InDocument | src/utils/pdfGenerator.ts:20-171 | a call is in the document exactly when it is in one of its seven sections |
| PdfGenerator.ComponentRowsShape | src/utils/pdfGenerator.ts:92-114 | table rows draw text only at x 25 or 143, and never wrapped text or the save call |
| PdfGenerator.ComponentRowsPlaced | src/utils/pdfGenerator.ts:92-114 | row `i` sits at y = 130 + 12i, strictly above later rows; its label, badge text and status colour are drawn; it has a light band exactly when `i` is even |
| PdfGenerator.ObservationsSection | src/utils/pdfGenerator.ts:117-137 | the observations heading (y 234) and the wrapped text appear exactly when the observations are non-empty |
| PdfGenerator.PhotosSection | src/utils/pdfGenerator.ts:140-153 | the photos block starts at y 294 after observations and at 234 otherwise; the heading and the count appear exactly when there are photos |
| PdfGenerator.PhotoCellsPlaced | src/utils/pdfGenerator.ts:158-166 | every photo gets its placeholder rectangle and its centred "Photo `i+1`" caption |
| PdfGenerator.PhotoGrid | src/utils/pdfGenerator.ts:160-161 | cells are laid out three to a row at x 20, 80 or 140, and no two photos share a cell |
| PdfGenerator.PhotosPastPageBottom | src/utils/pdfGenerator.ts:140-163 | with observations and photos, the first cell starts at y 304, past the 297 mm page |
| PdfGenerator.PhotoCountLabelForms | src/utils/pdfGenerator.ts:153 | one photo reads "(1 photo)", more read "(`n` photos)", and the number reads back |
| PdfGenerator.DocumentEndsWithSave | src/utils/pdfGenerator.ts:170 | the last call saves the file, and no earlier call does |
| PdfGenerator.FileNameInjective | src/utils/pdfGenerator.ts:170 | two reports get the same file name exactly when they have the same serial number and date (four-digit years) |
| PdfGenerator.BadgesNeverGray | src/utils/pdfGenerator.ts:105-108 | no component of a well-typed record is drawn in the gray default |
| History.ExportFileNameInjective | src/pages/History.tsx:70 | exports made on different days get different names |
| History.DetailRowsShowRecord | src/pages/History.tsx:203-210 | each dialog line shows a property of the stored record with its status, in that status's colour |
| History.DetailRowsDistinct | src/pages/History.tsx:203-210 | no property is listed twice in the dialog |
| History.DetailRowsCoverRecord | src/pages/History.tsx:203-210 | every property of the stored record is listed in the dialog |
| History.HistoryPage.constructor | src/pages/History.tsx:19-22 | the page starts with an empty term, empty lists and no selection, and the shown list is settled |
| History.HistoryPage.Load | src/pages/History.tsx:24-42 | a missing or empty slot shows nothing; a stored list becomes the full list and the search effect then shows its search with the current term (the whole list for the empty term); unparsable text fails and changes nothing |
| History.HistoryPage.SetSearchTerm | src/pages/History.tsx:31-42 | after typing, the shown list is the search of the full list for the new term |
| History.HistoryPage.Delete | src/pages/History.tsx:44-52 | the list loses exactly the entries with the id; storage holds the new list; the other slots and the term are unchanged; the shown list is re-searched |
| History.DeleteThenSearch | src/pages/History.tsx:31-47 | deleting and then searching shows the same entries as searching and then deleting |
| History.DeleteCommutesWithMatching | src/pages/History.tsx:33-45 | filtering by term and deleting by id commute |
| History.HistoryPage.View | src/pages/History.tsx:54-57 | viewing selects the entry and renders exactly its report |
| History.HistoryPage.Download | src/pages/History.tsx:63-79 | the export holds the in-memory list under "inspections-export-yyyy-MM-dd.json" |
| Settings.ShowBool | src/pages/Settings.tsx:97-100 | the text written for a dark-mode flag reads back as that flag |
| Settings.RemoveAt | src/pages/Settings.tsx:62 | removal by index never adds elements or lengthens the list |
| Settings.RemoveAtSplice | src/pages/Settings.tsx:62 | removing a shown position deletes exactly that element and keeps the rest in order; any other index changes nothing |
| Settings.SettingsPage.constructor | src/pages/Settings.tsx:15-19 | everything starts empty and dark mode off |
| Settings.SettingsPage.Mount | src/pages/Settings.tsx:21-45 | a missing or empty type slot is seeded with the defaults and written back, and a stored one is kept; serials load when stored; dark mode is on exactly when the slot holds "true", and the class follows; unparsable text stops the effect where it occurs; a fresh page ends in sync with storage |
| Settings.SettingsPage.SetNewRevisionType | src/pages/Settings.tsx:162-163 | typing sets only the revision-type input |
| Settings.SettingsPage.SetNewEngineSerial | src/pages/Settings.tsx:188-189 | typing sets only the serial input |
| Settings.SettingsPage.AddRevisionType | src/pages/Settings.tsx:47-59 | a blank input changes nothing; otherwise the untrimmed input is appended and persisted, and the input is cleared; sync with storage is kept |
| Settings.SettingsPage.RemoveRevisionType | src/pages/Settings.tsx:61-70 | the type at the index is removed and the list persisted; sync with storage is kept |
| Settings.SettingsPage.AddEngineSerial | src/pages/Settings.tsx:72-84 | as for revision types, on the serial list |
| Settings.SettingsPage.RemoveEngineSerial | src/pages/Settings.tsx:86-95 | as for revision types, on the serial list |
| Settings.SettingsPage.ToggleDarkMode | src/pages/Settings.tsx:97-112 | the flag flips, is stored as text that reads back as the new flag, and the document class follows it |
| Settings.SettingsPage.ExportData | src/pages/Settings.tsx:114-137 | the export is named "checklist-data-export.json"; it holds the stored inspections (none for a missing or empty slot) and the two lists as shown; it fails exactly on unparsable text |
| Reports.RenderTablesAgree | src/pages/Reports.tsx:54-64 | the page's own badge tables have exactly the three spellings as keys and agree with the shared tables |
| Reports.RenderComponentStatus | src/pages/Reports.tsx:53-71 | a known spelling renders its shared badge class and the same text as the PDF badge; an unknown one renders the class "undefined" and no glyph |
| Reports.BadgeOfStatus | src/pages/Reports.tsx:53-71 | a stored status renders as the PDF's badge text with its shared colour class |
| Reports.PhotoAltInjective | src/pages/Reports.tsx:165-171 | thumbnails at different positions have different alternative texts |
| Reports.Thumbnails | src/pages/Reports.tsx:161-175 | one thumbnail per photo, in order, with the photo as source and "Photo `i+1`" as text |
| Reports.PreviewComponentsMatchReport | src/pages/Reports.tsx:122-149 | the preview lists the seven components with the PDF table's labels in its order, each badge reading as the PDF badge |
| Reports.PreviewSectionsMatchReport | src/pages/Reports.tsx:154-175 | the preview shows observations and photos sections exactly when the PDF draws them |
| Reports.PreviewInfoMatchesReport | src/pages/Reports.tsx:113-115 | the preview's type, serial number and hour counter are the texts the PDF draws in its information rows |
| Reports.OptionLabelParts | src/pages/Reports.tsx:97 | for four-digit years a picker entry is the ten-character "dd/MM/yyyy" date followed by " - serial (type)" |
| Reports.OptionLabelDates | src/pages/Reports.tsx:97 | two picker entries start alike exactly when the inspections share a date |
| Reports.Selected | src/pages/Reports.tsx:26-33 | the empty id selects nothing; another id selects an entry exactly when one carries it, and that entry is in the list with the id |
| Reports.ReportsPage.constructor | src/pages/Reports.tsx:16-18 | no list, no id, no selection |
| Reports.ReportsPage.Load | src/pages/Reports.tsx:20-24 | as for the history page, followed by the selection effect |
| Reports.ReportsPage.Select | src/pages/Reports.tsx:26-33 | choosing an id settles the selection for that id |
| Reports.ReportsPage.GenerateReport | src/pages/Reports.tsx:35-43 | a report is produced exactly when an inspection is selected, and it is that inspection's document |
| Reports.ReportsPage.Render | src/pages/Reports.tsx:104-175 | the preview is shown exactly when an inspection is selected, and it is that inspection's preview |
| ChecklistWizard.SetField | src/pages/Checklist.tsx:48-104 | a change handler sets its own leaf of the form and keeps every other leaf |
| ChecklistWizard.FieldsShownAt | src/pages/Checklist.tsx:41-109 | step 1 shows the date and the type, step 2 the three responsible people, later steps nothing; the engine fields are never shown |
| ChecklistWizard.NextLabel | src/pages/Checklist.tsx:117-119 | the forward button reads "Terminer" exactly on step 4, and "Suivant" otherwise |
| ChecklistWizard.AfterEvent | src/pages/Checklist.tsx:26-119 | a change to a shown input sets that leaf only; other changes have no effect; "next" advances; "previous" goes back only where offered |
| ChecklistWizard.StepStaysPositive | src/pages/Checklist.tsx:112-116 | whatever the user does, the step never falls below 1 |
| ChecklistWizard.EngineInfoUntouched | src/pages/Checklist.tsx:19-23 | no sequence of actions changes the engine information |
| ChecklistWizard.NextThenPrevious | src/pages/Checklist.tsx:26-32 | going forward and then back returns to the same state |
| ChecklistWizard.ForwardClicks | src/pages/Checklist.tsx:26-28 | `n` forward clicks advance `n` steps and keep the form |
| ChecklistWizard.PickChecklistType | src/pages/Checklist.tsx:51-65 | on step 1 either radio value ("reception" or "expedition", which differ) becomes the checklist type, and the step and every other field stay as they were |
| ChecklistWizard.FinishGoesPastLastStep | src/pages/Checklist.tsx:117-119 | "Terminer" on step 4 leads to step 5, which shows no input and is titled "Étape 5/4" |
| ChecklistWizard.WizardPage.constructor | src/pages/Checklist.tsx:10-24 | the wizard starts on step 1 with the empty form |
| ChecklistWizard.WizardPage.HandleNext | src/pages/Checklist.tsx:26-28 | the step increases by one; the form is kept |
| ChecklistWizard.WizardPage.HandlePrevious | src/pages/Checklist.tsx:30-32 | the step decreases by one, unguarded; the form is kept |
| ChecklistWizard.WizardPage.ChangeField | src/pages/Checklist.tsx:48-104 | the form becomes the spread update of that field |
| ChecklistWizard.WizardPage.Dispatch | src/pages/Checklist.tsx:41-119 | a user action on the rendered page changes the state as the event semantics say |

## Left out

- **Serialisation:** JSON parsing and printing. A slot holds a typed value or "unparsable". Records that parse but have the wrong shape are not modelled.
- **PDF appearance:** fonts, font sizes, `roundedRect` corner radii. The line breaking done by `splitTextToSize` is left out too: the wrapped observations are one `WrappedText` call with the width.
- **Date text:** parsing with `new Date(...)` and time zones. An inspection's date is a calendar triple, and "today" is a parameter of `History.HistoryPage.Download`.
- **Case and trimming:** `toLowerCase` is modelled for ASCII and Latin-1 letters only. Other scripts and special casings are left out.
- **Whole-number counter:** the hour counter is an integer. Fractional counters and their JavaScript printing are left out.
- Text.NatToString: prints every decimal digit of any integer. JavaScript prints integers of 10^21 and above in exponent form ("1e+21"), and counters above 2^53 are not exact; neither is modelled.
- Dates.CalendarDate: years start at 1. Years before the common era, which date-fns prints as years of era, are not modelled.
- Reports.RenderComponentStatus: the clause for unknown spellings holds only for names that are not properties of `Object.prototype`. For "constructor" the class would hold the text of the `Object` function, and "__proto__" makes rendering throw; these are not modelled.
- **Dialog order:** the history dialog lists a record's components in declaration order. The program lists them in the property order of the stored JSON text, which the model does not represent.
- **Browser effects:** toasts, the object-URL and anchor-click download, navigation, React scheduling and re-rendering. The model runs each effect right after the change that triggers it.
- **The save/send handlers:** `handleSendReport` (src/pages/Reports.tsx:45-51) only shows a toast.
- **History navigation:** `handleEdit` (src/pages/History.tsx:59-61) only navigates away, and editing is not implemented in the wizard.
- **Dialog visibility:** the history page's details dialog (src/pages/History.tsx:186-235) has no trigger and no `open` state. Its content is modelled (`History.DetailRows`), its visibility is not.
- **Other pages:** the home page and the layout are not part of this model.
- **Wizard inputs:** the radio group can only send `"reception"` or `"expedition"` (`ChecklistWizard.CHECKLIST_TYPES`), but `ChecklistWizard.SetField` accepts any text, as the handler does.
- **React closures:** handlers that close over stale state are not modelled.
- **`PdfGenerator.GeneratePdf` structure:** its body is split into one helper method per section, each proved against its part of `PdfGenerator.Document`. The source is one function.
