/**
 * The inspection report: `getStatusColor` and the layout of `generatePDF`.
 * The drawing library is foreign, so the report is the sequence of drawing
 * calls it receives, with their coordinates, colours and texts (fonts and
 * font sizes are not recorded).
 */
module PdfGenerator {
  import opened Wrappers
  import opened Text
  import opened Dates
  import opened ChecklistTypes

  datatype Rgb = Rgb(red: int, green: int, blue: int)

  predicate ChannelsInRange(c: Rgb)
  {
    0 <= c.red <= 255 && 0 <= c.green <= 255 && 0 <= c.blue <= 255
  }

  const GRAY := Rgb(142, 145, 150)

  /** Fill colour of a status badge; any string that is not a status gets gray. */
  function GetStatusColor(status: string): (c: Rgb)
    ensures ChannelsInRange(c)
    ensures c == GRAY <==> ParseStatus(status).None?
  {
    if status == "bon" then Rgb(39, 174, 96)
    else if status == "moyen" then Rgb(241, 196, 15)
    else if status == "mauvais" then Rgb(231, 76, 60)
    else GRAY
  }

  /** The three status colours and gray are four distinct colours: two
      strings get the same colour exactly when they denote the same status
      or are both unknown. */
  lemma StatusColorDistinguishes(a: string, b: string)
    ensures GetStatusColor(a) == GetStatusColor(b) <==> ParseStatus(a) == ParseStatus(b)
  {
  }

  /** The colours fixed for each status. */
  lemma StatusColorTable()
    ensures GetStatusColor(StatusName(Bon)) == Rgb(39, 174, 96)
    ensures GetStatusColor(StatusName(Moyen)) == Rgb(241, 196, 15)
    ensures GetStatusColor(StatusName(Mauvais)) == Rgb(231, 76, 60)
  {
  }

  datatype Align = Left | Center

  /** 'F' (fill) or 'FD' (fill and outline). */
  datatype Paint = Fill | FillAndStroke

  /** One call into the drawing library. */
  datatype DrawOp =
    | SetFillColor(color: Rgb)
    | SetDrawColor(color: Rgb)
    | SetTextColor(color: Rgb)
    | FillRect(x: int, y: int, w: int, h: int)
    | RoundedRect(x: int, y: int, w: int, h: int, paint: Paint)
    | DrawText(text: string, x: int, y: int, align: Align)
    | WrappedText(text: string, maxWidth: int, x: int, y: int)
    | Save(fileName: string)

  const INDIGO := Rgb(88, 86, 214)
  const PURPLE := Rgb(126, 87, 194)
  const WHITE := Rgb(255, 255, 255)
  const DARK_GRAY := Rgb(60, 60, 60)
  const TABLE_HEADER_FILL := Rgb(246, 246, 246)
  const LIGHT_FILL := Rgb(250, 250, 250)
  const BOX_OUTLINE := Rgb(230, 230, 230)
  const LABEL_GRAY := Rgb(120, 120, 120)
  const PHOTO_FILL := Rgb(240, 240, 240)
  const PHOTO_TEXT := Rgb(150, 150, 150)

  /** Height of an A4 page in the library's default unit (mm). */
  const A4_HEIGHT := 297

  const TITLE := "Rapport d'Inspection d'Engin"
  const INFO_START_Y := 70
  const COMPONENT_START_Y := 120

  datatype InfoItem = InfoItem(caption: string, value: string)

  datatype ComponentItem = ComponentItem(caption: string, status: ComponentStatus)

  const TYPE_CAPTION := "Type de révision"
  const SERIAL_CAPTION := "Numéro de série"
  const HOURS_CAPTION := "Compteur horaire"

  function InfoItems(data: ChecklistEntry): seq<InfoItem>
  {
    [InfoItem(TYPE_CAPTION, data.revisionType),
     InfoItem(SERIAL_CAPTION, data.serialNumber),
     InfoItem(HOURS_CAPTION, IntToString(data.hourCounter) + " heures")]
  }

  /** The rows of the component table, in the order the report prints them. */
  function ComponentItems(c: Components): seq<ComponentItem>
  {
    [ComponentItem("Circuit d'admission", c.admission),
     ComponentItem("Circuit de gazoil", c.gazoil),
     ComponentItem("Circuit d'échappement", c.exhaust),
     ComponentItem("Flexibles", c.hoses),
     ComponentItem("Structure", c.structure),
     ComponentItem("Châssis", c.chassis),
     ComponentItem("Équipements de sécurité", c.safetyEquipment)]
  }

  /** The table has one row per component key, in key order. */
  lemma ComponentItemsFollowKeys(c: Components)
    ensures |ComponentItems(c)| == |COMPONENT_KEYS|
    ensures forall i :: 0 <= i < |COMPONENT_KEYS| ==>
      ComponentItems(c)[i].status == c.Status(COMPONENT_KEYS[i])
  {
  }

  function InfoRowY(i: int): int
  {
    INFO_START_Y + i * 10
  }

  function ComponentRowY(i: int): int
  {
    COMPONENT_START_Y + 10 + i * 12
  }

  /** The text of a status badge: glyph, space, status name. */
  function BadgeText(s: ComponentStatus): string
  {
    StatusTablesTotalAndDistinct();
    STATUS_ICONS[s] + " " + StatusName(s)
  }

  const OBSERVATIONS_Y := COMPONENT_START_Y + 10 + 7 * 12 + 20

  function PhotosY(data: ChecklistEntry): int
  {
    if data.observations != ""
    then COMPONENT_START_Y + 10 + 7 * 12 + 80
    else COMPONENT_START_Y + 10 + 7 * 12 + 20
  }

  function PhotoX(i: nat): int
  {
    20 + (i % 3) * 60
  }

  function PhotoY(photosY: int, i: nat): int
  {
    photosY + 10 + (i / 3) * 45
  }

  /** "(n photo)", with a plural "s" when n exceeds one. */
  function PhotoCountLabel(n: nat): string
  {
    "(" + NatToString(n) + " photo" + (if n > 1 then "s" else "") + ")"
  }

  /** The name the report is saved under. */
  function FileName(serialNumber: string, date: CalendarDate): string
  {
    "inspection_" + serialNumber + "_" + FormatDayMonthYear(date, '-') + ".pdf"
  }

  // ----- The report as a sequence of drawing calls -----

  /** Title band, title, long date and the heading of the general information. */
  function HeaderOps(data: ChecklistEntry): seq<DrawOp>
  {
    [SetFillColor(INDIGO), FillRect(0, 0, 210, 40),
     SetFillColor(PURPLE), FillRect(105, 0, 105, 40),
     SetTextColor(WHITE),
     DrawText(TITLE, 105, 20, Center),
     DrawText(FormatLong(data.date), 105, 30, Center),
     SetTextColor(INDIGO),
     DrawText("Informations Générales", 20, 60, Left),
     SetTextColor(DARK_GRAY)]
  }

  function InfoRowOps(i: int, item: InfoItem): seq<DrawOp>
  {
    [DrawText(item.caption + ":", 20, InfoRowY(i), Left), DrawText(item.value, 80, InfoRowY(i), Left)]
  }

  /** The first `n` information rows. */
  function InfoRows(items: seq<InfoItem>, n: nat): seq<DrawOp>
    requires n <= |items|
  {
    if n == 0 then [] else InfoRows(items, n - 1) + InfoRowOps(n - 1, items[n - 1])
  }

  function ComponentsHeaderOps(): seq<DrawOp>
  {
    [SetTextColor(INDIGO),
     DrawText("État des Composants", 20, 110, Left),
     SetTextColor(DARK_GRAY),
     SetFillColor(TABLE_HEADER_FILL),
     FillRect(20, COMPONENT_START_Y - 6, 170, 10),
     DrawText("Composant", 25, COMPONENT_START_Y, Left),
     DrawText("État", 140, COMPONENT_START_Y, Left)]
  }

  /** One table row: a light band on even rows, the label, and the coloured badge. */
  function ComponentRowOps(i: int, item: ComponentItem): seq<DrawOp>
  {
    var y := ComponentRowY(i);
    (if i % 2 == 0 then [SetFillColor(LIGHT_FILL), FillRect(20, y - 6, 170, 12)] else [])
    + [DrawText(item.caption, 25, y, Left),
       SetFillColor(GetStatusColor(StatusName(item.status))),
       RoundedRect(140, y - 5, 45, 10, Fill),
       SetTextColor(WHITE),
       DrawText(BadgeText(item.status), 143, y, Left),
       SetTextColor(DARK_GRAY)]
  }

  /** The first `n` table rows. */
  function ComponentRows(items: seq<ComponentItem>, n: nat): seq<DrawOp>
    requires n <= |items|
  {
    if n == 0 then [] else ComponentRows(items, n - 1) + ComponentRowOps(n - 1, items[n - 1])
  }

  function ObservationsOps(data: ChecklistEntry): seq<DrawOp>
  {
    if data.observations == "" then []
    else
      [SetTextColor(INDIGO),
       DrawText("Observations", 20, OBSERVATIONS_Y, Left),
       SetTextColor(DARK_GRAY),
       SetFillColor(LIGHT_FILL),
       SetDrawColor(BOX_OUTLINE),
       RoundedRect(20, OBSERVATIONS_Y + 5, 170, 40, FillAndStroke),
       WrappedText(data.observations, 160, 25, OBSERVATIONS_Y + 15)]
  }

  function PhotosHeaderOps(count: nat, photosY: int): seq<DrawOp>
  {
    [SetTextColor(INDIGO),
     DrawText("Photos", 20, photosY, Left),
     SetTextColor(LABEL_GRAY),
     DrawText(PhotoCountLabel(count), 60, photosY, Left),
     SetFillColor(PHOTO_FILL)]
  }

  /** The placeholder of photo `i`. */
  function PhotoCellOps(photosY: int, i: nat): seq<DrawOp>
  {
    [RoundedRect(PhotoX(i), PhotoY(photosY, i), 50, 35, Fill),
     SetTextColor(PHOTO_TEXT),
     DrawText("Photo " + NatToString(i + 1), PhotoX(i) + 25, PhotoY(photosY, i) + 20, Center)]
  }

  /** The first `n` photo placeholders. */
  function PhotoCells(photosY: int, n: nat): seq<DrawOp>
  {
    if n == 0 then [] else PhotoCells(photosY, n - 1) + PhotoCellOps(photosY, n - 1)
  }

  function PhotosOps(data: ChecklistEntry): seq<DrawOp>
  {
    if |data.photos| > 0
    then PhotosHeaderOps(|data.photos|, PhotosY(data)) + PhotoCells(PhotosY(data), |data.photos|)
    else []
  }

  /** The whole report of one record, ending with the save. */
  function Document(data: ChecklistEntry): seq<DrawOp>
  {
    HeaderOps(data)
    + InfoRows(InfoItems(data), |InfoItems(data)|)
    + ComponentsHeaderOps()
    + ComponentRows(ComponentItems(data.components), |ComponentItems(data.components)|)
    + ObservationsOps(data)
    + PhotosOps(data)
    + [Save(FileName(data.serialNumber, data.date))]
  }

  /** `generatePDF`: issue the drawing calls of the report in order. */
  method GeneratePdf(data: ChecklistEntry) returns (ops: seq<DrawOp>)
    ensures ops == Document(data)
  {
    ops := HeaderOps(data);
    var infoOps := DrawInfoRows(InfoItems(data));
    ops := ops + infoOps + ComponentsHeaderOps();
    var rowOps := DrawComponentRows(ComponentItems(data.components));
    ops := ops + rowOps;
    var observationOps := DrawObservations(data);
    ops := ops + observationOps;
    var photoOps := DrawPhotos(data);
    ops := ops + photoOps;
    ops := ops + [Save(FileName(data.serialNumber, data.date))];
  }

  /** The `infoItems.forEach` loop: label at x = 20, value at x = 80. */
  method DrawInfoRows(infoItems: seq<InfoItem>) returns (ops: seq<DrawOp>)
    ensures ops == InfoRows(infoItems, |infoItems|)
  {
    ops := [];
    var i := 0;
    while i < |infoItems|
      invariant 0 <= i <= |infoItems|
      invariant ops == InfoRows(infoItems, i)
    {
      var y := INFO_START_Y + i * 10;
      ops := ops + [DrawText(infoItems[i].caption + ":", 20, y, Left), DrawText(infoItems[i].value, 80, y, Left)];
      i := i + 1;
    }
  }

  /** The `componentItems.forEach` loop: band on even rows, label, badge. */
  method DrawComponentRows(componentItems: seq<ComponentItem>) returns (ops: seq<DrawOp>)
    ensures ops == ComponentRows(componentItems, |componentItems|)
    ensures forall i :: 0 <= i < |componentItems| ==>
      DrawText(componentItems[i].caption, 25, ComponentRowY(i), Left) in ops
  {
    StatusTablesTotalAndDistinct();
    ops := [];
    var k := 0;
    while k < |componentItems|
      invariant 0 <= k <= |componentItems|
      invariant ops == ComponentRows(componentItems, k)
    {
      var y := COMPONENT_START_Y + 10 + k * 12;
      var item := componentItems[k];
      var row: seq<DrawOp> := [];
      if k % 2 == 0 {
        row := [SetFillColor(LIGHT_FILL), FillRect(20, y - 6, 170, 12)];
      }
      row := row
        + [DrawText(item.caption, 25, y, Left),
           SetFillColor(GetStatusColor(StatusName(item.status))),
           RoundedRect(140, y - 5, 45, 10, Fill),
           SetTextColor(WHITE),
           DrawText(STATUS_ICONS[item.status] + " " + StatusName(item.status), 143, y, Left),
           SetTextColor(DARK_GRAY)];
      assert row == ComponentRowOps(k, item);
      ops := ops + row;
      k := k + 1;
    }
    forall i | 0 <= i < |componentItems|
      ensures DrawText(componentItems[i].caption, 25, ComponentRowY(i), Left) in ops
    {
      ComponentRowsContain(componentItems, |componentItems|, i);
    }
  }

  /** The observations block, drawn only when the observations are non-empty. */
  method DrawObservations(data: ChecklistEntry) returns (ops: seq<DrawOp>)
    ensures ops == ObservationsOps(data)
    ensures ops == [] <==> data.observations == ""
    ensures data.observations != "" ==>
      ops[1] == DrawText("Observations", 20, 234, Left) &&
      ops[|ops| - 1] == WrappedText(data.observations, 160, 25, 249)
  {
    ops := [];
    if data.observations != "" {
      ops := ObservationsOps(data);
    }
  }

  /** The photos block, drawn only when there are photos: heading, count and
      the `photos.forEach` grid of placeholders, three per row. */
  method DrawPhotos(data: ChecklistEntry) returns (ops: seq<DrawOp>)
    ensures ops == PhotosOps(data)
  {
    ops := [];
    if |data.photos| > 0 {
      var photosY := if data.observations != ""
        then COMPONENT_START_Y + 10 + 7 * 12 + 80
        else COMPONENT_START_Y + 10 + 7 * 12 + 20;
      ops := PhotosHeaderOps(|data.photos|, photosY);
      ghost var header := ops;
      var j := 0;
      while j < |data.photos|
        invariant 0 <= j <= |data.photos|
        invariant ops == header + PhotoCells(photosY, j)
      {
        var x := 20 + (j % 3) * 60;
        var y := photosY + 10 + (j / 3) * 45;
        ops := ops + [RoundedRect(x, y, 50, 35, Fill),
                      SetTextColor(PHOTO_TEXT),
                      DrawText("Photo " + NatToString(j + 1), x + 25, y + 20, Center)];
        j := j + 1;
      }
    }
  }

  // ----- Where things land on the page -----

  lemma {:induction false} InfoRowsShape(items: seq<InfoItem>, n: nat)
    requires n <= |items|
    ensures forall op :: op in InfoRows(items, n) ==>
      op.DrawText? && op.align == Left && INFO_START_Y <= op.y < INFO_START_Y + 10 * n
  {
    if n > 0 {
      InfoRowsShape(items, n - 1);
    }
  }

  lemma {:induction false} InfoRowsContain(items: seq<InfoItem>, n: nat, i: nat)
    requires i < n <= |items|
    ensures DrawText(items[i].caption + ":", 20, InfoRowY(i), Left) in InfoRows(items, n)
    ensures DrawText(items[i].value, 80, InfoRowY(i), Left) in InfoRows(items, n)
  {
    if i < n - 1 {
      InfoRowsContain(items, n - 1, i);
    }
  }

  /** The three information rows sit 10 apart from y = 70: label at x = 20,
      value at x = 80. */
  lemma InfoRowsPlaced(data: ChecklistEntry)
    ensures DrawText(TYPE_CAPTION + ":", 20, 70, Left) in Document(data)
    ensures DrawText(data.revisionType, 80, 70, Left) in Document(data)
    ensures DrawText(SERIAL_CAPTION + ":", 20, 80, Left) in Document(data)
    ensures DrawText(data.serialNumber, 80, 80, Left) in Document(data)
    ensures DrawText(HOURS_CAPTION + ":", 20, 90, Left) in Document(data)
    ensures DrawText(IntToString(data.hourCounter) + " heures", 80, 90, Left) in Document(data)
  {
    var items := InfoItems(data);
    InfoRowsContain(items, 3, 0);
    InfoRowsContain(items, 3, 1);
    InfoRowsContain(items, 3, 2);
    InDocument(data);
  }

  /** The report is its parts in order. */
  lemma InDocument(data: ChecklistEntry)
    ensures forall op {:trigger op in Document(data)} :: op in Document(data) <==>
      op in HeaderOps(data) || op in InfoRows(InfoItems(data), |InfoItems(data)|) ||
      op in ComponentsHeaderOps() ||
      op in ComponentRows(ComponentItems(data.components), |ComponentItems(data.components)|) ||
      op in ObservationsOps(data) || op in PhotosOps(data) ||
      op == Save(FileName(data.serialNumber, data.date))
  {
  }

  /** The kinds of operation a table row can hold. */
  predicate TableOp(op: DrawOp)
  {
    (op.DrawText? ==> (op.x == 25 || op.x == 143)) && !op.WrappedText? && !op.Save?
  }

  lemma ComponentRowOpsShape(i: int, item: ComponentItem)
    ensures forall op :: op in ComponentRowOps(i, item) ==> TableOp(op)
  {
  }

  lemma {:induction false} ComponentRowsShape(items: seq<ComponentItem>, n: nat)
    requires n <= |items|
    ensures forall op :: op in ComponentRows(items, n) ==> TableOp(op)
  {
    if n > 0 {
      ComponentRowsShape(items, n - 1);
      ComponentRowOpsShape(n - 1, items[n - 1]);
    }
  }

  lemma {:induction false} ComponentRowsContain(items: seq<ComponentItem>, n: nat, i: nat)
    requires i < n <= |items|
    ensures DrawText(items[i].caption, 25, ComponentRowY(i), Left) in ComponentRows(items, n)
    ensures DrawText(BadgeText(items[i].status), 143, ComponentRowY(i), Left) in ComponentRows(items, n)
    ensures SetFillColor(GetStatusColor(StatusName(items[i].status))) in ComponentRows(items, n)
  {
    if i < n - 1 {
      ComponentRowsContain(items, n - 1, i);
    }
  }

  lemma BandInRow(j: int, item: ComponentItem, i: nat)
    ensures FillRect(20, ComponentRowY(i) - 6, 170, 12) in ComponentRowOps(j, item)
            <==> i == j && j % 2 == 0
  {
    var tail := ComponentRowOps(j, item)[if j % 2 == 0 then 2 else 0..];
    assert forall op :: op in tail ==> !op.FillRect?;
    if j % 2 == 0 {
      assert ComponentRowOps(j, item) == [SetFillColor(LIGHT_FILL), FillRect(20, ComponentRowY(j) - 6, 170, 12)] + tail;
    } else {
      assert ComponentRowOps(j, item) == tail;
    }
  }

  lemma {:induction false} BandInRows(items: seq<ComponentItem>, n: nat, i: nat)
    requires n <= |items|
    ensures FillRect(20, ComponentRowY(i) - 6, 170, 12) in ComponentRows(items, n)
            <==> i < n && i % 2 == 0
  {
    if n > 0 {
      BandInRows(items, n - 1, i);
      BandInRow(n - 1, items[n - 1], i);
    }
  }

  lemma {:induction false} PhotoCellsShape(photosY: int, n: nat)
    ensures forall op :: op in PhotoCells(photosY, n) ==>
      op.RoundedRect? || op.SetTextColor? || (op.DrawText? && op.align == Center)
  {
    if n > 0 {
      PhotoCellsShape(photosY, n - 1);
    }
  }

  lemma {:induction false} PhotoCellsContain(photosY: int, n: nat, i: nat)
    requires i < n
    ensures RoundedRect(PhotoX(i), PhotoY(photosY, i), 50, 35, Fill) in PhotoCells(photosY, n)
    ensures DrawText("Photo " + NatToString(i + 1), PhotoX(i) + 25, PhotoY(photosY, i) + 20, Center)
            in PhotoCells(photosY, n)
  {
    if i < n - 1 {
      PhotoCellsContain(photosY, n - 1, i);
    }
  }

  // Where each part of the report draws: the header above y = 60, the
  // information rows between 70 and 100, the table header at 110..120, the
  // component rows in the columns x = 25 and x = 143.

  lemma NotInHeader(data: ChecklistEntry, op: DrawOp)
    requires (op.DrawText? && op.y > 60) || op.WrappedText? || (op.FillRect? && op.h != 40)
    ensures op !in HeaderOps(data)
  {
  }

  lemma NotInInfoRows(data: ChecklistEntry, op: DrawOp)
    requires !op.DrawText? || op.y < 70 || op.y >= 100
    ensures op !in InfoRows(InfoItems(data), |InfoItems(data)|)
  {
    InfoRowsShape(InfoItems(data), |InfoItems(data)|);
  }

  lemma NotInComponentsHeader(op: DrawOp)
    requires (op.DrawText? && (op.y < 110 || op.y > 120)) || op.WrappedText? || (op.FillRect? && op.h != 10)
    ensures op !in ComponentsHeaderOps()
  {
  }

  lemma NotInComponentRows(data: ChecklistEntry, op: DrawOp)
    requires (op.DrawText? && op.x != 25 && op.x != 143) || op.WrappedText?
    ensures op !in ComponentRows(ComponentItems(data.components), |ComponentItems(data.components)|)
  {
    ComponentRowsShape(ComponentItems(data.components), |ComponentItems(data.components)|);
  }

  lemma NotInObservations(data: ChecklistEntry, op: DrawOp)
    requires (op.DrawText? && op.text != "Observations") || op.FillRect?
    ensures op !in ObservationsOps(data)
  {
  }

  lemma NotInPhotos(data: ChecklistEntry, op: DrawOp)
    requires (op.DrawText? && op.align == Left && op.text != "Photos" && op.x != 60) ||
             op.FillRect? || op.WrappedText?
    ensures op !in PhotosOps(data)
  {
    PhotoCellsShape(PhotosY(data), |data.photos|);
  }

  /** Row i of the component table is at y = 130 + 12 i, rows tile downwards
      12 apart, each shows its label and its status badge in the status
      colour, and a light band is drawn behind exactly the even rows. */
  lemma ComponentRowsPlaced(data: ChecklistEntry, i: nat)
    requires i < 7
    ensures ComponentRowY(i) == 130 + 12 * i
    ensures forall j :: i < j ==> ComponentRowY(i) < ComponentRowY(j)
    ensures var item := ComponentItems(data.components)[i];
      DrawText(item.caption, 25, ComponentRowY(i), Left) in Document(data) &&
      DrawText(BadgeText(item.status), 143, ComponentRowY(i), Left) in Document(data) &&
      SetFillColor(GetStatusColor(StatusName(item.status))) in Document(data)
    ensures FillRect(20, ComponentRowY(i) - 6, 170, 12) in Document(data) <==> i % 2 == 0
  {
    var items := ComponentItems(data.components);
    ComponentRowsContain(items, |items|, i);
    BandInRows(items, |items|, i);
    var band := FillRect(20, ComponentRowY(i) - 6, 170, 12);
    InDocument(data);
    NotInHeader(data, band);
    NotInInfoRows(data, band);
    NotInComponentsHeader(band);
    NotInObservations(data, band);
    NotInPhotos(data, band);
  }

  /** The observations section is drawn exactly when the observations are
      non-empty; its heading is at y = 234 and the wrapped text below it. */
  lemma ObservationsSection(data: ChecklistEntry)
    ensures OBSERVATIONS_Y == 234
    ensures DrawText("Observations", 20, OBSERVATIONS_Y, Left) in Document(data) <==> data.observations != ""
    ensures WrappedText(data.observations, 160, 25, OBSERVATIONS_Y + 15) in Document(data)
            <==> data.observations != ""
  {
    InDocument(data);
    var heading := DrawText("Observations", 20, OBSERVATIONS_Y, Left);
    var body := WrappedText(data.observations, 160, 25, OBSERVATIONS_Y + 15);
    assert "Observations" != "Photos" by { assert |"Photos"| != |"Observations"|; }
    NotInHeader(data, heading);
    NotInInfoRows(data, heading);
    NotInComponentsHeader(heading);
    NotInComponentRows(data, heading);
    NotInPhotos(data, heading);
    NotInHeader(data, body);
    NotInInfoRows(data, body);
    NotInComponentsHeader(body);
    NotInComponentRows(data, body);
    NotInPhotos(data, body);
    if data.observations != "" {
      assert ObservationsOps(data)[1] == DrawText("Observations", 20, OBSERVATIONS_Y, Left);
      assert ObservationsOps(data)[6] == WrappedText(data.observations, 160, 25, OBSERVATIONS_Y + 15);
    }
  }

  /** The photos section is drawn exactly when there are photos; its heading
      is at y = 294 after observations and at y = 234 without them. */
  lemma PhotosSection(data: ChecklistEntry)
    ensures PhotosY(data) == (if data.observations != "" then 294 else 234)
    ensures DrawText("Photos", 20, PhotosY(data), Left) in Document(data) <==> |data.photos| > 0
    ensures DrawText(PhotoCountLabel(|data.photos|), 60, PhotosY(data), Left) in Document(data)
            <==> |data.photos| > 0
  {
    InDocument(data);
    var heading := DrawText("Photos", 20, PhotosY(data), Left);
    var count := DrawText(PhotoCountLabel(|data.photos|), 60, PhotosY(data), Left);
    assert "Photos" != "Observations" by { assert |"Photos"| != |"Observations"|; }
    assert PhotoCountLabel(|data.photos|) != "Observations" by {
      assert PhotoCountLabel(|data.photos|)[0] == '(';
    }
    NotInHeader(data, heading);
    NotInInfoRows(data, heading);
    NotInComponentsHeader(heading);
    NotInComponentRows(data, heading);
    NotInObservations(data, heading);
    NotInHeader(data, count);
    NotInInfoRows(data, count);
    NotInComponentsHeader(count);
    NotInComponentRows(data, count);
    NotInObservations(data, count);
    if |data.photos| > 0 {
      var header := PhotosHeaderOps(|data.photos|, PhotosY(data));
      assert header[1] == DrawText("Photos", 20, PhotosY(data), Left);
      assert header[3] == DrawText(PhotoCountLabel(|data.photos|), 60, PhotosY(data), Left);
      assert PhotosOps(data)[1] == header[1] && PhotosOps(data)[3] == header[3];
    }
  }

  /** Photo i sits at column i mod 3 and row i div 3 of the grid, its label
      centred in it. */
  lemma PhotoCellsPlaced(data: ChecklistEntry, i: nat)
    requires i < |data.photos|
    ensures RoundedRect(PhotoX(i), PhotoY(PhotosY(data), i), 50, 35, Fill) in Document(data)
    ensures DrawText("Photo " + NatToString(i + 1), PhotoX(i) + 25, PhotoY(PhotosY(data), i) + 20, Center)
            in Document(data)
  {
    PhotoCellsContain(PhotosY(data), |data.photos|, i);
  }

  /** Three columns at x = 20, 80, 140; distinct photos get distinct places. */
  lemma PhotoGrid(photosY: int, i: nat, j: nat)
    ensures PhotoX(i) == 20 || PhotoX(i) == 80 || PhotoX(i) == 140
    ensures PhotoX(i) == PhotoX(j) && PhotoY(photosY, i) == PhotoY(photosY, j) ==> i == j
  {
    if PhotoX(i) == PhotoX(j) && PhotoY(photosY, i) == PhotoY(photosY, j) {
      assert i % 3 == j % 3;
      assert i / 3 == j / 3;
      assert i == 3 * (i / 3) + i % 3;
      assert j == 3 * (j / 3) + j % 3;
    }
  }

  /** There is no page break: after observations the first photo row starts
      below the bottom of an A4 page. */
  lemma PhotosPastPageBottom(data: ChecklistEntry)
    requires data.observations != "" && |data.photos| > 0
    ensures PhotoY(PhotosY(data), 0) == 304 > A4_HEIGHT
  {
  }

  /** "(1 photo)" for one photo, "(n photos)" for more, and the number reads
      back as the count. */
  lemma PhotoCountLabelForms(n: nat)
    ensures n == 1 ==> PhotoCountLabel(n) == "(1 photo)"
    ensures n > 1 ==> PhotoCountLabel(n) == "(" + NatToString(n) + " photos)"
    ensures ParseDigits(NatToString(n)) == n
  {
    ParseNatToString(n);
  }

  /** No drawing call of `ops` saves the file. */
  predicate SavesNothing(ops: seq<DrawOp>)
  {
    forall op :: op in ops ==> !op.Save?
  }

  /** The fixed parts of the page never save. */
  lemma FixedSectionsSaveNothing(data: ChecklistEntry)
    ensures SavesNothing(HeaderOps(data))
    ensures SavesNothing(ComponentsHeaderOps())
    ensures SavesNothing(ObservationsOps(data))
  {
  }

  lemma InfoRowsSaveNothing(items: seq<InfoItem>, n: nat)
    requires n <= |items|
    ensures SavesNothing(InfoRows(items, n))
  {
    InfoRowsShape(items, n);
  }

  lemma ComponentRowsSaveNothing(items: seq<ComponentItem>, n: nat)
    requires n <= |items|
    ensures SavesNothing(ComponentRows(items, n))
  {
    ComponentRowsShape(items, n);
  }

  lemma PhotosSaveNothing(data: ChecklistEntry)
    ensures SavesNothing(PhotosOps(data))
  {
    PhotoCellsShape(PhotosY(data), |data.photos|);
  }

  /** The report is saved last, under its file name, and by no earlier call. */
  lemma DocumentEndsWithSave(data: ChecklistEntry)
    ensures var d := Document(data);
      |d| > 0 && d[|d| - 1] == Save(FileName(data.serialNumber, data.date))
    ensures var d := Document(data);
      forall k :: 0 <= k < |d| - 1 ==> !d[k].Save?
  {
    FixedSectionsSaveNothing(data);
    InfoRowsSaveNothing(InfoItems(data), |InfoItems(data)|);
    ComponentRowsSaveNothing(ComponentItems(data.components), |ComponentItems(data.components)|);
    PhotosSaveNothing(data);
    var h := HeaderOps(data);
    var i := InfoRows(InfoItems(data), |InfoItems(data)|);
    var c := ComponentsHeaderOps();
    var r := ComponentRows(ComponentItems(data.components), |ComponentItems(data.components)|);
    var o := ObservationsOps(data);
    var p := PhotosOps(data);
    var body := h + i + c + r + o + p;
    assert SavesNothing(body);
    var d := Document(data);
    assert d == body + [Save(FileName(data.serialNumber, data.date))];
    forall k | 0 <= k < |d| - 1
      ensures !d[k].Save?
    {
      assert d[k] == body[k];
      assert body[k] in body;
    }
  }

  /** Equal serial number and date give the same file name and, for
      four-digit years, different ones give different names. */
  lemma FileNameInjective(s1: string, d1: CalendarDate, s2: string, d2: CalendarDate)
    requires d1.year < 10000 && d2.year < 10000
    ensures FileName(s1, d1) == FileName(s2, d2) <==> s1 == s2 && d1 == d2
  {
    FormatDayMonthYearFields(d1, '-');
    FormatDayMonthYearFields(d2, '-');
    var f1, f2 := FileName(s1, d1), FileName(s2, d2);
    if f1 == f2 {
      assert |s1| == |s2|;
      assert f1[11..11 + |s1|] == s1;
      assert f2[11..11 + |s2|] == s2;
      assert f1[12 + |s1|..22 + |s1|] == FormatDayMonthYear(d1, '-');
      assert f2[12 + |s2|..22 + |s2|] == FormatDayMonthYear(d2, '-');
      FormatDayMonthYearInjective(d1, d2, '-');
    }
  }

  /** A record's badges are never gray: every stored status has its colour. */
  lemma BadgesNeverGray(c: Components, i: nat)
    requires i < 7
    ensures GetStatusColor(StatusName(ComponentItems(c)[i].status)) != GRAY
  {
    StatusVocabulary();
  }
}
