/** The employee card: the profile shown over the video, filtered by a
    privacy level ("low", "medium", "high"), laid out as lines of text on
    the output canvas and as blocks in the page's preview, in a light or
    dark text colour. */
module Employee {
  import opened Base
  import Colors

  datatype Contact = Contact(email: Option<string>, telegram: Option<string>)

  /** Of the branding record only the slogan is ever shown. */
  datatype Branding = Branding(slogan: Option<string>)

  /** A profile record as JSON gives it: every field may be missing. */
  datatype Profile = Profile(
    fullName: Option<string>,
    position: Option<string>,
    company: Option<string>,
    department: Option<string>,
    officeLocation: Option<string>,
    contact: Option<Contact>,
    branding: Option<Branding>,
    privacyLevel: Option<string>)

  /** The top-level fields of a profile. */
  datatype Field = FullName | Position | Company | Department | OfficeLocation | ContactField | BrandingField | PrivacyLevelField

  /** The fields a record has. */
  function Present(p: Profile): set<Field> {
    (if p.fullName.Some? then {FullName} else {}) +
    (if p.position.Some? then {Position} else {}) +
    (if p.company.Some? then {Company} else {}) +
    (if p.department.Some? then {Department} else {}) +
    (if p.officeLocation.Some? then {OfficeLocation} else {}) +
    (if p.contact.Some? then {ContactField} else {}) +
    (if p.branding.Some? then {BrandingField} else {}) +
    (if p.privacyLevel.Some? then {PrivacyLevelField} else {})
  }

  /** Every field `r` has, it has with the value `p` gives it. */
  predicate Agrees(r: Profile, p: Profile) {
    && (r.fullName.Some? ==> r.fullName == p.fullName)
    && (r.position.Some? ==> r.position == p.position)
    && (r.company.Some? ==> r.company == p.company)
    && (r.department.Some? ==> r.department == p.department)
    && (r.officeLocation.Some? ==> r.officeLocation == p.officeLocation)
    && (r.contact.Some? ==> r.contact == p.contact)
    && (r.branding.Some? ==> r.branding == p.branding)
    && (r.privacyLevel.Some? ==> r.privacyLevel == p.privacyLevel)
  }

  const AllFields: set<Field> := {FullName, Position, Company, Department, OfficeLocation, ContactField, BrandingField, PrivacyLevelField}

  /** The fields a privacy level lets through: name and position at "low",
      the workplace as well at "medium", everything at "high" and at any
      level the switch does not know. */
  function Allowed(level: string): set<Field> {
    if level == "low" then {FullName, Position}
    else if level == "medium" then {FullName, Position, Company, Department, OfficeLocation}
    else AllFields
  }

  /** JavaScript truthiness of a text field: present and not empty. */
  predicate Truthy(f: Option<string>) {
    f.Some? && f.value != ""
  }

  /** A field written into a template string: a missing one reads "undefined". */
  function Text(f: Option<string>): string {
    if f.Some? then f.value else "undefined"
  }

  /** `getDisplayData()` on the freshly loaded record `data`: the record cut
      down to the fields the level allows, each with its own value. */
  function DisplayData(level: string, data: Profile): (r: Profile)
    ensures r.fullName == data.fullName && r.position == data.position
    ensures level != "low" && level != "medium" ==> r == data
    ensures level == "low" || level == "medium" ==> r.contact.None? && r.branding.None? && r.privacyLevel.None?
  {
    if level == "low" then
      Profile(data.fullName, data.position, None, None, None, None, None, None)
    else if level == "medium" then
      Profile(data.fullName, data.position, data.company, data.department, data.officeLocation, None, None, None)
    else
      data
  }

  /** The filtered record is a projection: it has exactly the fields of
      the record that the level allows, each with the record's value. */
  lemma DisplayDataIsProjection(level: string, data: Profile)
    ensures Agrees(DisplayData(level, data), data)
    ensures Present(DisplayData(level, data)) == Present(data) * Allowed(level)
  {
  }

  /** A higher level never shows less. */
  lemma LevelsAreNested(data: Profile)
    ensures Present(DisplayData("low", data)) <= Present(DisplayData("medium", data)) <= Present(DisplayData("high", data))
  {
    DisplayDataIsProjection("low", data);
    DisplayDataIsProjection("medium", data);
    DisplayDataIsProjection("high", data);
  }

  /** What `localStorage.getItem('employeeCustomData')` holds, once parsed. */
  datatype Saved = NothingSaved | Unparsable | Parsed(record: Profile)

  /** The page state `loadEmployeeData()` reads: the open editor's record,
      the saved record and the built-in profile. */
  datatype Storage = Storage(editor: Option<Profile>, saved: Saved, builtIn: Profile)

  /** `loadEmployeeData()`: the editor's record when the editor is open,
      else the saved record if it parses, else the built-in profile. */
  function LoadEmployeeData(store: Storage): (p: Profile)
    ensures store.editor.Some? ==> p == store.editor.value
    ensures store.editor.None? && store.saved.Parsed? ==> p == store.saved.record
    ensures store.editor.None? && !store.saved.Parsed? ==> p == store.builtIn
  {
    if store.editor.Some? then store.editor.value
    else if store.saved.Parsed? then store.saved.record
    else store.builtIn
  }

  /** `calculateHeight(data)`: 20 px per line plus 20, counting name and
      position, each truthy workplace field, and at "high" two contact lines
      and the slogan if there is one. */
  function CalculateHeight(level: string, data: Profile): (h: int)
    ensures 60 <= h <= 180 && h % 20 == 0
  {
    var lines := 2 + (if Truthy(data.company) then 1 else 0) + (if Truthy(data.department) then 1 else 0)
      + (if Truthy(data.officeLocation) then 1 else 0)
      + (if level == "high" then 2 + (if HasSlogan(data) then 1 else 0) else 0);
    lines * 20 + 20
  }

  predicate HasSlogan(data: Profile) {
    data.branding.Some? && Truthy(data.branding.value.slogan)
  }

  /** `getTextColors()`: white text on a dark veil for "light", black text on
      a pale veil for anything else. */
  datatype TextColors = TextColors(background: string, text: string)

  function GetTextColors(color: string): (c: TextColors)
    ensures c.text == "#ffffff" <==> color == "light"
    ensures c.text == "#000000" <==> color != "light"
  {
    if color == "light" then TextColors("rgba(0, 0, 0, 0.7)", "#ffffff")
    else TextColors("rgba(255, 255, 255, 0.8)", "#000000")
  }

  /** Both text colours are well-formed colours: white (every channel 255)
      and black (every channel 0). */
  lemma TextColorsAreColors(color: string)
    ensures var text := GetTextColors(color).text;
      Colors.IsLowerHexColor(text) &&
      forall i :: 0 <= i < 3 ==> Colors.Channel(text, i) == (if color == "light" then 255 else 0)
  {
    var text := GetTextColors(color).text;
    var d := if color == "light" then 'f' else '0';
    assert text == ['#', d, d, d, d, d, d];
    assert Colors.AllHex(text[1..]);
    forall i | 0 <= i < 3
      ensures Colors.Channel(text, i) == (if color == "light" then 255 else 0)
    {
      assert text[1 + 2 * i .. 3 + 2 * i] == [d, d];
      DoubleDigit(d);
    }
  }

  /** Two equal hex digits read as 17 times the digit. */
  lemma DoubleDigit(d: char)
    requires Colors.IsHexDigit(d)
    ensures Colors.AllHex([d, d]) && Colors.ParseHex([d, d]) == 17 * Colors.DigitValue(d)
  {
    assert [d, d][..1] == [d] && [d][..0] == [];
  }

  /** The lines `drawOnCanvas` writes, in order. */
  datatype LineKind = NameLine | PositionLine | CompanyLine | DepartmentLine | LocationLine | EmailLine | TelegramLine | SloganLine
  datatype Font = Bold16 | Regular14 | Italic12
  datatype Line = Line(kind: LineKind, text: string, font: Font)

  /** Line `kind` of the card for `data`; a missing field reads "undefined". */
  function CardLine(kind: LineKind, data: Profile): (line: Line)
    ensures line.kind == kind
  {
    match kind
    case NameLine => Line(NameLine, Text(data.fullName), Bold16)
    case PositionLine => Line(PositionLine, Text(data.position), Regular14)
    case CompanyLine => Line(CompanyLine, Text(data.company), Regular14)
    case DepartmentLine => Line(DepartmentLine, Text(data.department), Regular14)
    case LocationLine => Line(LocationLine, Text(data.officeLocation), Regular14)
    case EmailLine => Line(EmailLine, "Email: " + Text(if data.contact.Some? then data.contact.value.email else None), Regular14)
    case TelegramLine => Line(TelegramLine, "Telegram: " + Text(if data.contact.Some? then data.contact.value.telegram else None), Regular14)
    case SloganLine => Line(SloganLine, "\"" + Text(if data.branding.Some? then data.branding.value.slogan else None) + "\"", Italic12)
  }

  /** `lines`, followed by line `kind` when `b` holds. */
  function AppendIf(lines: seq<Line>, b: bool, kind: LineKind, data: Profile): (r: seq<Line>)
    ensures |r| == |lines| + (if b then 1 else 0)
    ensures forall i :: 0 <= i < |lines| ==> r[i] == lines[i]
    ensures b ==> r[|lines|] == CardLine(kind, data)
  {
    if b then lines + [CardLine(kind, data)] else lines
  }

  /** Name, position and the truthy workplace fields. */
  function Head(data: Profile): (lines: seq<Line>)
    ensures 2 <= |lines| <= 5
    ensures lines[0].kind == NameLine && lines[1].kind == PositionLine
    ensures forall i :: 0 <= i < |lines| ==> !Private(lines[i].kind)
  {
    var l0 := [CardLine(NameLine, data), CardLine(PositionLine, data)];
    var l1 := AppendIf(l0, Truthy(data.company), CompanyLine, data);
    var l2 := AppendIf(l1, Truthy(data.department), DepartmentLine, data);
    AppendIf(l2, Truthy(data.officeLocation), LocationLine, data)
  }

  /** Whether the contact lines are drawn: at "high", for a record with contacts. */
  predicate ShowsContacts(level: string, data: Profile) {
    level == "high" && data.contact.Some?
  }

  /** The text `drawOnCanvas` writes for `data` at `level`: name (bold) and
      position always, then each truthy workplace field, and at "high" with
      contacts the e-mail and Telegram lines and, with a slogan, the slogan
      in italics. */
  function CardLines(level: string, data: Profile): (lines: seq<Line>)
    ensures 2 <= |lines| <= 8
    ensures lines[0].kind == NameLine && lines[1].kind == PositionLine
  {
    var c := ShowsContacts(level, data);
    var l0 := AppendIf(Head(data), c, EmailLine, data);
    var l1 := AppendIf(l0, c, TelegramLine, data);
    AppendIf(l1, c && HasSlogan(data), SloganLine, data)
  }

  /** The kinds of line among `lines`. */
  function KindSet(lines: seq<Line>): set<LineKind> {
    set i | 0 <= i < |lines| :: lines[i].kind
  }

  /** Appending a line when `b` holds adds exactly its kind. */
  lemma KindSetAppendIf(lines: seq<Line>, b: bool, kind: LineKind, data: Profile)
    ensures KindSet(AppendIf(lines, b, kind, data)) == KindSet(lines) + (if b then {kind} else {})
  {
    var r := AppendIf(lines, b, kind, data);
    if b {
      assert r[|lines|].kind == kind;
    }
  }

  /** The head shows a workplace line exactly for each truthy workplace
      field, besides name and position. */
  lemma HeadKinds(data: Profile)
    ensures KindSet(Head(data)) == {NameLine, PositionLine}
      + (if Truthy(data.company) then {CompanyLine} else {})
      + (if Truthy(data.department) then {DepartmentLine} else {})
      + (if Truthy(data.officeLocation) then {LocationLine} else {})
  {
    var l0 := [CardLine(NameLine, data), CardLine(PositionLine, data)];
    assert l0[0].kind == NameLine && l0[1].kind == PositionLine;
    assert KindSet(l0) == {NameLine, PositionLine};
    var l1 := AppendIf(l0, Truthy(data.company), CompanyLine, data);
    KindSetAppendIf(l0, Truthy(data.company), CompanyLine, data);
    var l2 := AppendIf(l1, Truthy(data.department), DepartmentLine, data);
    KindSetAppendIf(l1, Truthy(data.department), DepartmentLine, data);
    KindSetAppendIf(l2, Truthy(data.officeLocation), LocationLine, data);
  }

  /** The card shows a workplace line exactly for each truthy workplace
      field, and the contact lines exactly at "high" for a record with
      contacts (the slogan only when there is one, too). */
  lemma CardLinesShow(level: string, data: Profile)
    ensures KindSet(CardLines(level, data)) == {NameLine, PositionLine}
      + (if Truthy(data.company) then {CompanyLine} else {})
      + (if Truthy(data.department) then {DepartmentLine} else {})
      + (if Truthy(data.officeLocation) then {LocationLine} else {})
      + (if ShowsContacts(level, data) then {EmailLine, TelegramLine} else {})
      + (if ShowsContacts(level, data) && HasSlogan(data) then {SloganLine} else {})
  {
    var head := Head(data);
    HeadKinds(data);
    var c := ShowsContacts(level, data);
    var l4 := AppendIf(head, c, EmailLine, data);
    KindSetAppendIf(head, c, EmailLine, data);
    var l5 := AppendIf(l4, c, TelegramLine, data);
    KindSetAppendIf(l4, c, TelegramLine, data);
    KindSetAppendIf(l5, c && HasSlogan(data), SloganLine, data);
  }

  /** The card is its head (name, position, workplace: nothing private)
      followed by the private lines only. */
  lemma CardLinesOrder(level: string, data: Profile)
    ensures var lines := CardLines(level, data); var n := |Head(data)|;
      && n <= |lines| && lines[..n] == Head(data)
      && (forall i :: 0 <= i < n ==> !Private(lines[i].kind))
      && (forall i :: n <= i < |lines| ==> Private(lines[i].kind))
  {
    var head := Head(data);
    var c := ShowsContacts(level, data);
    var l4 := AppendIf(head, c, EmailLine, data);
    var l5 := AppendIf(l4, c, TelegramLine, data);
    var lines := AppendIf(l5, c && HasSlogan(data), SloganLine, data);
    assert lines == CardLines(level, data);
    assert lines[..|head|] == head;
  }

  /** The card's lines placed top to bottom: line `i` at LineY(i). */
  function Layout(lines: seq<Line>): (placed: seq<TextLine>)
    ensures |placed| == |lines|
  {
    if lines == [] then [] else Layout(lines[..|lines| - 1]) + [TextLine(lines[|lines| - 1], LineY(|lines| - 1))]
  }

  /** Line `i` of the card is drawn with its top at LineY(i). */
  lemma {:induction false} LayoutAt(lines: seq<Line>, i: nat)
    requires i < |lines|
    ensures Layout(lines)[i] == TextLine(lines[i], LineY(i))
  {
    if i < |lines| - 1 {
      LayoutAt(lines[..|lines| - 1], i);
    }
  }

  /** Drawing one more line at the current top puts it below the others,
      and the next top is 25 px further down after the name, 20 px after
      any other line. */
  lemma Place(drawn: seq<TextLine>, lines: seq<Line>, line: Line, y: nat)
    requires drawn == Layout(lines) && y == LineY(|lines|)
    ensures drawn + [TextLine(line, y)] == Layout(lines + [line])
    ensures y + (if |lines| == 0 then 25 else 20) == LineY(|lines| + 1)
  {
    assert (lines + [line])[..|lines|] == lines;
  }

  /** The top of line `i`: 20 px from the top, 25 px below the name, then
      20 px per line. */
  function LineY(i: nat): (y: nat)
    ensures y >= 20
  {
    if i == 0 then 20 else 25 + 20 * i
  }

  /** The card starts 20 px from the top, the position sits 25 px below
      the name, every further line 20 px below the one before, so the lines
      go strictly down the canvas. */
  lemma LayoutSpacing(lines: seq<Line>)
    ensures var placed := Layout(lines);
      (|placed| > 0 ==> placed[0].y == 20) &&
      (|placed| > 1 ==> placed[1].y == placed[0].y + 25) &&
      (forall i :: 1 <= i < |placed| - 1 ==> placed[i + 1].y == placed[i].y + 20) &&
      (forall i, j :: 0 <= i < j < |placed| ==> placed[i].y < placed[j].y)
  {
    var placed := Layout(lines);
    forall i | 0 <= i < |placed|
      ensures placed[i] == TextLine(lines[i], LineY(i))
    {
      LayoutAt(lines, i);
    }
  }

  predicate Private(kind: LineKind) {
    kind == EmailLine || kind == TelegramLine || kind == SloganLine
  }

  /** Contact and slogan lines are drawn only at "high", and at "high" the
      contact lines are drawn whenever the record has contacts. */
  lemma PrivateLinesOnlyAtHigh(level: string, p: Profile)
    ensures var lines := CardLines(level, DisplayData(level, p));
      (forall i :: 0 <= i < |lines| && Private(lines[i].kind) ==> level == "high") &&
      (level == "high" && p.contact.Some? ==> exists i :: 0 <= i < |lines| && lines[i].kind == EmailLine)
  {
    var data := DisplayData(level, p);
    var head := Head(data);
    var lines := CardLines(level, data);
    if ShowsContacts(level, data) {
      assert lines[|head|].kind == EmailLine;
    } else {
      assert lines == head;
    }
  }

  /** `calculateHeight` gives room for exactly the lines drawn, plus 20 px,
      unless the level is "high" and the record has no contacts: then it
      still counts the two contact lines and the slogan, which are not drawn. */
  lemma HeightMatchesLayout(level: string, data: Profile)
    ensures level != "high" || data.contact.Some? ==>
      CalculateHeight(level, data) == 20 * |CardLines(level, data)| + 20
    ensures level == "high" && data.contact.None? ==>
      CalculateHeight(level, data) == 20 * |CardLines(level, data)| + 20 + 40 + (if HasSlogan(data) then 20 else 0)
  {
  }

  /** The blocks `updateDisplay` writes into the preview. */
  datatype Block =
    | NameBlock(text: string)
    | PositionBlock(text: string)
    | CompanyBlock(text: string)
    | DepartmentBlock(text: string)
    | LocationBlock(text: string)
    | ContactsBlock(email: string, telegram: string)
    | BrandingBlock(slogan: string)

  /** The preview card for `data` at `level`: the contacts and the branding
      blocks need the level "high" (not just a record that has them). */
  function PreviewBlocks(level: string, data: Profile): (blocks: seq<Block>)
    ensures |blocks| >= 2 && blocks[0] == NameBlock(Text(data.fullName)) && blocks[1] == PositionBlock(Text(data.position))
    ensures forall i :: 0 <= i < |blocks| && (blocks[i].ContactsBlock? || blocks[i].BrandingBlock?) ==> level == "high"
    ensures level == "high" && data.contact.Some? ==> exists i :: 0 <= i < |blocks| && blocks[i].ContactsBlock?
  {
    var head := [NameBlock(Text(data.fullName)), PositionBlock(Text(data.position))]
      + (if Truthy(data.company) then [CompanyBlock(Text(data.company))] else [])
      + (if Truthy(data.department) then [DepartmentBlock(Text(data.department))] else [])
      + (if Truthy(data.officeLocation) then [LocationBlock(Text(data.officeLocation))] else []);
    var contacts := if data.contact.Some? && level == "high" then
      [ContactsBlock(Text(data.contact.value.email), Text(data.contact.value.telegram))] else [];
    var branding := if data.branding.Some? && level == "high" then [BrandingBlock(Text(data.branding.value.slogan))] else [];
    assert forall i :: 0 <= i < |head| ==> !head[i].ContactsBlock? && !head[i].BrandingBlock?;
    assert contacts != [] ==> (head + contacts + branding)[|head|] == contacts[0];
    head + contacts + branding
  }

  /** What `drawOnCanvas` puts on the canvas: the fill colour and each line
      with its top. */
  datatype TextLine = TextLine(line: Line, y: nat)
  datatype Drawing = Drawing(fill: string, lines: seq<TextLine>)

  /** The first part of `drawOnCanvas`: name and position, then each truthy
      workplace field, `currentY` moving down as lines are written. */
  method DrawHeadLines(data: Profile) returns (drawn: seq<TextLine>, currentY: nat)
    ensures drawn == Layout(Head(data)) && currentY == LineY(|Head(data)|)
  {
    ghost var lines: seq<Line> := [];
    drawn, currentY := [], 20;
    var line := CardLine(NameLine, data);
    Place(drawn, lines, line, currentY);
    drawn, lines := drawn + [TextLine(line, currentY)], lines + [line];
    currentY := currentY + 25;
    line := CardLine(PositionLine, data);
    Place(drawn, lines, line, currentY);
    drawn, lines := drawn + [TextLine(line, currentY)], lines + [line];
    currentY := currentY + 20;
    assert lines == [CardLine(NameLine, data), CardLine(PositionLine, data)];
    ghost var before := lines;
    if Truthy(data.company) {
      line := CardLine(CompanyLine, data);
      Place(drawn, lines, line, currentY);
      drawn, lines := drawn + [TextLine(line, currentY)], lines + [line];
      currentY := currentY + 20;
    }
    assert lines == AppendIf(before, Truthy(data.company), CompanyLine, data);
    before := lines;
    if Truthy(data.department) {
      line := CardLine(DepartmentLine, data);
      Place(drawn, lines, line, currentY);
      drawn, lines := drawn + [TextLine(line, currentY)], lines + [line];
      currentY := currentY + 20;
    }
    assert lines == AppendIf(before, Truthy(data.department), DepartmentLine, data);
    before := lines;
    if Truthy(data.officeLocation) {
      line := CardLine(LocationLine, data);
      Place(drawn, lines, line, currentY);
      drawn, lines := drawn + [TextLine(line, currentY)], lines + [line];
      currentY := currentY + 20;
    }
    assert lines == AppendIf(before, Truthy(data.officeLocation), LocationLine, data);
  }

  /** The rest of `drawOnCanvas`: at "high", for a record with contacts, the
      e-mail and Telegram lines and the slogan if there is one; the slogan
      is last, so `currentY` is not advanced after it. */
  method DrawContactLines(level: string, data: Profile, head: seq<TextLine>, y: nat) returns (drawn: seq<TextLine>)
    requires head == Layout(Head(data)) && y == LineY(|Head(data)|)
    ensures drawn == Layout(CardLines(level, data))
  {
    ghost var lines := Head(data);
    drawn := head;
    var currentY := y;
    if level == "high" && data.contact.Some? {
      var line := CardLine(EmailLine, data);
      Place(drawn, lines, line, currentY);
      drawn, lines := drawn + [TextLine(line, currentY)], lines + [line];
      currentY := currentY + 20;
      line := CardLine(TelegramLine, data);
      Place(drawn, lines, line, currentY);
      drawn, lines := drawn + [TextLine(line, currentY)], lines + [line];
      currentY := currentY + 20;
      if HasSlogan(data) {
        line := CardLine(SloganLine, data);
        Place(drawn, lines, line, currentY);
        drawn, lines := drawn + [TextLine(line, currentY)], lines + [line];
      }
    }
    assert lines == CardLines(level, data);
  }

  class EmployeeDisplay {
    var currentPrivacyLevel: string
    var currentTextColor: string
    var employeeData: Profile

    /** `new EmployeeDisplay()`: the record comes from `store`. */
    constructor(store: Storage)
      ensures currentPrivacyLevel == "low" && currentTextColor == "dark" && employeeData == LoadEmployeeData(store)
    {
      currentPrivacyLevel := "low";
      currentTextColor := "dark";
      employeeData := LoadEmployeeData(store);
    }

    /** `getDisplayData()`: the record is reloaded from `store`, kept, and
        filtered by the current level. */
    method GetDisplayData(store: Storage) returns (data: Profile)
      modifies this`employeeData
      ensures employeeData == LoadEmployeeData(store)
      ensures data == DisplayData(currentPrivacyLevel, employeeData)
    {
      employeeData := LoadEmployeeData(store);
      data := DisplayData(currentPrivacyLevel, employeeData);
    }

    /** `updateDisplay()`: nothing without the preview element; otherwise
        the card's blocks. */
    method UpdateDisplay(hasPreview: bool, store: Storage) returns (preview: Option<seq<Block>>)
      modifies this`employeeData
      ensures !hasPreview ==> preview == None && employeeData == old(employeeData)
      ensures hasPreview ==> employeeData == LoadEmployeeData(store)
      ensures hasPreview ==> preview == Some(PreviewBlocks(currentPrivacyLevel, DisplayData(currentPrivacyLevel, LoadEmployeeData(store))))
    {
      if !hasPreview {
        return None;
      }
      var data := GetDisplayData(store);
      preview := Some(PreviewBlocks(currentPrivacyLevel, data));
    }

    /** `setPrivacyLevel(level)`: the level is kept as given and the
        preview is redrawn. */
    method SetPrivacyLevel(level: string, hasPreview: bool, store: Storage) returns (preview: Option<seq<Block>>)
      modifies this`currentPrivacyLevel, this`employeeData
      ensures currentPrivacyLevel == level
      ensures hasPreview ==> employeeData == LoadEmployeeData(store)
      ensures !hasPreview ==> employeeData == old(employeeData)
      ensures hasPreview ==> preview == Some(PreviewBlocks(level, DisplayData(level, LoadEmployeeData(store))))
      ensures !hasPreview ==> preview == None
    {
      currentPrivacyLevel := level;
      preview := UpdateDisplay(hasPreview, store);
    }

    /** `setTextColor(color)`. */
    method SetTextColor(color: string)
      modifies this`currentTextColor
      ensures currentTextColor == color
    {
      currentTextColor := color;
    }

    /** `drawOnCanvas(ctx, ...)`: nothing without a context; otherwise the
        card's lines, top to bottom from y = 20, in the text colour. */
    method DrawOnCanvas(hasContext: bool, store: Storage) returns (drawing: Option<Drawing>)
      modifies this`employeeData
      ensures !hasContext ==> drawing == None && employeeData == old(employeeData)
      ensures hasContext ==> employeeData == LoadEmployeeData(store)
      ensures hasContext ==> drawing == Some(Drawing(GetTextColors(currentTextColor).text,
        Layout(CardLines(currentPrivacyLevel, DisplayData(currentPrivacyLevel, LoadEmployeeData(store))))))
    {
      if !hasContext {
        return None;
      }
      var data := GetDisplayData(store);
      var fill := GetTextColors(currentTextColor).text;
      var drawn, currentY := DrawHeadLines(data);
      drawn := DrawContactLines(currentPrivacyLevel, data, drawn, currentY);
      drawing := Some(Drawing(fill, drawn));
    }
  }
}
