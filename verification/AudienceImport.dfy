/** Importing and exporting audience members (src/utils/audience-member.js). */
module AudienceImport {
  import opened Text
  import opened AudienceCsv

  datatype Field = Email | Phone | FcmToken | OneSignalPlayerId | EntityId

  /** The fields in the order they are printed. */
  function FieldAt(i: nat): Field {
    if i == 0 then Email else if i == 1 then Phone else if i == 2 then FcmToken
    else if i == 3 then OneSignalPlayerId else EntityId
  }

  /** A member's fields; one that is null is absent. */
  type Member = map<Field, string>

  function Name(f: Field): string {
    match f
    case Email => "email"
    case Phone => "phone"
    case FcmToken => "fcm_token"
    case OneSignalPlayerId => "onesignal_player_id"
    case EntityId => "entity_id"
  }

  function Names(): (r: seq<string>)
    ensures |r| == 5 && forall i | 0 <= i < 5 :: r[i] == Name(FieldAt(i))
  {
    [Name(Email), Name(Phone), Name(FcmToken), Name(OneSignalPlayerId), Name(EntityId)]
  }

  function Clean(s: string): Option<string> {
    if Trim(s) == "" then None else Some(Trim(s))
  }

  /** The five fields of normalizeAudienceMember. */
  function Normalize(record: map<Field, string>): Member {
    map f | f in record && Clean(record[f]).Some? :: Clean(record[f]).value
  }

  predicate Normalized(m: Member) {
    forall f | f in m :: m[f] != "" && Trimmed(m[f])
  }

  /** normalizeAudienceMember's user_id; `random` is the new UUID it may fall back on. */
  function UserId(given: Option<string>, random: string): string {
    if given.Some? && Clean(given.value).Some? then Clean(given.value).value else random
  }

  lemma CleanOfTrimmed(s: string)
    requires s != "" && Trimmed(s)
    ensures Clean(s) == Some(s)
  {
  }

  /** What is normalized has no blank field and a user id, and normalizing it again changes nothing, whatever UUID is
      drawn then. */
  lemma NormalizeNormalizes(record: map<Field, string>, given: Option<string>, random: string, random': string)
    requires random != "" && Trimmed(random)
    ensures Normalized(Normalize(record)) && Normalize(Normalize(record)) == Normalize(record)
    ensures var id := UserId(given, random); id != "" && Trimmed(id) && UserId(Some(id), random') == id
  {
    forall f | f in Normalize(record)
      ensures Normalize(record)[f] != "" && Trimmed(Normalize(record)[f])
      ensures Clean(Normalize(record)[f]) == Some(Normalize(record)[f])
    {
      TrimIsTrimmed(record[f]);
      CleanOfTrimmed(Normalize(record)[f]);
    }
    if given.Some? {
      TrimIsTrimmed(given.value);
    }
    CleanOfTrimmed(UserId(given, random));
  }

  // ---------------------------------------------------------------- header cells

  /** `toLowerCase`, as far as it can produce ASCII letters: U+212A is the Kelvin sign. */
  function Lower(c: char): char {
    if 'A' <= c <= 'Z' then c - 'A' + 'a' else if c == '\U{212A}' then 'k' else c
  }

  function LowerAll(s: string): string {
    if s == "" then "" else [Lower(s[0])] + LowerAll(s[1..])
  }

  predicate Separates(c: char) {
    IsSpace(c) || c == '-'
  }

  function DropSeparators(s: string): (r: string)
    ensures |r| <= |s|
  {
    if s != "" && Separates(s[0]) then DropSeparators(s[1..]) else s
  }

  /** `replace(/[\s-]+/g, "_")` */
  function Underscore(s: string): string
    decreases |s|
  {
    if s == "" then ""
    else if Separates(s[0]) then "_" + Underscore(DropSeparators(s))
    else [s[0]] + Underscore(s[1..])
  }

  /** What a header cell selects: a field, nothing, or a property every JavaScript object has. */
  datatype Column = Known(field: Field) | Inherited | Unknown

  /** HEADER_ALIASES, looked up on a plain object. */
  function ColumnNamed(h: string): Column {
    if h == "email" then Known(Email)
    else if h == "phone" then Known(Phone)
    else if h in {"fcm_token", "fcmtoken", "fcm"} then Known(FcmToken)
    else if h in {"onesignal_player_id", "onesignalplayerid", "onesignal"} then Known(OneSignalPlayerId)
    else if h in {"entity_id", "entityid"} then Known(EntityId)
    else if h in {"constructor", "__proto__"} then Inherited
    else Unknown
  }

  function ColumnOf(header: string): Column {
    ColumnNamed(Underscore(LowerAll(Trim(header))))
  }

  function ColumnsOf(headers: seq<string>): (r: seq<Column>)
    ensures |r| == |headers| && forall i | 0 <= i < |r| :: r[i] == ColumnOf(headers[i])
  {
    if headers == [] then [] else [ColumnOf(headers[0])] + ColumnsOf(headers[1..])
  }

  // ---------------------------------------------------------------- import

  /** The first `n` columns of a row; a later column of the same field overrides an earlier one. */
  function Record(columns: seq<Column>, row: seq<string>, n: nat): map<Field, string>
    requires n <= |columns|
  {
    if n == 0 then map[] else
      var before := Record(columns, row, n - 1);
      if columns[n - 1].Known?
      then before[columns[n - 1].field := if n - 1 < |row| then row[n - 1] else ""]
      else before
  }

  predicate Blank(row: seq<string>) {
    forall i | 0 <= i < |row| :: Clean(row[i]) == None
  }

  function Records(columns: seq<Column>, rows: seq<seq<string>>): seq<map<Field, string>> {
    if rows == [] then []
    else (if Blank(rows[0]) then [] else [Record(columns, rows[0], |columns|)]) + Records(columns, rows[1..])
  }

  function ImportRows(rows: seq<seq<string>>): Result<seq<map<Field, string>>> {
    if |rows| < 2 then Ok([]) else
      var columns := ColumnsOf(rows[0]);
      if forall c | c in columns :: c == Unknown then Error("CSV header must include: " + Join(Names(), ", "))
      else Ok(Records(columns, rows[1..]))
  }

  /** parseAudienceImport for format "csv". */
  function ImportCsv(content: string): Result<seq<map<Field, string>>> {
    ImportRows(Parse(content))
  }

  // ---------------------------------------------------------------- export

  function Cell(m: Member, f: Field): string {
    if f in m then m[f] else ""
  }

  function Cells(m: Member): (r: seq<string>)
    ensures |r| == 5 && forall i | 0 <= i < 5 :: r[i] == Cell(m, FieldAt(i))
  {
    [Cell(m, Email), Cell(m, Phone), Cell(m, FcmToken), Cell(m, OneSignalPlayerId), Cell(m, EntityId)]
  }

  function CellsOf(members: seq<Member>): (r: seq<seq<string>>)
    ensures |r| == |members| && forall i | 0 <= i < |r| :: r[i] == Cells(members[i])
  {
    if members == [] then [] else [Cells(members[0])] + CellsOf(members[1..])
  }

  function MembersToCsv(members: seq<Member>): string {
    Join([Join(Names(), ",")] + Lines(CellsOf(members)), "\n")
  }

  // ---------------------------------------------------------------- the round trip

  predicate Plain(s: string) {
    forall i | 0 <= i < |s| :: s[i] != '"' && s[i] != ',' && s[i] != '\n' && s[i] != '\r'
  }

  lemma {:induction false} ReadPlain(v: string, rest: string, r: Reading)
    requires !r.quoted && Plain(v)
    ensures Read(v + rest, r) == Read(rest, r.(cell := r.cell + v))
  {
    if v == "" {
      assert v + rest == rest && r.cell + v == r.cell;
    } else {
      assert v + rest == [v[0]] + (v[1..] + rest);
      ReadOne(v[0], v[1..] + rest, r);
      ReadPlain(v[1..], rest, r.(cell := r.cell + [v[0]]));
      assert r.cell + [v[0]] + v[1..] == r.cell + v;
    }
  }

  lemma FirstPlainCell(cells: seq<string>, rest: string, r: Reading)
    requires |cells| > 1 && !r.quoted && r.cell == "" && Plain(cells[0])
    ensures Read(Join(cells, ",") + rest, r) == Read(Join(cells[1..], ",") + rest, r.(row := r.row + [cells[0]]))
  {
    var first, more := cells[0], Join(cells[1..], ",") + rest;
    assert Join(cells, ",") + rest == first + ([','] + more);
    ReadPlain(first, [','] + more, r);
    assert "" + first == first;
    ReadOne(',', more, r.(cell := first));
    assert Next(',', r.(cell := first)) == r.(row := r.row + [first]);
  }

  /** A row of unquoted cells, up to its last cell. */
  lemma {:induction false} ReadPlainLine(cells: seq<string>, rest: string, r: Reading)
    requires cells != [] && !r.quoted && r.cell == "" && forall i | 0 <= i < |cells| :: Plain(cells[i])
    ensures Read(Join(cells, ",") + rest, r)
            == Read(rest, r.(row := r.row + cells[..|cells| - 1], cell := cells[|cells| - 1]))
  {
    if |cells| == 1 {
      ReadPlain(cells[0], rest, r);
      assert "" + cells[0] == cells[0] && r.row + cells[..0] == r.row;
    } else {
      FirstPlainCell(cells, rest, r);
      ReadPlainLine(cells[1..], rest, r.(row := r.row + [cells[0]]));
      RegroupRow(r.row, cells);
    }
  }

  lemma NamesArePlain()
    ensures forall i | 0 <= i < 5 :: Plain(Names()[i]) && LowerWord(Names()[i])
  {
  }

  lemma NameIsPlain(f: Field)
    ensures Plain(Name(f)) && LowerWord(Name(f))
  {
  }

  /** A header line of plain names, and whatever follows it. */
  lemma ReadHeader(names: seq<string>, rest: string)
    requires names != [] && names[0] != "" && forall i | 0 <= i < |names| :: Plain(names[i])
    ensures Read(Join(names, ",") + "\n" + rest, NOTHING) == Read(rest, Reading([names], [], "", false))
    ensures Finish(Read(Join(names, ","), NOTHING)) == [names]
  {
    var n := |names|;
    var r := NOTHING.(row := names[..n - 1], cell := names[n - 1]);
    assert [] + names[..n - 1] == names[..n - 1];
    assert DropReturn(names[n - 1]) == names[n - 1];
    assert names[..n - 1] + [names[n - 1]] == names;
    assert Join(names, ",") + "\n" + rest == Join(names, ",") + (['\n'] + rest);
    ReadPlainLine(names, ['\n'] + rest, NOTHING);
    ReadOne('\n', rest, r);
    assert Join(names, ",") + "" == Join(names, ",");
    ReadPlainLine(names, "", NOTHING);
    assert [] + [names] == [names];
  }

  // ---------------------------------------------------------------- what the columns are

  predicate LowerWord(s: string) {
    forall i | 0 <= i < |s| :: 'a' <= s[i] <= 'z' || s[i] == '_'
  }

  lemma {:induction false} WordIsItself(s: string)
    requires LowerWord(s)
    ensures LowerAll(s) == s && Underscore(s) == s
  {
    if s != "" {
      WordIsItself(s[1..]);
      assert [s[0]] + s[1..] == s;
    }
  }

  lemma HeaderIsItself(s: string)
    requires LowerWord(s)
    ensures Underscore(LowerAll(Trim(s))) == s
  {
    TrimmedIsItself(s);
    WordIsItself(s);
  }

  lemma TrimmedIsItself(s: string)
    requires Trimmed(s)
    ensures Trim(s) == s
  {
  }

  lemma NamesAreFields()
    ensures forall i | 0 <= i < 5 :: ColumnsOf(Names())[i] == Known(FieldAt(i))
    ensures exists c | c in ColumnsOf(Names()) :: c != Unknown
  {
    forall i | 0 <= i < 5 ensures ColumnOf(Names()[i]) == Known(FieldAt(i)) {
      NameIsPlain(FieldAt(i));
      HeaderIsItself(Name(FieldAt(i)));
      NameIsItsColumn(FieldAt(i));
    }
    assert ColumnsOf(Names())[0] in ColumnsOf(Names());
  }

  lemma NameIsItsColumn(f: Field)
    ensures ColumnNamed(Name(f)) == Known(f)
  {
  }

  lemma EveryFieldIsPrinted(f: Field) returns (i: nat)
    ensures i < 5 && FieldAt(i) == f
  {
    i := match f case Email => 0 case Phone => 1 case FcmToken => 2 case OneSignalPlayerId => 3 case EntityId => 4;
  }

  // ---------------------------------------------------------------- what a row comes back as

  lemma CellsComeBack(m: Member)
    requires Normalized(m)
    ensures ReadBack(Cells(m)) == Cells(m)
  {
  }

  lemma {:induction false} AllCellsComeBack(members: seq<Member>)
    requires forall i | 0 <= i < |members| :: Normalized(members[i])
    ensures forall i | 0 <= i < |CellsOf(members)| :: CellsOf(members)[i] != []
    ensures ReadBackAll(CellsOf(members)) == CellsOf(members)
  {
    if members != [] {
      AllCellsComeBack(members[1..]);
      CellsComeBack(members[0]);
      assert CellsOf(members)[1..] == CellsOf(members[1..]);
    }
  }

  lemma CleanCell(m: Member, f: Field)
    requires Normalized(m)
    ensures Clean(Cell(m, f)) == if f in m then Some(m[f]) else None
  {
  }

  lemma BlankIffNoField(m: Member)
    requires Normalized(m)
    ensures Blank(Cells(m)) <==> m == map[]
    ensures AllEmpty(Cells(m)) <==> m == map[]
  {
    forall i | 0 <= i < 5
        ensures (Clean(Cells(m)[i]) == None <==> FieldAt(i) !in m) && (Cells(m)[i] == "" <==> FieldAt(i) !in m) {
      CleanCell(m, FieldAt(i));
    }
    if m != map[] {
      var f :| f in m;
      var i := EveryFieldIsPrinted(f);
    }
  }

  lemma NormalizeComesBack(m: Member, record: map<Field, string>)
    requires Normalized(m) && forall f: Field :: f in record && record[f] == Cell(m, f)
    ensures Normalize(record) == m
  {
  }

  lemma RecordComesBack(m: Member, columns: seq<Column>)
    requires Normalized(m) && |columns| == 5 && forall i | 0 <= i < 5 :: columns[i] == Known(FieldAt(i))
    ensures Normalize(Record(columns, Cells(m), 5)) == m
  {
    var record := Record(columns, Cells(m), 5);
    forall f: Field ensures f in record && record[f] == Cell(m, f) {
      var i := EveryFieldIsPrinted(f);
      RecordHolds(m, columns, 5);
    }
    NormalizeComesBack(m, record);
  }

  lemma {:induction false} RecordHolds(m: Member, columns: seq<Column>, n: nat)
    requires |columns| == 5 && n <= 5 && forall i | 0 <= i < 5 :: columns[i] == Known(FieldAt(i))
    ensures forall i | 0 <= i < n ::
            FieldAt(i) in Record(columns, Cells(m), n)
                && Record(columns, Cells(m), n)[FieldAt(i)] == Cell(m, FieldAt(i))
  {
    if n > 0 {
      RecordHolds(m, columns, n - 1);
    }
  }

  // ---------------------------------------------------------------- the theorem

  function NormalizeAll(records: seq<map<Field, string>>): seq<Member> {
    if records == [] then [] else [Normalize(records[0])] + NormalizeAll(records[1..])
  }

  /** The members with at least one field. */
  function WithFields(members: seq<Member>): seq<Member> {
    if members == [] then [] else (if members[0] == map[] then [] else [members[0]]) + WithFields(members[1..])
  }

  lemma {:induction false} RecordsComeBack(members: seq<Member>, columns: seq<Column>)
    requires forall i | 0 <= i < |members| :: Normalized(members[i])
    requires |columns| == 5 && forall i | 0 <= i < 5 :: columns[i] == Known(FieldAt(i))
    ensures NormalizeAll(Records(columns, CellsOf(members))) == WithFields(members)
  {
    if members != [] {
      assert CellsOf(members)[1..] == CellsOf(members[1..]);
      RecordsComeBack(members[1..], columns);
      BlankIffNoField(members[0]);
      RecordComesBack(members[0], columns);
      var tail := Records(columns, CellsOf(members[1..]));
      if members[0] != map[] {
        var r := Record(columns, Cells(members[0]), 5);
        assert ([r] + tail)[1..] == tail;
      } else {
        assert [] + tail == tail;
      }
    }
  }

  lemma {:induction false} WithFieldsDropsLast(members: seq<Member>)
    requires members != [] && members[|members| - 1] == map[]
    ensures WithFields(members) == WithFields(members[..|members| - 1])
  {
    if |members| > 1 {
      WithFieldsDropsLast(members[1..]);
      assert members[1..][..|members| - 2] == members[..|members| - 1][1..];
    }
  }

  /** A plain header line and quoted rows, read back: only a carriage return at the end of a row, and a
      last row of empty cells, are lost. */
  lemma ParseDocument(names: seq<string>, rows: seq<seq<string>>)
    requires names != [] && names[0] != "" && names[0][0] != '\U{FEFF}'
    requires forall i | 0 <= i < |names| :: Plain(names[i])
    requires forall i | 0 <= i < |rows| :: rows[i] != []
    ensures Parse(Join([Join(names, ",")] + Lines(rows), "\n")) == [names] + WithoutEmptyLast(ReadBackAll(rows))
  {
    var header := Join(names, ",");
    assert header[0] == names[0][0];
    var text := Join([header] + Lines(rows), "\n");
    if rows == [] {
      ReadHeader(names, "");
      assert text == header;
      assert [names] + [] == [names];
    } else {
      var body := Join(Lines(rows), "\n");
      assert ([header] + Lines(rows))[1..] == Lines(rows);
      assert text == header + "\n" + body;
      ReadHeader(names, body);
      ReadLines(rows, [names]);
    }
  }

  lemma CellsOfPrefix(members: seq<Member>, n: nat)
    requires n <= |members|
    ensures CellsOf(members)[..n] == CellsOf(members[..n])
  {
  }

  lemma EmptyLastIsDropped(members: seq<Member>)
    requires members != [] && Normalized(members[|members| - 1])
    ensures var rows, n := CellsOf(members), |members| - 1;
            WithoutEmptyLast(rows) == if members[n] == map[] then rows[..n] else rows
  {
    BlankIffNoField(members[|members| - 1]);
    assert CellsOf(members)[|members| - 1] == Cells(members[|members| - 1]);
  }

  /** The members without the last one, if that has no field. */
  function Kept(members: seq<Member>): seq<Member> {
    if members != [] && members[|members| - 1] == map[] then members[..|members| - 1] else members
  }

  lemma RowsKept(members: seq<Member>)
    requires forall i | 0 <= i < |members| :: Normalized(members[i])
    ensures WithoutEmptyLast(CellsOf(members)) == CellsOf(Kept(members))
            && WithFields(Kept(members)) == WithFields(members)
  {
    if members != [] {
      EmptyLastIsDropped(members);
      CellsOfPrefix(members, |members| - 1);
      if members[|members| - 1] == map[] {
        WithFieldsDropsLast(members);
      }
    }
  }

  lemma RowsComeBack(members: seq<Member>, columns: seq<Column>)
    requires forall i | 0 <= i < |members| :: Normalized(members[i])
    requires |columns| == 5 && forall i | 0 <= i < 5 :: columns[i] == Known(FieldAt(i))
    ensures NormalizeAll(Records(columns, WithoutEmptyLast(CellsOf(members)))) == WithFields(members)
  {
    RowsKept(members);
    RecordsComeBack(Kept(members), columns);
  }

  /** Export then import: every list of normalized members comes back in order with the same five fields,
      whatever characters they hold, except for the members that have no field at all. */
  lemma ExportImportRoundTrip(members: seq<Member>)
    requires forall i | 0 <= i < |members| :: Normalized(members[i])
    ensures ImportCsv(MembersToCsv(members)).Ok?
    ensures NormalizeAll(ImportCsv(MembersToCsv(members)).value) == WithFields(members)
  {
    NamesArePlain();
    NamesAreFields();
    AllCellsComeBack(members);
    ParseDocument(Names(), CellsOf(members));
    RowsComeBack(members, ColumnsOf(Names()));
    RecordsAreImported(Names(), WithoutEmptyLast(CellsOf(members)));
  }

  lemma RecordsAreImported(header: seq<string>, rows: seq<seq<string>>)
    requires exists c | c in ColumnsOf(header) :: c != Unknown
    ensures ImportRows([header] + rows) == Ok(Records(ColumnsOf(header), rows))
  {
  }

  /** So the round trip is the identity exactly when every member has a field. */
  lemma RoundTripIsIdentityIff(members: seq<Member>)
    requires forall i | 0 <= i < |members| :: Normalized(members[i])
    ensures ImportCsv(MembersToCsv(members)).Ok?
    ensures NormalizeAll(ImportCsv(MembersToCsv(members)).value) == members <==> map[] !in members
  {
    ExportImportRoundTrip(members);
    WithFieldsIsAllIff(members);
  }

  lemma {:induction false} WithFieldsIsAllIff(members: seq<Member>)
    ensures |WithFields(members)| <= |members|
    ensures WithFields(members) == members <==> map[] !in members
  {
    if members != [] {
      WithFieldsIsAllIff(members[1..]);
      assert members == [members[0]] + members[1..];
    }
  }
}
