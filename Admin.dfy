/** The administrator dashboard's own logic: the mission summary of a
    submission, the in-memory submissions list kept up to date by realtime
    events and deletions, the CSV export, the platform lookup tables and the
    settings lookup. */
module Admin {
  import opened Wrappers
  import opened Text

  // ---------------------------------------------------------------------------
  // `formatMissions`

  /** One value of a submission's `missions_data` object. */
  datatype MissionData = MissionData(selected: bool, count: int)

  /** `missions_data`: its entries in `Object.entries` order, or `None` when the
      field is missing or is not an object. */
  type MissionsData = Option<seq<(string, MissionData)>>

  /** `data.selected && data.count > 0`. */
  predicate Qualifies(d: MissionData) {
    d.selected && d.count > 0
  }

  /** `${data.count} ${type}`. */
  function Label(kind: string, d: MissionData): string
    requires d.count > 0
  {
    NatToString(d.count) + " " + kind
  }

  /** The labels of the qualifying entries, in entry order. */
  function Listed(entries: seq<(string, MissionData)>): (r: seq<string>)
    ensures |r| <= |entries|
  {
    if entries == [] then []
    else
      var last := entries[|entries| - 1];
      Listed(entries[..|entries| - 1]) + (if Qualifies(last.1) then [Label(last.0, last.1)] else [])
  }

  /** What `formatMissions` returns. */
  function MissionsSummary(md: MissionsData): string {
    if md.None? then "None"
    else
      var labels := Listed(md.value);
      if labels == [] then "None" else Join(labels, ", ")
  }

  /** `formatMissions(missionsData)`: the labels are pushed one entry at a time
      and joined at the end. */
  method FormatMissions(md: MissionsData) returns (s: string)
    ensures s == MissionsSummary(md)
  {
    if md.None? {
      return "None";
    }
    var entries := md.value;
    var missions: seq<string> := [];
    var i := 0;
    while i < |entries|
      invariant 0 <= i <= |entries|
      invariant missions == Listed(entries[..i])
    {
      var (kind, data) := entries[i];
      assert entries[..i + 1][..i] == entries[..i];
      if data.selected && data.count > 0 {
        missions := missions + [Label(kind, data)];
      }
      i := i + 1;
    }
    assert entries[..i] == entries;
    s := if |missions| > 0 then Join(missions, ", ") else "None";
  }

  /** Every label starts with a digit. */
  lemma {:induction false} ListedStartWithDigits(entries: seq<(string, MissionData)>)
    ensures forall i :: 0 <= i < |Listed(entries)| ==> Listed(entries)[i] != [] && IsDigit(Listed(entries)[i][0])
  {
    if entries != [] {
      ListedStartWithDigits(entries[..|entries| - 1]);
    }
  }

  /** Listing distributes over the entries: the labels keep entry order. */
  lemma {:induction false} ListedAppend(a: seq<(string, MissionData)>, b: seq<(string, MissionData)>)
    ensures Listed(a + b) == Listed(a) + Listed(b)
  {
    if b != [] {
      var b' := b[..|b| - 1];
      assert (a + b)[..|a + b| - 1] == a + b';
      ListedAppend(a, b');
    } else {
      assert a + b == a;
    }
  }

  /** An entry is listed exactly when it is selected with a positive count. */
  lemma ListedOne(kind: string, d: MissionData)
    ensures Listed([(kind, d)]) == if Qualifies(d) then [Label(kind, d)] else []
  {
    assert [(kind, d)][..0] == [];
  }

  /** No entry qualifies exactly when nothing is listed. */
  lemma {:induction false} ListedEmpty(entries: seq<(string, MissionData)>)
    ensures Listed(entries) == [] <==> forall i :: 0 <= i < |entries| ==> !Qualifies(entries[i].1)
  {
    if entries != [] {
      var init := entries[..|entries| - 1];
      ListedEmpty(init);
      assert forall i :: 0 <= i < |init| ==> init[i] == entries[i];
    }
  }

  /** The summary reads `None` exactly when the data is missing or no entry is
      selected with a positive count. */
  lemma SummaryNone(md: MissionsData)
    ensures MissionsSummary(md) == "None" <==>
              md.None? || forall i :: 0 <= i < |md.value| ==> !Qualifies(md.value[i].1)
  {
    if md.Some? {
      ListedEmpty(md.value);
      var labels := Listed(md.value);
      if labels != [] {
        ListedStartWithDigits(md.value);
        JoinStartsWithFirst(labels, ", ");
        assert Join(labels, ", ")[0] == labels[0][0];
      }
    }
  }

  /** A submission with ten followers and no likes reads `10 followers`. */
  lemma TenFollowers()
    ensures MissionsSummary(Some([("followers", MissionData(true, 10)), ("likes", MissionData(false, 0))]))
         == "10 followers"
  {
    var e := [("followers", MissionData(true, 10)), ("likes", MissionData(false, 0))];
    assert e == [e[0]] + [e[1]];
    ListedAppend([e[0]], [e[1]]);
    ListedOne("followers", MissionData(true, 10));
    ListedOne("likes", MissionData(false, 0));
    assert NatToString(10) == "10";
  }

  // ---------------------------------------------------------------------------
  // The submissions list

  /** A stored submission as the dashboard receives it. */
  datatype Submission = Submission(
    id: string,
    submittedAt: string,
    platform: string,
    username: string,
    videoLink: Option<string>,
    missionsData: MissionsData,
    followCompleted: bool,
    ipAddress: Option<string>)

  /** A realtime change on the submissions table. */
  datatype Event =
    | Insert(record: Submission)   // `payload.new`
    | Delete(oldId: string)        // `payload.old.id`
    | Update                       // any other event type

  /** `subs.filter(s => s.id !== id)`. */
  function WithoutId(subs: seq<Submission>, id: string): (r: seq<Submission>)
    ensures |r| <= |subs|
    ensures forall i :: 0 <= i < |r| ==> r[i].id != id
    ensures forall s :: s in r <==> s in subs && s.id != id
  {
    if subs == [] then []
    else (if subs[0].id != id then [subs[0]] else []) + WithoutId(subs[1..], id)
  }

  /** Filtering keeps the remaining submissions in their order. */
  lemma {:induction false} WithoutIdAppend(a: seq<Submission>, b: seq<Submission>, id: string)
    ensures WithoutId(a + b, id) == WithoutId(a, id) + WithoutId(b, id)
  {
    if a == [] {
      assert a + b == b;
    } else {
      assert (a + b)[1..] == a[1..] + b;
      WithoutIdAppend(a[1..], b, id);
    }
  }

  /** A list without the id is left as it is. */
  lemma {:induction false} WithoutAbsentId(subs: seq<Submission>, id: string)
    requires forall i :: 0 <= i < |subs| ==> subs[i].id != id
    ensures WithoutId(subs, id) == subs
  {
    if subs != [] {
      WithoutAbsentId(subs[1..], id);
    }
  }

  /** Deleting the id an insert brought removes the inserted submission too. */
  lemma InsertThenDelete(r: Submission, subs: seq<Submission>)
    ensures WithoutId([r] + subs, r.id) == WithoutId(subs, r.id)
  {
    WithoutIdAppend([r], subs, r.id);
  }

  /** The `submissions` array of the dashboard. */
  class SubmissionList {
    var items: seq<Submission>

    /** The list as `loadSubmissions` sets it. */
    constructor (loaded: seq<Submission>)
      ensures items == loaded
    {
      items := loaded;
    }

    /** The submissions branch of `setupRealtimeSubscriptions`: an insert is
        put in front, a delete filters its id out, other events change nothing. */
    method ApplyEvent(e: Event)
      modifies this
      ensures e.Insert? ==> items == [e.record] + old(items) && |items| == |old(items)| + 1
      ensures e.Delete? ==> items == WithoutId(old(items), e.oldId)
      ensures e.Update? ==> items == old(items)
    {
      match e
      case Insert(r) =>
        items := [r] + items;
      case Delete(oldId) =>
        items := WithoutId(items, oldId);
      case Update =>
    }

    /** `deleteSubmission(id)`: nothing happens unless the administrator
        confirms; the local list is filtered only once the remote deletion has
        succeeded, and a failed one is reported by an alert. */
    method DeleteSubmission(id: string, confirmed: bool, remoteOk: bool) returns (alerted: bool)
      modifies this
      ensures items == if confirmed && remoteOk then WithoutId(old(items), id) else old(items)
      ensures alerted <==> confirmed && !remoteOk
    {
      alerted := false;
      if !confirmed {
        return;
      }
      if remoteOk {
        items := WithoutId(items, id);
      } else {
        alerted := true;
      }
    }
  }

  // ---------------------------------------------------------------------------
  // CSV export

  const Header: seq<string> :=
    ["Date", "Time", "Platform", "Username", "Video Link", "Missions", "Follow Status", "IP Address"]

  /** `x || ''` for an optional text field. */
  function OrEmpty(x: Option<string>): string {
    if x.Some? then x.value else ""
  }

  /** The cells of one submission's row; the locale date and time formatters
      are parameters. */
  function Cells(s: Submission, fmtDate: string -> string, fmtTime: string -> string): (r: seq<string>)
    ensures |r| == |Header|
    ensures r[2] == s.platform && r[3] == s.username && r[5] == MissionsSummary(s.missionsData)
    ensures r[6] == "Followed" <==> s.followCompleted
  {
    [ fmtDate(s.submittedAt), fmtTime(s.submittedAt), s.platform, s.username,
      OrEmpty(s.videoLink), MissionsSummary(s.missionsData),
      if s.followCompleted then "Followed" else "Not Followed",
      OrEmpty(s.ipAddress) ]
  }

  /** `"${cell}"`: the cell between double quotes, nothing escaped. */
  function Quote(cell: string): string {
    "\"" + cell + "\""
  }

  function Quoted(cells: seq<string>): (r: seq<string>)
    ensures |r| == |cells|
  {
    seq(|cells|, i requires 0 <= i < |cells| => Quote(cells[i]))
  }

  /** `row.map(cell => `"${cell}"`).join(',')`. */
  function Row(cells: seq<string>): string {
    Join(Quoted(cells), ",")
  }

  /** The header followed by one row of cells per submission, in list order. */
  function Table(subs: seq<Submission>, fmtDate: string -> string, fmtTime: string -> string): (r: seq<seq<string>>)
    ensures |r| == |subs| + 1 && r[0] == Header
    ensures forall i :: 0 <= i < |subs| ==> r[i + 1] == Cells(subs[i], fmtDate, fmtTime)
  {
    [Header] + seq(|subs|, i requires 0 <= i < |subs| => Cells(subs[i], fmtDate, fmtTime))
  }

  /** Every row rendered, the rows joined by line breaks. */
  function Render(rows: seq<seq<string>>): string {
    Join(seq(|rows|, i requires 0 <= i < |rows| => Row(rows[i])), "\n")
  }

  /** The text `exportSubmissions` downloads, or `None` for an empty list. */
  function Csv(subs: seq<Submission>, fmtDate: string -> string, fmtTime: string -> string): (r: Option<string>)
    ensures r.None? <==> subs == []
  {
    if subs == [] then None else Some(Render(Table(subs, fmtDate, fmtTime)))
  }

  /** A cell that holds neither a comma nor a line break. */
  predicate Plain(cell: string) {
    ',' !in cell && '\n' !in cell
  }

  predicate PlainRow(cells: seq<string>) {
    forall j :: 0 <= j < |cells| ==> Plain(cells[j])
  }

  /** A field read back with its surrounding quotes removed. */
  function Unquote(field: string): string {
    if |field| >= 2 && field[0] == '"' && field[|field| - 1] == '"' then field[1..|field| - 1] else field
  }

  /** A line split at commas, each field unquoted. */
  function ReadRow(line: string): seq<string> {
    var fields := Split(line, ',');
    seq(|fields|, i requires 0 <= i < |fields| => Unquote(fields[i]))
  }

  /** A CSV text split into lines and fields. */
  function ReadCsv(text: string): seq<seq<string>> {
    var lines := Split(text, '\n');
    seq(|lines|, i requires 0 <= i < |lines| => ReadRow(lines[i]))
  }

  lemma HeaderPlain()
    ensures PlainRow(Header)
  {
    forall j | 0 <= j < |Header| ensures Plain(Header[j]) {
      assert Header[j] in Header;
    }
  }

  /** A row of plain cells reads back as its cells, and holds no line break. */
  lemma RowReadsBack(cells: seq<string>)
    requires |cells| >= 1 && PlainRow(cells)
    ensures ReadRow(Row(cells)) == cells
    ensures '\n' !in Row(cells)
  {
    var q := Quoted(cells);
    forall i | 0 <= i < |q| ensures ',' !in q[i] && '\n' !in q[i] && Unquote(q[i]) == cells[i] {
      assert q[i] == Quote(cells[i]);
    }
    SplitJoin(q, ',');
    JoinAvoids(q, ",", '\n');
  }

  /** Rows of plain cells, rendered, read back as the rows. */
  lemma RowsReadBack(rows: seq<seq<string>>)
    requires |rows| >= 1
    requires forall i :: 0 <= i < |rows| ==> |rows[i]| >= 1 && PlainRow(rows[i])
    ensures ReadCsv(Render(rows)) == rows
  {
    var lines := seq(|rows|, i requires 0 <= i < |rows| => Row(rows[i]));
    forall i | 0 <= i < |rows| ensures ReadRow(lines[i]) == rows[i] && '\n' !in lines[i] {
      RowReadsBack(rows[i]);
    }
    SplitJoin(lines, '\n');
  }

  /** When no cell holds a comma or a line break, the export reads back as the
      header followed by every submission's cells, in list order. */
  lemma CsvReadsBack(subs: seq<Submission>, fmtDate: string -> string, fmtTime: string -> string)
    requires subs != []
    requires forall i :: 0 <= i < |subs| ==> PlainRow(Cells(subs[i], fmtDate, fmtTime))
    ensures ReadCsv(Csv(subs, fmtDate, fmtTime).value) == Table(subs, fmtDate, fmtTime)
  {
    var rows := Table(subs, fmtDate, fmtTime);
    HeaderPlain();
    forall i | 0 <= i < |rows| ensures |rows[i]| >= 1 && PlainRow(rows[i]) {
      if i > 0 {
        assert rows[(i - 1) + 1] == Cells(subs[i - 1], fmtDate, fmtTime);
      }
    }
    RowsReadBack(rows);
  }

  /** Cells are not escaped: a comma inside a cell reads back as two fields. */
  lemma CommaSplitsCell()
    ensures |ReadRow(Row(["a,b"]))| == 2
  {
    assert Row(["a,b"]) == Quote("a,b");
    assert Quote("a,b") == "\"a" + [','] + "b\"";
    SplitAfterFirst("\"a", ',', "b\"");
    SplitWithoutSep("b\"", ',');
  }

  // ---------------------------------------------------------------------------
  // Platform lookup tables

  const Colors: map<string, string> := map[
    "instagram" := "bg-pink-100 text-pink-800",
    "tiktok" := "bg-purple-100 text-purple-800",
    "youtube" := "bg-red-100 text-red-800"]

  const DefaultColor: string := "bg-gray-100 text-gray-800"

  const Icons: map<string, string> := map[
    "instagram" := "\U{1F4F7}",
    "tiktok" := "\U{1F3B5}",
    "youtube" := "\U{1F4FA}"]

  const DefaultIcon: string := "\U{1F4F1}"

  /** `table[key] || fallback` on a table of non-empty texts. */
  function Lookup(table: map<string, string>, key: string, fallback: string): string {
    if key in table && table[key] != "" then table[key] else fallback
  }

  /** `getPlatformColor(platform)`. */
  function PlatformColor(platform: string): (r: string)
    ensures platform in Colors ==> r == Colors[platform]
    ensures platform !in Colors ==> r == DefaultColor
  {
    Lookup(Colors, platform, DefaultColor)
  }

  /** `getPlatformIcon(platform)`. */
  function PlatformIcon(platform: string): (r: string)
    ensures platform in Icons ==> r == Icons[platform]
    ensures platform !in Icons ==> r == DefaultIcon
  {
    Lookup(Icons, platform, DefaultIcon)
  }

  /** The colour tells the known platforms apart, and falls back to grey for
      exactly the other platforms. */
  lemma ColorIdentifiesPlatform(p: string, q: string)
    ensures PlatformColor(p) == DefaultColor <==> p !in Colors
    ensures PlatformColor(p) == PlatformColor(q) <==> p == q || (p !in Colors && q !in Colors)
  {
  }

  /** The icon tells the known platforms apart, and falls back to the phone for
      exactly the other platforms. */
  lemma IconIdentifiesPlatform(p: string, q: string)
    ensures PlatformIcon(p) == DefaultIcon <==> p !in Icons
    ensures PlatformIcon(p) == PlatformIcon(q) <==> p == q || (p !in Icons && q !in Icons)
  {
  }

  /** Both tables know the same platforms. */
  lemma TablesAgree(p: string)
    ensures PlatformColor(p) == DefaultColor <==> PlatformIcon(p) == DefaultIcon
  {
    ColorIdentifiesPlatform(p, p);
    IconIdentifiesPlatform(p, p);
  }

  // ---------------------------------------------------------------------------
  // Settings

  /** One row of the settings table. */
  datatype Setting = Setting(key: string, value: string)

  /** `settings.find(s => s.setting_key === key)`, as an index. */
  function FindSetting(settings: seq<Setting>, key: string): (r: Option<nat>)
    ensures r.Some? ==> r.value < |settings| && settings[r.value].key == key
    ensures r.Some? ==> forall j :: 0 <= j < r.value ==> settings[j].key != key
    ensures r.None? ==> forall j :: 0 <= j < |settings| ==> settings[j].key != key
  {
    if settings == [] then None
    else if settings[0].key == key then Some(0)
    else
      var rest := FindSetting(settings[1..], key);
      if rest.Some? then Some(rest.value + 1) else None
  }

  /** `setting ? setting.setting_value : ''`. */
  function SettingValue(settings: seq<Setting>, key: string): (r: string)
    ensures (forall j :: 0 <= j < |settings| ==> settings[j].key != key) ==> r == ""
    ensures r != "" ==> exists i :: 0 <= i < |settings| && settings[i].key == key && settings[i].value == r
  {
    var found := FindSetting(settings, key);
    if found.Some? then settings[found.value].value else ""
  }

  /** The first record with the key decides its value; later ones are ignored. */
  lemma FirstSettingWins(pre: seq<Setting>, key: string, value: string, post: seq<Setting>)
    requires forall j :: 0 <= j < |pre| ==> pre[j].key != key
    ensures SettingValue(pre + [Setting(key, value)] + post, key) == value
  {
    var s := pre + [Setting(key, value)] + post;
    assert s[|pre|] == Setting(key, value);
    var found := FindSetting(s, key);
    assert found.Some? && found.value == |pre|;
  }

  /** A key no record carries has the empty value. */
  lemma MissingSettingEmpty(settings: seq<Setting>, key: string)
    requires forall j :: 0 <= j < |settings| ==> settings[j].key != key
    ensures SettingValue(settings, key) == ""
  {
  }
}
