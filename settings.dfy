/** Project-settings lookup: `InvoiceHelper.get_project_settings`
    (src/main.py:65-107), and the normalisation of the ProjektID column when the
    'Project Settings' sheet is loaded (src/main.py:50-52). */
module ProjectSettings {
  import opened Wrappers
  import Strings

  /** One row of the 'Project Settings' sheet. Its Kon/Proj column is loaded
      but never read: the code rebuilds Kon/Proj from ProjektID. */
  datatype SettingRow = SettingRow(
    projektId: string,
    konProj: string,
    aktivitet: string,
    projKat: string,
    mottagare: string)

  /** The dict get_project_settings returns: Kon/Proj, Aktivitet, ProjKat, Mottagare. */
  datatype Settings = Settings(konProj: string, aktivitet: string, projKat: string, mottagare: string)

  /** The three bucket projects: automation, Microsoft 365, Teams Rooms. */
  const AutomationProject: string := "20257601"
  const Ms365Project: string := "20257407"
  const TeamsRoomsProject: string := "20257403"

  /** `x.replace('P.', '') if x.startswith('P.') else x`. Note that replace
      removes every 'P.' in the identifier, not only the leading one. */
  function NormaliseId(x: string): (r: string)
    ensures !Strings.StartsWith(x, "P.") ==> r == x
    ensures Strings.StartsWith(x, "P.") ==> |r| <= |x| - 2
  {
    if Strings.StartsWith(x, "P.") then Strings.ReplaceAll(x, "P.", "") else x
  }

  /** The table after `_load_excel_data` normalised its ProjektID column. */
  function NormaliseTable(rows: seq<SettingRow>): (r: seq<SettingRow>)
    ensures |r| == |rows|
    ensures forall i | 0 <= i < |rows| ::
      r[i].projektId == NormaliseId(rows[i].projektId) && r[i].(projektId := rows[i].projektId) == rows[i]
  {
    seq(|rows|, i requires 0 <= i < |rows| => rows[i].(projektId := NormaliseId(rows[i].projektId)))
  }

  /** Position of the first row whose ProjektID equals `id`: the row that
      `project_settings[project_settings['ProjektID'] == id].iloc[0]` selects. */
  function FindIndex(table: seq<SettingRow>, id: string): (r: Option<nat>)
    ensures r.Some? ==> r.value < |table| && table[r.value].projektId == id
    ensures r.Some? ==> forall j | 0 <= j < r.value :: table[j].projektId != id
    ensures r.None? ==> forall j | 0 <= j < |table| :: table[j].projektId != id
  {
    if table == [] then None
    else if table[0].projektId == id then Some(0)
    else match FindIndex(table[1..], id)
      case None => None
      case Some(k) => Some(k + 1)
  }

  /** The built-in records used when the table has no row for the project. */
  function Fallback(searchId: string): Settings
  {
    if searchId == AutomationProject then
      Settings("P.20257601", "050", "5420", "Digital Utveckling och integration")
    else if searchId == Ms365Project then
      Settings("P.20257407", "738", "5420", "Digital Arbetsplats")
    else if searchId == TeamsRoomsProject then
      Settings("P.20257403", "738", "5420", "Digital Arbetsplats")
    else
      Settings("P." + searchId, "738", "5420", "Okänd mottagare")
  }

  /** get_project_settings: whatever the table holds, Kon/Proj is 'P.'
      followed by the normalised identifier. */
  function Resolve(table: seq<SettingRow>, projectId: string): (r: Settings)
    ensures r.konProj == "P." + NormaliseId(projectId)
    ensures Strings.StartsWith(r.konProj, "P.")
  {
    var searchId := NormaliseId(projectId);
    match FindIndex(table, searchId)
    case Some(k) =>
      var row := table[k];
      Settings("P." + row.projektId, row.aktivitet, row.projKat, row.mottagare)
    case None =>
      Fallback(searchId)
  }

  /** A table hit: Aktivitet, ProjKat and Mottagare come from the first row
      whose normalised ProjektID is the normalised identifier. */
  lemma ResolveFromTable(table: seq<SettingRow>, projectId: string, k: nat)
    requires k < |table| && table[k].projektId == NormaliseId(projectId)
    requires forall j | 0 <= j < k :: table[j].projektId != NormaliseId(projectId)
    ensures var r := Resolve(table, projectId);
      r.aktivitet == table[k].aktivitet && r.projKat == table[k].projKat && r.mottagare == table[k].mottagare
  {
    var f := FindIndex(table, NormaliseId(projectId));
    assert f.Some?;
  }

  /** A table miss: the three bucket projects get their built-in records,
      every other project the generic one with an unknown receiver. */
  lemma ResolveWithoutRow(table: seq<SettingRow>, projectId: string)
    requires forall j | 0 <= j < |table| :: table[j].projektId != NormaliseId(projectId)
    ensures var id, r := NormaliseId(projectId), Resolve(table, projectId);
      && (id == AutomationProject ==> r == Settings("P.20257601", "050", "5420", "Digital Utveckling och integration"))
      && (id == Ms365Project ==> r == Settings("P.20257407", "738", "5420", "Digital Arbetsplats"))
      && (id == TeamsRoomsProject ==> r == Settings("P.20257403", "738", "5420", "Digital Arbetsplats"))
      && (id != AutomationProject && id != Ms365Project && id != TeamsRoomsProject ==>
            r.aktivitet == "738" && r.projKat == "5420" && r.mottagare == "Okänd mottagare")
  {
    assert FindIndex(table, NormaliseId(projectId)).None?;
  }

  /** No resolved Kon/Proj is the RG rows' marker '5420'. */
  lemma ResolvedIsNeverRgMarker(table: seq<SettingRow>, projectId: string)
    ensures Resolve(table, projectId).konProj != "5420"
  {
    var r := Resolve(table, projectId);
    assert r.konProj[0] == 'P';
  }

  /** The three bucket projects resolve to fixed Kon/Proj values. */
  lemma BucketKonProj(table: seq<SettingRow>)
    ensures Resolve(table, AutomationProject).konProj == "P.20257601"
    ensures Resolve(table, Ms365Project).konProj == "P.20257407"
    ensures Resolve(table, TeamsRoomsProject).konProj == "P.20257403"
  {
    Unprefixed(AutomationProject);
    Unprefixed(Ms365Project);
    Unprefixed(TeamsRoomsProject);
  }

  /** An identifier that does not start with 'P' is left as it is. */
  lemma Unprefixed(x: string)
    requires |x| > 0 && x[0] != 'P'
    ensures NormaliseId(x) == x
  {
    assert !Strings.StartsWith(x, "P.") by {
      if |x| >= 2 {
        assert x[..2][0] == x[0];
      }
    }
  }

  /** A project is found under the very identifier its row has in the sheet,
      since both sides are normalised the same way. */
  lemma RawIdentifierIsFound(raw: seq<SettingRow>, k: nat)
    requires k < |raw|
    ensures FindIndex(NormaliseTable(raw), NormaliseId(raw[k].projektId)).Some?
  {
    var table := NormaliseTable(raw);
    assert table[k].projektId == NormaliseId(raw[k].projektId);
  }

  /** With or without the 'P.' prefix, an identifier that has no other 'P.'
      in it is looked up the same way. */
  lemma PrefixIsOptional(x: string)
    requires forall i: nat :: !Strings.OccursAt(x, "P.", i)
    ensures NormaliseId("P." + x) == NormaliseId(x) == x
  {
    var px := "P." + x;
    assert Strings.StartsWith(px, "P.");
    assert px[..2] == "P." && px[2..] == x;
    Strings.ReplaceAllAbsent(x, "P.", "");
    assert !Strings.OccursAt(x, "P.", 0);
  }

  /** replace removes every 'P.', so an identifier with an inner 'P.' loses it too. */
  lemma InnerPrefixRemoved()
    ensures NormaliseId("P.12P.3") == "123"
  {
    assert Strings.StartsWith("P.12P.3", "P.");
    var s := "P.12P.3";
    assert s[..2] == "P." && s[2..] == "12P.3";
    var t := "12P.3";
    assert t[..2] != "P." && t[1..] == "2P.3";
    var u := "2P.3";
    assert u[..2] != "P." && u[1..] == "P.3";
    var v := "P.3";
    assert v[..2] == "P." && v[2..] == "3";
    assert Strings.ReplaceAll("3", "P.", "") == "3";
  }
}
