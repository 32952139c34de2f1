/** Reconciliation: `InvoiceHelper.validate_accounting_rows` (src/main.py:328-431).
    The rows are compared with the license map. Each comparison only produces a
    pass/fail flag (the source logs it); a project row that `next(...)` cannot
    find makes the whole validation raise. */
module Validation {
  import opened Wrappers
  import opened Licenses
  import Roster
  import ProjectSettings
  import opened Allocation

  /** Differences up to and including this amount are accepted. */
  const Tolerance: real := 0.02

  function Abs(x: real): real { if x < 0.0 then -x else x }

  /** One comparison: the amount on the rows, the amount the license map
      implies, and whether they agree within the tolerance. */
  datatype Check = Check(actual: real, expected: real, passed: bool)

  function Compare(actual: real, expected: real): (c: Check)
    ensures c.passed <==> -Tolerance <= actual - expected <= Tolerance
  {
    Check(actual, expected, Abs(actual - expected) <= Tolerance)
  }

  /** What one validation run computes: the logged RG sum and the four checks. */
  datatype Report = Report(rgTotal: real, total: Check, automation: Check, ms365: Check, teams: Check)

  /** The StopIteration raised when no row has this Kon/Proj. */
  datatype ValidationError = MissingBucketRow(konProj: string)

  /** Position of the first row with this Kon/Proj: what `next(row for row in
      rows if row['Kon/Proj'] == k)` returns. */
  function FirstWithKonProj(rows: seq<AccountingRow>, k: string): (r: Option<nat>)
    ensures r.Some? ==> r.value < |rows| && rows[r.value].konProj == k
    ensures r.Some? ==> forall i | 0 <= i < r.value :: rows[i].konProj != k
    ensures r.None? ==> forall i | 0 <= i < |rows| :: rows[i].konProj != k
  {
    if rows == [] then None
    else if rows[0].konProj == k then Some(0)
    else match FirstWithKonProj(rows[1..], k)
      case None => None
      case Some(i) => Some(i + 1)
  }

  /** Sum of Netto over the rows with this Kon/Proj. */
  function SumWhere(rows: seq<AccountingRow>, k: string): real
  {
    if rows == [] then 0.0
    else SumWhere(rows[..|rows| - 1], k) + (if rows[|rows| - 1].konProj == k then rows[|rows| - 1].netto else 0.0)
  }

  /** `sum(info['total'] for info in license_info.values())`. */
  function ExpectedSum(info: LicenseInfo): real
  {
    TotalOf(info, PowerBi) + TotalOf(info, PowerAutomateRpa) + TotalOf(info, TeamsRooms)
    + TotalOf(info, PowerAutomatePlan) + TotalOf(info, TeamsEea) + TotalOf(info, Copilot)
    + TotalOf(info, Ms365Eea) + TotalOf(info, PowerAutomatePrem)
  }

  /** The automation amount the license map implies (src/main.py:393-400). */
  function ExpectedAutomation(users: seq<Roster.User>, info: LicenseInfo): (e: real)
    ensures e == AutomationNet(users, info)
  {
    var n := Roster.AutomationCount(users);
    TotalOf(info, PowerAutomateRpa) + TotalOf(info, PowerAutomatePlan) + TotalOf(info, PowerAutomatePrem)
    + (if n > 0 && PowerBi in info then Times(n, info[PowerBi].unitPrice) else 0.0)
  }

  /** validate_accounting_rows as written: the three rows are looked up in the
      order automation, Microsoft 365, Teams Rooms, and the first one missing
      ends the run. */
  function Validate(rows: seq<AccountingRow>, users: seq<Roster.User>, info: LicenseInfo): (r: Result<Report, ValidationError>)
    ensures r.Failure? <==>
      FirstWithKonProj(rows, "P.20257601").None? || FirstWithKonProj(rows, "P.20257407").None?
      || FirstWithKonProj(rows, "P.20257403").None?
    ensures r.Failure? ==> (
      r.error.konProj ==
        if FirstWithKonProj(rows, "P.20257601").None? then "P.20257601"
        else if FirstWithKonProj(rows, "P.20257407").None? then "P.20257407"
        else "P.20257403")
    ensures r.Success? ==> (r.value.total.passed <==> -Tolerance <= SumNetto(rows) - ExpectedSum(info) <= Tolerance)
    ensures r.Success? ==> (r.value.automation.passed <==>
      -Tolerance <= rows[FirstWithKonProj(rows, "P.20257601").value].netto - ExpectedAutomation(users, info) <= Tolerance)
    ensures r.Success? ==> (r.value.ms365.passed <==>
      -Tolerance <= rows[FirstWithKonProj(rows, "P.20257407").value].netto - Ms365Net(info) <= Tolerance)
    ensures r.Success? ==> (r.value.teams.passed <==>
      -Tolerance <= rows[FirstWithKonProj(rows, "P.20257403").value].netto - TotalOf(info, TeamsRooms) <= Tolerance)
  {
    match FirstWithKonProj(rows, "P.20257601")
    case None => Failure(MissingBucketRow("P.20257601"))
    case Some(a) =>
      match FirstWithKonProj(rows, "P.20257407")
      case None => Failure(MissingBucketRow("P.20257407"))
      case Some(m) =>
        match FirstWithKonProj(rows, "P.20257403")
        case None => Failure(MissingBucketRow("P.20257403"))
        case Some(t) =>
          Success(Report(
            SumWhere(rows, RgMarker),
            Compare(SumNetto(rows), ExpectedSum(info)),
            Compare(rows[a].netto, ExpectedAutomation(users, info)),
            Compare(rows[m].netto, Ms365Net(info)),
            Compare(rows[t].netto, TotalOf(info, TeamsRooms))))
  }

  /** The shape of generated rows as the lookups see it: `m` RG rows, the
      automation row, the Microsoft 365 row and, if `teams`, the Teams Rooms row. */
  predicate GeneratedShape(rows: seq<AccountingRow>, m: nat, teams: bool)
  {
    && |rows| == m + 2 + (if teams then 1 else 0)
    && (forall j | 0 <= j < |rows| :: rows[j].konProj == RgMarker <==> j < m)
    && rows[m].konProj == "P.20257601"
    && rows[m + 1].konProj == "P.20257407"
    && (teams ==> rows[m + 2].konProj == "P.20257403")
  }

  lemma GeneratedHasShape(users: seq<Roster.User>, table: seq<ProjectSettings.SettingRow>, info: LicenseInfo)
    ensures GeneratedShape(Rows(users, table, info), |RgPart(users, info)|, TeamsRooms in info)
  {
    RowsOrder(users, table, info);
    ProjectRows(users, table, info);
  }

  /** Where the three lookups land in rows of that shape. */
  lemma ShapeLookups(rows: seq<AccountingRow>, m: nat, teams: bool)
    requires GeneratedShape(rows, m, teams)
    ensures FirstWithKonProj(rows, "P.20257601") == Some(m)
    ensures FirstWithKonProj(rows, "P.20257407") == Some(m + 1)
    ensures teams ==> FirstWithKonProj(rows, "P.20257403") == Some(m + 2)
    ensures !teams ==> FirstWithKonProj(rows, "P.20257403").None?
  {
    KonProjsDistinct();
    FirstAfterMarked(rows, m, "P.20257601", m);
    FirstAfterMarked(rows, m, "P.20257407", m + 1);
    if teams {
      FirstAfterMarked(rows, m, "P.20257403", m + 2);
    } else {
      AbsentAfterMarked(rows, m, "P.20257403");
    }
  }

  /** On generated rows the automation and Microsoft 365 rows are found right
      after the RG rows, and the Teams Rooms row after them exactly when the
      invoice has a Teams Rooms line. */
  lemma LookupsOnGenerated(users: seq<Roster.User>, table: seq<ProjectSettings.SettingRow>, info: LicenseInfo)
    ensures var rows, m := Rows(users, table, info), |RgPart(users, info)|;
      && FirstWithKonProj(rows, "P.20257601") == Some(m)
      && FirstWithKonProj(rows, "P.20257407") == Some(m + 1)
      && (TeamsRooms in info ==> FirstWithKonProj(rows, "P.20257403") == Some(m + 2))
      && (TeamsRooms !in info ==> FirstWithKonProj(rows, "P.20257403").None?)
  {
    GeneratedHasShape(users, table, info);
    ShapeLookups(Rows(users, table, info), |RgPart(users, info)|, TeamsRooms in info);
  }

  /** The four Kon/Proj values of the output are pairwise different. */
  lemma KonProjsDistinct()
    ensures "P.20257601" != "P.20257407" && "P.20257601" != "P.20257403" && "P.20257407" != "P.20257403"
    ensures "P.20257601" != RgMarker && "P.20257407" != RgMarker && "P.20257403" != RgMarker
  {
    assert "P.20257601"[7] != "P.20257407"[7];
    assert "P.20257601"[7] != "P.20257403"[7];
    assert "P.20257407"[9] != "P.20257403"[9];
    assert "P.20257601"[0] != RgMarker[0] && "P.20257407"[0] != RgMarker[0] && "P.20257403"[0] != RgMarker[0];
  }

  /** In rows whose first `m` are exactly the RG rows, the first row with a
      project Kon/Proj `k` is the first such row after them. */
  lemma FirstAfterMarked(rows: seq<AccountingRow>, m: nat, k: string, i: nat)
    requires m <= i < |rows| && rows[i].konProj == k && k != RgMarker
    requires forall j | 0 <= j < |rows| :: rows[j].konProj == RgMarker <==> j < m
    requires forall j | m <= j < i :: rows[j].konProj != k
    ensures FirstWithKonProj(rows, k) == Some(i)
  {
    var f := FirstWithKonProj(rows, k);
    assert f.Some?;
  }

  /** In rows made of the RG rows and two project rows with other Kon/Proj
      values, no row has the project Kon/Proj `k`. */
  lemma AbsentAfterMarked(rows: seq<AccountingRow>, m: nat, k: string)
    requires |rows| == m + 2 && k != RgMarker
    requires forall j | 0 <= j < |rows| :: rows[j].konProj == RgMarker <==> j < m
    requires rows[m].konProj != k && rows[m + 1].konProj != k
    ensures FirstWithKonProj(rows, k).None?
  {
    assert forall j | 0 <= j < |rows| :: rows[j].konProj != k;
  }

  /** On generated rows the validator raises exactly when the invoice has no
      Teams Rooms line: the Teams Rooms row is then missing. */
  lemma ValidateRaisesWithoutTeamsRooms(users: seq<Roster.User>, table: seq<ProjectSettings.SettingRow>, info: LicenseInfo)
    ensures var r := Validate(Rows(users, table, info), users, info);
      (r.Failure? <==> TeamsRooms !in info)
      && (r.Failure? ==> r.error == MissingBucketRow("P.20257403"))
  {
    LookupsOnGenerated(users, table, info);
  }

  /** On generated rows, with exact arithmetic, the automation, Microsoft 365
      and Teams Rooms checks always pass. */
  lemma GeneratedBucketChecksPass(users: seq<Roster.User>, table: seq<ProjectSettings.SettingRow>, info: LicenseInfo)
    requires TeamsRooms in info
    ensures var r := Validate(Rows(users, table, info), users, info);
      r.Success? && r.value.automation.passed && r.value.ms365.passed && r.value.teams.passed
  {
    LookupsOnGenerated(users, table, info);
    ProjectRows(users, table, info);
    ChecksPassOnExactRows(Rows(users, table, info), users, info, |RgPart(users, info)|);
  }

  /** When the three lookups land on rows holding exactly the expected amounts,
      all three project checks pass. */
  lemma ChecksPassOnExactRows(rows: seq<AccountingRow>, users: seq<Roster.User>, info: LicenseInfo, m: nat)
    requires m + 2 < |rows|
    requires FirstWithKonProj(rows, "P.20257601") == Some(m)
    requires FirstWithKonProj(rows, "P.20257407") == Some(m + 1)
    requires FirstWithKonProj(rows, "P.20257403") == Some(m + 2)
    requires rows[m].netto == ExpectedAutomation(users, info)
    requires rows[m + 1].netto == Ms365Net(info)
    requires rows[m + 2].netto == TotalOf(info, TeamsRooms)
    ensures var r := Validate(rows, users, info);
      r.Success? && r.value.automation.passed && r.value.ms365.passed && r.value.teams.passed
  {
  }

  /** On generated rows the total check compares every user's Power BI
      license at the unit price with the invoiced Power BI total: it passes
      exactly when those agree within the tolerance, or there is no Power BI
      line. */
  lemma GeneratedTotalCheck(users: seq<Roster.User>, table: seq<ProjectSettings.SettingRow>, info: LicenseInfo)
    requires TeamsRooms in info
    ensures var r := Validate(Rows(users, table, info), users, info);
      r.Success? &&
      (r.value.total.passed <==>
        (PowerBi !in info || -Tolerance <= Times(|users|, info[PowerBi].unitPrice) - info[PowerBi].total <= Tolerance))
  {
    LookupsOnGenerated(users, table, info);
    NettoConserved(users, table, info);
  }

  /** Netto of the first row with Kon/Proj `k`, or 0 when there is none. */
  function NettoOrZero(rows: seq<AccountingRow>, k: string): real
  {
    match FirstWithKonProj(rows, k)
    case None => 0.0
    case Some(i) => rows[i].netto
  }

  /** The validator as src/main.py:421 evidently intends it: that line
      defaults the expected Teams Rooms amount to 0, so a missing project row
      counts as a row with Netto 0 instead of raising. */
  function ValidateCorrected(rows: seq<AccountingRow>, users: seq<Roster.User>, info: LicenseInfo): (r: Report)
    ensures r.total.passed <==> -Tolerance <= SumNetto(rows) - ExpectedSum(info) <= Tolerance
    ensures r.automation.passed <==>
      -Tolerance <= NettoOrZero(rows, "P.20257601") - ExpectedAutomation(users, info) <= Tolerance
    ensures r.ms365.passed <==> -Tolerance <= NettoOrZero(rows, "P.20257407") - Ms365Net(info) <= Tolerance
    ensures r.teams.passed <==> -Tolerance <= NettoOrZero(rows, "P.20257403") - TotalOf(info, TeamsRooms) <= Tolerance
  {
    Report(
      SumWhere(rows, RgMarker),
      Compare(SumNetto(rows), ExpectedSum(info)),
      Compare(NettoOrZero(rows, "P.20257601"), ExpectedAutomation(users, info)),
      Compare(NettoOrZero(rows, "P.20257407"), Ms365Net(info)),
      Compare(NettoOrZero(rows, "P.20257403"), TotalOf(info, TeamsRooms)))
  }

  /** With the correction, every generated row set passes the three project
      checks, whether or not the invoice has Teams Rooms licenses. */
  lemma CorrectedAcceptsGenerated(users: seq<Roster.User>, table: seq<ProjectSettings.SettingRow>, info: LicenseInfo)
    ensures var r := ValidateCorrected(Rows(users, table, info), users, info);
      r.automation.passed && r.ms365.passed && r.teams.passed
  {
    LookupsOnGenerated(users, table, info);
    ProjectRows(users, table, info);
  }

  /** The correction changes nothing when all three rows are there. */
  lemma CorrectedAgreesWhenRowsPresent(rows: seq<AccountingRow>, users: seq<Roster.User>, info: LicenseInfo)
    requires Validate(rows, users, info).Success?
    ensures ValidateCorrected(rows, users, info) == Validate(rows, users, info).value
  {
  }

  /** The logged RG total: on generated rows it charges the non-automation
      users at the unit price. */
  lemma GeneratedRgTotal(users: seq<Roster.User>, table: seq<ProjectSettings.SettingRow>, info: LicenseInfo)
    ensures SumWhere(Rows(users, table, info), RgMarker) ==
      (if PowerBi in info then Times(|users| - Roster.AutomationCount(users), info[PowerBi].unitPrice) else 0.0)
  {
    RgSumIsRgPart(users, table, info);
    RgPartCharge(users, info);
  }

  lemma RgSumIsRgPart(users: seq<Roster.User>, table: seq<ProjectSettings.SettingRow>, info: LicenseInfo)
    ensures SumWhere(Rows(users, table, info), RgMarker) == SumNetto(RgPart(users, info))
  {
    var rows, part := Rows(users, table, info), RgPart(users, info);
    RowsOrder(users, table, info);
    SumWhereAll(rows, |part|);
    assert rows[..|part|] == part;
  }

  /** When exactly the first `m` rows carry the RG marker, SumWhere sums them. */
  lemma {:induction false} SumWhereAll(rows: seq<AccountingRow>, m: nat)
    requires m <= |rows|
    requires forall i | 0 <= i < |rows| :: rows[i].konProj == RgMarker <==> i < m
    ensures SumWhere(rows, RgMarker) == SumNetto(rows[..m])
    decreases |rows|
  {
    if rows != [] {
      var init := rows[..|rows| - 1];
      if m == |rows| {
        SumWhereAll(init, m - 1);
        assert init[..m - 1] == rows[..m][..m - 1];
      } else {
        SumWhereAll(init, m);
        assert init[..m] == rows[..m];
      }
    }
  }
}
