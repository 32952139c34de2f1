/** Accounting rows: `InvoiceHelper.generate_accounting_rows` (src/main.py:180-290).
    One row per RG of the non-automation Power BI users, then the automation
    project's row, the Microsoft 365 project's row and, when the invoice has
    Teams Rooms licenses, the Teams Rooms project's row. */
module Allocation {
  import opened Licenses
  import Roster
  import ProjectSettings

  /** One accounting row. The two blank columns ('' and ' ') of the source's
      dict are always empty and are not represented. */
  datatype AccountingRow = AccountingRow(
    konProj: string,
    rg: string,
    aktivitet: string,
    projKat: string,
    netto: real,
    godkantAv: string)

  /** 'Godkänt av' on every row. */
  const Approver: string := "John Munthe"

  /** 'Kon/Proj' of every per-RG Power BI row. */
  const RgMarker: string := "5420"

  /** `n * unit_price`, written as repeated addition so that sums of charges
      stay linear; TimesIsProduct shows it is the product. */
  function Times(n: nat, p: real): real
  {
    if n == 0 then 0.0 else Times(n - 1, p) + p
  }

  lemma {:induction false} TimesIsProduct(n: nat, p: real)
    ensures Times(n, p) == n as real * p
  {
    if n > 0 {
      TimesIsProduct(n - 1, p);
    }
  }

  lemma {:induction false} TimesAdd(a: nat, b: nat, p: real)
    ensures Times(a + b, p) == Times(a, p) + Times(b, p)
    decreases b
  {
    if b > 0 {
      TimesAdd(a, b - 1, p);
    }
  }

  lemma TimesSplit(total: nat, a: nat, b: nat, p: real)
    requires a + b == total
    ensures Times(total, p) == Times(a, p) + Times(b, p)
  {
    TimesAdd(a, b, p);
  }

  /** The per-RG Power BI row for a group of `n` users. */
  function RgRow(rg: string, n: nat, unitPrice: real): AccountingRow
  {
    AccountingRow(RgMarker, rg, "738", "", Times(n, unitPrice), Approver)
  }

  /** A project row built from the project's settings. */
  function BucketRow(s: ProjectSettings.Settings, netto: real): AccountingRow
  {
    AccountingRow(s.konProj, "", s.aktivitet, s.projKat, netto, Approver)
  }

  /** `license_info[t]['total']` when present, 0 otherwise. */
  function TotalOf(info: LicenseInfo, t: LicenseType): real
  {
    if t in info then info[t].total else 0.0
  }

  /** The automation project's amount: the automation users' Power BI licenses
      at the invoiced unit price, plus the three Power Automate totals. */
  function AutomationNet(users: seq<Roster.User>, info: LicenseInfo): real
  {
    var n := Roster.AutomationCount(users);
    (if PowerBi in info && n > 0 then Times(n, info[PowerBi].unitPrice) else 0.0)
    + TotalOf(info, PowerAutomateRpa) + TotalOf(info, PowerAutomatePlan) + TotalOf(info, PowerAutomatePrem)
  }

  /** The Microsoft 365 project's amount: Teams EEA, Copilot and MS 365 E3 EEA. */
  function Ms365Net(info: LicenseInfo): real
  {
    TotalOf(info, TeamsEea) + TotalOf(info, Copilot) + TotalOf(info, Ms365Eea)
  }

  /** The per-RG rows for the groups in `keys`, skipping empty groups. */
  function RgRows(users: seq<Roster.User>, keys: seq<string>, unitPrice: real): seq<AccountingRow>
  {
    if keys == [] then []
    else
      var k := keys[|keys| - 1];
      var n := Roster.GroupSize(users, k);
      RgRows(users, keys[..|keys| - 1], unitPrice) + (if n > 0 then [RgRow(k, n, unitPrice)] else [])
  }

  /** The per-RG part of the output. */
  function RgPart(users: seq<Roster.User>, info: LicenseInfo): seq<AccountingRow>
  {
    if PowerBi in info then RgRows(users, Roster.GroupKeys(users), info[PowerBi].unitPrice) else []
  }

  /** The automation project's row (P.20257601). */
  function AutomationRow(users: seq<Roster.User>, table: seq<ProjectSettings.SettingRow>, info: LicenseInfo): AccountingRow
  {
    BucketRow(ProjectSettings.Resolve(table, ProjectSettings.AutomationProject), AutomationNet(users, info))
  }

  /** The Microsoft 365 project's row (P.20257407). */
  function Ms365Row(table: seq<ProjectSettings.SettingRow>, info: LicenseInfo): AccountingRow
  {
    BucketRow(ProjectSettings.Resolve(table, ProjectSettings.Ms365Project), Ms365Net(info))
  }

  /** The Teams Rooms project's row (P.20257403), present only with a Teams Rooms line. */
  function TeamsPart(table: seq<ProjectSettings.SettingRow>, info: LicenseInfo): seq<AccountingRow>
  {
    if TeamsRooms in info
    then [BucketRow(ProjectSettings.Resolve(table, ProjectSettings.TeamsRoomsProject), info[TeamsRooms].total)]
    else []
  }

  /** The rows generate_accounting_rows returns, as one expression. */
  function Rows(users: seq<Roster.User>, table: seq<ProjectSettings.SettingRow>, info: LicenseInfo): (rows: seq<AccountingRow>)
    ensures |rows| == |RgPart(users, info)| + 2 + (if TeamsRooms in info then 1 else 0)
  {
    RgPart(users, info) + [AutomationRow(users, table, info)] + [Ms365Row(table, info)] + TeamsPart(table, info)
  }

  /** generate_accounting_rows, step by step as the source builds its list. */
  method GenerateAccountingRows(users: seq<Roster.User>, table: seq<ProjectSettings.SettingRow>, info: LicenseInfo)
    returns (rows: seq<AccountingRow>)
    ensures rows == Rows(users, table, info)
  {
    rows := [];
    if PowerBi in info {
      var unitPrice := info[PowerBi].unitPrice;
      var keys := Roster.GroupKeys(users);
      var i := 0;
      while i < |keys|
        invariant 0 <= i <= |keys|
        invariant rows == RgRows(users, keys[..i], unitPrice)
      {
        var n := Roster.GroupSize(users, keys[i]);
        if n > 0 {
          rows := rows + [RgRow(keys[i], n, unitPrice)];
        }
        assert keys[..i + 1][..i] == keys[..i];
        i := i + 1;
      }
      assert keys[..|keys|] == keys;
    }
    assert rows == RgPart(users, info);

    var automationTotal := 0.0;
    if PowerBi in info {
      var numAutomation := Roster.AutomationCount(users);
      if numAutomation > 0 {
        automationTotal := automationTotal + Times(numAutomation, info[PowerBi].unitPrice);
      }
    }
    if PowerAutomateRpa in info {
      automationTotal := automationTotal + info[PowerAutomateRpa].total;
    }
    if PowerAutomatePlan in info {
      automationTotal := automationTotal + info[PowerAutomatePlan].total;
    }
    if PowerAutomatePrem in info {
      automationTotal := automationTotal + info[PowerAutomatePrem].total;
    }
    assert automationTotal == AutomationNet(users, info);
    var automationSettings := ProjectSettings.Resolve(table, ProjectSettings.AutomationProject);
    rows := rows + [BucketRow(automationSettings, automationTotal)];

    var ms365Total := 0.0;
    if TeamsEea in info {
      ms365Total := ms365Total + info[TeamsEea].total;
    }
    if Copilot in info {
      ms365Total := ms365Total + info[Copilot].total;
    }
    if Ms365Eea in info {
      ms365Total := ms365Total + info[Ms365Eea].total;
    }
    assert ms365Total == Ms365Net(info);
    var ms365Settings := ProjectSettings.Resolve(table, ProjectSettings.Ms365Project);
    rows := rows + [BucketRow(ms365Settings, ms365Total)];

    if TeamsRooms in info {
      var teamsSettings := ProjectSettings.Resolve(table, ProjectSettings.TeamsRoomsProject);
      rows := rows + [BucketRow(teamsSettings, info[TeamsRooms].total)];
    }
  }

  /** Sum of the Netto column. */
  function SumNetto(rows: seq<AccountingRow>): real
  {
    if rows == [] then 0.0 else SumNetto(rows[..|rows| - 1]) + rows[|rows| - 1].netto
  }

  lemma {:induction false} SumNettoAppend(a: seq<AccountingRow>, b: seq<AccountingRow>)
    ensures SumNetto(a + b) == SumNetto(a) + SumNetto(b)
    decreases |b|
  {
    if b != [] {
      var ab := a + b;
      assert ab[..|ab| - 1] == a + b[..|b| - 1];
      assert ab[|ab| - 1] == b[|b| - 1];
      SumNettoAppend(a, b[..|b| - 1]);
    } else {
      assert a + b == a;
    }
  }

  /** When no group is empty, there is exactly one RG row per key, in key order,
      charging the group's size times the unit price. */
  lemma {:induction false} RgRowsPerKey(users: seq<Roster.User>, keys: seq<string>, unitPrice: real)
    requires forall k | k in keys :: Roster.GroupSize(users, k) > 0
    ensures |RgRows(users, keys, unitPrice)| == |keys|
    ensures forall i | 0 <= i < |keys| ::
      RgRows(users, keys, unitPrice)[i] == RgRow(keys[i], Roster.GroupSize(users, keys[i]), unitPrice)
    decreases |keys|
  {
    if keys != [] {
      var init := keys[..|keys| - 1];
      assert forall k | k in init :: k in keys;
      RgRowsPerKey(users, init, unitPrice);
      assert keys[|keys| - 1] in keys;
    }
  }

  /** The RG rows charge the summed group sizes times the unit price. */
  lemma {:induction false} RgRowsSum(users: seq<Roster.User>, keys: seq<string>, unitPrice: real)
    ensures SumNetto(RgRows(users, keys, unitPrice)) == Times(Roster.SizesOver(users, keys), unitPrice)
    decreases |keys|
  {
    if keys != [] {
      var k := keys[|keys| - 1];
      var n := Roster.GroupSize(users, k);
      var init := RgRows(users, keys[..|keys| - 1], unitPrice);
      RgRowsSum(users, keys[..|keys| - 1], unitPrice);
      TimesAdd(Roster.SizesOver(users, keys[..|keys| - 1]), n, unitPrice);
      if n > 0 {
        var r := init + [RgRow(k, n, unitPrice)];
        assert r[..|r| - 1] == init;
      } else {
        assert init + [] == init;
      }
    }
  }

  /** The per-RG part: with a Power BI line, one row per RG of the
      non-automation users, in sorted RG order, each charging its number of
      users times the unit price; without one, nothing. */
  lemma RgPartPerGroup(users: seq<Roster.User>, info: LicenseInfo)
    ensures PowerBi !in info ==> RgPart(users, info) == []
    ensures PowerBi in info ==>
      var keys, part := Roster.GroupKeys(users), RgPart(users, info);
      |part| == |keys| &&
      forall i | 0 <= i < |keys| ::
        part[i] == RgRow(keys[i], Roster.GroupSize(users, keys[i]), info[PowerBi].unitPrice)
  {
    if PowerBi in info {
      var keys := Roster.GroupKeys(users);
      forall k | k in keys ensures Roster.GroupSize(users, k) > 0 {
        Roster.GroupsAreNonEmpty(users, k);
      }
      RgRowsPerKey(users, keys, info[PowerBi].unitPrice);
    }
  }

  /** The order of the output: the RG rows come first and are the only rows
      with Kon/Proj '5420'; after them come two project rows, and a third
      exactly when the invoice has Teams Rooms licenses. */
  lemma RowsOrder(users: seq<Roster.User>, table: seq<ProjectSettings.SettingRow>, info: LicenseInfo)
    ensures var rows, m := Rows(users, table, info), |RgPart(users, info)|;
      && |rows| == m + 2 + (if TeamsRooms in info then 1 else 0)
      && (forall i | 0 <= i < |rows| :: rows[i].konProj == RgMarker <==> i < m)
  {
    var rows, m := Rows(users, table, info), |RgPart(users, info)|;
    forall i | 0 <= i < m ensures rows[i].konProj == RgMarker {
      RgRowsAreMarked(users, if PowerBi in info then Roster.GroupKeys(users) else [],
        if PowerBi in info then info[PowerBi].unitPrice else 0.0, i);
    }
    ProjectSettings.ResolvedIsNeverRgMarker(table, ProjectSettings.AutomationProject);
    ProjectSettings.ResolvedIsNeverRgMarker(table, ProjectSettings.Ms365Project);
    ProjectSettings.ResolvedIsNeverRgMarker(table, ProjectSettings.TeamsRoomsProject);
    forall i | m <= i < |rows| ensures rows[i].konProj != RgMarker {
      if i == m {
        assert rows[i] == AutomationRow(users, table, info);
      } else if i == m + 1 {
        assert rows[i] == Ms365Row(table, info);
      } else {
        assert rows[i] == TeamsPart(table, info)[0];
      }
    }
  }

  /** The project rows after the RG rows: automation (P.20257601) with the
      automation amount, Microsoft 365 (P.20257407) with the Microsoft 365
      amount, then, with a Teams Rooms line, Teams Rooms (P.20257403) with its
      total; none of them has an RG. */
  lemma ProjectRows(users: seq<Roster.User>, table: seq<ProjectSettings.SettingRow>, info: LicenseInfo)
    ensures var rows, m := Rows(users, table, info), |RgPart(users, info)|;
      && m + 2 <= |rows|
      && rows[m].konProj == "P.20257601" && rows[m].rg == "" && rows[m].netto == AutomationNet(users, info)
      && rows[m + 1].konProj == "P.20257407" && rows[m + 1].rg == "" && rows[m + 1].netto == Ms365Net(info)
      && (TeamsRooms in info ==>
            (m + 3 == |rows| && rows[m + 2].konProj == "P.20257403" && rows[m + 2].rg == ""
             && rows[m + 2].netto == info[TeamsRooms].total))
  {
    ProjectSettings.BucketKonProj(table);
    var rp, tp := RgPart(users, info), TeamsPart(table, info);
    var rows := Rows(users, table, info);
    assert rows == rp + [AutomationRow(users, table, info)] + [Ms365Row(table, info)] + tp;
    assert rows[|rp|] == AutomationRow(users, table, info);
    assert rows[|rp| + 1] == Ms365Row(table, info);
    if TeamsRooms in info {
      assert rows[|rp| + 2] == tp[0];
    }
  }

  lemma {:induction false} RgRowsAreMarked(users: seq<Roster.User>, keys: seq<string>, unitPrice: real, i: nat)
    requires i < |RgRows(users, keys, unitPrice)|
    ensures RgRows(users, keys, unitPrice)[i].konProj == RgMarker && RgRows(users, keys, unitPrice)[i].godkantAv == Approver
    decreases |keys|
  {
    var init := RgRows(users, keys[..|keys| - 1], unitPrice);
    if i < |init| {
      RgRowsAreMarked(users, keys[..|keys| - 1], unitPrice, i);
    }
  }

  /** Every row is approved by the same person. */
  lemma EveryRowApproved(users: seq<Roster.User>, table: seq<ProjectSettings.SettingRow>, info: LicenseInfo)
    ensures forall r | r in Rows(users, table, info) :: r.godkantAv == Approver
  {
    RgPartApproved(users, info);
    TeamsPartApproved(table, info);
    ApprovedJoin(RgPart(users, info), AutomationRow(users, table, info), Ms365Row(table, info), TeamsPart(table, info));
  }

  lemma TeamsPartApproved(table: seq<ProjectSettings.SettingRow>, info: LicenseInfo)
    ensures forall r | r in TeamsPart(table, info) :: r.godkantAv == Approver
  {
  }

  lemma ApprovedJoin(part: seq<AccountingRow>, a: AccountingRow, b: AccountingRow, c: seq<AccountingRow>)
    requires forall r | r in part :: r.godkantAv == Approver
    requires a.godkantAv == Approver && b.godkantAv == Approver
    requires forall r | r in c :: r.godkantAv == Approver
    ensures forall r | r in part + [a] + [b] + c :: r.godkantAv == Approver
  {
  }

  lemma RgPartApproved(users: seq<Roster.User>, info: LicenseInfo)
    ensures forall r | r in RgPart(users, info) :: r.godkantAv == Approver
  {
    var part := RgPart(users, info);
    forall i | 0 <= i < |part| ensures part[i].godkantAv == Approver {
      RgRowsAreMarked(users, if PowerBi in info then Roster.GroupKeys(users) else [],
        if PowerBi in info then info[PowerBi].unitPrice else 0.0, i);
    }
  }

  /** Nothing is lost or counted twice: the rows charge every user's Power BI
      license at the invoiced unit price (when the invoice has a Power BI line)
      plus every other license total on the invoice. */
  lemma NettoConserved(users: seq<Roster.User>, table: seq<ProjectSettings.SettingRow>, info: LicenseInfo)
    ensures SumNetto(Rows(users, table, info)) ==
      (if PowerBi in info then Times(|users|, info[PowerBi].unitPrice) else 0.0)
      + TotalOf(info, PowerAutomateRpa) + TotalOf(info, PowerAutomatePlan) + TotalOf(info, PowerAutomatePrem)
      + TotalOf(info, TeamsEea) + TotalOf(info, Copilot) + TotalOf(info, Ms365Eea)
      + TotalOf(info, TeamsRooms)
  {
    RowsSum(users, table, info);
    PowerBiConserved(users, info);
  }

  /** The sum of the rows, part by part. */
  lemma RowsSum(users: seq<Roster.User>, table: seq<ProjectSettings.SettingRow>, info: LicenseInfo)
    ensures SumNetto(Rows(users, table, info)) ==
      SumNetto(RgPart(users, info)) + AutomationNet(users, info) + Ms365Net(info) + TotalOf(info, TeamsRooms)
  {
    var part, a, b, c := RgPart(users, info), [AutomationRow(users, table, info)], [Ms365Row(table, info)], TeamsPart(table, info);
    SumNettoAppend(part + a + b, c);
    SumNettoAppend(part + a, b);
    SumNettoAppend(part, a);
    assert SumNetto(a) == AutomationNet(users, info);
    assert SumNetto(b) == Ms365Net(info);
    assert SumNetto(c) == TotalOf(info, TeamsRooms);
  }

  /** The RG rows together charge the non-automation users at the unit price. */
  lemma RgPartCharge(users: seq<Roster.User>, info: LicenseInfo)
    ensures SumNetto(RgPart(users, info)) ==
      (if PowerBi in info then Times(|users| - Roster.AutomationCount(users), info[PowerBi].unitPrice) else 0.0)
  {
    if PowerBi in info {
      var keys := Roster.GroupKeys(users);
      RgRowsSum(users, keys, info[PowerBi].unitPrice);
      Roster.EveryUserCountedOnce(users);
    }
  }

  /** The Power BI charges of the RG rows and of the automation row together
      cover every user once. */
  lemma PowerBiConserved(users: seq<Roster.User>, info: LicenseInfo)
    ensures var n := Roster.AutomationCount(users);
      SumNetto(RgPart(users, info)) + (if PowerBi in info && n > 0 then Times(n, info[PowerBi].unitPrice) else 0.0)
      == (if PowerBi in info then Times(|users|, info[PowerBi].unitPrice) else 0.0)
  {
    RgPartCharge(users, info);
    if PowerBi in info {
      var n, p := Roster.AutomationCount(users), info[PowerBi].unitPrice;
      TimesSplit(|users|, |users| - n, n, p);
      if n == 0 {
        assert Times(n, p) == 0.0;
      }
    }
  }
}
