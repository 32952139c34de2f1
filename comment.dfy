/** The invoice comment: `InvoiceHelper.generate_invoice_comment`
    (src/main.py:433-512). Section 1 lists the Power BI users who are not
    automation accounts, sorted by RG and name; section 2 groups the other
    licenses by receiver in an insertion-ordered dict and writes one line per
    receiver. */
module InvoiceComment {
  import opened Licenses
  import Roster
  import ProjectSettings
  import Strings
  import Allocation

  const Header: string := "\nPower BI Pro-licenser"

  const RpaName: string := "Power Automate unattended RPA add-on"
  const PlanName: string := "Power Automate with att RPA plan"
  const PremName: string := "Power Automate prem"
  const MattiasName: string := "Power BI Pro (Mattias)"
  const TeamsEeaName: string := "MS Teams EEA"
  const CopilotName: string := "MS Copilot for MS 365"
  const Ms365EeaName: string := "MS 365 E3 EEA (no Teams)"
  const TeamsRoomsName: string := "MS Teams Rooms Pro"

  const AutomationDefault: string := "Digital Utveckling och integration"
  const WorkplaceDefault: string := "Digital Arbetsplats"

  /** `f"{Namn}\t{RG}:{Kostnadsställe}"`. */
  function UserLine(u: Roster.User): string
  {
    u.namn + "\t" + u.rg + ":" + u.kostnadsstalle
  }

  function UserLines(us: seq<Roster.User>): (r: seq<string>)
    ensures |r| == |us|
    ensures forall i | 0 <= i < |us| :: r[i] == UserLine(us[i])
  {
    if us == [] then [] else UserLines(us[..|us| - 1]) + [UserLine(us[|us| - 1])]
  }

  /** Section 1: the header and one line per non-automation user in (RG, Namn)
      order, or nothing when there is no such user. */
  function Section1(users: seq<Roster.User>): seq<string>
  {
    var listed := Roster.SortByRgName(Roster.NonAutomation(users));
    if |listed| == 0 then [] else [Header] + UserLines(listed)
  }

  /** `if c: names.append(x)`. */
  function AppendIf(names: seq<string>, c: bool, x: string): seq<string>
  {
    if c then names + [x] else names
  }

  /** The automation license names, in the order the source appends them. */
  function AutomationNames(users: seq<Roster.User>, info: LicenseInfo): seq<string>
  {
    var a := AppendIf([], PowerAutomateRpa in info, RpaName);
    var b := AppendIf(a, PowerAutomatePlan in info, PlanName);
    var c := AppendIf(b, PowerAutomatePrem in info, PremName);
    AppendIf(c, Roster.AutomationCount(users) > 0, MattiasName)
  }

  /** The Microsoft 365 license names, in the order the source appends them. */
  function Ms365Names(info: LicenseInfo): seq<string>
  {
    var a := AppendIf([], TeamsEea in info, TeamsEeaName);
    var b := AppendIf(a, Copilot in info, CopilotName);
    AppendIf(b, Ms365Eea in info, Ms365EeaName)
  }

  /** Mottagare of the first table row whose ProjektID is `id`, or the default. */
  function ReceiverFor(table: seq<ProjectSettings.SettingRow>, id: string, default: string): string
  {
    match ProjectSettings.FindIndex(table, id)
    case Some(k) => table[k].mottagare
    case None => default
  }

  /** The receivers the comment uses are the ones get_project_settings
      resolves for the three projects. */
  lemma ReceiversAgreeWithSettings(table: seq<ProjectSettings.SettingRow>)
    ensures ReceiverFor(table, ProjectSettings.AutomationProject, AutomationDefault)
      == ProjectSettings.Resolve(table, ProjectSettings.AutomationProject).mottagare
    ensures ReceiverFor(table, ProjectSettings.Ms365Project, WorkplaceDefault)
      == ProjectSettings.Resolve(table, ProjectSettings.Ms365Project).mottagare
    ensures ReceiverFor(table, ProjectSettings.TeamsRoomsProject, WorkplaceDefault)
      == ProjectSettings.Resolve(table, ProjectSettings.TeamsRoomsProject).mottagare
  {
    ProjectSettings.Unprefixed(ProjectSettings.AutomationProject);
    ProjectSettings.Unprefixed(ProjectSettings.Ms365Project);
    ProjectSettings.Unprefixed(ProjectSettings.TeamsRoomsProject);
  }

  /** `license_by_receiver`: a dict from receiver to license names that
      remembers the order in which receivers were first inserted. */
  datatype Grouping = Grouping(receivers: seq<string>, licenses: map<string, seq<string>>)

  ghost predicate WellFormed(g: Grouping)
  {
    && (forall i, j | 0 <= i < j < |g.receivers| :: g.receivers[i] != g.receivers[j])
    && (forall r :: r in g.licenses <==> r in g.receivers)
  }

  /** `d[r] = names`: a new receiver goes last, an existing one keeps its place. */
  function Assign(g: Grouping, r: string, names: seq<string>): (h: Grouping)
    requires WellFormed(g)
    ensures WellFormed(h)
    ensures h.licenses == g.licenses[r := names]
  {
    if r in g.licenses then Grouping(g.receivers, g.licenses[r := names])
    else Grouping(g.receivers + [r], g.licenses[r := names])
  }

  /** `d[r].append(name)` on a receiver already present. */
  function AppendTo(g: Grouping, r: string, name: string): (h: Grouping)
    requires WellFormed(g) && r in g.licenses
    ensures WellFormed(h)
    ensures h.receivers == g.receivers
    ensures h.licenses == g.licenses[r := g.licenses[r] + [name]]
  {
    Grouping(g.receivers, g.licenses[r := g.licenses[r] + [name]])
  }

  const Empty: Grouping := Grouping([], map[])

  /** The dict after the automation and Microsoft 365 entries. */
  function BeforeTeams(users: seq<Roster.User>, table: seq<ProjectSettings.SettingRow>, info: LicenseInfo): (g: Grouping)
    ensures WellFormed(g)
  {
    var auto := AutomationNames(users, info);
    var g1 := if auto != [] then Assign(Empty, ReceiverFor(table, ProjectSettings.AutomationProject, AutomationDefault), auto) else Empty;
    var ms := Ms365Names(info);
    if ms != [] then Assign(g1, ReceiverFor(table, ProjectSettings.Ms365Project, WorkplaceDefault), ms) else g1
  }

  /** The dict the comment is written from. */
  function GroupLicenses(users: seq<Roster.User>, table: seq<ProjectSettings.SettingRow>, info: LicenseInfo): (g: Grouping)
    ensures WellFormed(g)
  {
    var g2 := BeforeTeams(users, table, info);
    if TeamsRooms !in info then g2
    else
      var r := ReceiverFor(table, ProjectSettings.TeamsRoomsProject, WorkplaceDefault);
      if r in g2.licenses then AppendTo(g2, r, TeamsRoomsName) else Assign(g2, r, [TeamsRoomsName])
  }

  /** Section 1 is present exactly when some user is not an automation
      account. It is then the header followed by one line per such user, in
      (RG, Namn) order; the header appears only once. */
  lemma Section1Lists(users: seq<Roster.User>)
    ensures Section1(users) == [] <==> forall u | u in users :: Roster.IsAutomation(u)
    ensures Section1(users) != [] ==>
      var listed, lines := Roster.SortByRgName(Roster.NonAutomation(users)), Section1(users);
      && lines[0] == Header
      && |lines| == |Roster.NonAutomation(users)| + 1
      && Roster.SortedByRgName(listed)
      && multiset(listed) == multiset(Roster.NonAutomation(users))
      && (forall i | 0 <= i < |listed| :: lines[i + 1] == UserLine(listed[i]))
      && (forall i | 1 <= i < |lines| :: lines[i] != Header)
  {
    var na := Roster.NonAutomation(users);
    var listed := Roster.SortByRgName(na);
    SortKeepsLength(na);
    NoneListedIffAllAutomation(users);
    Section1Shape(listed, |na|, Section1(users));
  }

  /** The shape of section 1 for any list of `n` users. */
  lemma Section1Shape(listed: seq<Roster.User>, n: nat, lines: seq<string>)
    requires |listed| == n
    requires lines == if n == 0 then [] else [Header] + UserLines(listed)
    ensures lines == [] <==> n == 0
    ensures lines != [] ==>
      && lines[0] == Header
      && |lines| == n + 1
      && (forall i | 0 <= i < n :: lines[i + 1] == UserLine(listed[i]))
      && (forall i | 1 <= i < |lines| :: lines[i] != Header)
  {
    NoHeaderAmongUserLines(listed);
  }

  lemma SortKeepsLength(us: seq<Roster.User>)
    ensures |Roster.SortByRgName(us)| == |us|
  {
    var s := Roster.SortByRgName(us);
    assert |s| == |multiset(s)| == |multiset(us)| == |us|;
  }

  lemma NoneListedIffAllAutomation(users: seq<Roster.User>)
    ensures |Roster.NonAutomation(users)| == 0 <==> forall u | u in users :: Roster.IsAutomation(u)
  {
    var na := Roster.NonAutomation(users);
    if |na| > 0 {
      assert na[0] in na;
    }
  }

  lemma NoHeaderAmongUserLines(listed: seq<Roster.User>)
    ensures forall i | 0 <= i < |UserLines(listed)| :: UserLines(listed)[i] != Header
  {
    forall i | 0 <= i < |listed| ensures UserLine(listed[i]) != Header {
      HeaderIsNoUserLine(listed[i]);
    }
  }

  lemma HeaderIsNoUserLine(u: Roster.User)
    ensures UserLine(u) != Header
  {
    var line := UserLine(u);
    assert line[|u.namn|] == '\t';
    if |u.namn| < |Header| {
      assert forall j | 0 <= j < |Header| :: Header[j] != '\t';
    }
  }

  /** The automation names: "Power BI Pro (Mattias)" is listed exactly when
      there are automation users, whether or not the invoice has a Power BI
      line, and then comes last; the list is empty exactly when there is
      nothing to charge to the automation project. */
  lemma AutomationNamesContent(users: seq<Roster.User>, info: LicenseInfo)
    ensures var names := AutomationNames(users, info);
      && (MattiasName in names <==> Roster.AutomationCount(users) > 0)
      && (Roster.AutomationCount(users) > 0 ==> names[|names| - 1] == MattiasName)
      && (names == [] <==>
            PowerAutomateRpa !in info && PowerAutomatePlan !in info && PowerAutomatePrem !in info
            && Roster.AutomationCount(users) == 0)
  {
    var a := AppendIf([], PowerAutomateRpa in info, RpaName);
    var b := AppendIf(a, PowerAutomatePlan in info, PlanName);
    var c := AppendIf(b, PowerAutomatePrem in info, PremName);
    AppendIfMembers([], PowerAutomateRpa in info, RpaName);
    AppendIfMembers(a, PowerAutomatePlan in info, PlanName);
    AppendIfMembers(b, PowerAutomatePrem in info, PremName);
    MattiasIsNotPowerAutomate();
  }

  lemma AppendIfMembers(names: seq<string>, c: bool, x: string)
    ensures forall n :: n in AppendIf(names, c, x) <==> n in names || (c && n == x)
  {
  }

  lemma MattiasIsNotPowerAutomate()
    ensures MattiasName != RpaName && MattiasName != PlanName && MattiasName != PremName
  {
    assert MattiasName[6] == 'B';
    assert RpaName[6] == 'A' && PlanName[6] == 'A' && PremName[6] == 'A';
  }

  /** Every automation name starts with 'P'. */
  lemma AutomationNamesStartWithP(users: seq<Roster.User>, info: LicenseInfo)
    ensures forall n | n in AutomationNames(users, info) :: |n| > 0 && n[0] == 'P'
  {
    var a := AppendIf([], PowerAutomateRpa in info, RpaName);
    var b := AppendIf(a, PowerAutomatePlan in info, PlanName);
    var c := AppendIf(b, PowerAutomatePrem in info, PremName);
    AppendIfMembers([], PowerAutomateRpa in info, RpaName);
    AppendIfMembers(a, PowerAutomatePlan in info, PlanName);
    AppendIfMembers(b, PowerAutomatePrem in info, PremName);
    AppendIfMembers(c, Roster.AutomationCount(users) > 0, MattiasName);
    assert RpaName[0] == 'P' && PlanName[0] == 'P' && PremName[0] == 'P' && MattiasName[0] == 'P';
  }

  /** Every Microsoft 365 name, and the Teams Rooms name, starts with 'M'. */
  lemma Ms365NamesStartWithM(info: LicenseInfo)
    ensures forall n | n in Ms365Names(info) + [TeamsRoomsName] :: |n| > 0 && n[0] == 'M'
  {
    var d := AppendIf([], TeamsEea in info, TeamsEeaName);
    var e := AppendIf(d, Copilot in info, CopilotName);
    AppendIfMembers([], TeamsEea in info, TeamsEeaName);
    AppendIfMembers(d, Copilot in info, CopilotName);
    AppendIfMembers(e, Ms365Eea in info, Ms365EeaName);
    assert TeamsEeaName[0] == 'M' && CopilotName[0] == 'M' && Ms365EeaName[0] == 'M' && TeamsRoomsName[0] == 'M';
  }

  /** The Microsoft 365 entry is made exactly when one of its three licenses
      is on the invoice. */
  lemma Ms365NamesContent(info: LicenseInfo)
    ensures Ms365Names(info) == [] <==> TeamsEea !in info && Copilot !in info && Ms365Eea !in info
  {
  }

  /** Python dict order: each receiver once, in the order of its first insertion. */
  function Dedup(a: seq<string>): (r: seq<string>)
    ensures forall x :: x in r <==> x in a
    ensures forall i, j | 0 <= i < j < |r| :: r[i] != r[j]
  {
    if a == [] then []
    else
      var init := Dedup(a[..|a| - 1]);
      assert a == a[..|a| - 1] + [a[|a| - 1]];
      if a[|a| - 1] in a[..|a| - 1] then init else init + [a[|a| - 1]]
  }

  /** The receivers in the order the source tries to insert them. */
  function Attempts(users: seq<Roster.User>, table: seq<ProjectSettings.SettingRow>, info: LicenseInfo): seq<string>
  {
    var a := AppendIf([], AutomationNames(users, info) != [],
      ReceiverFor(table, ProjectSettings.AutomationProject, AutomationDefault));
    var b := AppendIf(a, Ms365Names(info) != [], ReceiverFor(table, ProjectSettings.Ms365Project, WorkplaceDefault));
    AppendIf(b, TeamsRooms in info, ReceiverFor(table, ProjectSettings.TeamsRoomsProject, WorkplaceDefault))
  }

  lemma DedupSnoc(a: seq<string>, r: string)
    ensures Dedup(a + [r]) == if r in a then Dedup(a) else Dedup(a) + [r]
  {
    assert (a + [r])[..|a|] == a;
  }

  /** Assigning or appending to the dict keeps its receivers in first-insertion order. */
  lemma InsertKeepsOrder(g: Grouping, a: seq<string>, r: string, c: bool)
    requires WellFormed(g) && g.receivers == Dedup(a)
    ensures c ==> Assign(g, r, []).receivers == Dedup(a + [r])
    ensures c ==> r in g.licenses ==> g.receivers == Dedup(a + [r])
    ensures Dedup(AppendIf(a, c, r)) == if c then Dedup(a + [r]) else Dedup(a)
  {
    DedupSnoc(a, r);
  }

  /** Receiver lines follow the order in which receivers were first inserted,
      and no receiver gets two lines. */
  lemma ReceiversInFirstInsertionOrder(users: seq<Roster.User>, table: seq<ProjectSettings.SettingRow>, info: LicenseInfo)
    ensures GroupLicenses(users, table, info).receivers == Dedup(Attempts(users, table, info))
  {
    var auto, ms := AutomationNames(users, info), Ms365Names(info);
    var ra := ReceiverFor(table, ProjectSettings.AutomationProject, AutomationDefault);
    var rm := ReceiverFor(table, ProjectSettings.Ms365Project, WorkplaceDefault);
    var rt := ReceiverFor(table, ProjectSettings.TeamsRoomsProject, WorkplaceDefault);
    var a := AppendIf([], auto != [], ra);
    var b := AppendIf(a, ms != [], rm);
    var g1 := if auto != [] then Assign(Empty, ra, auto) else Empty;
    InsertKeepsOrder(Empty, [], ra, auto != []);
    assert g1.receivers == Dedup(a);
    var g2 := BeforeTeams(users, table, info);
    InsertKeepsOrder(g1, a, rm, ms != []);
    assert g2.receivers == Dedup(b);
    InsertKeepsOrder(g2, b, rt, TeamsRooms in info);
  }

  /** When the Microsoft 365 receiver is the automation receiver, its
      assignment replaces the automation list: every list in the dict is the
      Microsoft 365 list, possibly followed by Teams Rooms, and no automation
      license is named anywhere in section 2. */
  lemma SharedReceiverOverwrites(users: seq<Roster.User>, table: seq<ProjectSettings.SettingRow>, info: LicenseInfo)
    requires Ms365Names(info) != []
    requires ReceiverFor(table, ProjectSettings.AutomationProject, AutomationDefault)
          == ReceiverFor(table, ProjectSettings.Ms365Project, WorkplaceDefault)
    ensures var g := GroupLicenses(users, table, info);
      forall r | r in g.licenses ::
        (forall n | n in g.licenses[r] :: n !in AutomationNames(users, info))
  {
    OnlyMs365Lists(users, table, info);
    Ms365NamesStartWithM(info);
    AutomationNamesStartWithP(users, info);
    Disjoint(GroupLicenses(users, table, info).licenses, AutomationNames(users, info), Ms365Names(info), TeamsRoomsName);
  }

  lemma OnlyMs365Lists(users: seq<Roster.User>, table: seq<ProjectSettings.SettingRow>, info: LicenseInfo)
    requires Ms365Names(info) != []
    requires ReceiverFor(table, ProjectSettings.AutomationProject, AutomationDefault)
          == ReceiverFor(table, ProjectSettings.Ms365Project, WorkplaceDefault)
    ensures var g := GroupLicenses(users, table, info);
      forall r | r in g.licenses ::
        g.licenses[r] == Ms365Names(info) || g.licenses[r] == Ms365Names(info) + [TeamsRoomsName] || g.licenses[r] == [TeamsRoomsName]
  {
    BeforeTeamsOnlyMs365(users, table, info);
  }

  lemma BeforeTeamsOnlyMs365(users: seq<Roster.User>, table: seq<ProjectSettings.SettingRow>, info: LicenseInfo)
    requires Ms365Names(info) != []
    requires ReceiverFor(table, ProjectSettings.AutomationProject, AutomationDefault)
          == ReceiverFor(table, ProjectSettings.Ms365Project, WorkplaceDefault)
    ensures var g2 := BeforeTeams(users, table, info);
      forall r | r in g2.licenses :: g2.licenses[r] == Ms365Names(info)
  {
  }

  /** Names told apart by their first character. */
  lemma Disjoint(lists: map<string, seq<string>>, auto: seq<string>, ms: seq<string>, t: string)
    requires forall r | r in lists :: lists[r] == ms || lists[r] == ms + [t] || lists[r] == [t]
    requires forall n | n in ms + [t] :: |n| > 0 && n[0] == 'M'
    requires forall n | n in auto :: |n| > 0 && n[0] == 'P'
    ensures forall r | r in lists :: (forall n | n in lists[r] :: n !in auto)
  {
    forall r, n | r in lists && n in lists[r] ensures n in ms + [t] {
    }
  }

  /** Teams Rooms goes to its receiver: appended to that receiver's list when
      it already has one, otherwise as a new entry placed last; the other
      entries are unchanged. */
  lemma TeamsRoomsEntry(users: seq<Roster.User>, table: seq<ProjectSettings.SettingRow>, info: LicenseInfo)
    requires TeamsRooms in info
    ensures var g2, g := BeforeTeams(users, table, info), GroupLicenses(users, table, info);
      var r := ReceiverFor(table, ProjectSettings.TeamsRoomsProject, WorkplaceDefault);
      && r in g.licenses
      && g.licenses[r] == (if r in g2.licenses then g2.licenses[r] else []) + [TeamsRoomsName]
      && (r !in g2.licenses ==> g.receivers == g2.receivers + [r])
      && (r in g2.licenses ==> g.receivers == g2.receivers)
      && (forall x | x in g2.licenses && x != r :: x in g.licenses && g.licenses[x] == g2.licenses[x])
  {
    var g2 := BeforeTeams(users, table, info);
    var r := ReceiverFor(table, ProjectSettings.TeamsRoomsProject, WorkplaceDefault);
    if r !in g2.licenses {
      assert r !in g2.receivers;
    }
  }

  /** `f"\nTill {receiver} licenser för {', '.join(licenses)}"`. */
  function ReceiverLine(r: string, names: seq<string>): string
  {
    "\nTill " + r + " licenser för " + Strings.Join(names, ", ")
  }

  function ReceiverLines(rs: seq<string>, licenses: map<string, seq<string>>): (r: seq<string>)
    requires forall x | x in rs :: x in licenses
    ensures |r| == |rs|
    ensures forall i | 0 <= i < |rs| :: r[i] == ReceiverLine(rs[i], licenses[rs[i]])
  {
    if rs == [] then []
    else ReceiverLines(rs[..|rs| - 1], licenses) + [ReceiverLine(rs[|rs| - 1], licenses[rs[|rs| - 1]])]
  }

  /** The comment as one expression: the parts joined with newlines. */
  function CommentText(users: seq<Roster.User>, table: seq<ProjectSettings.SettingRow>, info: LicenseInfo): string
  {
    var g := GroupLicenses(users, table, info);
    Strings.Join(Section1(users) + ReceiverLines(g.receivers, g.licenses), "\n")
  }

  /** The `for _, user in pbi_users.iterrows()` loop. */
  method WriteUserLines(us: seq<Roster.User>) returns (lines: seq<string>)
    ensures lines == UserLines(us)
  {
    lines := [];
    var i := 0;
    while i < |us|
      invariant 0 <= i <= |us|
      invariant lines == UserLines(us[..i])
    {
      assert us[..i + 1][..i] == us[..i];
      lines := lines + [UserLine(us[i])];
      i := i + 1;
    }
    assert us[..|us|] == us;
  }

  /** The `for receiver, licenses in license_by_receiver.items()` loop. */
  method WriteReceiverLines(g: Grouping) returns (lines: seq<string>)
    requires WellFormed(g)
    ensures lines == ReceiverLines(g.receivers, g.licenses)
  {
    lines := [];
    var k := 0;
    while k < |g.receivers|
      invariant 0 <= k <= |g.receivers|
      invariant lines == ReceiverLines(g.receivers[..k], g.licenses)
    {
      assert g.receivers[..k + 1][..k] == g.receivers[..k];
      var receiver := g.receivers[k];
      lines := lines + [ReceiverLine(receiver, g.licenses[receiver])];
      k := k + 1;
    }
    assert g.receivers[..|g.receivers|] == g.receivers;
  }

  /** Section 1 of generate_invoice_comment (src/main.py:441-449). */
  method ListPowerBiUsers(users: seq<Roster.User>) returns (parts: seq<string>)
    ensures parts == Section1(users)
  {
    parts := [];
    var pbiUsers := Roster.SortByRgName(Roster.NonAutomation(users));
    if |pbiUsers| > 0 {
      var lines := WriteUserLines(pbiUsers);
      parts := parts + [Header] + lines;
    }
  }

  /** Section 2 of generate_invoice_comment up to the output loop
      (src/main.py:455-506): fills `license_by_receiver`. */
  method GroupByReceiver(users: seq<Roster.User>, table: seq<ProjectSettings.SettingRow>, info: LicenseInfo)
    returns (byReceiver: Grouping)
    ensures byReceiver == GroupLicenses(users, table, info)
  {
    byReceiver := Empty;
    var automationLicenses: seq<string> := [];
    if PowerAutomateRpa in info {
      automationLicenses := automationLicenses + [RpaName];
    }
    if PowerAutomatePlan in info {
      automationLicenses := automationLicenses + [PlanName];
    }
    if PowerAutomatePrem in info {
      automationLicenses := automationLicenses + [PremName];
    }
    if Roster.AutomationCount(users) > 0 {
      automationLicenses := automationLicenses + [MattiasName];
    }
    assert automationLicenses == AutomationNames(users, info);
    if automationLicenses != [] {
      var receiver := ReceiverFor(table, ProjectSettings.AutomationProject, AutomationDefault);
      byReceiver := Assign(byReceiver, receiver, automationLicenses);
    }

    var ms365Licenses: seq<string> := [];
    if TeamsEea in info {
      ms365Licenses := ms365Licenses + [TeamsEeaName];
    }
    if Copilot in info {
      ms365Licenses := ms365Licenses + [CopilotName];
    }
    if Ms365Eea in info {
      ms365Licenses := ms365Licenses + [Ms365EeaName];
    }
    assert ms365Licenses == Ms365Names(info);
    if ms365Licenses != [] {
      var receiver := ReceiverFor(table, ProjectSettings.Ms365Project, WorkplaceDefault);
      byReceiver := Assign(byReceiver, receiver, ms365Licenses);
    }
    assert byReceiver == BeforeTeams(users, table, info);

    if TeamsRooms in info {
      var receiver := ReceiverFor(table, ProjectSettings.TeamsRoomsProject, WorkplaceDefault);
      if receiver in byReceiver.licenses {
        byReceiver := AppendTo(byReceiver, receiver, TeamsRoomsName);
      } else {
        byReceiver := Assign(byReceiver, receiver, [TeamsRoomsName]);
      }
    }
  }

  /** generate_invoice_comment: section 1, then one line per receiver, joined
      with newlines. The accounting rows are passed in but, as in the source,
      not read. */
  method GenerateInvoiceComment(users: seq<Roster.User>, table: seq<ProjectSettings.SettingRow>, info: LicenseInfo,
                                rows: seq<Allocation.AccountingRow>)
    returns (comment: string)
    ensures comment == CommentText(users, table, info)
  {
    var parts := ListPowerBiUsers(users);
    var byReceiver := GroupByReceiver(users, table, info);
    var lines := WriteReceiverLines(byReceiver);
    comment := Strings.Join(parts + lines, "\n");
  }
}
