/** License extraction: `InvoiceHelper.parse_license_info` (src/main.py:127-178).
    The OCR text is given as a sequence of tokens; for each of the eight license
    types the first billing line of that type's shape is read, and its three
    numbers are normalised and parsed. */
module Licenses {
  import opened Wrappers
  import Numbers

  /** The keys of the source's pattern table: power_bi, power_automate_rpa,
      teams_rooms, power_automate_plan, teams_eea, copilot, ms365_eea,
      power_automate_prem. */
  datatype LicenseType =
    | PowerBi
    | PowerAutomateRpa
    | TeamsRooms
    | PowerAutomatePlan
    | TeamsEea
    | Copilot
    | Ms365Eea
    | PowerAutomatePrem

  /** The pattern table in its declaration order, which the loop follows. */
  const PatternOrder: seq<LicenseType> :=
    [PowerBi, PowerAutomateRpa, TeamsRooms, PowerAutomatePlan, TeamsEea, Copilot, Ms365Eea, PowerAutomatePrem]

  /** `{quantity, unit_price, total}` of one license type. */
  datatype LineItem = LineItem(quantity: real, unitPrice: real, total: real)

  /** The `license_info` dict. */
  type LicenseInfo = map<LicenseType, LineItem>

  datatype ParseError =
    | MalformedNumber(licenseType: LicenseType)  // float() raised ValueError
    | NoLicenseData                              // "Ingen licensinformation hittades i texten"

  /** The literal words each pattern starts with. */
  function Prefix(t: LicenseType): seq<string>
  {
    match t
    case PowerBi => ["CSP", "-Power", "BI", "Pro", "(cycle)"]
    case PowerAutomateRpa => ["CSP", "-Power", "Automate", "unattended", "RPA", "add-on", "(Cycle)"]
    case TeamsRooms => ["CSP", "-MS", "Teams", "Rooms", "Pro", "(Cycle)"]
    case PowerAutomatePlan => ["CSP", "-Power", "Automate", "with", "att", "RPA", "plan", "(cycle)"]
    case TeamsEea => ["CSP", "-MS", "Teams", "EEA", "(Cycle)"]
    case Copilot => ["CSP", "-MS", "Copilot", "for", "MS", "365", "(Corr)"]
    case Ms365Eea => ["CSP", "-MS", "365", "E3", "EEA", "(no", "Teams)", "(Cycle)"]
    case PowerAutomatePrem => ["CSP", "-Power", "Automate", "prem.", "(Corr)"]
  }

  /** ASCII case folding, for re.IGNORECASE on the literal words. */
  function Lower(c: char): char
  {
    if 'A' <= c <= 'Z' then (c as int + 32) as char else c
  }

  predicate SameIgnoringCase(a: string, b: string)
  {
    |a| == |b| && forall i | 0 <= i < |a| :: Lower(a[i]) == Lower(b[i])
  }

  /** `\s`: the ASCII whitespace characters. */
  predicate IsSpace(c: char)
  {
    c == ' ' || c == '\t' || c == '\n' || c == '\r' || c == '\U{B}' || c == '\U{C}'
  }

  /** `\d{6}` */
  predicate SixDigits(tok: string)
  {
    |tok| == 6 && Numbers.IsDigits(tok)
  }

  /** `\d+,\d+`, the quantity column. */
  predicate QuantityShape(tok: string)
  {
    var k := Numbers.IndexOf(tok, ',');
    0 < k && k + 1 < |tok| && Numbers.IsDigits(tok[..k]) && Numbers.IsDigits(tok[k + 1..])
  }

  /** Index of the last `c` in `s`, or -1 (str.rfind). */
  function LastIndexOf(s: string, c: char): (k: int)
    ensures -1 <= k < |s|
    ensures k >= 0 ==> s[k] == c
    ensures forall i | k < i < |s| :: s[i] != c
  {
    if s == [] then -1
    else if s[|s| - 1] == c then |s| - 1
    else LastIndexOf(s[..|s| - 1], c)
  }

  /** Length of the longest prefix of `s` made of digits. */
  function DigitRun(s: string): (n: nat)
    ensures n <= |s| && Numbers.IsDigits(s[..n])
    ensures n < |s| ==> !Numbers.IsDigit(s[n])
  {
    if s != [] && Numbers.IsDigit(s[0]) then
      var n := 1 + DigitRun(s[1..]);
      assert s[..n] == [s[0]] + s[1..][..n - 1];
      n
    else 0
  }

  /** Length of the longest prefix of `s` made of `[\s,]`. */
  function SeparatorRun(s: string): (n: nat)
    ensures n <= |s|
    ensures forall i | 0 <= i < n :: IsSpace(s[i]) || s[i] == ','
  {
    if s != [] && (IsSpace(s[0]) || s[0] == ',') then 1 + SeparatorRun(s[1..]) else 0
  }

  /** `\d+[\s,]*\d*` over the whole of `h`. */
  predicate HeadShape(h: string)
  {
    var i := DigitRun(h);
    var j := i + SeparatorRun(h[i..]);
    i > 0 && Numbers.IsDigits(h[j..])
  }

  /** `\d+[\s,]*\d*,\d+`, the unit price and total columns. The comma before the
      decimals is the last comma of the token. */
  predicate AmountShape(tok: string)
  {
    var k := LastIndexOf(tok, ',');
    k >= 0 && k + 1 < |tok| && Numbers.IsDigits(tok[k + 1..]) && HeadShape(tok[..k])
  }

  /** The tokens from position `i` on form a billing line of type `t`: the
      literal words, two six-digit dates around "-", the quantity, "ST", the
      unit price and the total. */
  predicate LineAt(tokens: seq<string>, i: nat, t: LicenseType)
  {
    var p := Prefix(t);
    var m := |p|;
    && i + m + 7 <= |tokens|
    && (forall j | 0 <= j < m :: SameIgnoringCase(tokens[i + j], p[j]))
    && SixDigits(tokens[i + m])
    && tokens[i + m + 1] == "-"
    && SixDigits(tokens[i + m + 2])
    && QuantityShape(tokens[i + m + 3])
    && SameIgnoringCase(tokens[i + m + 4], "ST")
    && AmountShape(tokens[i + m + 5])
    && AmountShape(tokens[i + m + 6])
  }

  /** The three groups the pattern captures. */
  datatype Captures = Captures(quantity: string, unitPrice: string, total: string)

  function CapturesAt(tokens: seq<string>, i: nat, t: LicenseType): Captures
    requires LineAt(tokens, i, t)
  {
    var m := |Prefix(t)|;
    Captures(tokens[i + m + 3], tokens[i + m + 5], tokens[i + m + 6])
  }

  /** The positions where a line of type `t` starts. */
  function Hits(tokens: seq<string>, t: LicenseType): (h: seq<bool>)
    ensures |h| == |tokens|
    ensures forall j | 0 <= j < |h| :: h[j] == LineAt(tokens, j, t)
  {
    seq(|tokens|, j requires 0 <= j < |tokens| => LineAt(tokens, j, t))
  }

  /** The first position at or after `from` that holds. */
  function FirstHit(h: seq<bool>, from: nat): (r: Option<nat>)
    ensures r.Some? ==> from <= r.value < |h| && h[r.value]
    decreases |h| - from
  {
    if from >= |h| then None
    else if h[from] then Some(from)
    else FirstHit(h, from + 1)
  }

  lemma {:induction false} FirstHitLeftmost(h: seq<bool>, from: nat)
    ensures var r := FirstHit(h, from);
      r.Some? ==> forall j | from <= j < r.value :: !h[j]
    ensures FirstHit(h, from).None? ==> forall j | from <= j < |h| :: !h[j]
    decreases |h| - from
  {
    if from < |h| && !h[from] {
      FirstHitLeftmost(h, from + 1);
    }
  }

  /** re.search: where the leftmost line of type `t` starts. */
  function Search(tokens: seq<string>, t: LicenseType): (r: Option<nat>)
    ensures r.Some? ==> LineAt(tokens, r.value, t)
  {
    FirstHit(Hits(tokens, t), 0)
  }

  /** The search finds the leftmost line, and finds nothing only when the
      text holds no line of type `t`. */
  lemma SearchLeftmost(tokens: seq<string>, t: LicenseType)
    ensures Search(tokens, t).Some? ==> Leftmost(tokens, Search(tokens, t).value, t)
    ensures Search(tokens, t).None? ==> forall j: nat :: !LineAt(tokens, j, t)
  {
    var h := Hits(tokens, t);
    FirstHitLeftmost(h, 0);
    NoLineAtEnd(tokens, t, |tokens|);
  }

  lemma NoLineAtEnd(tokens: seq<string>, t: LicenseType, from: nat)
    requires from >= |tokens|
    ensures forall j: nat | from <= j :: !LineAt(tokens, j, t)
  {
  }

  /** `re.search(pattern, text, re.IGNORECASE)` and its `match.groups()`. */
  function FirstMatch(tokens: seq<string>, t: LicenseType): Option<Captures>
  {
    match Search(tokens, t)
    case None => None
    case Some(i) => Some(CapturesAt(tokens, i, t))
  }

  /** What one iteration of the loop makes of type `t`. */
  datatype TypeOutcome = NoMatch | Malformed | Found(item: LineItem)

  function OutcomeOf(tokens: seq<string>, t: LicenseType): TypeOutcome
  {
    match FirstMatch(tokens, t)
    case None => NoMatch
    case Some(c) =>
      var q, p, tot := Numbers.ParseNumber(c.quantity), Numbers.ParseNumber(c.unitPrice), Numbers.ParseNumber(c.total);
      if q.Some? && p.Some? && tot.Some? then Found(LineItem(q.value, p.value, tot.value)) else Malformed
  }

  /** The first type of `types`, in order, whose numbers do not parse. */
  function FirstMalformed(tokens: seq<string>, types: seq<LicenseType>): Option<LicenseType>
  {
    FirstMalformedIn(Outcomes(tokens), types)
  }

  function FirstMalformedIn(outcomes: map<LicenseType, TypeOutcome>, types: seq<LicenseType>): Option<LicenseType>
  {
    if types == [] then None
    else if types[0] in outcomes && outcomes[types[0]].Malformed? then Some(types[0])
    else FirstMalformedIn(outcomes, types[1..])
  }

  /** The items of the types among `types` that were found. */
  function FoundAmong(tokens: seq<string>, types: seq<LicenseType>): LicenseInfo
  {
    FoundIn(Outcomes(tokens), types)
  }

  /** What the loop makes of every type. */
  function Outcomes(tokens: seq<string>): map<LicenseType, TypeOutcome>
  {
    map u: LicenseType :: OutcomeOf(tokens, u)
  }

  function FoundIn(outcomes: map<LicenseType, TypeOutcome>, types: seq<LicenseType>): LicenseInfo
  {
    map u | u in types && u in outcomes && outcomes[u].Found? :: outcomes[u].item
  }

  /** The result parse_license_info returns or the exception it raises. */
  function ExtractLicenses(tokens: seq<string>): (r: Result<LicenseInfo, ParseError>)
    ensures r.Success? ==> r.value != map[]
    ensures r.Success? ==> forall t | t in r.value :: Outcomes(tokens)[t] == Found(r.value[t])
  {
    match FirstMalformed(tokens, PatternOrder)
    case Some(t) => Failure(MalformedNumber(t))
    case None =>
      var info := FoundAmong(tokens, PatternOrder);
      if info == map[] then Failure(NoLicenseData) else Success(info)
  }

  lemma {:induction false} FirstMalformedAppend(tokens: seq<string>, a: seq<LicenseType>, t: LicenseType)
    requires FirstMalformed(tokens, a) == None
    ensures FirstMalformed(tokens, a + [t]) == if OutcomeOf(tokens, t).Malformed? then Some(t) else None
    decreases |a|
  {
    if a == [] {
      assert a + [t] == [t];
    } else {
      assert (a + [t])[1..] == a[1..] + [t];
      FirstMalformedAppend(tokens, a[1..], t);
    }
  }

  lemma FoundAmongAppend(tokens: seq<string>, a: seq<LicenseType>, t: LicenseType)
    ensures FoundAmong(tokens, a + [t])
         == if OutcomeOf(tokens, t).Found? then FoundAmong(tokens, a)[t := OutcomeOf(tokens, t).item]
            else FoundAmong(tokens, a)
  {
    if OutcomeOf(tokens, t).Found? {
      FoundAmongAppendFound(tokens, a, t);
    } else {
      FoundAmongAppendOther(tokens, a, t);
    }
  }

  lemma FoundAmongAppendFound(tokens: seq<string>, a: seq<LicenseType>, t: LicenseType)
    requires OutcomeOf(tokens, t).Found?
    ensures FoundAmong(tokens, a + [t]) == FoundAmong(tokens, a)[t := OutcomeOf(tokens, t).item]
  {
    MapAppendFound(Outcomes(tokens), a, t);
  }

  lemma MapAppendFound(outcomes: map<LicenseType, TypeOutcome>, a: seq<LicenseType>, t: LicenseType)
    requires t in outcomes && outcomes[t].Found?
    ensures FoundIn(outcomes, a + [t]) == FoundIn(outcomes, a)[t := outcomes[t].item]
  {
    assert forall u :: u in a + [t] <==> u in a || u == t;
  }

  lemma FoundAmongAppendOther(tokens: seq<string>, a: seq<LicenseType>, t: LicenseType)
    requires !OutcomeOf(tokens, t).Found?
    ensures FoundAmong(tokens, a + [t]) == FoundAmong(tokens, a)
  {
    assert forall u :: u in a + [t] <==> u in a || u == t;
  }

  /** One iteration of the loop: search for the line, then float() on the
      three captured numbers after normalisation. */
  method ReadType(tokens: seq<string>, t: LicenseType) returns (o: TypeOutcome)
    ensures o == OutcomeOf(tokens, t)
  {
    var m := FirstMatch(tokens, t);
    if m.None? {
      return NoMatch;
    }
    var quantity := Numbers.ParseNumber(m.value.quantity);
    var unitPrice := Numbers.ParseNumber(m.value.unitPrice);
    var total := Numbers.ParseNumber(m.value.total);
    if quantity.None? || unitPrice.None? || total.None? {
      return Malformed;
    }
    return Found(LineItem(quantity.value, unitPrice.value, total.value));
  }

  /** The loop of parse_license_info over the pattern table. */
  method ParseLicenseInfo(tokens: seq<string>) returns (r: Result<LicenseInfo, ParseError>)
    ensures r == ExtractLicenses(tokens)
  {
    var info: LicenseInfo := map[];
    var k := 0;
    while k < |PatternOrder|
      invariant 0 <= k <= |PatternOrder|
      invariant FirstMalformed(tokens, PatternOrder[..k]) == None
      invariant info == FoundAmong(tokens, PatternOrder[..k])
    {
      var t := PatternOrder[k];
      assert PatternOrder[..k + 1] == PatternOrder[..k] + [t];
      FirstMalformedAppend(tokens, PatternOrder[..k], t);
      FoundAmongAppend(tokens, PatternOrder[..k], t);
      var o := ReadType(tokens, t);
      if o.Malformed? {
        FirstMalformedPrefix(tokens, PatternOrder, k + 1);
        return Failure(MalformedNumber(t));
      } else if o.Found? {
        info := info[t := o.item];
      }
      k := k + 1;
    }
    assert PatternOrder[..k] == PatternOrder;
    if info == map[] {
      return Failure(NoLicenseData);
    }
    return Success(info);
  }

  /** A malformed type in a prefix of the order is the first malformed type of the whole order. */
  lemma {:induction false} FirstMalformedPrefix(tokens: seq<string>, types: seq<LicenseType>, n: nat)
    requires n <= |types| && FirstMalformed(tokens, types[..n]).Some?
    ensures FirstMalformed(tokens, types) == FirstMalformed(tokens, types[..n])
    decreases n
  {
    if !OutcomeOf(tokens, types[0]).Malformed? {
      assert types[..n][1..] == types[1..][..n - 1];
      FirstMalformedPrefix(tokens, types[1..], n - 1);
    }
  }

  lemma EveryTypeListed(t: LicenseType)
    ensures t in PatternOrder
  {
  }

  lemma {:induction false} FirstMalformedNone(tokens: seq<string>, types: seq<LicenseType>)
    ensures FirstMalformed(tokens, types) == None
        <==> forall t | t in types :: !OutcomeOf(tokens, t).Malformed?
    decreases |types|
  {
    if types != [] {
      FirstMalformedNone(tokens, types[1..]);
      assert forall t | t in types :: t == types[0] || t in types[1..];
    }
  }

  /** The line at `i` is the leftmost line of type `t`, the one re.search finds. */
  predicate Leftmost(tokens: seq<string>, i: nat, t: LicenseType)
  {
    LineAt(tokens, i, t) && forall j | 0 <= j < i :: !LineAt(tokens, j, t)
  }

  lemma LeftmostUnique(tokens: seq<string>, i: nat, i': nat, t: LicenseType)
    requires Leftmost(tokens, i, t) && Leftmost(tokens, i', t)
    ensures i == i'
  {
  }

  /** On success, the keys of the result are exactly the license types whose
      line shape occurs in the text. */
  lemma {:induction false} ExtractedTypesAreMatchedTypes(tokens: seq<string>)
    requires ExtractLicenses(tokens).Success?
    ensures forall t :: t in ExtractLicenses(tokens).value <==> FirstMatch(tokens, t).Some?
  {
    FirstMalformedNone(tokens, PatternOrder);
    var info := FoundAmong(tokens, PatternOrder);
    assert ExtractLicenses(tokens).value == info;
    forall t ensures t in info <==> FirstMatch(tokens, t).Some? {
      KeyIffMatched(tokens, t);
    }
  }

  lemma KeyIffMatched(tokens: seq<string>, t: LicenseType)
    requires forall u | u in PatternOrder :: !OutcomeOf(tokens, u).Malformed?
    ensures t in FoundAmong(tokens, PatternOrder) <==> FirstMatch(tokens, t).Some?
  {
    EveryTypeListed(t);
  }

  /** Each value comes from the leftmost line of its type: its quantity, unit
      price and total are the parsed numbers of that line, whatever follows. */
  lemma ExtractReadsLeftmostLine(tokens: seq<string>, t: LicenseType)
    requires ExtractLicenses(tokens).Success? && t in ExtractLicenses(tokens).value
    ensures exists i: nat :: Leftmost(tokens, i, t)
    ensures forall i: nat | Leftmost(tokens, i, t) ::
      var item, c := ExtractLicenses(tokens).value[t], CapturesAt(tokens, i, t);
      && Numbers.ParseNumber(c.quantity) == Some(item.quantity)
      && Numbers.ParseNumber(c.unitPrice) == Some(item.unitPrice)
      && Numbers.ParseNumber(c.total) == Some(item.total)
  {
    SearchLeftmost(tokens, t);
    var i0 := Search(tokens, t).value;
    assert Leftmost(tokens, i0, t);
    forall i: nat | Leftmost(tokens, i, t) ensures i == i0 {
      LeftmostUnique(tokens, i, i0, t);
    }
  }

  /** parse_license_info raises "no license information" exactly when no
      license type's line occurs anywhere in the text. */
  lemma NoLicenseDataIffNothingMatched(tokens: seq<string>)
    ensures ExtractLicenses(tokens) == Failure(NoLicenseData)
        <==> forall t :: FirstMatch(tokens, t).None?
  {
    FirstMalformedNone(tokens, PatternOrder);
    if forall t :: FirstMatch(tokens, t).None? {
      assert FoundAmong(tokens, PatternOrder) == map[];
    }
    if ExtractLicenses(tokens) == Failure(NoLicenseData) {
      forall t ensures FirstMatch(tokens, t).None? {
        EveryTypeListed(t);
        assert t !in FoundAmong(tokens, PatternOrder);
      }
    }
  }

  /** An unparsable number fails the whole extraction, naming the first type in
      table order whose leftmost line has one; types before it parsed cleanly. */
  lemma MalformedNumberNamesFirstBadType(tokens: seq<string>, t: LicenseType)
    requires ExtractLicenses(tokens) == Failure(MalformedNumber(t))
    ensures FirstMatch(tokens, t).Some?
    ensures var c := FirstMatch(tokens, t).value;
      Numbers.ParseNumber(c.quantity).None? || Numbers.ParseNumber(c.unitPrice).None? || Numbers.ParseNumber(c.total).None?
    ensures exists k | 0 <= k < |PatternOrder| ::
      (PatternOrder[k] == t && forall j | 0 <= j < k :: !OutcomeOf(tokens, PatternOrder[j]).Malformed?)
  {
    var k := FirstMalformedIsFirst(tokens, PatternOrder);
  }

  lemma FirstMalformedIsFirst(tokens: seq<string>, types: seq<LicenseType>) returns (k: nat)
    requires FirstMalformed(tokens, types).Some?
    ensures k < |types| && types[k] == FirstMalformed(tokens, types).value
    ensures OutcomeOf(tokens, types[k]).Malformed?
    ensures forall j | 0 <= j < k :: !OutcomeOf(tokens, types[j]).Malformed?
  {
    k := FirstMalformedInIsFirst(Outcomes(tokens), types);
    assert forall j | 0 <= j <= k :: Outcomes(tokens)[types[j]] == OutcomeOf(tokens, types[j]);
  }

  lemma {:induction false} FirstMalformedInIsFirst(outcomes: map<LicenseType, TypeOutcome>, types: seq<LicenseType>) returns (k: nat)
    requires FirstMalformedIn(outcomes, types).Some?
    ensures k < |types| && types[k] == FirstMalformedIn(outcomes, types).value
    ensures types[k] in outcomes && outcomes[types[k]].Malformed?
    ensures forall j | 0 <= j < k :: !(types[j] in outcomes && outcomes[types[j]].Malformed?)
    decreases |types|
  {
    if !(types[0] in outcomes && outcomes[types[0]].Malformed?) {
      var k' := FirstMalformedInIsFirst(outcomes, types[1..]);
      k := k' + 1;
      assert types[k] == types[1..][k'];
      forall j | 0 < j < k ensures !(types[j] in outcomes && outcomes[types[j]].Malformed?) {
        assert types[j] == types[1..][j - 1];
      }
    } else {
      k := 0;
    }
  }

  lemma LineAtExtend(tokens: seq<string>, more: seq<string>, j: nat, t: LicenseType)
    requires j + |Prefix(t)| + 7 <= |tokens|
    ensures LineAt(tokens + more, j, t) <==> LineAt(tokens, j, t)
  {
    var m := |Prefix(t)|;
    assert forall x | j <= x < j + m + 7 :: (tokens + more)[x] == tokens[x];
  }

  /** Only the first line of a type counts: text after it (a correction
      line of the same type, say) changes nothing that re.search returns. */
  lemma LaterTextIgnored(tokens: seq<string>, more: seq<string>, t: LicenseType)
    requires FirstMatch(tokens, t).Some?
    ensures FirstMatch(tokens + more, t) == FirstMatch(tokens, t)
    ensures OutcomeOf(tokens + more, t) == OutcomeOf(tokens, t)
  {
    SearchLeftmost(tokens, t);
    SearchLeftmost(tokens + more, t);
    var i := Search(tokens, t).value;
    LeftmostKept(tokens, more, i, t);
    var i' := Search(tokens + more, t).value;
    LeftmostUnique(tokens + more, i, i', t);
    CapturesKept(tokens, more, i, t);
  }

  lemma LeftmostKept(tokens: seq<string>, more: seq<string>, i: nat, t: LicenseType)
    requires Leftmost(tokens, i, t)
    ensures Leftmost(tokens + more, i, t)
  {
    LineAtExtend(tokens, more, i, t);
    forall j: nat | j < i ensures !LineAt(tokens + more, j, t) {
      LineAtExtend(tokens, more, j, t);
    }
  }

  lemma CapturesKept(tokens: seq<string>, more: seq<string>, i: nat, t: LicenseType)
    requires LineAt(tokens, i, t)
    ensures LineAt(tokens + more, i, t) && CapturesAt(tokens + more, i, t) == CapturesAt(tokens, i, t)
  {
    LineAtExtend(tokens, more, i, t);
    var m := |Prefix(t)|;
    assert (tokens + more)[i + m + 3] == tokens[i + m + 3];
    assert (tokens + more)[i + m + 5] == tokens[i + m + 5];
    assert (tokens + more)[i + m + 6] == tokens[i + m + 6];
  }

  /** On every line the recogniser accepts, the captured quantity converts:
      only the unit price and the total can make the extraction fail. */
  lemma CapturedQuantityParses(tokens: seq<string>, i: nat, t: LicenseType)
    requires LineAt(tokens, i, t)
    ensures Numbers.ParseNumber(CapturesAt(tokens, i, t).quantity).Some?
  {
    QuantityParses(CapturesAt(tokens, i, t).quantity);
  }

  /** Every token of quantity shape parses. */
  lemma QuantityParses(tok: string)
    requires QuantityShape(tok)
    ensures Numbers.ParseNumber(tok).Some?
  {
    var k := Numbers.IndexOf(tok, ',');
    var whole, frac := tok[..k], tok[k + 1..];
    assert tok == whole + "" + "" + "," + frac;
    Numbers.ParseSwedishNumber(whole, "", "", frac);
  }

  /** An amount whose only comma is the decimal comma and whose only
      whitespace is plain spaces parses; what else the shape admits (a comma
      or a tab as thousands separator) makes float() raise. */
  lemma AmountWithSpacesParses(tok: string)
    requires AmountShape(tok)
    requires var k := LastIndexOf(tok, ',');
      forall i | 0 <= i < |tok| && i != k :: Numbers.IsDigit(tok[i]) || tok[i] == ' '
    ensures Numbers.ParseNumber(tok).Some?
  {
    var i, j, k := AmountParts(tok);
    AmountPartsParse(tok, i, j, k);
  }

  /** The three runs of an amount token: digits, separators, digits, then
      the decimal comma at `k`. */
  lemma AmountParts(tok: string) returns (i: nat, j: nat, k: nat)
    requires AmountShape(tok)
    requires var k := LastIndexOf(tok, ',');
      forall i | 0 <= i < |tok| && i != k :: Numbers.IsDigit(tok[i]) || tok[i] == ' '
    ensures i <= j <= k && k + 1 < |tok| && tok[k] == ','
    ensures Numbers.IsDigits(tok[..i]) && Numbers.IsDigits(tok[j..k]) && Numbers.IsDigits(tok[k + 1..])
    ensures forall x | i <= x < j :: tok[x] == ' '
  {
    k := LastIndexOf(tok, ',');
    var h := tok[..k];
    i := DigitRun(h);
    j := i + SeparatorRun(h[i..]);
    assert h[..i] == tok[..i];
    assert h[j..] == tok[j..k];
    SeparatorsAreSpaces(tok, k, i, j);
  }

  lemma SeparatorsAreSpaces(tok: string, k: int, i: nat, j: nat)
    requires i <= j <= k < |tok| && tok[k] == ','
    requires forall x | 0 <= x < j - i :: IsSpace(tok[..k][i..][x]) || tok[..k][i..][x] == ','
    requires forall x | 0 <= x < |tok| && x != k :: Numbers.IsDigit(tok[x]) || tok[x] == ' '
    ensures forall x | i <= x < j :: tok[x] == ' '
  {
    forall x | i <= x < j ensures tok[x] == ' ' {
      assert tok[x] == tok[..k][i..][x - i];
      SeparatorIsSpace(tok, k, x);
    }
  }

  lemma AmountPartsParse(tok: string, i: nat, j: nat, k: nat)
    requires i <= j <= k && k + 1 < |tok| && tok[k] == ','
    requires Numbers.IsDigits(tok[..i]) && Numbers.IsDigits(tok[j..k]) && Numbers.IsDigits(tok[k + 1..])
    requires forall x | i <= x < j :: tok[x] == ' '
    ensures Numbers.ParseNumber(tok).Some?
  {
    SplitAt(tok, i, j, k);
    var sp := tok[i..j];
    assert forall x | 0 <= x < |sp| :: sp[x] == tok[i + x];
    Numbers.ParseSwedishNumber(tok[..i], sp, tok[j..k], tok[k + 1..]);
  }

  lemma SplitAt(tok: string, i: nat, j: nat, k: nat)
    requires i <= j <= k < |tok| && tok[k] == ','
    ensures tok == tok[..i] + tok[i..j] + tok[j..k] + "," + tok[k + 1..]
  {
    assert tok[k..k + 1] == ",";
  }

  lemma SeparatorIsSpace(tok: string, k: int, x: int)
    requires 0 <= x < k < |tok| && tok[k] == ','
    requires IsSpace(tok[x]) || tok[x] == ','
    requires Numbers.IsDigit(tok[x]) || tok[x] == ' ' 
    ensures tok[x] == ' '
  {
  }
}
