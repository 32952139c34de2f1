/** The 'Power BI Users' sheet and the pandas selections the helper makes on it:
    the users who are not automation accounts (src/main.py:191, 441-443), the
    automation accounts (src/main.py:215-216, 466), the per-RG groups
    (src/main.py:192-195) and the (RG, Namn) ordering of the invoice comment
    (src/main.py:444). */
module Roster {
  import opened Wrappers
  import Strings

  /** One user row: Namn, RG, Kostnadsställe and the optional Specialhantering
      cell (None is an empty cell, which pandas reads as NaN). */
  datatype User = User(namn: string, rg: string, kostnadsstalle: string, specialhantering: Option<string>)

  /** `Specialhantering == 'Automation'`; an empty cell is not equal to it. */
  predicate IsAutomation(u: User)
  {
    u.specialhantering == Some("Automation")
  }

  /** The users whose Specialhantering is not 'Automation', in sheet order. */
  function NonAutomation(users: seq<User>): (r: seq<User>)
    ensures |r| <= |users|
    ensures forall u | u in r :: u in users && !IsAutomation(u)
    ensures forall u | u in users && !IsAutomation(u) :: u in r
    ensures forall u :: multiset(r)[u] == if IsAutomation(u) then 0 else multiset(users)[u]
  {
    if users == [] then []
    else
      var rest := NonAutomation(users[..|users| - 1]);
      var u := users[|users| - 1];
      assert users == users[..|users| - 1] + [u];
      assert multiset(users) == multiset(users[..|users| - 1]) + multiset([u]);
      if IsAutomation(u) then rest else rest + [u]
  }

  /** The filter keeps sheet order: the result is the users at the positions
      `idx`, which ascend and are exactly the positions of non-automation users. */
  lemma {:induction false} NonAutomationKeepsOrder(users: seq<User>) returns (idx: seq<nat>)
    ensures |idx| == |NonAutomation(users)|
    ensures forall k | 0 <= k < |idx| :: idx[k] < |users| && NonAutomation(users)[k] == users[idx[k]]
    ensures forall k, l | 0 <= k < l < |idx| :: idx[k] < idx[l]
    ensures forall i | 0 <= i < |users| :: i in idx <==> !IsAutomation(users[i])
    decreases |users|
  {
    if users == [] {
      idx := [];
    } else {
      var before := NonAutomationKeepsOrder(users[..|users| - 1]);
      idx := KeepsOrderStep(users, before);
    }
  }

  lemma KeepsOrderStep(users: seq<User>, before: seq<nat>) returns (idx: seq<nat>)
    requires users != []
    requires var init := users[..|users| - 1];
      && |before| == |NonAutomation(init)|
      && (forall k | 0 <= k < |before| :: before[k] < |init| && NonAutomation(init)[k] == init[before[k]])
      && (forall k, l | 0 <= k < l < |before| :: before[k] < before[l])
      && (forall i | 0 <= i < |init| :: i in before <==> !IsAutomation(init[i]))
    ensures |idx| == |NonAutomation(users)|
    ensures forall k | 0 <= k < |idx| :: idx[k] < |users| && NonAutomation(users)[k] == users[idx[k]]
    ensures forall k, l | 0 <= k < l < |idx| :: idx[k] < idx[l]
    ensures forall i | 0 <= i < |users| :: i in idx <==> !IsAutomation(users[i])
  {
    var init := users[..|users| - 1];
    NonAutomationSnoc(users);
    idx := PositionsSnoc(users, NonAutomation(init), before, NonAutomation(users));
  }

  lemma NonAutomationSnoc(users: seq<User>)
    requires users != []
    ensures NonAutomation(users) ==
      var init, u := users[..|users| - 1], users[|users| - 1];
      if IsAutomation(u) then NonAutomation(init) else NonAutomation(init) + [u]
  {
  }

  /** One step of the order argument, over an abstract filtered sequence. */
  lemma PositionsSnoc(users: seq<User>, r0: seq<User>, before: seq<nat>, r: seq<User>) returns (idx: seq<nat>)
    requires users != []
    requires var init := users[..|users| - 1];
      && |before| == |r0|
      && (forall k | 0 <= k < |before| :: before[k] < |init| && r0[k] == init[before[k]])
      && (forall k, l | 0 <= k < l < |before| :: before[k] < before[l])
      && (forall i | 0 <= i < |init| :: i in before <==> !IsAutomation(init[i]))
    requires r == if IsAutomation(users[|users| - 1]) then r0 else r0 + [users[|users| - 1]]
    ensures |idx| == |r|
    ensures forall k | 0 <= k < |idx| :: idx[k] < |users| && r[k] == users[idx[k]]
    ensures forall k, l | 0 <= k < l < |idx| :: idx[k] < idx[l]
    ensures forall i | 0 <= i < |users| :: i in idx <==> !IsAutomation(users[i])
  {
    var last := |users| - 1;
    assert forall i | 0 <= i < last :: users[..last][i] == users[i];
    if IsAutomation(users[last]) {
      idx := before;
    } else {
      idx := before + [last];
      assert forall i | 0 <= i < last :: i in idx <==> i in before;
    }
  }

  /** `len(users[users['Specialhantering'] == 'Automation'])`. */
  function AutomationCount(users: seq<User>): (n: nat)
    ensures n + |NonAutomation(users)| == |users|
  {
    if users == [] then 0
    else
      var u := users[|users| - 1];
      AutomationCount(users[..|users| - 1]) + (if IsAutomation(u) then 1 else 0)
  }

  /** `len(group)` for the group of non-automation users with this RG. */
  function GroupSize(users: seq<User>, rg: string): nat
  {
    if users == [] then 0
    else
      var u := users[|users| - 1];
      GroupSize(users[..|users| - 1], rg) + (if !IsAutomation(u) && u.rg == rg then 1 else 0)
  }

  /** Strictly increasing in Python's string order. */
  predicate StrictlySorted(keys: seq<string>)
  {
    forall i, j | 0 <= i < j < |keys| :: Strings.Less(keys[i], keys[j])
  }

  /** Adds `k` to a strictly sorted key list, keeping it strictly sorted. */
  function InsertKey(keys: seq<string>, k: string): (r: seq<string>)
    requires StrictlySorted(keys)
    ensures StrictlySorted(r)
    ensures forall x :: x in r <==> x in keys || x == k
  {
    if keys == [] then [k]
    else if keys[0] == k then keys
    else if Strings.Less(k, keys[0]) then
      forall j | 0 <= j < |keys| ensures Strings.Less(k, keys[j]) {
        if j > 0 {
          Strings.LessTransitive(k, keys[0], keys[j]);
        }
      }
      [k] + keys
    else
      Strings.LessTotal(k, keys[0]);
      var tail := InsertKey(keys[1..], k);
      assert forall x | x in tail :: Strings.Less(keys[0], x) by {
        forall x | x in tail ensures Strings.Less(keys[0], x) {
          if x != k {
            var j :| 0 <= j < |keys[1..]| && keys[1..][j] == x;
            assert keys[j + 1] == x;
          }
        }
      }
      [keys[0]] + tail
  }

  /** The keys `groupby('RG')` visits: the RGs of the non-automation users,
      each once, in sorted order. */
  function GroupKeys(users: seq<User>): (keys: seq<string>)
    ensures StrictlySorted(keys)
    ensures forall k :: k in keys <==> exists u | u in users :: !IsAutomation(u) && u.rg == k
  {
    if users == [] then []
    else
      var init := users[..|users| - 1];
      var u := users[|users| - 1];
      assert users == init + [u];
      var keys := GroupKeys(init);
      if IsAutomation(u) then keys else InsertKey(keys, u.rg)
  }

  /** Each RG group that groupby produces has at least one user. */
  lemma {:induction false} GroupsAreNonEmpty(users: seq<User>, k: string)
    requires k in GroupKeys(users)
    ensures GroupSize(users, k) > 0
  {
    var u :| u in users && !IsAutomation(u) && u.rg == k;
    CountsMember(users, u);
  }

  lemma {:induction false} CountsMember(users: seq<User>, u: User)
    requires u in users && !IsAutomation(u)
    ensures GroupSize(users, u.rg) > 0
    decreases |users|
  {
    var init := users[..|users| - 1];
    if users[|users| - 1] != u {
      assert users == init + [users[|users| - 1]];
      assert u in init;
      CountsMember(init, u);
    }
  }

  /** Total of the group sizes over a list of RGs. */
  function SizesOver(users: seq<User>, keys: seq<string>): nat
  {
    if keys == [] then 0
    else SizesOver(users, keys[..|keys| - 1]) + GroupSize(users, keys[|keys| - 1])
  }

  /** How many non-automation users have an RG among `keys`. */
  function CountIn(users: seq<User>, keys: seq<string>): nat
  {
    if users == [] then 0
    else
      var u := users[|users| - 1];
      CountIn(users[..|users| - 1], keys) + (if !IsAutomation(u) && u.rg in keys then 1 else 0)
  }

  lemma {:induction false} SizesOverStep(users: seq<User>, u: User, keys: seq<string>)
    requires forall i, j | 0 <= i < j < |keys| :: keys[i] != keys[j]
    ensures SizesOver(users + [u], keys) == SizesOver(users, keys) + (if !IsAutomation(u) && u.rg in keys then 1 else 0)
    decreases |keys|
  {
    if keys != [] {
      var us := users + [u];
      assert us[..|us| - 1] == users;
      var init, last := keys[..|keys| - 1], keys[|keys| - 1];
      assert keys == init + [last];
      SizesOverStep(users, u, init);
      if u.rg == last {
        assert forall j | 0 <= j < |init| :: init[j] == keys[j];
      }
    }
  }

  /** Summing the group sizes over distinct RGs counts each user of those RGs once. */
  lemma {:induction false} SizesOverCounts(users: seq<User>, keys: seq<string>)
    requires forall i, j | 0 <= i < j < |keys| :: keys[i] != keys[j]
    ensures SizesOver(users, keys) == CountIn(users, keys)
    decreases |users|
  {
    if users == [] {
      SizesOverEmpty(keys);
    } else {
      var init := users[..|users| - 1];
      assert users == init + [users[|users| - 1]];
      SizesOverCounts(init, keys);
      SizesOverStep(init, users[|users| - 1], keys);
    }
  }

  lemma {:induction false} SizesOverEmpty(keys: seq<string>)
    ensures SizesOver([], keys) == 0
    decreases |keys|
  {
    if keys != [] {
      SizesOverEmpty(keys[..|keys| - 1]);
    }
  }

  /** When `keys` holds every RG of the non-automation users, they are all counted. */
  lemma {:induction false} CountInAll(users: seq<User>, keys: seq<string>)
    requires forall u | u in users && !IsAutomation(u) :: u.rg in keys
    ensures CountIn(users, keys) == |NonAutomation(users)|
    decreases |users|
  {
    if users != [] {
      var init := users[..|users| - 1];
      assert users == init + [users[|users| - 1]];
      assert forall u | u in init :: u in users;
      CountInAll(init, keys);
    }
  }

  /** The RG groups partition the non-automation users: their sizes add up to
      the number of such users. */
  lemma GroupsPartitionUsers(users: seq<User>)
    ensures SizesOver(users, GroupKeys(users)) == |NonAutomation(users)|
  {
    var keys := GroupKeys(users);
    forall i, j | 0 <= i < j < |keys| ensures keys[i] != keys[j] {
      Strings.LessAsymmetric(keys[i], keys[j]);
    }
    SizesOverCounts(users, keys);
    forall u | u in users && !IsAutomation(u) ensures u.rg in keys {
    }
    CountInAll(users, keys);
  }

  /** Every user is either an automation account or in an RG group. */
  lemma EveryUserCountedOnce(users: seq<User>)
    ensures SizesOver(users, GroupKeys(users)) + AutomationCount(users) == |users|
  {
    GroupsPartitionUsers(users);
  }

  /** The order of `sort_values(['RG', 'Namn'])`: by RG, then by Namn. */
  predicate KeyLess(a: User, b: User)
  {
    Strings.Less(a.rg, b.rg) || (a.rg == b.rg && Strings.Less(a.namn, b.namn))
  }

  predicate KeyLeq(a: User, b: User)
  {
    !KeyLess(b, a)
  }

  predicate SortedByRgName(s: seq<User>)
  {
    forall i, j | 0 <= i < j < |s| :: KeyLeq(s[i], s[j])
  }

  lemma KeyLeqTransitive(a: User, b: User, c: User)
    requires KeyLeq(a, b) && KeyLeq(b, c)
    ensures KeyLeq(a, c)
  {
    Strings.LessTotal(a.rg, b.rg);
    Strings.LessTotal(b.rg, c.rg);
    Strings.LessTotal(a.namn, b.namn);
    Strings.LessTotal(b.namn, c.namn);
    if KeyLess(c, a) {
      if Strings.Less(c.rg, a.rg) {
        if Strings.Less(b.rg, c.rg) {
          Strings.LessTransitive(b.rg, c.rg, a.rg);
        } else if Strings.Less(a.rg, b.rg) {
          Strings.LessTransitive(c.rg, a.rg, b.rg);
        }
      } else {
        if Strings.Less(b.namn, c.namn) {
          Strings.LessTransitive(b.namn, c.namn, a.namn);
        } else if Strings.Less(a.namn, b.namn) {
          Strings.LessTransitive(c.namn, a.namn, b.namn);
        }
        if Strings.Less(a.rg, b.rg) {
          Strings.LessAsymmetric(a.rg, b.rg);
        }
        if Strings.Less(b.rg, c.rg) {
          Strings.LessAsymmetric(b.rg, c.rg);
        }
      }
    }
  }

  lemma KeyLeqTotal(a: User, b: User)
    ensures KeyLeq(a, b) || KeyLeq(b, a)
  {
    if KeyLess(a, b) {
      if Strings.Less(a.rg, b.rg) {
        Strings.LessAsymmetric(a.rg, b.rg);
      } else {
        Strings.LessAsymmetric(a.namn, b.namn);
        Strings.LessIrreflexive(a.rg);
      }
    }
  }

  /** Places `u` into a list already in (RG, Namn) order. */
  function InsertUser(u: User, s: seq<User>): (r: seq<User>)
    requires SortedByRgName(s)
    ensures SortedByRgName(r)
    ensures multiset(r) == multiset(s) + multiset{u}
  {
    if s == [] then [u]
    else if KeyLeq(u, s[0]) then
      forall j | 0 <= j < |s| ensures KeyLeq(u, s[j]) {
        if j > 0 {
          KeyLeqTransitive(u, s[0], s[j]);
        }
      }
      [u] + s
    else
      KeyLeqTotal(u, s[0]);
      var tail := InsertUser(u, s[1..]);
      assert s == [s[0]] + s[1..];
      HeadBelowInsert(u, s, tail);
      [s[0]] + tail
  }

  lemma HeadBelowInsert(u: User, s: seq<User>, tail: seq<User>)
    requires |s| > 0 && SortedByRgName(s) && KeyLeq(s[0], u)
    requires multiset(tail) == multiset(s[1..]) + multiset{u}
    ensures forall x | x in tail :: KeyLeq(s[0], x)
  {
    forall x | x in tail ensures KeyLeq(s[0], x) {
      assert x in multiset(tail);
      if x != u {
        assert x in multiset(s[1..]);
        var j :| 0 <= j < |s[1..]| && s[1..][j] == x;
        assert s[j + 1] == x;
      }
    }
  }

  /** `sort_values(['RG', 'Namn'])`: the same users, ordered by RG and then Namn. */
  function SortByRgName(users: seq<User>): (r: seq<User>)
    ensures SortedByRgName(r)
    ensures multiset(r) == multiset(users)
  {
    if users == [] then []
    else
      assert users == [users[0]] + users[1..];
      InsertUser(users[0], SortByRgName(users[1..]))
  }
}
