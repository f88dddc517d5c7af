/** The spoofs read from a store that the services manager has written. */
module SpoofRuns {
  import opened Basics
  import opened Services
  import opened Sorting
  import opened Spoofs
  import opened Managers
  import I = ManagerInvariants
  import Records = ManagerRecords
  import opened Reconciling
  import Runs = ManagerRuns
  import Steps = ManagerSteps
  import R = ServiceRepos
  import opened Synchronising
  import Rules = ManagerRules
  import Effects = ManagerEffects

  lemma FlaggedRecord(s: State, g: string, k: nat)
    requires I.StoreSane(s) && g in s.store && k < |s.store[g]| && s.store[g][k].isActive
    ensures I.Flagged(s, g, s.store[g][k].id)
  {
    R.FindsMembers(s.store[g], s.store[g][k].id);
  }

  lemma StoreHasOneActive(s: State, g: string)
    requires I.StoreOk(s) && g in s.store
    ensures OneActive(s.store[g])
  {
    var rs := s.store[g];
    forall i, j | 0 <= i < |rs| && 0 <= j < |rs| && rs[i].isActive && rs[j].isActive
      ensures i == j
    {
      FlaggedRecord(s, g, i);
      FlaggedRecord(s, g, j);
      hide I.Flagged, I.Stored;
      assert I.FlagsOk(s, g);
    }
  }

  ghost predicate ColonFree(s: State) {
    forall g :: g in s.store ==> ':' !in g
  }

  lemma SoundKeysDistinct(s: State, keys: seq<string>)
    requires I.Inv(s) && ColonFree(s) && Visits(s.store, keys)
    ensures DistinctKeys(AllActive(s.store, keys))
  {
    hide I.ObjectsOk, I.IndexOk, I.GroupsOk, AllActive;
    assert I.StoreOk(s);
    forall g | g in s.store
      ensures OneActive(s.store[g]) && forall k :: 0 <= k < |s.store[g]| ==> s.store[g][k].memberOf == g
    {
      StoreHasOneActive(s, g);
    }
    StoredKeysDistinct(s.store, keys);
  }

  /** In every reachable state the stored spoofs have distinct keys, as long as group names, which are
      domain names, contain no colon; so the desired hash is canonical. */
  lemma ReachableHashIsCanonical(env: Env, run: seq<Event>, a: seq<string>, b: seq<string>,
                                 r1: seq<Spoof>, r2: seq<Spoof>)
    requires Runs.Admissible(env, NewManager(), run) && !Runs.Final(env, NewManager(), run).crashed
    requires ColonFree(Runs.Final(env, NewManager(), run))
    requires var st := Runs.Final(env, NewManager(), run).store;
             && Visits(st, a) && Visits(st, b)
             && SortOf(KeyBelow, AllActive(st, a), r1) && SortOf(KeyBelow, AllActive(st, b), r2)
    ensures DistinctKeys(AllActive(Runs.Final(env, NewManager(), run).store, a)) && r1 == r2
  {
    hide Runs.Final, Runs.Admissible, I.Inv, SortOf, AllActive;
    Runs.RunKeeps(env, run);
    var s := Runs.Final(env, NewManager(), run);
    SoundKeysDistinct(s, a);
    HashIgnoresVisitOrder(s.store, a, b, r1, r2);
  }

  // ---------- From the store to a server ----------

  /** The name under which the healthy active of group `g` is announced. */
  ghost predicate IsActiveName(s: State, g: string, name: string) {
    && g in s.groups && s.groups[g].active.Some?
    && var a := Obj(s, s.groups[g].active.value);
       a.isHealthy && a.memberOf == g && name == g + ":" + a.datacenter
  }

  /** A desired spoof has the name of the healthy active of its group. */
  lemma DesiredIsActive(s: State, keys: seq<string>, x: Spoof) returns (g: string)
    requires I.Inv(s) && Records.UpToDate(s) && Visits(s.store, keys) && x in AllActive(s.store, keys)
    ensures g in s.store && IsActiveName(s, g, Key(x))
  {
    hide I.ObjectsOk, I.IndexOk, I.GroupsOk, AllActive;
    var k;
    g, k := SpoofInStore(s.store, keys, x);
    var r := s.store[g][k];
    FlaggedRecord(s, g, k);
    R.FindsMembers(s.store[g], r.id);
    assert I.StoreSane(s) && I.FlagsOk(s, g);
    assert R.Lookup(s.store, g, r.id) == Some(r) && r.memberOf == g;
    assert Records.Fits(r, Obj(s, r.id), R.Lookup(s.store, g, r.id)) by {
      assert I.Stored(s, g, r.id) && Records.FitsAt(s, s.store, g, r.id);
    }
    hide I.Inv, I.StoreOk, Records.Records;
    Runs.InvParts(s);
    Runs.GroupIn(s, g);
    Steps.GroupFacts(s, g);
  }

  ghost predicate InGroup(x: Spoof, g: string) {
    exists d :: Key(x) == g + ":" + d
  }

  /** No group has two rules. */
  ghost predicate OnePerGroup(r: seq<Spoof>) {
    forall i, j, g :: 0 <= i < j < |r| && ':' !in g && InGroup(r[i], g) ==> !InGroup(r[j], g)
  }

  lemma ActiveNameSplits(s: State, g: string, h: string, x: Spoof)
    requires IsActiveName(s, g, Key(x)) && InGroup(x, h) && ':' !in g && ':' !in h
    ensures h == g
  {
    var d :| Key(x) == h + ":" + d;
    KeySplits(h, d, g, Obj(s, s.groups[g].active.value).datacenter);
  }

  lemma ActiveNameInGroup(s: State, g: string, x: Spoof)
    requires IsActiveName(s, g, Key(x))
    ensures InGroup(x, g)
  {
    assert Key(x) == g + ":" + Obj(s, s.groups[g].active.value).datacenter;
  }

  /** With all names those of actives, there is one rule for a group exactly when no name is there twice. */
  lemma OneIffDistinct(s: State, r: seq<Spoof>)
    requires forall x :: x in r ==> exists g :: ':' !in g && IsActiveName(s, g, Key(x))
    ensures OnePerGroup(r) <==> DistinctKeys(r)
  {
    hide Key, IsActiveName, InGroup;
    if DistinctKeys(r) {
      forall i, j, g | 0 <= i < j < |r| && ':' !in g && InGroup(r[i], g) ensures !InGroup(r[j], g) {
        var a :| ':' !in a && IsActiveName(s, a, Key(r[i]));
        var b :| ':' !in b && IsActiveName(s, b, Key(r[j]));
        ActiveNameSplits(s, a, g, r[i]);
        if InGroup(r[j], g) {
          ActiveNameSplits(s, b, g, r[j]);
          OneName(s, g, Key(r[i]), Key(r[j]));
          assert false;
        }
      }
    } else {
      var i, j :| 0 <= i < j < |r| && Key(r[i]) == Key(r[j]);
      var g :| ':' !in g && IsActiveName(s, g, Key(r[i]));
      assert r[i] in r;
      ActiveNameInGroup(s, g, r[i]);
      ActiveNameInGroup(s, g, r[j]);
    }
  }

  lemma OneName(s: State, g: string, a: string, b: string)
    requires IsActiveName(s, g, a) && IsActiveName(s, g, b)
    ensures a == b
  {
  }

  /** From any reachable state, one reconciliation leaves on a server, whatever it had configured, nothing
      but rules under the names of the healthy actives of groups. It leaves at most one for each group if and
      only if none of these names was configured twice. */
  lemma OneRulePerGroupOnServers(env: Env, run: seq<Event>, keys: seq<string>, configured: seq<Spoof>)
    requires Runs.Admissible(env, NewManager(), run) && !Runs.Final(env, NewManager(), run).crashed
    requires ColonFree(Runs.Final(env, NewManager(), run))
    requires Visits(Runs.Final(env, NewManager(), run).store, keys)
    ensures var s := Runs.Final(env, NewManager(), run);
            var desired := AllActive(s.store, keys);
            var r := Reconciled(configured, desired);
            && (forall x :: x in r ==> exists g :: IsActiveName(s, g, Key(x)))
            && (OnePerGroup(r) <==> OnceNamed(configured, desired))
  {
    hide Runs.Final, Runs.Admissible, I.Inv, AllActive, Records.Records, Reconciled, DistinctKeys, OnceNamed;
    hide OnePerGroup, Key;
    Runs.RunKeeps(env, run);
    Records.ReachableRecords(env, run);
    var s := Runs.Final(env, NewManager(), run);
    var desired := AllActive(s.store, keys);
    SoundKeysDistinct(s, keys);
    ReconciledRules(configured, desired);
    var r := Reconciled(configured, desired);
    forall x | x in r ensures exists g :: ':' !in g && IsActiveName(s, g, Key(x)) {
      assert HasKey(r, Key(x));
      var t :| t in desired && Key(t) == Key(x);
      var g := DesiredIsActive(s, keys, t);
    }
    OneIffDistinct(s, r);
  }

  /** A record that asks for a rule is that of the active, and up to date. */
  lemma AskedIsRight(s: State, h: string, x: Id)
    requires I.Inv(s) && Records.UpToDate(s) && I.Flagged(s, h, x)
    ensures h in s.groups && s.groups[h].active == Some(x)
    ensures RuleOfRecord(R.Lookup(s.store, h, x).value) == Rule(h, Obj(s, x).datacenter) == RuleOf(Obj(s, x))
  {
    assert I.StoreSane(s) && I.FlagsOk(s, h);
    assert Records.Fits(R.Lookup(s.store, h, x).value, Obj(s, x), R.Lookup(s.store, h, x)) by {
      assert I.Stored(s, h, x) && Records.FitsAt(s, s.store, h, x);
    }
    R.FindsMembers(R.Read(s.store, h), x);
    Runs.InvParts(s);
    Runs.GroupIn(s, h);
    Steps.GroupFacts(s, h);
    assert R.Lookup(s.store, h, x).value in R.Read(s.store, h);
    assert R.Lookup(s.store, h, x).value.memberOf == h;
  }

  /** In every reachable state, a synchronisation leaves right rules only, whatever rules were there. */
  lemma SynchronisingRights(env: Env, run: seq<Event>)
    requires Runs.Admissible(env, NewManager(), run) && !Runs.Final(env, NewManager(), run).crashed
    ensures Rules.RulesOk(Synchronised(Runs.Final(env, NewManager(), run)))
  {
    hide Runs.Final, Runs.Admissible, I.Inv, Records.Records, FlaggedRules, R.Lookup;
    Runs.RunKeeps(env, run);
    Records.ReachableRecords(env, run);
    var s := Runs.Final(env, NewManager(), run);
    var q := Synchronised(s);
    SaneStore(s);
    forall r | r in q.rules ensures Rules.RightRule(Effects.Show(q), r) {
      FlaggedMeans(s.store, r);
      var h, x :| R.Lookup(s.store, h, x).Some? && R.Lookup(s.store, h, x).value.isActive
                  && RuleOfRecord(R.Lookup(s.store, h, x).value) == r;
      assert I.Flagged(s, h, x);
      AskedIsRight(s, h, x);
    }
  }

  lemma SaneStore(s: State)
    requires I.Inv(s)
    ensures R.WellStored(s.store)
  {
  }

  // ---------- Addresses ----------

  /** The healthy active of the group has this datacenter and this address. */
  ghost predicate IsActiveAddress(s: State, g: string, dc: string, ip: string) {
    && g in s.groups && s.groups[g].active.Some?
    && var a := Obj(s, s.groups[g].active.value);
       a.isHealthy && a.memberOf == g && a.datacenter == dc && a.ip == ip
  }

  /** A record that is flagged has the current address of the active. */
  lemma FlaggedAddress(s: State, h: string, id: Id)
    requires I.Inv(s) && Records.UpToDate(s) && I.Flagged(s, h, id)
    ensures var r := R.Lookup(s.store, h, id).value; IsActiveAddress(s, h, r.datacenter, r.ip)
  {
    assert I.StoreSane(s) && I.FlagsOk(s, h);
    assert Records.Fits(R.Lookup(s.store, h, id).value, Obj(s, id), R.Lookup(s.store, h, id)) by {
      assert I.Stored(s, h, id) && Records.FitsAt(s, s.store, h, id);
    }
    Runs.InvParts(s);
    Runs.GroupIn(s, h);
    Steps.GroupFacts(s, h);
  }

  /** In every reachable state a spoof is asked for exactly when a flagged record of its group has its datacenter and
      its address; and these are then the current ones of the group's healthy active. */
  lemma AskedAddresses(env: Env, run: seq<Event>, keys: seq<string>, x: Spoof)
    requires Runs.Admissible(env, NewManager(), run) && !Runs.Final(env, NewManager(), run).crashed
    requires Visits(Runs.Final(env, NewManager(), run).store, keys)
    ensures var s := Runs.Final(env, NewManager(), run);
            && (x in AllActive(s.store, keys) <==>
                  exists id :: var r := R.Lookup(s.store, x.fqdn, id);
                               r.Some? && r.value.isActive && r.value.datacenter == x.dc && r.value.ip == x.ip)
            && (x in AllActive(s.store, keys) ==> IsActiveAddress(s, x.fqdn, x.dc, x.ip))
  {
    hide Runs.Final, Runs.Admissible, I.Inv, Records.Records, AllActive, R.Lookup, IsActiveAddress;
    Runs.RunKeeps(env, run);
    Records.ReachableRecords(env, run);
    var s := Runs.Final(env, NewManager(), run);
    SaneStore(s);
    SpoofAskedIff(s.store, keys, x);
    if x in AllActive(s.store, keys) {
      var id :| var r := R.Lookup(s.store, x.fqdn, id);
                r.Some? && r.value.isActive && r.value.datacenter == x.dc && r.value.ip == x.ip;
      assert I.Flagged(s, x.fqdn, id);
      FlaggedAddress(s, x.fqdn, id);
    }
  }

  /** So every rule that a reconciliation adds carries the address of the group's healthy active, and its name was not
      configured. */
  lemma AddedAddresses(env: Env, run: seq<Event>, keys: seq<string>, configured: seq<Spoof>, x: Spoof)
    requires Runs.Admissible(env, NewManager(), run) && !Runs.Final(env, NewManager(), run).crashed
    requires Visits(Runs.Final(env, NewManager(), run).store, keys)
    requires AddRule(x) in Commands(configured, AllActive(Runs.Final(env, NewManager(), run).store, keys))
    ensures IsActiveAddress(Runs.Final(env, NewManager(), run), x.fqdn, x.dc, x.ip)
    ensures !exists c :: c in configured && c.fqdn + ":" + c.dc == x.fqdn + ":" + x.dc
  {
    hide Runs.Final, Runs.Admissible, AllActive, IsActiveAddress, Commands;
    AddsDesired(configured, AllActive(Runs.Final(env, NewManager(), run).store, keys), x);
    AskedAddresses(env, run, keys, x);
  }
}
