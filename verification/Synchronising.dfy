/** What a synchronisation makes of the rules that the servers hold: those of the flagged records, and no others. */
module Synchronising {
  import opened Basics
  import opened Services
  import opened Managers
  import opened Spoofs
  import opened Reconciling
  import R = ServiceRepos

  function RuleName(r: Rule): string {
    r.group + ":" + r.datacenter
  }

  function RuleOfRecord(r: Record): Rule {
    Rule(r.memberOf, r.datacenter)
  }

  /** The rules that the store asks for. */
  function FlaggedRules(st: R.Store): set<Rule> {
    set g, k | g in st && 0 <= k < |st[g]| && st[g][k].isActive :: RuleOfRecord(st[g][k])
  }

  /** A manager whose servers have been synchronised. */
  function Synchronised(s: State): State {
    s.(rules := FlaggedRules(s.store))
  }

  /** Whatever a server had configured, and in whatever order the store is visited: after a reconciliation it has
      exactly the names of flagged records. */
  lemma SyncLeavesFlagged(st: R.Store, keys: seq<string>, configured: seq<Spoof>, name: string)
    requires Visits(st, keys)
    ensures HasKey(Reconciled(configured, AllActive(st, keys)), name) <==>
            exists r :: r in FlaggedRules(st) && RuleName(r) == name
  {
    var desired := AllActive(st, keys);
    ReconciledNames(configured, desired);
    hide AllActive, Reconciled;
    if HasKey(desired, name) {
      var x :| x in desired && Key(x) == name;
      var g, k := SpoofInStore(st, keys, x);
      assert RuleOfRecord(st[g][k]) in FlaggedRules(st) && RuleName(RuleOfRecord(st[g][k])) == name;
    }
    if r :| r in FlaggedRules(st) && RuleName(r) == name {
      var g, k :| g in st && 0 <= k < |st[g]| && st[g][k].isActive && RuleOfRecord(st[g][k]) == r;
      StoreHasSpoof(st, keys, g, k);
      assert Key(SpoofOf(st[g][k])) == name;
    }
  }

  /** The rules asked for, by what is found in the store. */
  lemma FlaggedMeans(st: R.Store, r: Rule)
    requires R.WellStored(st)
    ensures r in FlaggedRules(st) <==>
            exists h, x :: R.Lookup(st, h, x).Some? && R.Lookup(st, h, x).value.isActive
                           && RuleOfRecord(R.Lookup(st, h, x).value) == r
  {
    hide R.Find;
    if r in FlaggedRules(st) {
      var g, k :| g in st && 0 <= k < |st[g]| && st[g][k].isActive && RuleOfRecord(st[g][k]) == r;
      R.FindsMembers(st[g], st[g][k].id);
      assert R.Lookup(st, g, st[g][k].id) == Some(st[g][k]);
    }
    if h, x :| R.Lookup(st, h, x).Some? && R.Lookup(st, h, x).value.isActive
               && RuleOfRecord(R.Lookup(st, h, x).value) == r {
      R.FindsMembers(R.Read(st, h), x);
      var k :| 0 <= k < |R.Read(st, h)| && R.Read(st, h)[k] == R.Lookup(st, h, x).value;
    }
  }
}
