/** Bringing the spoof rules of one dnsdist server in line with the desired spoofs. */
module Reconciling {
  import opened Basics
  import opened Filters
  import opened Sorting
  import opened Strings
  import opened Spoofs

  datatype Command = AddRule(spoof: Spoof) | RemoveRule(name: string)

  predicate HasKey(ss: seq<Spoof>, name: string) {
    exists s :: s in ss && Key(s) == name
  }

  function NotNamed(name: string): Spoof -> bool {
    s => Key(s) != name
  }

  function Among(others: seq<Spoof>): Spoof -> bool {
    s => HasKey(others, Key(s))
  }

  function NotAmong(others: seq<Spoof>): Spoof -> bool {
    s => !HasKey(others, Key(s))
  }

  function Removing(ss: seq<Spoof>): seq<Command> {
    seq(|ss|, i requires 0 <= i < |ss| => RemoveRule(Key(ss[i])))
  }

  function Adding(ss: seq<Spoof>): seq<Command> {
    seq(|ss|, i requires 0 <= i < |ss| => AddRule(ss[i]))
  }

  /** The rules of a server after a reconciliation, and the commands that it takes. */
  function Reconciled(configured: seq<Spoof>, desired: seq<Spoof>): seq<Spoof> {
    Filter(Among(desired), configured) + Filter(NotAmong(configured), desired)
  }

  function Commands(configured: seq<Spoof>, desired: seq<Spoof>): seq<Command> {
    Removing(Filter(NotAmong(desired), configured)) + Adding(Filter(NotAmong(configured), desired))
  }

  // ---------- The server ----------

  class Server {
    /** The spoof rules, in order, and the commands received. */
    var rules: seq<Spoof>
    var commands: seq<Command>

    constructor (rules: seq<Spoof>)
      ensures this.rules == rules && commands == []
    {
      this.rules, commands := rules, [];
    }

    method AddDomainSpoof(spoof: Spoof)
      modifies this
      ensures rules == old(rules) + [spoof] && commands == old(commands) + [AddRule(spoof)]
    {
      rules := rules + [spoof];
      commands := commands + [AddRule(spoof)];
    }

    method RmRuleWithName(name: string)
      modifies this
      ensures rules == Filter(NotNamed(name), old(rules)) && commands == old(commands) + [RemoveRule(name)]
    {
      rules := Filter(NotNamed(name), rules);
      commands := commands + [RemoveRule(name)];
    }
  }

  /** What is left once the first `i` configured spoofs have been looked at: all rules under an undesired name among
      them are gone. */
  function KeptAfter(configured: seq<Spoof>, desired: seq<Spoof>, i: nat): Spoof -> bool
    requires i <= |configured|
  {
    s => HasKey(desired, Key(s)) || !HasKey(configured[..i], Key(s))
  }

  function Pruned(configured: seq<Spoof>, desired: seq<Spoof>, i: nat): seq<Spoof>
    requires i <= |configured|
  {
    Filter(KeptAfter(configured, desired, i), configured)
  }

  lemma HasKeyNext(ss: seq<Spoof>, i: nat, name: string)
    requires i < |ss|
    ensures HasKey(ss[..i + 1], name) <==> HasKey(ss[..i], name) || Key(ss[i]) == name
  {
    hide Key;
    assert ss[..i + 1] == ss[..i] + [ss[i]];
  }

  lemma PruneNext(configured: seq<Spoof>, desired: seq<Spoof>, i: nat)
    requires i < |configured|
    ensures Pruned(configured, desired, i + 1)
         == if HasKey(desired, Key(configured[i])) then Pruned(configured, desired, i)
            else Filter(NotNamed(Key(configured[i])), Pruned(configured, desired, i))
  {
    hide HasKey, Key, Filter;
    var kept, next := KeptAfter(configured, desired, i), KeptAfter(configured, desired, i + 1);
    forall s | s in configured
      ensures next(s) <==> kept(s) && (HasKey(desired, Key(s)) || Key(s) != Key(configured[i]))
    {
      HasKeyNext(configured, i, Key(s));
    }
    if HasKey(desired, Key(configured[i])) {
      FilterSame(kept, next, configured);
    } else {
      FilterTwice(kept, NotNamed(Key(configured[i])), next, configured);
    }
  }

  lemma PrunedEnds(configured: seq<Spoof>, desired: seq<Spoof>)
    ensures Pruned(configured, desired, 0) == configured
    ensures Pruned(configured, desired, |configured|) == Filter(Among(desired), configured)
  {
    hide Key;
    assert configured[..0] == [] && configured[..|configured|] == configured;
    FilterAll(KeptAfter(configured, desired, 0), configured);
    FilterSame(KeptAfter(configured, desired, |configured|), Among(desired), configured);
  }

  lemma CommandNext(earlier: seq<Command>, ss: seq<Spoof>, s: Spoof)
    ensures earlier + Removing(ss + [s]) == earlier + Removing(ss) + [RemoveRule(Key(s))]
    ensures earlier + Adding(ss + [s]) == earlier + Adding(ss) + [AddRule(s)]
  {
    hide Key;
  }

  /** The first loop of `reconcileServer`: spoofs that should not exist any more. */
  method RemoveUndesired(server: Server, configured: seq<Spoof>, desired: seq<Spoof>)
    requires server.rules == configured
    modifies server
    ensures server.rules == Filter(Among(desired), configured)
    ensures server.commands == old(server.commands) + Removing(Filter(NotAmong(desired), configured))
  {
    ghost var before := server.commands;
    assert configured[..0] == [] && Removing([]) == [];
    PrunedEnds(configured, desired);
    hide HasKey, Key, Removing;
    for i := 0 to |configured|
      invariant server.rules == Pruned(configured, desired, i)
      invariant server.commands == before + Removing(Filter(NotAmong(desired), configured[..i]))
    {
      hide Filter, Pruned;
      PruneNext(configured, desired, i);
      FilterNext(NotAmong(desired), configured, i);
      if !HasKey(desired, Key(configured[i])) {
        CommandNext(before, Filter(NotAmong(desired), configured[..i]), configured[i]);
        server.RmRuleWithName(Key(configured[i]));
      }
    }
    assert configured[..|configured|] == configured;
  }

  /** The second loop: spoofs that do not exist but should. */
  method AddMissing(server: Server, configured: seq<Spoof>, desired: seq<Spoof>)
    modifies server
    ensures server.rules == old(server.rules) + Filter(NotAmong(configured), desired)
    ensures server.commands == old(server.commands) + Adding(Filter(NotAmong(configured), desired))
  {
    ghost var before := server.commands;
    assert desired[..0] == [] && Adding([]) == [];
    hide HasKey, Key, Adding;
    for i := 0 to |desired|
      invariant server.rules == old(server.rules) + Filter(NotAmong(configured), desired[..i])
      invariant server.commands == before + Adding(Filter(NotAmong(configured), desired[..i]))
    {
      hide Filter;
      FilterNext(NotAmong(configured), desired, i);
      if !HasKey(configured, Key(desired[i])) {
        CommandNext(before, Filter(NotAmong(configured), desired[..i]), desired[i]);
        server.AddDomainSpoof(desired[i]);
      }
    }
    assert desired[..|desired|] == desired;
  }

  /** `reconcileServer`, given the rules that `showRules()` listed. */
  method Reconcile(server: Server, configured: seq<Spoof>, desired: seq<Spoof>)
    requires server.rules == configured
    modifies server
    ensures server.rules == Reconciled(configured, desired)
    ensures server.commands == old(server.commands) + Commands(configured, desired)
  {
    RemoveUndesired(server, configured, desired);
    AddMissing(server, configured, desired);
  }

  // ---------- What a reconciliation achieves ----------

  /** No desired name is configured twice. */
  ghost predicate OnceNamed(configured: seq<Spoof>, desired: seq<Spoof>) {
    forall i, j :: 0 <= i < j < |configured| && Key(configured[i]) == Key(configured[j]) ==>
                     !HasKey(desired, Key(configured[i]))
  }

  /** What `Filter` keeps of a server's rules, without its definition. */
  lemma {:induction false} SharedMeans(ss: seq<Spoof>, others: seq<Spoof>)
    ensures forall s :: s in Filter(Among(others), ss) <==> s in ss && HasKey(others, Key(s))
    ensures DistinctKeys(Filter(Among(others), ss)) <==> OnceNamed(ss, others)
  {
    FilterKeeps(Among(others), ss);
    hide Key;
    if ss != [] {
      var rest := ss[1..];
      SharedMeans(rest, others);
      FilterKeeps(Among(others), rest);
      OnceNamedFrom(ss, others);
      var r := Filter(Among(others), rest);
      if HasKey(others, Key(ss[0])) {
        DistinctFrom(ss[0], r);
        assert HasKey(r, Key(ss[0])) <==> HasKey(rest, Key(ss[0]));
      } else {
        assert [] + r == r;
      }
    }
  }

  lemma OnceNamedFrom(ss: seq<Spoof>, others: seq<Spoof>)
    requires ss != []
    ensures OnceNamed(ss, others) <==>
            OnceNamed(ss[1..], others) && (HasKey(others, Key(ss[0])) ==> !HasKey(ss[1..], Key(ss[0])))
  {
    hide Key;
    var rest := ss[1..];
    assert forall i :: 0 <= i < |rest| ==> rest[i] == ss[i + 1];
    assert forall i :: 0 < i < |ss| ==> ss[i] == rest[i - 1] && ss[i] in rest;
  }

  lemma DistinctFrom(s: Spoof, rest: seq<Spoof>)
    ensures DistinctKeys([s] + rest) <==> DistinctKeys(rest) && !HasKey(rest, Key(s))
  {
    hide Key;
    var ss := [s] + rest;
    assert ss[0] == s && forall i :: 0 <= i < |rest| ==> rest[i] == ss[i + 1];
    if DistinctKeys(ss) {
      forall t | t in rest ensures Key(t) != Key(s) {
        var i :| 0 <= i < |rest| && rest[i] == t;
        assert Key(ss[0]) != Key(ss[i + 1]);
      }
    } else {
      var i, j :| 0 <= i < j < |ss| && Key(ss[i]) == Key(ss[j]);
      assert ss[j] == rest[j - 1] && ss[j] in rest;
      if i > 0 {
        assert ss[i] == rest[i - 1];
      }
    }
  }

  lemma MissingMeans(ss: seq<Spoof>, others: seq<Spoof>)
    requires DistinctKeys(ss)
    ensures forall s :: s in Filter(NotAmong(others), ss) <==> s in ss && !HasKey(others, Key(s))
    ensures DistinctKeys(Filter(NotAmong(others), ss))
  {
    FilterKeeps(NotAmong(others), ss);
    FilterDistinct(NotAmong(others), ss);
  }

  lemma {:induction false} FilterDistinct(keep: Spoof -> bool, ss: seq<Spoof>)
    requires DistinctKeys(ss)
    ensures DistinctKeys(Filter(keep, ss))
  {
    hide Key;
    if ss != [] {
      FilterDistinct(keep, ss[1..]);
      FilterKeeps(keep, ss[1..]);
      var r := Filter(keep, ss[1..]);
      forall i | 0 <= i < |r| ensures Key(r[i]) != Key(ss[0]) {
        assert r[i] in r;
      }
    }
  }

  lemma DistinctUnion(a: seq<Spoof>, b: seq<Spoof>)
    requires DistinctKeys(a) && DistinctKeys(b)
    requires forall s, t :: s in a && t in b ==> Key(s) != Key(t)
    ensures DistinctKeys(a + b)
  {
    hide Key;
    forall i, j | 0 <= i < j < |a + b| ensures Key((a + b)[i]) != Key((a + b)[j]) {
      assert i < |a| ==> (a + b)[i] in a;
      assert j >= |a| ==> (a + b)[j] in b;
    }
  }

  /** The server ends up with exactly the desired names; a rule whose name is both configured and desired stays
      as it is, and every other rule is a desired one. Each name is there once if and only if no desired one was
      configured twice. */
  lemma ReconciledRules(configured: seq<Spoof>, desired: seq<Spoof>)
    requires DistinctKeys(desired)
    ensures var r := Reconciled(configured, desired);
            && (DistinctKeys(r) <==> OnceNamed(configured, desired))
            && (forall name :: HasKey(r, name) <==> HasKey(desired, name))
            && (forall s :: s in r <==> if HasKey(configured, Key(s)) then s in configured && HasKey(desired, Key(s))
                                        else s in desired)
  {
    SharedMeans(configured, desired);
    MissingMeans(desired, configured);
    hide Key, Filter, DistinctKeys, OnceNamed;
    var kept, added := Filter(Among(desired), configured), Filter(NotAmong(configured), desired);
    if DistinctKeys(kept) {
      DistinctUnion(kept, added);
    } else {
      RepeatedUnion(kept, added);
    }
    ReconciledNames(configured, desired);
  }

  /** Whatever is configured or desired, names that are desired are there afterwards, and no others. */
  lemma ReconciledNames(configured: seq<Spoof>, desired: seq<Spoof>)
    ensures forall name :: HasKey(Reconciled(configured, desired), name) <==> HasKey(desired, name)
  {
    FilterKeeps(Among(desired), configured);
    FilterKeeps(NotAmong(configured), desired);
    hide Key, Filter;
    var r := Reconciled(configured, desired);
    forall name ensures HasKey(r, name) <==> HasKey(desired, name) {
      if HasKey(desired, name) && HasKey(configured, name) {
        var s :| s in configured && Key(s) == name;
        assert s in r;
      } else if HasKey(desired, name) {
        var s :| s in desired && Key(s) == name;
        assert s in r;
      }
    }
  }

  lemma RepeatedUnion(a: seq<Spoof>, b: seq<Spoof>)
    requires !DistinctKeys(a)
    ensures !DistinctKeys(a + b)
  {
    hide Key;
    var i, j :| 0 <= i < j < |a| && Key(a[i]) == Key(a[j]);
    assert (a + b)[i] == a[i] && (a + b)[j] == a[j];
  }

  function NameOf(c: Command): string {
    if c.AddRule? then Key(c.spoof) else c.name
  }

  function Concerning(name: string): Command -> bool {
    c => NameOf(c) == name
  }

  /** The commands that concern one rule. */
  function About(name: string, cs: seq<Command>): seq<Command> {
    Filter(Concerning(name), cs)
  }

  lemma {:induction false} RemovalsAbout(name: string, ss: seq<Spoof>)
    requires DistinctKeys(ss)
    ensures About(name, Removing(ss)) == if HasKey(ss, name) then [RemoveRule(name)] else []
  {
    hide Key;
    if ss != [] {
      RemovalsAbout(name, ss[1..]);
      assert Removing(ss)[1..] == Removing(ss[1..]);
      assert ss == [ss[0]] + ss[1..];
    }
  }

  lemma {:induction false} AdditionsAbout(name: string, ss: seq<Spoof>)
    requires DistinctKeys(ss)
    ensures !HasKey(ss, name) ==> About(name, Adding(ss)) == []
    ensures forall s :: s in ss && Key(s) == name ==> About(name, Adding(ss)) == [AddRule(s)]
  {
    hide Key;
    if ss != [] {
      AdditionsAbout(name, ss[1..]);
      assert Adding(ss)[1..] == Adding(ss[1..]);
      assert ss == [ss[0]] + ss[1..];
    }
  }

  /** Every name on one side only gets exactly one command, and the right one; no other name gets any. */
  lemma OneCommandPerDifference(configured: seq<Spoof>, desired: seq<Spoof>, name: string)
    requires DistinctKeys(configured) && DistinctKeys(desired)
    ensures var cs := About(name, Commands(configured, desired));
            && (HasKey(configured, name) == HasKey(desired, name) ==> cs == [])
            && (HasKey(configured, name) && !HasKey(desired, name) ==> cs == [RemoveRule(name)])
            && (forall s :: s in desired && Key(s) == name && !HasKey(configured, name) ==> cs == [AddRule(s)])
  {
    var stale, missing := Filter(NotAmong(desired), configured), Filter(NotAmong(configured), desired);
    MissingMeans(configured, desired);
    MissingMeans(desired, configured);
    RemovalsAbout(name, stale);
    AdditionsAbout(name, missing);
    FilterSplits(Concerning(name), Removing(stale), Adding(missing));
  }

  /** Only desired rules are added, and only under names that were not configured. */
  lemma AddsDesired(configured: seq<Spoof>, desired: seq<Spoof>, x: Spoof)
    requires AddRule(x) in Commands(configured, desired)
    ensures x in desired && !exists c :: c in configured && c.fqdn + ":" + c.dc == x.fqdn + ":" + x.dc
  {
    var missing := Filter(NotAmong(configured), desired);
    FilterKeeps(NotAmong(configured), desired);
    hide Filter;
    var k :| 0 <= k < |Adding(missing)| && Adding(missing)[k] == AddRule(x);
    assert missing[k] == x && x in missing;
    forall c | c in configured ensures c.fqdn + ":" + c.dc != x.fqdn + ":" + x.dc {
      assert HasKey(configured, Key(c));
    }
  }

  /** A second reconciliation finds nothing to do. */
  lemma ReconcileTwice(configured: seq<Spoof>, desired: seq<Spoof>)
    requires DistinctKeys(desired)
    ensures var r := Reconciled(configured, desired); Commands(r, desired) == [] && Reconciled(r, desired) == r
  {
    var r := Reconciled(configured, desired);
    ReconciledRules(configured, desired);
    NothingToDo(r, desired);
  }

  lemma NothingToDo(configured: seq<Spoof>, desired: seq<Spoof>)
    requires forall name :: HasKey(configured, name) <==> HasKey(desired, name)
    ensures Commands(configured, desired) == [] && Reconciled(configured, desired) == configured
  {
    forall s | s in configured ensures Among(desired)(s) {
      assert HasKey(configured, Key(s));
    }
    forall s | s in desired ensures !NotAmong(configured)(s) {
      assert HasKey(desired, Key(s));
    }
    FilterAll(Among(desired), configured);
    FilterNone(NotAmong(desired), configured);
    FilterNone(NotAmong(configured), desired);
  }

  /** Skipping the reconciliation of a server with the desired hash skips nothing. */
  lemma EqualHashNeedsNoCommand(digest: seq<Spoof> -> string, configured: seq<Spoof>, desired: seq<Spoof>,
                                r1: seq<Spoof>, r2: seq<Spoof>)
    requires Injective(digest) && DistinctKeys(desired)
    requires SortOf(KeyBelow, configured, r1) && SortOf(KeyBelow, desired, r2) && digest(r1) == digest(r2)
    ensures Commands(configured, desired) == []
  {
    HashDecides(digest, configured, desired, r1, r2);
    NothingToDo(configured, desired);
  }

  /** After a reconciliation the hashes agree if and only if no desired name was configured twice, and no rule
      that was both configured and desired had a different address: addresses are never compared. */
  lemma HashAgreesIffAddressesDid(digest: seq<Spoof> -> string, configured: seq<Spoof>, desired: seq<Spoof>,
                                  r1: seq<Spoof>, r2: seq<Spoof>)
    requires Injective(digest) && DistinctKeys(desired)
    requires SortOf(KeyBelow, Reconciled(configured, desired), r1) && SortOf(KeyBelow, desired, r2)
    ensures digest(r1) == digest(r2) <==>
            OnceNamed(configured, desired) && forall s :: s in configured && HasKey(desired, Key(s)) ==> s in desired
  {
    var r := Reconciled(configured, desired);
    ReconciledRules(configured, desired);
    OnceIffDistinct(r, desired);
    hide Reconciled, SortOf, Key, NoTies, Injective, OnceNamed, DistinctKeys;
    HashDecides(digest, r, desired, r1, r2);
    forall s | s in desired && HasKey(configured, Key(s)) && Agreeing(configured, desired) ensures s in r {
      var t :| t in configured && Key(t) == Key(s);
      SameKeySame(desired, s, t);
    }
  }

  ghost predicate Agreeing(configured: seq<Spoof>, desired: seq<Spoof>) {
    forall s :: s in configured && HasKey(desired, Key(s)) ==> s in desired
  }

  lemma SameKeySame(ss: seq<Spoof>, s: Spoof, t: Spoof)
    requires DistinctKeys(ss) && s in ss && t in ss && Key(s) == Key(t)
    ensures s == t
  {
    hide Key;
    var i :| 0 <= i < |ss| && ss[i] == s;
    var j :| 0 <= j < |ss| && ss[j] == t;
  }

  /** Among spoofs with distinct keys, being listed once and being named once are the same. */
  lemma OnceIffDistinct(r: seq<Spoof>, desired: seq<Spoof>)
    requires DistinctKeys(desired)
    ensures (forall s :: s in r ==> s in desired) ==> (NoDup(r) <==> DistinctKeys(r))
  {
    hide Key;
    if (forall s :: s in r ==> s in desired) && !DistinctKeys(r) {
      var i, j :| 0 <= i < j < |r| && Key(r[i]) == Key(r[j]);
      SameKeySame(desired, r[i], r[j]);
    }
    if !NoDup(r) {
      var i, j :| 0 <= i < j < |r| && r[i] == r[j];
      assert Key(r[i]) == Key(r[j]);
    }
  }
}
