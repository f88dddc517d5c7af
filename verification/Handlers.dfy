/** The zone handler: every batch of records becomes registrations and removals. */
module Handlers {
  import opened Basics
  import opened Services
  import opened Managers
  import opened ManagerInvariants
  import opened ManagerObjects
  import opened ManagerRuns
  import opened ManagerUpdates

  /** A resource record: a text record with a well-formed configuration, or anything else. */
  datatype ZoneRecord = Other | Text(cfg: Config)

  /** The id of the service a record registers. */
  function Registers(r: ZoneRecord): Option<Id> {
    if r.Text? && r.cfg.addressOk && r.cfg.serviceId != "" then Some(r.cfg.serviceId) else None
  }

  function IdsOf(batch: seq<ZoneRecord>): (ids: set<Id>)
    ensures forall id :: id in ids <==> exists k :: 0 <= k < |batch| && Registers(batch[k]) == Some(id)
  {
    if batch == [] then {}
    else
      var n, rest := |batch| - 1, IdsOf(batch[..|batch| - 1]);
      assert forall k :: 0 <= k < n ==> batch[k] == batch[..n][k];
      if Registers(batch[n]).Some? then rest + {Registers(batch[n]).value} else rest
  }

  lemma IdsOfNext(batch: seq<ZoneRecord>, i: nat)
    requires i < |batch|
    ensures IdsOf(batch[..i + 1]) ==
            IdsOf(batch[..i]) + if Registers(batch[i]).Some? then {Registers(batch[i]).value} else {}
  {
    assert batch[..i + 1][..i] == batch[..i];
  }

  /** Configurations the manager may be given. */
  predicate Usable(batch: seq<ZoneRecord>) {
    forall k :: 0 <= k < |batch| && batch[k].Text? ==> Allowed(NewManager(), Register(batch[k].cfg))
  }

  /** What may happen to the registered services `ids` while the handler does nothing. */
  predicate Unattended(events: seq<Event>, ids: set<Id>) {
    forall k :: 0 <= k < |events| ==> events[k].Turn? || (events[k].Check? && events[k].id in ids)
  }

  /** A batch of records, the order in which its handling visits the known services, and the checks and
      turns after each record, after each visit, and until the next batch. */
  datatype Batch = Batch(
    records: seq<ZoneRecord>,
    afterRecord: seq<seq<Event>>,
    visits: seq<Id>,
    afterVisit: seq<seq<Event>>,
    afterwards: seq<Event>)

  predicate RecordsFit(records: seq<ZoneRecord>, afterRecord: seq<seq<Event>>, ids: set<Id>) {
    && Usable(records) && |afterRecord| == |records|
    && forall k :: 0 <= k < |records| ==> Unattended(afterRecord[k], ids + IdsOf(records[..k + 1]))
  }

  /** Every known service is visited, and those not listed are gone once they have been. */
  predicate VisitsFit(visits: seq<Id>, afterVisit: seq<seq<Event>>, known: set<Id>, listed: set<Id>, ids: set<Id>) {
    && (set id | id in visits) == known && |afterVisit| == |visits|
    && forall k :: 0 <= k < |visits| ==> Unattended(afterVisit[k], ids - Stale(visits[..k + 1], listed))
  }

  function Stale(visits: seq<Id>, listed: set<Id>): set<Id> {
    set id | id in visits && id !in listed
  }

  /** The batch can come when the services `known` are registered. */
  predicate Fits(b: Batch, known: set<Id>) {
    var listed := IdsOf(b.records);
    && RecordsFit(b.records, b.afterRecord, known)
    && VisitsFit(b.visits, b.afterVisit, known, listed, known + listed)
    && Unattended(b.afterwards, listed)
  }

  /** The services known after some batches. */
  function KnownAfter(batches: seq<Batch>, known: set<Id>): set<Id> {
    if batches == [] then known else IdsOf(batches[|batches| - 1].records)
  }

  class Handler {
    const svcManager: ServicesManager
    var knownServices: set<Id>
    /** All that has happened to the manager so far. */
    ghost var trace: seq<Event>

    /** The manager is where its events have led it, so that all theorems about its runs apply. */
    ghost predicate Traced()
      reads this, svcManager
    {
      EndsIn(svcManager.env, trace, svcManager.State())
    }

    /** At every batch boundary the known services are exactly the registered ones, unless the manager
        has panicked. */
    ghost predicate Valid()
      reads this, svcManager
    {
      Traced() && (!svcManager.crashed ==> knownServices == svcManager.scheduledServices.Keys)
    }

    constructor (env: Env)
      ensures Valid() && knownServices == {} && !svcManager.crashed && trace == [] && fresh(svcManager)
    {
      svcManager := new ServicesManager(env);
      knownServices := {};
      trace := [];
    }

    method HandleRecord(record: ZoneRecord) returns (registered: Option<Id>)
      requires Traced() && !svcManager.crashed && Usable([record])
      modifies this`trace, svcManager
      ensures Traced()
      ensures trace == old(trace) + if record.Text? then [Register(record.cfg)] else []
      ensures registered == Registers(record)
      ensures svcManager.scheduledServices.Keys ==
              old(svcManager.scheduledServices.Keys) + (if registered.Some? then {registered.value} else {})
    {
      hide Inv, EndsIn, WouldPanic, Managers.RegisterService;
      EndsSound(svcManager.env, trace, svcManager.State());
      match record
      case Other => registered := None;
      case Text(cfg) =>
        assert [record][0] == record;
        ghost var before := svcManager.State();
        GoesOn(svcManager.env, trace, before, Register(cfg));
        registered := svcManager.RegisterService(cfg);
        trace := trace + [Register(cfg)];
    }

    /** One record, and what goes on until the next. */
    method HandleAndWait(record: ZoneRecord, events: seq<Event>) returns (registered: Option<Id>)
      requires Traced() && !svcManager.crashed && Usable([record])
      requires Unattended(events, svcManager.scheduledServices.Keys
                                  + if Registers(record).Some? then {Registers(record).value} else {})
      modifies this`trace, svcManager
      ensures Traced() && old(trace) <= trace
      ensures registered == Registers(record)
      ensures svcManager.scheduledServices.Keys ==
              old(svcManager.scheduledServices.Keys) + (if registered.Some? then {registered.value} else {})
    {
      hide EndsIn, Unattended;
      registered := HandleRecord(record);
      if !svcManager.crashed {
        RunUnattended(events);
      }
    }

    /** The first loop of a batch: register what it lists, up to a panic. */
    method RegisterBatch(batch: seq<ZoneRecord>, afterRecord: seq<seq<Event>>) returns (servicesInBatch: set<Id>)
      requires Traced() && !svcManager.crashed
      requires RecordsFit(batch, afterRecord, svcManager.scheduledServices.Keys)
      modifies this`trace, svcManager
      ensures Traced() && old(trace) <= trace
      ensures !svcManager.crashed ==>
                && servicesInBatch == IdsOf(batch)
                && svcManager.scheduledServices.Keys == old(svcManager.scheduledServices.Keys) + servicesInBatch
    {
      hide EndsIn, Unattended, IdsOf, Registers, Allowed;
      ghost var before := svcManager.scheduledServices.Keys;
      servicesInBatch := {};
      var i := 0;
      while i < |batch| && !svcManager.crashed
        invariant i <= |batch| && Traced() && old(trace) <= trace
        invariant servicesInBatch == IdsOf(batch[..i])
        invariant svcManager.scheduledServices.Keys == before + servicesInBatch
      {
        IdsOfNext(batch, i);
        ghost var added := if Registers(batch[i]).Some? then {Registers(batch[i]).value} else {};
        assert before + IdsOf(batch[..i + 1]) == svcManager.scheduledServices.Keys + added;
        var registered := HandleAndWait(batch[i], afterRecord[i]);
        if registered.Some? {
          servicesInBatch := servicesInBatch + {registered.value};
        }
        i := i + 1;
      }
      assert !svcManager.crashed ==> batch[..i] == batch;
    }

    /** The second loop: remove the known services it does not list, in whatever order they are visited. */
    method RemoveStale(servicesInBatch: set<Id>, visits: seq<Id>, afterVisit: seq<seq<Event>>)
      requires Traced() && !svcManager.crashed
      requires VisitsFit(visits, afterVisit, knownServices, servicesInBatch, svcManager.scheduledServices.Keys)
      modifies this`trace, svcManager
      ensures Traced() && !svcManager.crashed && old(trace) <= trace
      ensures svcManager.scheduledServices.Keys ==
              old(svcManager.scheduledServices.Keys) - (knownServices - servicesInBatch)
    {
      hide Inv, EndsIn, Unattended, Managers.RemoveService;
      ghost var before := svcManager.scheduledServices.Keys;
      var i := 0;
      while i < |visits|
        invariant i <= |visits| && Traced() && !svcManager.crashed && old(trace) <= trace
        invariant svcManager.scheduledServices.Keys == before - Stale(visits[..i], servicesInBatch)
      {
        var key := visits[i];
        if key !in servicesInBatch {
          EndsSound(svcManager.env, trace, svcManager.State());
          GoesOn(svcManager.env, trace, svcManager.State(), Remove(key));
          var _ := svcManager.RemoveService(key);
          InvIsAlive(svcManager.State());
          trace := trace + [Remove(key)];
        }
        assert visits[..i + 1] == visits[..i] + [key];
        assert svcManager.scheduledServices.Keys == before - Stale(visits[..i + 1], servicesInBatch);
        RunUnattended(afterVisit[i]);
        i := i + 1;
      }
      assert visits[..i] == visits;
    }

    /** After a batch, exactly the services its records registered are registered. */
    method HandleBatch(b: Batch)
      requires Valid() && !svcManager.crashed && Fits(b, knownServices)
      modifies this, svcManager
      ensures Valid() && old(trace) <= trace
      ensures !svcManager.crashed ==> knownServices == IdsOf(b.records)
    {
      hide EndsIn, Unattended, RecordsFit, VisitsFit, IdsOf;
      var servicesInBatch := RegisterBatch(b.records, b.afterRecord);
      if svcManager.crashed {
        return;
      }
      RemoveStale(servicesInBatch, b.visits, b.afterVisit);
      assert svcManager.scheduledServices.Keys == servicesInBatch;
      knownServices := servicesInBatch;
      RunUnattended(b.afterwards);
    }

    /** Checks and scheduler turns go on in the meantime. */
    method RunUnattended(events: seq<Event>)
      requires Traced() && !svcManager.crashed && Unattended(events, svcManager.scheduledServices.Keys)
      modifies this`trace, svcManager
      ensures Traced() && !svcManager.crashed && trace == old(trace) + events
      ensures svcManager.scheduledServices.Keys == old(svcManager.scheduledServices.Keys)
    {
      hide Inv, EndsIn, CheckResult, Tick;
      var i := 0;
      while i < |events|
        invariant i <= |events| && Traced() && !svcManager.crashed && trace == old(trace) + events[..i]
        invariant svcManager.scheduledServices.Keys == old(svcManager.scheduledServices.Keys)
      {
        EndsSound(svcManager.env, trace, svcManager.State());
        GoesOn(svcManager.env, trace, svcManager.State(), events[i]);
        match events[i] {
          case Check(id, success, roundtrip) => svcManager.CheckCompleted(id, success, roundtrip);
          case Turn(interval, now, gap) => svcManager.SchedulerTurn(interval, now, gap);
        }
        InvIsAlive(svcManager.State());
        trace := trace + [events[i]];
        i := i + 1;
      }
      assert events[..i] == events;
    }

    /** Any number of batches: unless the manager panics, exactly the services of the last one are
        registered in the end. */
    method HandleZoneUpdates(batches: seq<Batch>)
      requires Valid() && !svcManager.crashed
      requires forall k :: 0 <= k < |batches| ==> Fits(batches[k], KnownAfter(batches[..k], knownServices))
      modifies this, svcManager
      ensures Valid() && old(trace) <= trace
      ensures !svcManager.crashed ==> knownServices == KnownAfter(batches, old(knownServices))
    {
      hide EndsIn, Fits;
      var i := 0;
      while i < |batches| && !svcManager.crashed
        invariant i <= |batches| && Valid() && old(trace) <= trace
        invariant !svcManager.crashed ==> knownServices == KnownAfter(batches[..i], old(knownServices))
      {
        HandleBatch(batches[i]);
        i := i + 1;
      }
      assert !svcManager.crashed ==> batches[..i] == batches;
    }
  }
}
