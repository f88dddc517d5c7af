/** The service group as the mutable object it is, each method tied to the function that specifies it. */
module ServiceGroupObjects {
  import opened Basics
  import opened Services
  import opened ServiceGroups

  class ServiceGroup {
    const Name: string
    const sort: Sorter
    const prioritizedDatacenter: string
    var mode: Mode
    var Members: seq<Id>
    var active: Option<Id>
    var lastActive: Option<Id>

    ghost function State(): Group
      reads this
    {
      Group(Name, mode, Members, active, lastActive, prioritizedDatacenter)
    }

    constructor (name: string, sort: Sorter)
      ensures State() == EmptyGroup(name) && this.sort == sort
    {
      Name, this.sort, prioritizedDatacenter := name, sort, "";
      mode, Members, active, lastActive := ActiveActive, [], None, None;
    }

    method FindFirstHealthy(w: World) returns (r: Option<Id>)
      ensures r == FirstHealthy(w, Members)
    {
      var i := 0;
      while i < |Members|
        invariant i <= |Members|
        invariant FirstHealthy(w, Members) == FirstHealthy(w, Members[i..])
      {
        if Healthy(w, Members[i]) {
          return Some(Members[i]);
        }
        i := i + 1;
      }
      return None;
    }

    method CurrentActive(w: World) returns (r: Option<Id>)
      ensures r == GetActive(w, State())
    {
      if mode == ActivePassive {
        if active.Some? {
          return active;
        }
      } else {
        r := FindFirstHealthy(w);
        if r.Some? {
          return r;
        }
      }
      return active;
    }

    method Trigger(w: World, id: Id) returns (b: bool)
      ensures b == TriggersPromotion(w, State(), id)
    {
      if !Healthy(w, id) {
        return false;
      }
      if active.None? || !Healthy(w, active.value) {
        return Healthy(w, id);
      }
      return Priority(w, id) <= Priority(w, active.value);
    }

    method PromoteNext(w: World) returns (event: PromotionEvent)
      modifies this`active
      ensures Outcome(State(), Some(event), false) == PromoteNextHealthy(w, old(State()))
    {
      var oldActive := active;
      var bestIdx, bestPriority, i := -1, MAX_INT, 0;
      while i < |Members|
        invariant i <= |Members| && -1 <= bestIdx < i
        invariant BestHealthy(w, Members[..i]) == if bestIdx == -1 then None else Some(Members[bestIdx])
        invariant bestPriority == if bestIdx == -1 then MAX_INT else Priority(w, Members[bestIdx])
      {
        if Healthy(w, Members[i]) && Priority(w, Members[i]) < bestPriority {
          bestIdx, bestPriority := i, Priority(w, Members[i]);
        }
        assert Members[..i + 1][..i] == Members[..i];
        i := i + 1;
      }
      assert Members[..i] == Members;
      if bestIdx != -1 {
        active := Some(Members[bestIdx]);
        return PromotionEvent(Name, active, oldActive);
      }
      active := None;
      return PromotionEvent(Name, None, oldActive);
    }

    method ConfigureMode(w: World)
      modifies this`mode, this`active
      ensures State() == SetGroupMode(w, old(State()))
    {
      if |Members| == 0 {
        mode := ActiveActive;
        return;
      }
      if |Members| == 1 {
        mode := ActiveActive;
        active := if Healthy(w, Members[0]) then Some(Members[0]) else None;
        return;
      }
      var allSame, i := true, 1;
      while i < |Members|
        invariant 1 <= i <= |Members|
        invariant allSame <==> AllSamePriority(w, Members[..i])
      {
        if Priority(w, Members[i]) != Priority(w, Members[0]) {
          allSame := false;
          break;
        }
        i := i + 1;
      }
      assert i == |Members| ==> Members[..i] == Members;
      match mode
      case ActiveActive =>
        if !allSame {
          mode := ActivePassive;
        }
      case ActivePassive =>
        if allSame {
          mode := ActiveActive;
        }
      case _ =>
        mode := ActiveActive;
    }

    method Refresh(w: World) returns (event: Option<PromotionEvent>)
      modifies this
      ensures Outcome(State(), event, false) == Update(sort, w, old(State()))
    {
      if |Members| == 0 {
        return None;
      }
      Members := sort(w, Members);
      ConfigureMode(w);
      var first := FindFirstHealthy(w);
      if first != active {
        lastActive := active;
        active := first;
        return Some(PromotionEvent(Name, active, lastActive));
      }
      return None;
    }

    method RegisterService(w: World, id: Id) returns (event: Option<PromotionEvent>)
      modifies this
      ensures Outcome(State(), event, false) == RegisterMember(sort, w, old(State()), id)
    {
      if id in Members {
        return None;
      }
      Members := Members + [id];
      event := Refresh(w);
    }

    method RemoveService(w: World, id: Id) returns (empty: bool, event: Option<PromotionEvent>)
      modifies this
      ensures Outcome(State(), event, false) == RemoveMember(sort, w, old(State()), id)
      ensures empty <==> Members == []
    {
      hide IndexOf, Update;
      var idx := IndexOf(Members, id);
      event := None;
      if idx != -1 {
        Members := Members[..idx] + Members[idx + 1..];
        event := Refresh(w);
      }
      empty := |Members| == 0;
    }

    /** `crashed` reports the nil dereference of a missing active. */
    method HealthChanged(w: World, id: Id, healthy: bool)
      returns (event: Option<PromotionEvent>, crashed: bool)
      modifies this`active, this`lastActive
      ensures Outcome(State(), event, crashed) == OnServiceHealthChange(w, old(State()), id, healthy)
    {
      event, crashed := None, false;
      var oldActive := active;
      if oldActive.None? {
        oldActive := lastActive;
      }
      match mode
      case ActivePassive =>
        if !healthy && active.None? {
          crashed := true;
          return;
        }
        if !healthy && active.value == id {
          lastActive := active;
          var e := PromoteNext(w);
          event := Some(e);
          return;
        }
        if healthy {
          var t := Trigger(w, id);
          if t {
            event := Some(PromotionEvent(Name, Some(id), oldActive));
            lastActive := active;
            active := Some(id);
          }
        }
      case ActiveActive =>
        if healthy {
          if Get(w, id).datacenter == prioritizedDatacenter && active != Some(id) {
            event := Some(PromotionEvent(Name, Some(id), active));
            active := Some(id);
            return;
          }
          if active.None? || !Healthy(w, active.value) {
            event := Some(PromotionEvent(Name, Some(id), active));
            active := Some(id);
          }
          return;
        }
        if active.None? {
          crashed := true;
          return;
        }
        if id == active.value {
          var next := FindFirstHealthy(w);
          if next.Some? {
            event := Some(PromotionEvent(Name, next, active));
            lastActive := active;
            active := next;
            return;
          }
          event := Some(PromotionEvent(Name, None, active));
          lastActive := active;
          active := None;
        }
      case ActiveActiveRoundTrip =>
    }
  }
}
