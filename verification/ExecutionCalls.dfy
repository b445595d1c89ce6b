/**
  The critical sections of the execution manager that work on prepared entries, as the object
  performs them (agent/internal/execution/manager.go, script.go). Each is the machine's event,
  keeps every unit with exactly one owner, and gives a unit back exactly when it drops an entry.
 */
module ExecutionCalls {
  import opened Basics
  import opened ExecutionJournal
  import opened ExecutionManager
  import opened ExecutionOwnership
  import SessionBudget

  /** The units in use fell by the number of entries dropped, and no entry appeared. */
  predicate ReleasedEach(m: Manager, n: Manager) {
    n.prepared.Keys <= m.prepared.Keys && n.budget.used == m.budget.used - (|m.prepared| - |n.prepared|)
  }

  class Live {
    var budget: SessionBudget.Counters
    var prepared: map<Id, Prep>
    var closed: bool
    var rest: Manager      // the fields that these sections leave alone

    function View(): Manager
      reads this
    {
      rest.(budget := budget, prepared := prepared, closer := if closed then Closing else Open)
    }

    constructor (maximum: int)
      ensures View() == Fresh(maximum) && OwnershipInv(View())
    {
      budget := SessionBudget.Counters(0, maximum, false, 0);
      prepared, closed, rest := map[], false, Fresh(maximum);
      new;
      FreshIsOwned(maximum);
    }

    method Release()
      modifies this`budget
      ensures budget == old(budget).Released()
    {
      if budget.used > 0 {
        budget := budget.(used := budget.used - 1);
      }
    }

    method Drop(id: Id)
      requires OwnershipInv(View()) && id in prepared
      modifies this`budget, this`prepared
      ensures View() == DropPrepared(old(View()), id) && OwnershipInv(View())
      ensures ReleasedEach(old(View()), View()) && id !in prepared
    {
      DropPreparedKeeps(View(), id);
      MapLoses(prepared, id);
      prepared := prepared - {id};
      Release();
    }

    method Keep(id: Id, p: Prep)
      requires OwnershipInv(View()) && id in prepared
      modifies this`prepared
      ensures View() == old(View()).(prepared := old(prepared)[id := p]) && OwnershipInv(View())
      ensures ReleasedEach(old(View()), View()) && budget == old(budget)
    {
      ReplacePreparedKeeps(View(), id, p);
      MapGains(prepared, id, p);
      prepared := prepared[id := p];
    }

    /** The timer of one preparation, which may fire after its entry is gone or was replaced. */
    method ExpireTimer(binding: Binding)
      requires OwnershipInv(View())
      modifies this`budget, this`prepared
      ensures OwnershipInv(View()) && ReleasedEach(old(View()), View())
      ensures var m := old(View());
        View() == if Named(m, binding) then PreparedManager(m, Expire(binding.id)) else m
    {
      if binding.id in prepared && prepared[binding.id].binding == binding {
        Drop(binding.id);
      }
    }

    method CancelPrepared(binding: Binding) returns (found: bool)
      requires OwnershipInv(View())
      modifies this`budget, this`prepared
      ensures OwnershipInv(View()) && ReleasedEach(old(View()), View())
      ensures found == Named(old(View()), binding) && View() == PreparedManager(old(View()), Cancel(binding))
    {
      if binding.id !in prepared || prepared[binding.id].binding != binding {
        return false;
      }
      Drop(binding.id);
      return true;
    }

    method AttachTransport(binding: Binding, now: int) returns (ok: bool)
      requires OwnershipInv(View())
      modifies this`prepared
      ensures OwnershipInv(View()) && budget == old(budget) && prepared.Keys == old(prepared).Keys
      ensures View() == PreparedManager(old(View()), Attach(binding, now < binding.expires))
      ensures ok ==> Named(View(), binding) && prepared[binding.id].attached && !old(prepared)[binding.id].attached
    {
      if closed || binding.id !in prepared {
        return false;
      }
      var p := prepared[binding.id];
      if p.binding != binding || now >= binding.expires || p.attached {
        return false;
      }
      Keep(binding.id, p.(attached := true));
      return true;
    }

    method ScriptReadyFor(binding: Binding, now: int) returns (ok: bool)
      ensures ok == ScriptReady(View(), binding, now < binding.expires)
    {
      if closed || binding.id !in prepared {
        return false;
      }
      var p := prepared[binding.id];
      return p.attached && p.binding == binding && now < binding.expires && p.enhanced && p.scripted && !p.complete;
    }

    method InvalidateScript(binding: Binding)
      requires OwnershipInv(View())
      modifies this`budget, this`prepared
      ensures OwnershipInv(View()) && ReleasedEach(old(View()), View()) && !Named(View(), binding)
      ensures View() == if Named(old(View()), binding) then DropPrepared(old(View()), binding.id) else old(View())
    {
      if binding.id in prepared && prepared[binding.id].binding == binding {
        Drop(binding.id);
      }
    }

    /** `stored` is whether the spool took the whole chunk. */
    method ReceiveChunk(binding: Binding, now: int, offset: int, data: Bytes, stored: bool) returns (ok: bool)
      requires OwnershipInv(View())
      modifies this`budget, this`prepared
      ensures OwnershipInv(View()) && ReleasedEach(old(View()), View()) && ok == Named(View(), binding)
      ensures View() == PreparedManager(old(View()), ScriptChunk(binding, now < binding.expires, offset, data, stored))
    {
      var ready := ScriptReadyFor(binding, now);
      if ready {
        var p := prepared[binding.id];
        if 0 < |data| <= MAX_FRAME && offset == |p.spool| && |data| <= p.length - |p.spool| && stored {
          Keep(binding.id, p.(chunks := p.chunks + [data], spool := p.spool + data));
          return true;
        }
      }
      InvalidateScript(binding);
      return false;
    }

    method ReceiveEOF(binding: Binding, now: int, length: nat, digest: Bytes, sealed: bool) returns (ok: bool)
      requires OwnershipInv(View())
      modifies this`budget, this`prepared
      ensures OwnershipInv(View()) && ReleasedEach(old(View()), View()) && ok == Named(View(), binding)
      ensures View() == PreparedManager(old(View()), ScriptEOF(binding, now < binding.expires, length, digest, sealed))
    {
      var ready := ScriptReadyFor(binding, now);
      if ready {
        var p := prepared[binding.id];
        if length == p.length && |p.spool| == p.length && digest == p.digest && p.spool == p.digest && sealed {
          Keep(binding.id, p.(complete := true));
          return true;
        }
      }
      InvalidateScript(binding);
      return false;
    }

    /** The first section of Close: every prepared entry goes, each with one release. */
    method CloseSection() returns (first: bool)
      requires OwnershipInv(View())
      modifies this`budget, this`prepared, this`closed
      ensures first == !old(closed) && OwnershipInv(View()) && ReleasedEach(old(View()), View())
      ensures first ==> prepared == map[]
      ensures first ==>
        View() == ReleaseEach(old(View()), |old(prepared)|).(prepared := map[], closer := Closing)
      ensures !first ==> View() == old(View())
    {
      if closed {
        return false;
      }
      while prepared != map[]
        invariant OwnershipInv(View()) && !closed && ReleasedEach(old(View()), View()) && rest == old(rest)
        invariant View() == old(View()).(prepared := prepared, budget := old(budget).(used := budget.used))
        decreases |prepared|
      {
        var id :| id in prepared;
        MapLoses(prepared, id);
        Drop(id);
      }
      closed := true;
      assert Launchers(View()) == Launchers(old(View()));
      ReleaseEachSubtracts(old(View()), |old(prepared)|);
      return true;
    }
  }
}
