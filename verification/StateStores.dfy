/** The persisted store: cooldown times, the append-only action history, and cordons. */
module StateStores {
  import opened Basics
  import opened Decider
  import opened Fleet

  class StateStore {
    var lastUp: Option<int>
    var lastDown: Option<int>
    var history: seq<Row>
    var cordons: set<Id>

    constructor ()
      ensures Contents() == Store({}, None, None, [])
    {
      lastUp, lastDown, history, cordons := None, None, [], {};
    }

    function Contents(): Store
      reads this
    {
      Store(cordons, lastUp, lastDown, history)
    }

    /** Upserts one column and leaves the other. */
    method SetCooldown(up: bool, ts: int)
      modifies this`lastUp, this`lastDown
      ensures Contents() == if up then old(Contents()).(lastUp := Some(ts)) else old(Contents()).(lastDown := Some(ts))
    {
      if up {
        lastUp := Some(ts);
      } else {
        lastDown := Some(ts);
      }
    }

    method RecordAction(row: Row)
      modifies this`history
      ensures Contents() == old(Contents()).(history := old(history) + [row])
    {
      history := history + [row];
    }

    method SetCordon(id: Id, cordoned: bool)
      modifies this`cordons
      ensures Contents() == old(Contents()).(cordons := if cordoned then old(cordons) + {id} else old(cordons) - {id})
    {
      if cordoned {
        cordons := cordons + {id};
      } else {
        cordons := cordons - {id};
      }
    }

    method CountRecentRestarts(id: Id, since: int) returns (n: nat)
      ensures n == |RestartRows(history, id, since)|
      ensures n == CountRestarts(history, id, since)
    {
      CountIsRows(history, id, since);
      n := CountRestarts(history, id, since);
    }
  }

  /** The rows the count is of: restarts of `id` at or after `since`, failed ones included. */
  function RestartRows(history: seq<Row>, id: Id, since: int): set<int> {
    set i | 0 <= i < |history| && history[i].id == Some(id) && history[i].action == Restart && history[i].at >= since
  }

  lemma {:induction false} CountIsRows(history: seq<Row>, id: Id, since: int)
    ensures CountRestarts(history, id, since) == |RestartRows(history, id, since)|
  {
    if history != [] {
      var n, init := |history| - 1, history[..|history| - 1];
      CountIsRows(init, id, since);
      var row, before := history[n], RestartRows(init, id, since);
      if row.id == Some(id) && row.action == Restart && row.at >= since {
        assert RestartRows(history, id, since) == before + {n};
      } else {
        assert RestartRows(history, id, since) == before;
      }
    }
  }
}
