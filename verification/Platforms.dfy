/** What the manager drives through its APIs: logical connectors at Twingate, containers on the platform. Which
    calls fail is the caller's `Faults`, standing for the environment. */
module Platforms {
  import opened Basics
  import opened Decider
  import opened Fleet

  class Platform {
    var nextId: nat
    var containers: set<Id>
    var logical: set<Id>

    constructor (containers: set<Id>, nextId: nat)
      requires forall id :: id in containers ==> id < nextId
      ensures Contents() == Cloud(nextId, containers, containers)
    {
      this.nextId, this.containers, this.logical := nextId, containers, containers;
    }

    function Contents(): Cloud
      reads this
    {
      Cloud(nextId, containers, logical)
    }

    /** A create attempt takes the next id whether or not it succeeds. */
    method CreateConnector(f: Faults) returns (id: Option<Id>)
      modifies this`nextId, this`logical
      ensures nextId == old(nextId) + 1
      ensures id == if old(nextId) in f.provision && f.provision[old(nextId)] == CreateFails then None
                    else Some(old(nextId))
      ensures logical == if id.Some? then old(logical) + {id.value} else old(logical)
    {
      var n := nextId;
      nextId := nextId + 1;
      if n in f.provision && f.provision[n] == CreateFails {
        return None;
      }
      logical := logical + {n};
      return Some(n);
    }

    method GenerateTokens(id: Id, f: Faults) returns (ok: bool)
      ensures ok == !(id in f.provision && f.provision[id] == TokensFail)
    {
      ok := !(id in f.provision && f.provision[id] == TokensFail);
    }

    method StartContainer(id: Id, f: Faults) returns (ok: bool)
      modifies this`containers
      ensures ok == !(id in f.provision && f.provision[id] == StartFails)
      ensures containers == if ok then old(containers) + {id} else old(containers)
    {
      ok := !(id in f.provision && f.provision[id] == StartFails);
      if ok {
        containers := containers + {id};
      }
    }

    /** Deleting a connector that no longer exists is an error. */
    method DeleteConnector(id: Id, subject: Id, f: Faults) returns (ok: bool)
      modifies this`logical
      ensures ok == (id in old(logical) && subject !in f.delete)
      ensures logical == if ok then old(logical) - {id} else old(logical)
    {
      ok := id in logical && subject !in f.delete;
      if ok {
        logical := logical - {id};
      }
    }

    method RemoveContainer(id: Id, works: bool) returns (ok: bool)
      modifies this`containers
      ensures ok == works && containers == if ok then old(containers) - {id} else old(containers)
    {
      ok := works;
      if ok {
        containers := containers - {id};
      }
    }

    /** A restart in place leaves the container where it is. */
    method RestartContainer(id: Id, f: Faults) returns (ok: bool)
      ensures ok == (id !in f.restart)
    {
      ok := id !in f.restart;
    }
  }
}
