/** The watcher registry: a closable set of watchers under a lock. */
module Mailboxes {
  import opened Prelude

  /** Who is told about a termination: another actor's mailbox or the system's one-shot sink. */
  datatype Watcher = ActorWatcher(id: nat) | SystemWatcher

  /** `None` once termination has taken the watchers and closed registration. */
  type Registry = Option<set<Watcher>>

  function Added(r: Registry, w: Watcher): Registry {
    if r.Some? then Some(r.value + {w}) else None
  }

  function Removed(r: Registry, w: Watcher): Registry {
    if r.Some? then Some(r.value - {w}) else None
  }

  class WatcherRegistry {
    var watchers: Registry

    constructor ()
      ensures watchers == Some({})
    {
      watchers := Some({});
    }

    /** Registering is idempotent and fails exactly when registration is closed. */
    method Add(w: Watcher) returns (registered: bool)
      modifies this
      ensures watchers == Added(old(watchers), w)
      ensures registered <==> watchers.Some? && w in watchers.value
    {
      if watchers.None? {
        return false;
      }
      if w !in watchers.value {
        watchers := Some(watchers.value + {w});
      } else {
        assert watchers.value + {w} == watchers.value;
      }
      return true;
    }

    /** Removing never reopens registration. */
    method Remove(w: Watcher)
      modifies this
      ensures watchers == Removed(old(watchers), w)
    {
      if watchers.Some? {
        watchers := Some(watchers.value - {w});
      }
    }

    /** Closes registration: a racing `Add` either is in the result or fails. */
    method Take() returns (taken: set<Watcher>)
      modifies this
      ensures watchers == None
      ensures taken == if old(watchers).Some? then old(watchers).value else {}
    {
      taken := if watchers.Some? then watchers.value else {};
      watchers := None;
    }
  }
}
