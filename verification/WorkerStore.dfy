// The worker half (aistat/worker_store.py, aistat/worker_sync.py): a credential
// table fenced by a durable per-user version row, and the pull cycle that fills it.
module WorkerStore {
  import opened Prelude
  import opened HandoffHost

  datatype Credential = Credential(serverUrl: string, workspace: Option<string>, token: string, epoch: nat)

  // state 'stored' or 'revoked' in worker_connection_versions
  datatype Version = Version(epoch: nat, revoked: bool)

  datatype Worker = Worker(credentials: map<UserId, Credential>, versions: map<UserId, Version>)

  // Refused stands for the ValueError of an id or server the store does not take,
  // Conflicting for its WorkerStoreError on one epoch with two contents.
  datatype StoreResult = Accepted | Stale | Conflicting | Refused

  function StoreToken(w: Worker, u: UserId, url: string, workspace: Option<string>, token: string, epoch: nat)
    : (Worker, StoreResult)
  {
    match NormalizeUrl(url)
    case None => (w, Refused)
    case Some(server) =>
      if !CanonicalId(u) then (w, Refused)
      else if u in w.versions && epoch < w.versions[u].epoch then (w, Stale)
      else if u in w.versions && epoch == w.versions[u].epoch then
        if w.versions[u].revoked then (w, Stale)
        else if u !in w.credentials then (w, Conflicting)
        else
          var held := w.credentials[u];
          if held.serverUrl != server || held.workspace != workspace || held.token != token then (w, Conflicting)
          else (w, Accepted)
      else
        (Worker(w.credentials[u := Credential(server, workspace, token, epoch)],
                w.versions[u := Version(epoch, false)]),
         Accepted)
  }

  function DeleteConnection(w: Worker, u: UserId, epoch: nat): (Worker, bool) {
    if u in w.versions && epoch < w.versions[u].epoch then (w, false)
    else if u in w.versions && epoch == w.versions[u].epoch then (w, w.versions[u].revoked)
    else (Worker(w.credentials - {u}, w.versions[u := Version(epoch, true)]), true)
  }

  // The join the collector's fence evaluates.
  predicate IsCurrent(w: Worker, u: UserId, epoch: nat) {
    && u in w.versions && !w.versions[u].revoked && w.versions[u].epoch == epoch
    && u in w.credentials && w.credentials[u].epoch == epoch
  }

  datatype Ack =
    | StoredAck(user: UserId, epoch: nat, lease: string)
    | RevokedAck(user: UserId, epoch: nat)

  // A pull response entry that does not have the expected shape aborts the cycle.
  datatype Wire<T> = Malformed | Entry(item: T)

  // Cycle outcome: the store as left behind, the acks prepared so far, and
  // whether the cycle survived to send them.
  datatype Cycle = Cycle(worker: Worker, acks: seq<Ack>, failed: seq<UserId>, alive: bool)

  function HandlePending(c: Cycle, entry: Wire<PendingItem>): Cycle {
    if !c.alive then c
    else match entry
      case Malformed => c.(alive := false)
      case Entry(x) =>
        var (w, r) := StoreToken(c.worker, x.user, x.serverUrl, x.workspace, x.token, x.epoch);
        match r
        case Accepted => c.(worker := w, acks := c.acks + [StoredAck(x.user, x.epoch, x.lease)])
        case Stale => c.(worker := w)
        case Conflicting => c.(worker := w, failed := c.failed + [x.user])
        case Refused => c.(worker := w, alive := false)
  }

  function HandleRevoked(c: Cycle, entry: Wire<RevokedItem>): Cycle {
    if !c.alive then c
    else match entry
      case Malformed => c.(alive := false)
      case Entry(x) =>
        if !CanonicalId(x.user) then c.(alive := false)
        else
          var (w, ok) := DeleteConnection(c.worker, x.user, x.epoch);
          c.(worker := w, acks := c.acks + if ok then [RevokedAck(x.user, x.epoch)] else [])
  }

  function PendingCycle(w: Worker, entries: seq<Wire<PendingItem>>): Cycle {
    if entries == [] then Cycle(w, [], [], true)
    else HandlePending(PendingCycle(w, entries[..|entries| - 1]), entries[|entries| - 1])
  }

  function RevokedCycle(c: Cycle, entries: seq<Wire<RevokedItem>>): Cycle {
    if entries == [] then c
    else HandleRevoked(RevokedCycle(c, entries[..|entries| - 1]), entries[|entries| - 1])
  }

  class WorkerTokenStore {
    var credentials: map<UserId, Credential>
    var versions: map<UserId, Version>

    constructor ()
      ensures View() == Worker(map[], map[])
    {
      credentials, versions := map[], map[];
    }

    function View(): Worker
      reads this
    {
      Worker(credentials, versions)
    }

    method Store(u: UserId, url: string, workspace: Option<string>, token: string, epoch: nat)
      returns (r: StoreResult)
      modifies this
      ensures (View(), r) == StoreToken(old(View()), u, url, workspace, token, epoch)
    {
      var server := NormalizeUrl(url);
      if server.None? || !CanonicalId(u) { return Refused; }
      if u in versions {
        var version := versions[u];
        if epoch < version.epoch { return Stale; }
        if epoch == version.epoch {
          if version.revoked { return Stale; }
          if u !in credentials { return Conflicting; }
          var held := credentials[u];
          if held.serverUrl != server.value || held.workspace != workspace || held.token != token {
            return Conflicting;
          }
          return Accepted;
        }
      }
      credentials := credentials[u := Credential(server.value, workspace, token, epoch)];
      versions := versions[u := Version(epoch, false)];
      return Accepted;
    }

    method Delete(u: UserId, epoch: nat) returns (ok: bool)
      modifies this
      ensures (View(), ok) == DeleteConnection(old(View()), u, epoch)
    {
      if u in versions {
        var version := versions[u];
        if epoch < version.epoch { return false; }
        if epoch == version.epoch { return version.revoked; }
      }
      credentials := credentials - {u};
      versions := versions[u := Version(epoch, true)];
      return true;
    }

    // One handoff cycle over a pull response; alive is false where the source raises
    // WorkerSyncError, and then no ack leaves the worker.
    method PullOnce(pending: seq<Wire<PendingItem>>, revoked: seq<Wire<RevokedItem>>)
      returns (acks: seq<Ack>, failed: seq<UserId>, alive: bool)
      modifies this
      ensures Cycle(View(), acks, failed, alive) == RevokedCycle(PendingCycle(old(View()), pending), revoked)
    {
      acks, failed, alive := [], [], true;
      for i := 0 to |pending|
        invariant Cycle(View(), acks, failed, alive) == PendingCycle(old(View()), pending[..i])
      {
        assert pending[..i + 1][..i] == pending[..i];
        if alive {
          if pending[i].Malformed? {
            alive := false;
          } else {
            var x := pending[i].item;
            var r := Store(x.user, x.serverUrl, x.workspace, x.token, x.epoch);
            match r {
              case Accepted => acks := acks + [StoredAck(x.user, x.epoch, x.lease)];
              case Stale =>
              case Conflicting => failed := failed + [x.user];
              case Refused => alive := false;
            }
          }
        }
      }
      assert pending[..|pending|] == pending;
      ghost var stored := PendingCycle(old(View()), pending);
      for i := 0 to |revoked|
        invariant Cycle(View(), acks, failed, alive) == RevokedCycle(stored, revoked[..i])
      {
        assert revoked[..i + 1][..i] == revoked[..i];
        if alive {
          if revoked[i].Malformed? || !CanonicalId(revoked[i].item.user) {
            alive := false;
          } else {
            var x := revoked[i].item;
            var ok := Delete(x.user, x.epoch);
            if ok { acks := acks + [RevokedAck(x.user, x.epoch)]; }
          }
        }
      }
      assert revoked[..|revoked|] == revoked;
    }
  }
}
