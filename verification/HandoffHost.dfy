// The host half of the token handoff (aistat/handoff.py, SecurityStore.delete_user):
// one connection row per user and the atomic transitions on it. Each BEGIN
// IMMEDIATE ... commit block of the source is one function from a host state to
// the next one; class SecurityDb below performs the same transitions in place.
module HandoffHost {
  import opened Prelude

  type UserId = int
  type Time = int

  datatype Status = Pending | ReplacementPending | Active | Error | RevocationPending | Revoked

  datatype Connection = Connection(
    serverUrl: string,
    workspace: Option<string>,
    token: Option<string>,
    epoch: nat,
    status: Status,
    createdAt: Time,
    updatedAt: Time,
    leaseId: Option<string>,
    leaseExpiresAt: Time,
    revokeAckedAt: Option<Time>,
    lastSyncError: Option<string>,
    lastSyncedAt: Option<Time>)

  // users maps an id to its is_admin flag; nextId is the AUTOINCREMENT counter.
  datatype Host = Host(
    users: map<UserId, bool>,
    nextId: UserId,
    connections: map<UserId, Connection>,
    heartbeat: Option<Time>)

  datatype PendingItem = PendingItem(
    user: UserId, serverUrl: string, workspace: Option<string>, token: string, epoch: nat,
    lease: string, leaseExpiresAt: Time)

  datatype RevokedItem = RevokedItem(user: UserId, epoch: nat)

  datatype SubmitResult = UnsupportedServer | InvalidUser | UnknownUser | Submitted(epoch: nat)

  datatype AckResult =
    | Acknowledged(status: Status)
    | InvalidRequest
    | UnknownConnection
    | StaleEpoch
    | StaleLease
    | InvalidState

  datatype Teardown = NoConnection | AlreadyRevoked | AwaitingWorker
  datatype DeleteResult = InvalidTenant | OwnerRefused | Deleted(existed: bool, teardown: Teardown)

  const OFFICIAL_URL := "https://multica.ai"
  const UNSUPPORTED_SERVER := "unsupported Multica server"
  const PENDING_EXPIRED := "pending token expired before the worker collected it; reconnect to retry"
  const LEASE_SECONDS := 600
  const MAX_SQLITE_INTEGER := 9223372036854775807

  predicate Leasable(s: Status) { s == Pending || s == ReplacementPending }

  predicate Revoking(s: Status) { s == RevocationPending || s == Revoked }

  predicate CanonicalId(u: UserId) { 0 < u <= MAX_SQLITE_INTEGER }

  // The one official endpoint, or None where the source raises ValueError.
  function NormalizeUrl(value: string): Option<string> {
    if value == "" || value == OFFICIAL_URL then Some(OFFICIAL_URL) else None
  }

  // Erase the host token, void every lease and ack in flight, wait for the worker.
  function Park(c: Connection, now: Time, error: Option<string>): Connection {
    c.(token := None, status := RevocationPending, epoch := c.epoch + 1, updatedAt := now,
       leaseId := None, leaseExpiresAt := 0, revokeAckedAt := None, lastSyncError := error)
  }

  predicate Expired(c: Connection, ttl: int, now: Time) {
    Leasable(c.status) && c.updatedAt <= now - ttl
  }

  function PurgeRow(c: Connection, ttl: int, now: Time): Connection {
    if Expired(c, ttl, now) then Park(c, now, Some(PENDING_EXPIRED)) else c
  }

  function Purge(conns: map<UserId, Connection>, ttl: int, now: Time): map<UserId, Connection> {
    map u | u in conns :: PurgeRow(conns[u], ttl, now)
  }

  function ExpiredIds(conns: map<UserId, Connection>, ttl: int, now: Time): set<UserId> {
    set u | u in conns && Expired(conns[u], ttl, now)
  }

  function Parking(ttl: int, now: Time): (UserId, Connection) -> Connection {
    (u: UserId, c: Connection) => PurgeRow(c, ttl, now)
  }

  // Parking the expired rows one by one is the sweep.
  lemma PurgedOneByOne(conns: map<UserId, Connection>, ttl: int, now: Time)
    ensures UpdateRows(conns, Ascending(ExpiredIds(conns, ttl, now)), Parking(ttl, now)) == Purge(conns, ttl, now)
  {
    var ids := Ascending(ExpiredIds(conns, ttl, now));
    UpdateRowsAt(conns, ids, Parking(ttl, now));
    var swept := UpdateRows(conns, ids, Parking(ttl, now));
    forall u | u in conns ensures swept[u] == PurgeRow(conns[u], ttl, now) {
      assert u in ids <==> u in ExpiredIds(conns, ttl, now);
    }
    assert swept.Keys == conns.Keys;
  }

  function ReadStatus(h: Host, ttl: int, now: Time): Host {
    h.(connections := Purge(h.connections, ttl, now))
  }

  // A new account takes the next AUTOINCREMENT id, so no id is ever used twice.
  function CreateUser(h: Host, admin: bool): Host {
    h.(users := h.users[h.nextId := admin], nextId := h.nextId + 1)
  }

  function Submit(h: Host, u: UserId, url: string, workspace: Option<string>, token: string, now: Time)
    : (Host, SubmitResult)
  {
    match NormalizeUrl(url)
    case None => (h, UnsupportedServer)
    case Some(server) =>
      if !CanonicalId(u) then (h, InvalidUser)
      else if u !in h.users then (h, UnknownUser)
      else if u in h.connections then
        var c := h.connections[u];
        var c' := c.(serverUrl := server, workspace := workspace, token := Some(token), epoch := c.epoch + 1,
          status := ReplacementPending, updatedAt := now, leaseId := None, leaseExpiresAt := 0,
          revokeAckedAt := None, lastSyncError := None);
        (h.(connections := h.connections[u := c']), Submitted(c.epoch + 1))
      else
        var c' := Connection(server, workspace, Some(token), 1, Pending, now, now, None, 0, None, None, None);
        (h.(connections := h.connections[u := c']), Submitted(1))
  }

  function Revoke(h: Host, u: UserId, now: Time): (Host, bool) {
    if u !in h.connections then (h, false)
    else
      var c := h.connections[u];
      if Revoking(c.status) then (h, true)
      else (h.(connections := h.connections[u := Park(c, now, c.lastSyncError)]), true)
  }

  // What one pull does to one row: poisoned hosts are erased, everything else is leased.
  function LeaseRow(c: Connection, lease: string, now: Time): Connection {
    if !Leasable(c.status) || c.token.None? then c
    else match NormalizeUrl(c.serverUrl)
      case None => Park(c, now, Some(UNSUPPORTED_SERVER))
      case Some(server) => c.(serverUrl := server, leaseId := Some(lease), leaseExpiresAt := now + LEASE_SECONDS)
  }

  function LeaseTable(conns: map<UserId, Connection>, leaseFor: UserId -> string, now: Time): map<UserId, Connection> {
    map u | u in conns :: LeaseRow(conns[u], leaseFor(u), now)
  }

  function Granting(leaseFor: UserId -> string, now: Time): (UserId, Connection) -> Connection {
    (u: UserId, c: Connection) => LeaseRow(c, leaseFor(u), now)
  }

  // Leasing the rows one by one in ascending order leases the table.
  lemma LeasedOneByOne(conns: map<UserId, Connection>, leaseFor: UserId -> string, now: Time)
    ensures UpdateRows(conns, Ascending(conns.Keys), Granting(leaseFor, now)) == LeaseTable(conns, leaseFor, now)
  {
    UpdateRowsAt(conns, Ascending(conns.Keys), Granting(leaseFor, now));
    forall u | u in conns ensures u in Ascending(conns.Keys) { }
  }

  predicate Handed(c: Connection) {
    Leasable(c.status) && c.token.Some? && NormalizeUrl(c.serverUrl).Some?
  }

  function Item(u: UserId, c: Connection, lease: string, now: Time): PendingItem
    requires Handed(c)
  {
    PendingItem(u, OFFICIAL_URL, c.workspace, c.token.value, c.epoch, lease, now + LEASE_SECONDS)
  }

  function PendingItems(ids: seq<UserId>, conns: map<UserId, Connection>, leaseFor: UserId -> string, now: Time)
    : seq<PendingItem>
  {
    if ids == [] then []
    else
      var k := |ids| - 1;
      var u := ids[k];
      PendingItems(ids[..k], conns, leaseFor, now)
      + (if u in conns && Handed(conns[u]) then [Item(u, conns[u], leaseFor(u), now)] else [])
  }

  predicate AwaitsDeletion(c: Connection) { c.status == RevocationPending && c.revokeAckedAt.None? }

  function RevokedItems(ids: seq<UserId>, conns: map<UserId, Connection>): seq<RevokedItem>
  {
    if ids == [] then []
    else
      var k := |ids| - 1;
      var u := ids[k];
      RevokedItems(ids[..k], conns)
      + (if u in conns && AwaitsDeletion(conns[u]) then [RevokedItem(u, conns[u].epoch)] else [])
  }

  lemma LeaseNext(conns: map<UserId, Connection>, ids: seq<UserId>, i: nat, leaseFor: UserId -> string, now: Time)
    requires ids == Ascending(conns.Keys) && i < |ids|
    ensures var u, at := ids[i], UpdateRows(conns, ids[..i], Granting(leaseFor, now));
      && u in conns && u in at && at[u] == conns[u]
      && UpdateRows(conns, ids[..i + 1], Granting(leaseFor, now)) == at[u := LeaseRow(conns[u], leaseFor(u), now)]
      && PendingItems(ids[..i + 1], conns, leaseFor, now)
         == PendingItems(ids[..i], conns, leaseFor, now)
            + if Handed(conns[u]) then [Item(u, conns[u], leaseFor(u), now)] else []
  {
    var u := ids[i];
    assert u in ids;
    UpdateRowsNext(conns, ids, i, Granting(leaseFor, now));
    PendingItemsNext(ids, i, conns, leaseFor, now);
  }

  lemma RevokedItemsNext(ids: seq<UserId>, i: nat, conns: map<UserId, Connection>)
    requires i < |ids|
    ensures RevokedItems(ids[..i + 1], conns)
         == if ids[i] in conns && AwaitsDeletion(conns[ids[i]])
            then RevokedItems(ids[..i], conns) + [RevokedItem(ids[i], conns[ids[i]].epoch)]
            else RevokedItems(ids[..i], conns)
  {
    assert ids[..i + 1][..i] == ids[..i];
  }

  // The authenticated pull: heartbeat, TTL sweep, leases, and the purge list.
  function Pull(h: Host, ttl: int, now: Time, leaseFor: UserId -> string)
    : (Host, seq<PendingItem>, seq<RevokedItem>)
  {
    var swept := Purge(h.connections, ttl, now);
    var after := Pulled(h, ttl, now, leaseFor);
    (after,
     PendingItems(Ascending(swept.Keys), swept, leaseFor, now),
     RevokedItems(Ascending(after.connections.Keys), after.connections))
  }

  // The host after it.
  function Pulled(h: Host, ttl: int, now: Time, leaseFor: UserId -> string): Host {
    h.(connections := LeaseTable(Purge(h.connections, ttl, now), leaseFor, now), heartbeat := Some(now))
  }

  function AckStored(h: Host, u: UserId, lease: string, epoch: nat, now: Time): (Host, AckResult) {
    if !CanonicalId(u) || lease == "" then (h, InvalidRequest)
    else if u !in h.connections then (h, UnknownConnection)
    else
      var c := h.connections[u];
      if !Leasable(c.status) || c.epoch != epoch then (h, StaleEpoch)
      else if c.leaseId != Some(lease) then (h, StaleLease)
      else if c.leaseExpiresAt <= now then (h, StaleLease)
      else
        var c' := c.(token := None, status := Active, updatedAt := now, leaseId := None,
          leaseExpiresAt := 0, lastSyncError := None);
        (h.(connections := h.connections[u := c']), Acknowledged(Active))
  }

  function AckRevoked(h: Host, u: UserId, epoch: nat, now: Time): (Host, AckResult) {
    if !CanonicalId(u) then (h, InvalidRequest)
    else if u !in h.connections then (h, UnknownConnection)
    else
      var c := h.connections[u];
      if c.epoch != epoch then (h, StaleEpoch)
      else if c.status == Revoked then (h, Acknowledged(Revoked))
      else if c.status != RevocationPending then (h, StaleEpoch)
      else
        var c' := c.(status := Revoked, revokeAckedAt := Some(now), updatedAt := now);
        (h.(connections := h.connections[u := c']), Acknowledged(Revoked))
  }

  // error is the allow-listed message safe_sync_error has already chosen.
  function RecordSync(h: Host, u: UserId, epoch: nat, ok: bool, error: string, now: Time): (Host, AckResult) {
    if !CanonicalId(u) then (h, InvalidRequest)
    else if u !in h.connections then (h, UnknownConnection)
    else
      var c := h.connections[u];
      if c.epoch != epoch then (h, StaleEpoch)
      else if c.status != Active && c.status != Error then (h, InvalidState)
      else if ok then
        var c' := c.(status := Active, lastSyncedAt := Some(now), lastSyncError := None, updatedAt := now);
        (h.(connections := h.connections[u := c']), Acknowledged(Active))
      else
        var c' := c.(status := Error, lastSyncError := Some(error), updatedAt := now);
        (h.(connections := h.connections[u := c']), Acknowledged(Error))
  }

  function DeleteUser(h: Host, u: UserId, now: Time): (Host, DeleteResult) {
    if !CanonicalId(u) then (h, InvalidTenant)
    else if u in h.users && h.users[u] then (h, OwnerRefused)
    else
      var remaining := h.(users := h.users - {u});
      if u !in h.connections then
        (remaining, Deleted(u in h.users, NoConnection))
      else if h.connections[u].status == Revoked then
        (remaining.(connections := h.connections - {u}), Deleted(u in h.users, AlreadyRevoked))
      else
        (remaining.(connections := h.connections[u := Park(h.connections[u], now, None)]),
         Deleted(u in h.users, AwaitingWorker))
  }

  lemma PendingItemsNext(
      ids: seq<UserId>, i: nat, conns: map<UserId, Connection>, leaseFor: UserId -> string, now: Time)
    requires i < |ids| && ids[i] in conns
    ensures PendingItems(ids[..i + 1], conns, leaseFor, now)
         == PendingItems(ids[..i], conns, leaseFor, now)
            + (if Handed(conns[ids[i]]) then [Item(ids[i], conns[ids[i]], leaseFor(ids[i]), now)] else [])
  {
    assert ids[..i + 1][..i] == ids[..i];
  }

  // Exactly the rows that are handed over appear in the pending list.
  lemma {:induction false} PendingItemsExact(
      ids: seq<UserId>, conns: map<UserId, Connection>, leaseFor: UserId -> string, now: Time, x: PendingItem)
    ensures x in PendingItems(ids, conns, leaseFor, now)
       <==> x.user in ids && x.user in conns && Handed(conns[x.user]) && x == Item(x.user, conns[x.user], leaseFor(x.user), now)
  {
    if ids != [] {
      var k := |ids| - 1;
      PendingItemsExact(ids[..k], conns, leaseFor, now, x);
      assert ids == ids[..k] + [ids[k]];
    }
  }

  lemma {:induction false} RevokedItemsExact(ids: seq<UserId>, conns: map<UserId, Connection>, x: RevokedItem)
    ensures x in RevokedItems(ids, conns)
       <==> x.user in ids && x.user in conns && AwaitsDeletion(conns[x.user]) && x.epoch == conns[x.user].epoch
  {
    if ids != [] {
      var k := |ids| - 1;
      RevokedItemsExact(ids[..k], conns, x);
      assert ids == ids[..k] + [ids[k]];
    }
  }

  // The tables of security.db, changed in place by the transitions above.
  class SecurityDb {
    var users: map<UserId, bool>
    var nextId: UserId
    var connections: map<UserId, Connection>
    var heartbeat: Option<Time>

    constructor ()
      ensures View() == Host(map[], 1, map[], None)
    {
      users, nextId, connections, heartbeat := map[], 1, map[], None;
    }

    function View(): Host
      reads this
    {
      Host(users, nextId, connections, heartbeat)
    }

    method SubmitConnection(u: UserId, url: string, workspace: Option<string>, token: string, now: Time)
      returns (r: SubmitResult)
      modifies this
      ensures (View(), r) == Submit(old(View()), u, url, workspace, token, now)
    {
      var server := NormalizeUrl(url);
      if server.None? { return UnsupportedServer; }
      if !CanonicalId(u) { return InvalidUser; }
      if u !in users { return UnknownUser; }
      if u in connections {
        var row := connections[u];
        var epoch := row.epoch + 1;
        connections := connections[u := row.(serverUrl := server.value, workspace := workspace, token := Some(token),
          epoch := epoch, status := ReplacementPending, updatedAt := now, leaseId := None, leaseExpiresAt := 0,
          revokeAckedAt := None, lastSyncError := None)];
        return Submitted(epoch);
      }
      connections := connections[u :=
        Connection(server.value, workspace, Some(token), 1, Pending, now, now, None, 0, None, None, None)];
      return Submitted(1);
    }

    method RevokeConnection(u: UserId, now: Time) returns (known: bool)
      modifies this
      ensures (View(), known) == Revoke(old(View()), u, now)
    {
      if u !in connections { return false; }
      var row := connections[u];
      if row.status != RevocationPending && row.status != Revoked {
        ParkRow(u, now, row.lastSyncError);
      }
      return true;
    }

    // The UPDATE that every path to revocation_pending issues.
    method ParkRow(u: UserId, now: Time, error: Option<string>)
      requires u in connections
      modifies this`connections
      ensures connections == old(connections)[u := Park(old(connections)[u], now, error)]
    {
      var row := connections[u];
      connections := connections[u := row.(token := None, status := RevocationPending, epoch := row.epoch + 1,
        updatedAt := now, leaseId := None, leaseExpiresAt := 0, revokeAckedAt := None, lastSyncError := error)];
    }

    // _purge_expired_pending_locked: select the expired rows, then update them one by one.
    method PurgeExpired(ttl: int, now: Time)
      modifies this`connections
      ensures connections == Purge(old(connections), ttl, now)
    {
      var before := connections;
      ghost var park := Parking(ttl, now);
      var ids := Ascending(ExpiredIds(before, ttl, now));
      for i := 0 to |ids|
        invariant connections == UpdateRows(before, ids[..i], park)
      {
        var u := ids[i];
        assert u in ids && u in ExpiredIds(before, ttl, now);
        UpdateRowsNext(before, ids, i, park);
        ParkRow(u, now, Some(PENDING_EXPIRED));
      }
      assert ids[..|ids|] == ids;
      PurgedOneByOne(before, ttl, now);
    }

    // One turn of the leasing loop.
    method LeaseOne(u: UserId, lease: string, now: Time) returns (item: Option<PendingItem>)
      requires u in connections
      modifies this`connections
      ensures connections == old(connections)[u := LeaseRow(old(connections)[u], lease, now)]
      ensures item == if Handed(old(connections)[u]) then Some(Item(u, old(connections)[u], lease, now)) else None
    {
      var row := connections[u];
      item := None;
      if Leasable(row.status) && row.token.Some? {
        var server := NormalizeUrl(row.serverUrl);
        if server.None? {
          ParkRow(u, now, Some(UNSUPPORTED_SERVER));
        } else {
          connections := connections[u := row.(serverUrl := server.value, leaseId := Some(lease),
            leaseExpiresAt := now + LEASE_SECONDS)];
          item := Some(PendingItem(u, server.value, row.workspace, row.token.value, row.epoch, lease,
            now + LEASE_SECONDS));
        }
      } else {
        assert connections == connections[u := row];
      }
    }

    method LeaseAll(now: Time, leaseFor: UserId -> string) returns (pending: seq<PendingItem>)
      modifies this`connections
      ensures connections == LeaseTable(old(connections), leaseFor, now)
      ensures pending == PendingItems(Ascending(old(connections).Keys), old(connections), leaseFor, now)
    {
      ghost var swept := connections;
      var ids := Ascending(connections.Keys);
      pending := [];
      for i := 0 to |ids|
        invariant connections == UpdateRows(swept, ids[..i], Granting(leaseFor, now))
        invariant pending == PendingItems(ids[..i], swept, leaseFor, now)
      {
        var u := ids[i];
        LeaseNext(swept, ids, i, leaseFor, now);
        var item := LeaseOne(u, leaseFor(u), now);
        if item.Some? { pending := pending + [item.value]; }
      }
      assert ids[..|ids|] == ids;
      LeasedOneByOne(swept, leaseFor, now);
    }

    method ListRevoked() returns (revoked: seq<RevokedItem>)
      ensures revoked == RevokedItems(Ascending(connections.Keys), connections)
    {
      var ids := Ascending(connections.Keys);
      revoked := [];
      for i := 0 to |ids|
        invariant revoked == RevokedItems(ids[..i], connections)
      {
        var u := ids[i];
        assert u in ids;
        RevokedItemsNext(ids, i, connections);
        if AwaitsDeletion(connections[u]) {
          revoked := revoked + [RevokedItem(u, connections[u].epoch)];
        }
      }
      assert ids[..|ids|] == ids;
    }

    method LeasePendingConnections(ttl: int, now: Time, leaseFor: UserId -> string)
      returns (pending: seq<PendingItem>, revoked: seq<RevokedItem>)
      modifies this
      ensures (View(), pending, revoked) == Pull(old(View()), ttl, now, leaseFor)
    {
      heartbeat := Some(now);
      PurgeExpired(ttl, now);
      pending := LeaseAll(now, leaseFor);
      revoked := ListRevoked();
    }

    method AckConnectionStored(u: UserId, lease: string, epoch: nat, now: Time) returns (r: AckResult)
      modifies this
      ensures (View(), r) == AckStored(old(View()), u, lease, epoch, now)
    {
      if !CanonicalId(u) || lease == "" { return InvalidRequest; }
      if u !in connections { return UnknownConnection; }
      var row := connections[u];
      if !Leasable(row.status) || row.epoch != epoch { return StaleEpoch; }
      if row.leaseId.None? || row.leaseId.value != lease { return StaleLease; }
      if row.leaseExpiresAt <= now { return StaleLease; }
      connections := connections[u := row.(token := None, status := Active, updatedAt := now, leaseId := None,
        leaseExpiresAt := 0, lastSyncError := None)];
      return Acknowledged(Active);
    }

    method AckConnectionRevoked(u: UserId, epoch: nat, now: Time) returns (r: AckResult)
      modifies this
      ensures (View(), r) == AckRevoked(old(View()), u, epoch, now)
    {
      if !CanonicalId(u) { return InvalidRequest; }
      if u !in connections { return UnknownConnection; }
      var row := connections[u];
      if row.epoch != epoch { return StaleEpoch; }
      if row.status == Revoked { return Acknowledged(Revoked); }
      if row.status != RevocationPending { return StaleEpoch; }
      connections := connections[u := row.(status := Revoked, revokeAckedAt := Some(now), updatedAt := now)];
      return Acknowledged(Revoked);
    }

    method RecordConnectionSync(u: UserId, epoch: nat, ok: bool, error: string, now: Time) returns (r: AckResult)
      modifies this
      ensures (View(), r) == RecordSync(old(View()), u, epoch, ok, error, now)
    {
      if !CanonicalId(u) { return InvalidRequest; }
      if u !in connections { return UnknownConnection; }
      var row := connections[u];
      if row.epoch != epoch { return StaleEpoch; }
      if row.status != Active && row.status != Error { return InvalidState; }
      if ok {
        connections := connections[u :=
          row.(status := Active, lastSyncedAt := Some(now), lastSyncError := None, updatedAt := now)];
        return Acknowledged(Active);
      }
      connections := connections[u := row.(status := Error, lastSyncError := Some(error), updatedAt := now)];
      return Acknowledged(Error);
    }

    method DeleteAccount(u: UserId, now: Time) returns (r: DeleteResult)
      modifies this
      ensures (View(), r) == DeleteUser(old(View()), u, now)
    {
      if !CanonicalId(u) { return InvalidTenant; }
      if u in users && users[u] { return OwnerRefused; }
      var teardown;
      if u !in connections {
        teardown := NoConnection;
      } else if connections[u].status == Revoked {
        teardown := AlreadyRevoked;
      } else {
        teardown := AwaitingWorker;
        ParkRow(u, now, None);
      }
      if teardown != AwaitingWorker {
        assert u !in connections ==> connections - {u} == connections;
        connections := connections - {u};
      }
      r := Deleted(u in users, teardown);
      users := users - {u};
    }
  }
}
