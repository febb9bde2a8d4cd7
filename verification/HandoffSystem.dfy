// Host, worker and network together. Messages once sent stay in the network set and
// may be handled at any later time, any number of times, in any order or never, which
// covers delay, duplication, reordering and loss.
module HandoffSystem {
  import opened Prelude
  import opened HandoffHost
  import opened WorkerStore

  datatype Message =
    | TokenMsg(user: UserId, item: PendingItem)
    | RevokeMsg(user: UserId, epoch: nat)
    | AckMsg(user: UserId, ack: Ack)
    | SyncMsg(user: UserId, epoch: nat, ok: bool, error: string)

  // What the user handed in for one epoch.
  datatype Submission = Submission(workspace: Option<string>, token: string)

  // submitted is the history of accepted submissions; no transition reads it.
  datatype System = System(
    host: Host,
    worker: Worker,
    net: set<Message>,
    submitted: map<(UserId, nat), Submission>)

  datatype Step =
    | SignUp(admin: bool)
    | SubmitToken(user: UserId, url: string, workspace: Option<string>, token: string, now: Time)
    | Disconnect(user: UserId, now: Time)
    | ViewStatus(ttl: int, now: Time)
    | WorkerPull(ttl: int, now: Time, leaseFor: UserId -> string)
    | PoisonUrl(user: UserId, url: string)
    | WorkerHandles(m: Message)
    | WorkerReports(user: UserId, epoch: nat, ok: bool, error: string)
    | HostHandles(m: Message, now: Time)
    | DeleteAccount(user: UserId, now: Time)

  function Init(): System {
    System(Host(map[], 1, map[], Option.None), Worker(map[], map[]), {}, map[])
  }

  function TokenMessages(items: seq<PendingItem>): set<Message> { set x | x in items :: TokenMsg(x.user, x) }

  function RevokeMessages(items: seq<RevokedItem>): set<Message> { set x | x in items :: RevokeMsg(x.user, x.epoch) }

  function Next(s: System, step: Step): System {
    match step
    case SignUp(admin) => s.(host := HandoffHost.CreateUser(s.host, admin))
    case SubmitToken(u, url, ws, token, now) =>
      var (h, r) := Submit(s.host, u, url, ws, token, now);
      s.(host := h,
         submitted := if r.Submitted? then s.submitted[(u, r.epoch) := Submission(ws, token)] else s.submitted)
    case Disconnect(u, now) => s.(host := Revoke(s.host, u, now).0)
    case ViewStatus(ttl, now) => s.(host := ReadStatus(s.host, ttl, now))
    case WorkerPull(ttl, now, leaseFor) =>
      var (h, pending, revoked) := Pull(s.host, ttl, now, leaseFor);
      s.(host := h, net := s.net + TokenMessages(pending) + RevokeMessages(revoked))
    case PoisonUrl(u, url) =>
      if u in s.host.connections then
        s.(host := s.host.(connections := s.host.connections[u := s.host.connections[u].(serverUrl := url)]))
      else s
    case WorkerHandles(m) => if m in s.net then WorkerStep(s, m) else s
    case WorkerReports(u, e, ok, error) => s.(net := s.net + {SyncMsg(u, e, ok, error)})
    case HostHandles(m, now) => if m in s.net then s.(host := HostStep(s.host, m, now).0) else s
    case DeleteAccount(u, now) => s.(host := DeleteUser(s.host, u, now).0)
  }

  function WorkerStep(s: System, m: Message): System {
    match m
    case TokenMsg(u, x) =>
      var (w, r) := StoreToken(s.worker, x.user, x.serverUrl, x.workspace, x.token, x.epoch);
      s.(worker := w, net := s.net + if r == Accepted then {AckMsg(x.user, StoredAck(x.user, x.epoch, x.lease))} else {})
    case RevokeMsg(u, e) =>
      var (w, ok) := DeleteConnection(s.worker, u, e);
      s.(worker := w, net := s.net + if ok then {AckMsg(u, RevokedAck(u, e))} else {})
    case _ => s
  }

  function HostStep(h: Host, m: Message, now: Time): (Host, AckResult) {
    match m
    case AckMsg(_, StoredAck(u, e, lease)) => AckStored(h, u, lease, e, now)
    case AckMsg(_, RevokedAck(u, e)) => AckRevoked(h, u, e, now)
    case SyncMsg(u, e, ok, error) => RecordSync(h, u, e, ok, error, now)
    case _ => (h, InvalidRequest)
  }

  function Exec(s: System, steps: seq<Step>): System {
    if steps == [] then s else Next(Exec(s, steps[..|steps| - 1]), steps[|steps| - 1])
  }

  // ---- the inductive invariant ----

  ghost predicate Held(s: System, u: UserId, epoch: nat, workspace: Option<string>, token: string) {
    (u, epoch) in s.submitted && s.submitted[(u, epoch)] == Submission(workspace, token)
  }

  ghost predicate WorkerOk(s: System, u: UserId) {
    && (u in s.worker.credentials <==> u in s.worker.versions && !s.worker.versions[u].revoked)
    && (u in s.worker.credentials ==>
          var k := s.worker.credentials[u];
          && k.epoch == s.worker.versions[u].epoch
          && k.serverUrl == OFFICIAL_URL
          && Held(s, u, k.epoch, k.workspace, k.token))
  }

  ghost predicate RowOk(s: System, u: UserId, c: Connection) {
    && c.epoch >= 1
    && (c.token.Some? <==> Leasable(c.status))
    && (c.token.Some? ==> Held(s, u, c.epoch, c.workspace, c.token.value))
    && (c.leaseId.Some? ==> Leasable(c.status))
    && (c.revokeAckedAt.Some? ==> c.status == Revoked)
    && (Revoking(c.status) ==> (u, c.epoch) !in s.submitted)
    && (forall e: nat :: (u, e) in s.submitted ==> 1 <= e <= c.epoch)
    && (u in s.worker.versions ==>
          var v := s.worker.versions[u];
          && v.epoch <= c.epoch
          && (v.epoch == c.epoch ==> (v.revoked <==> Revoking(c.status))))
    && (c.status == Active || c.status == Error ==> u in s.worker.versions && s.worker.versions[u].epoch == c.epoch)
    && (c.status == Revoked ==> u in s.worker.versions && s.worker.versions[u].epoch == c.epoch)
  }

  // No row: either the id has never had a connection, or the account is gone for good.
  ghost predicate NoRowOk(s: System, u: UserId) {
    && u !in s.worker.credentials
    && (u in s.host.users || u >= s.host.nextId ==>
          u !in s.worker.versions && forall e: nat :: (u, e) !in s.submitted)
  }

  ghost predicate UserOk(s: System, u: UserId) {
    && (u in s.host.users || u in s.host.connections ==> 0 < u < s.host.nextId)
    && WorkerOk(s, u)
    && (if u in s.host.connections then RowOk(s, u, s.host.connections[u]) else NoRowOk(s, u))
  }

  // What a message in flight may still say.
  ghost predicate MessageOk(s: System, m: Message) {
    match m
    case TokenMsg(u, x) =>
      && u == x.user
      && x.serverUrl == OFFICIAL_URL
      && Held(s, u, x.epoch, x.workspace, x.token)
      && (u !in s.host.connections ==>
            && u !in s.host.users && u < s.host.nextId
            && u in s.worker.versions && x.epoch < s.worker.versions[u].epoch)
    case RevokeMsg(u, e) =>
      && u < s.host.nextId
      && (u, e) !in s.submitted
      && (if u in s.host.connections
          then e <= s.host.connections[u].epoch && (e == s.host.connections[u].epoch ==> Revoking(s.host.connections[u].status))
          else u !in s.host.users)
    case AckMsg(u, StoredAck(a, e, lease)) =>
      u == a && (u, e) in s.submitted && u in s.worker.versions && e <= s.worker.versions[u].epoch
    case AckMsg(u, RevokedAck(a, e)) =>
      && u == a && u in s.worker.versions && e <= s.worker.versions[u].epoch
      && (e == s.worker.versions[u].epoch ==> s.worker.versions[u].revoked)
    case SyncMsg(_, _, _, _) => true
  }

  ghost predicate Inv(s: System) {
    && (forall u: UserId :: UserOk(s, u))
    && (forall m :: m in s.net ==> MessageOk(s, m))
    && s.host.nextId > 0
  }
}
