// What the handoff delivers, and when: a submitted token is handed to every pull until its time is
// up, and then to none; an undisturbed exchange ends where it should.
module HandoffDelivery {
  import opened Prelude
  import opened HandoffHost
  import opened WorkerStore
  import opened HandoffSystem
  import opened HandoffInvariant
  import opened HandoffTheorems

  // The row waits for the worker to collect its token.
  predicate Waits(c: Connection) { c.status == Pending || c.status == ReplacementPending }

  // What is left of the submission of epoch e at time t: while the row waits at that epoch it
  // holds the submitted token, untouched since t.
  ghost predicate Since(s: System, u: UserId, e: nat, t: Time, workspace: Option<string>, token: string) {
    if u in s.host.connections then SinceRow(s.host.connections[u], e, t, workspace, token) else Gone(s, u)
  }

  ghost predicate SinceRow(c: Connection, e: nat, t: Time, workspace: Option<string>, token: string) {
    || c.epoch > e
    || (c.epoch == e && (Waits(c) ==> c.updatedAt == t && c.token == Some(token) && c.workspace == workspace))
  }

  lemma PulledSince(
      c: Connection, ttl: int, now: Time, lease: string, e: nat, t: Time, workspace: Option<string>, token: string)
    requires SinceRow(c, e, t, workspace, token)
    ensures SinceRow(LeaseRow(PurgeRow(c, ttl, now), lease, now), e, t, workspace, token)
  {
  }

  lemma SubmitStarts(s: System, u: UserId, url: string, workspace: Option<string>, token: string, t: Time, e: nat)
    requires Submit(s.host, u, url, workspace, token, t).1 == Submitted(e)
    ensures Since(Next(s, SubmitToken(u, url, workspace, token, t)), u, e, t, workspace, token)
  {
  }

  lemma SinceHost(s: System, m: Message, now: Time, u: UserId, e: nat, t: Time, workspace: Option<string>, token: string)
    requires Since(s, u, e, t, workspace, token)
    ensures Since(s.(host := HostStep(s.host, m, now).0), u, e, t, workspace, token)
  {
  }

  lemma SincePull(s: System, step: Step, u: UserId, e: nat, t: Time, workspace: Option<string>, token: string)
    requires Since(s, u, e, t, workspace, token) && step.WorkerPull?
    ensures Since(Next(s, step), u, e, t, workspace, token)
  {
    hide SinceRow;
    PulledHost(s, step);
    if u in s.host.connections {
      PullRow(s.host, u, step.ttl, step.now, step.leaseFor);
      PulledSince(s.host.connections[u], step.ttl, step.now, step.leaseFor(u), e, t, workspace, token);
    }
  }

  lemma SinceStep(s: System, step: Step, u: UserId, e: nat, t: Time, workspace: Option<string>, token: string)
    requires Since(s, u, e, t, workspace, token) && UserOk(s, u)
    ensures Since(Next(s, step), u, e, t, workspace, token)
  {
    match step
    case WorkerPull(_, _, _) => SincePull(s, step, u, e, t, workspace, token);
    case HostHandles(m, now) => if m in s.net { SinceHost(s, m, now, u, e, t, workspace, token); }
    case _ =>
  }

  lemma {:induction false} SinceLasts(s: System, more: seq<Step>, u: UserId, e: nat, t: Time, workspace: Option<string>, token: string)
    requires Inv(s) && Since(s, u, e, t, workspace, token)
    ensures Since(Exec(s, more), u, e, t, workspace, token)
  {
    if more != [] {
      var k := |more| - 1;
      SinceLasts(s, more[..k], u, e, t, workspace, token);
      RunKeeps(s, more[..k]);
      assert UserOk(Exec(s, more[..k]), u);
      SinceStep(Exec(s, more[..k]), more[k], u, e, t, workspace, token);
    }
  }

  // A submission that was accepted, and the run after it.
  datatype Submission = Submission(
    before: seq<Step>, user: UserId, url: string, workspace: Option<string>, token: string, at: Time, epoch: nat, after: seq<Step>)

  function Steps(x: Submission): seq<Step> {
    x.before + [SubmitToken(x.user, x.url, x.workspace, x.token, x.at)] + x.after
  }

  ghost predicate Accepted(x: Submission) {
    Submit(Run(x.before).host, x.user, x.url, x.workspace, x.token, x.at).1 == Submitted(x.epoch)
  }

  // At the end of the run its row still waits: nothing else has moved it.
  ghost predicate StillWaits(x: Submission) {
    var h := Run(Steps(x)).host;
    x.user in h.connections && h.connections[x.user].epoch == x.epoch && Waits(h.connections[x.user])
  }

  lemma SubmissionIsKept(x: Submission)
    requires Accepted(x)
    ensures Since(Run(Steps(x)), x.user, x.epoch, x.at, x.workspace, x.token)
  {
    var submit := SubmitToken(x.user, x.url, x.workspace, x.token, x.at);
    var s := Run(x.before);
    RunInv(x.before);
    SubmitStarts(s, x.user, x.url, x.workspace, x.token, x.at, x.epoch);
    assert (x.before + [submit])[..|x.before|] == x.before;
    RunInv(x.before + [submit]);
    ExecSplit(Init(), x.before + [submit], x.after);
    SinceLasts(Run(x.before + [submit]), x.after, x.user, x.epoch, x.at, x.workspace, x.token);
  }

  // A step that leaves the row waiting: no later submission, disconnect, deletion or poisoned address
  // of this user, no ack that was accepted, and no pull or look at the status once its time is up.
  predicate Quiet(step: Step, u: UserId, t: Time) {
    match step
    case SubmitToken(v, _, _, _, _) => v != u
    case Disconnect(v, _) => v != u
    case DeleteAccount(v, _) => v != u
    case PoisonUrl(v, _) => v != u
    case HostHandles(m, _) => m.AckMsg? ==> m.ack.user != u
    case WorkerPull(ttl, now, _) => now < t + ttl
    case ViewStatus(ttl, now) => now < t + ttl
    case _ => true
  }

  ghost predicate WaitsAt(s: System, u: UserId, e: nat, t: Time) {
    && u in s.host.connections && s.host.connections[u].epoch == e && Waits(s.host.connections[u])
    && s.host.connections[u].updatedAt == t && s.host.connections[u].token.Some?
    && s.host.connections[u].serverUrl == "https://multica.ai"
  }

  lemma QuietPull(s: System, step: Step, u: UserId, e: nat, t: Time)
    requires WaitsAt(s, u, e, t) && Quiet(step, u, t) && step.WorkerPull?
    ensures WaitsAt(Next(s, step), u, e, t)
  {
    PulledHost(s, step);
    PullRow(s.host, u, step.ttl, step.now, step.leaseFor);
  }

  lemma QuietStep(s: System, step: Step, u: UserId, e: nat, t: Time)
    requires WaitsAt(s, u, e, t) && Quiet(step, u, t)
    ensures WaitsAt(Next(s, step), u, e, t)
  {
    if step.WorkerPull? { QuietPull(s, step, u, e, t); }
  }

  lemma {:induction false} QuietRun(s: System, more: seq<Step>, u: UserId, e: nat, t: Time)
    requires WaitsAt(s, u, e, t) && forall step :: step in more ==> Quiet(step, u, t)
    ensures WaitsAt(Exec(s, more), u, e, t)
  {
    if more != [] {
      var k := |more| - 1;
      QuietRun(s, more[..k], u, e, t);
      assert more[k] in more;
      QuietStep(Exec(s, more[..k]), more[k], u, e, t);
    }
  }

  // So the row still waits, at the official address, as long as only quiet steps have followed.
  lemma QuietSubmissionWaits(x: Submission)
    requires Accepted(x) && forall step :: step in x.after ==> Quiet(step, x.user, x.at)
    ensures StillWaits(x) && Run(Steps(x)).host.connections[x.user].serverUrl == "https://multica.ai"
  {
    var submit := SubmitToken(x.user, x.url, x.workspace, x.token, x.at);
    assert (x.before + [submit])[..|x.before|] == x.before;
    ExecSplit(Init(), x.before + [submit], x.after);
    QuietRun(Run(x.before + [submit]), x.after, x.user, x.epoch, x.at);
  }

  // What the worker is handed.
  function Offer(x: Submission, now: Time, leaseFor: UserId -> string): PendingItem {
    PendingItem(x.user, "https://multica.ai", x.workspace, x.token, x.epoch, leaseFor(x.user), now + 600)
  }

  // A row that waited too long: no token, the worker asked to delete, one epoch further.
  predicate GivenUp(c: Connection, epoch: nat) {
    Parked(c, epoch) && c.lastSyncError == Some("pending token expired before the worker collected it; reconnect to retry")
  }

  // The host has forgotten the token and waits for the worker to do so.
  predicate Parked(c: Connection, epoch: nat) {
    c.token.None? && c.leaseId.None? && c.revokeAckedAt.None? && c.status == RevocationPending && c.epoch == epoch + 1
  }

  lemma PullSends(s: System, ttl: int, now: Time, leaseFor: UserId -> string, item: PendingItem)
    requires item in Pull(s.host, ttl, now, leaseFor).1
    ensures TokenMsg(item.user, item) in Next(s, WorkerPull(ttl, now, leaseFor)).net
  {
    hide Pull;
    SentItem(Pull(s.host, ttl, now, leaseFor).1, item);
  }

  lemma SentItem(items: seq<PendingItem>, item: PendingItem)
    requires item in items
    ensures TokenMsg(item.user, item) in TokenMessages(items)
  {
  }

  lemma FreshRow(h: Host, u: UserId, ttl: int, now: Time, leaseFor: UserId -> string)
    requires u in h.connections && Waits(h.connections[u]) && h.connections[u].token.Some?
    requires now < h.connections[u].updatedAt + ttl && h.connections[u].serverUrl in {"", "https://multica.ai"}
    ensures var c := h.connections[u]; var (t, pending, _) := Pull(h, ttl, now, leaseFor);
      && PendingItem(u, "https://multica.ai", c.workspace, c.token.value, c.epoch, leaseFor(u), now + 600) in pending
      && u in t.connections
      && t.connections[u] == c.(serverUrl := "https://multica.ai", leaseId := Some(leaseFor(u)), leaseExpiresAt := now + 600)
  {
    var c, swept := h.connections[u], Purge(h.connections, ttl, now);
    PendingItemsExact(Ascending(swept.Keys), swept, leaseFor, now,
      PendingItem(u, "https://multica.ai", c.workspace, c.token.value, c.epoch, leaseFor(u), now + 600));
    PullRow(h, u, ttl, now, leaseFor);
  }

  // Before its time is up every pull hands the token over, under that pull's lease ...
  lemma FreshTokenIsDelivered(x: Submission, ttl: int, now: Time, leaseFor: UserId -> string)
    requires Accepted(x) && StillWaits(x) && now < x.at + ttl
    requires Run(Steps(x)).host.connections[x.user].serverUrl in {"", "https://multica.ai"}
    ensures var s := Run(Steps(x)); var (h, pending, _) := Pull(s.host, ttl, now, leaseFor);
      && Offer(x, now, leaseFor) in pending
      && TokenMsg(x.user, Offer(x, now, leaseFor)) in Next(s, WorkerPull(ttl, now, leaseFor)).net
      && x.user in h.connections
      && h.connections[x.user] == s.host.connections[x.user].(
           serverUrl := "https://multica.ai", leaseId := Some(leaseFor(x.user)), leaseExpiresAt := now + 600)
  {
    hide Pull, Next, Exec, Submit;
    SubmissionIsKept(x);
    var s := Run(Steps(x));
    FreshRow(s.host, x.user, ttl, now, leaseFor);
    PullSends(s, ttl, now, leaseFor, Offer(x, now, leaseFor));
  }

  // ... and a look at the status leaves it alone.
  lemma FreshTokenIsShown(x: Submission, ttl: int, now: Time)
    requires Accepted(x) && StillWaits(x) && now < x.at + ttl
    ensures var s := Run(Steps(x));
      var h := ReadStatus(s.host, ttl, now);
      x.user in h.connections && h.connections[x.user] == s.host.connections[x.user]
  {
    SubmissionIsKept(x);
  }

  // From that moment on every pull and every look at the status gives it up, and no pull hands
  // it over.
  lemma StaleTokenIsGivenUp(x: Submission, ttl: int, now: Time, leaseFor: UserId -> string)
    requires Accepted(x) && StillWaits(x) && now >= x.at + ttl
    ensures var s := Run(Steps(x));
      var (h, pending, revoked) := Pull(s.host, ttl, now, leaseFor);
      var seen := ReadStatus(s.host, ttl, now);
      && x.user in h.connections && GivenUp(h.connections[x.user], x.epoch)
      && x.user in seen.connections && GivenUp(seen.connections[x.user], x.epoch)
      && RevokedItem(x.user, x.epoch + 1) in revoked
      && forall item :: item in pending ==> item.user != x.user
  {
    SubmissionIsKept(x);
    var s := Run(Steps(x));
    var (h, pending, revoked) := Pull(s.host, ttl, now, leaseFor);
    var swept := Purge(s.host.connections, ttl, now);
    PullRow(s.host, x.user, ttl, now, leaseFor);
    RevokedItemsExact(Ascending(h.connections.Keys), h.connections, RevokedItem(x.user, x.epoch + 1));
    forall item | item in pending ensures item.user != x.user {
      PendingItemsExact(Ascending(swept.Keys), swept, leaseFor, now, item);
    }
  }

  // Time alone moves no other row, however old it is.
  lemma SettledRowsStay(h: Host, u: UserId, ttl: int, now: Time, leaseFor: UserId -> string)
    requires u in h.connections && !Waits(h.connections[u])
    ensures var t := Pull(h, ttl, now, leaseFor).0; u in t.connections && t.connections[u] == h.connections[u]
    ensures var t := ReadStatus(h, ttl, now); u in t.connections && t.connections[u] == h.connections[u]
  {
  }

  // ---- undisturbed exchanges ----

  // Pull, store, acknowledge: the connection is active, the host has forgotten the token and the
  // worker holds it.
  lemma HandoffCompletes(x: Submission, ttl: int, now: Time, leaseFor: UserId -> string, later: Time)
    requires Accepted(x) && StillWaits(x) && now < x.at + ttl && later < now + 600
    requires Run(Steps(x)).host.connections[x.user].serverUrl in {"", "https://multica.ai"}
    requires leaseFor(x.user) != ""
    ensures var pulled := Next(Run(Steps(x)), WorkerPull(ttl, now, leaseFor));
      var stored := Next(pulled, WorkerHandles(TokenMsg(x.user, Offer(x, now, leaseFor))));
      var t := Next(stored, HostHandles(AckMsg(x.user, StoredAck(x.user, x.epoch, leaseFor(x.user))), later));
      && x.user in t.host.connections
      && t.host.connections[x.user].status == Active && t.host.connections[x.user].epoch == x.epoch
      && t.host.connections[x.user].token.None?
      && x.user in t.worker.credentials
      && t.worker.credentials[x.user] == Credential("https://multica.ai", x.workspace, x.token, x.epoch)
  {
    var s := Run(Steps(x));
    var pulled := Next(s, WorkerPull(ttl, now, leaseFor));
    FreshTokenIsDelivered(x, ttl, now, leaseFor);
    SubmissionIsKept(x);
    PulledHost(s, WorkerPull(ttl, now, leaseFor));
    RunInv(Steps(x));
    StepKeeps(s, WorkerPull(ttl, now, leaseFor));
    CanonicalSubmitter(x);
    StoreAccepts(pulled, x.user, Offer(x, now, leaseFor));
    AckActivates(Next(pulled, WorkerHandles(TokenMsg(x.user, Offer(x, now, leaseFor)))), x.user, x.epoch, leaseFor(x.user), later);
  }

  lemma CanonicalSubmitter(x: Submission)
    requires Accepted(x)
    ensures CanonicalId(x.user)
  {
  }

  lemma StoreAccepts(s: System, u: UserId, item: PendingItem)
    requires Inv(s) && TokenMsg(u, item) in s.net && CanonicalId(u)
    requires u in s.host.connections && s.host.connections[u].epoch == item.epoch && Waits(s.host.connections[u])
    ensures var t := Next(s, WorkerHandles(TokenMsg(u, item)));
      && t.host == s.host && AckMsg(u, StoredAck(u, item.epoch, item.lease)) in t.net
      && u in t.worker.credentials
      && t.worker.credentials[u] == Credential("https://multica.ai", item.workspace, item.token, item.epoch)
  {
    assert UserOk(s, u);
    assert MessageOk(s, TokenMsg(u, item));
  }

  lemma AckActivates(s: System, u: UserId, e: nat, lease: string, now: Time)
    requires AckMsg(u, StoredAck(u, e, lease)) in s.net && CanonicalId(u) && lease != "" && u in s.host.connections
    requires var c := s.host.connections[u]; c.epoch == e && Waits(c) && c.leaseId == Some(lease) && now < c.leaseExpiresAt
    ensures var t := Next(s, HostHandles(AckMsg(u, StoredAck(u, e, lease)), now));
      && t.worker == s.worker && u in t.host.connections
      && t.host.connections[u].status == Active && t.host.connections[u].epoch == e && t.host.connections[u].token.None?
  {
  }

  // Pull, delete, acknowledge: the connection is revoked and the worker holds nothing.
  lemma RevocationCompletes(steps: seq<Step>, u: UserId, ttl: int, now: Time, leaseFor: UserId -> string, later: Time)
    requires u in Run(steps).host.connections && Run(steps).host.connections[u].status == RevocationPending && CanonicalId(u)
    ensures var e := Run(steps).host.connections[u].epoch;
      var pulled := Next(Run(steps), WorkerPull(ttl, now, leaseFor));
      var deleted := Next(pulled, WorkerHandles(RevokeMsg(u, e)));
      var t := Next(deleted, HostHandles(AckMsg(u, RevokedAck(u, e)), later));
      && u in t.host.connections && t.host.connections[u].status == Revoked && t.host.connections[u].epoch == e
      && u !in t.worker.credentials
  {
    var s := Run(steps);
    var e := s.host.connections[u].epoch;
    var step := WorkerPull(ttl, now, leaseFor);
    RunInv(steps);
    PurgeIsAsked(steps, u, step);
    StepKeeps(s, step);
    var pulled := Next(s, step);
    DeleteSucceeds(pulled, u, e);
    AckRevokes(Next(pulled, WorkerHandles(RevokeMsg(u, e))), u, e, later);
  }

  lemma PurgeIsAsked(steps: seq<Step>, u: UserId, step: Step)
    requires u in Run(steps).host.connections && Run(steps).host.connections[u].status == RevocationPending && step.WorkerPull?
    ensures var s := Run(steps); var t := Next(s, step);
      && RevokeMsg(u, s.host.connections[u].epoch) in t.net
      && u in t.host.connections && t.host.connections[u] == s.host.connections[u]
  {
    hide Pull, Exec;
    var s := Run(steps);
    PurgeListIsComplete(steps, u, step.ttl, step.now, step.leaseFor);
    SettledRowsStay(s.host, u, step.ttl, step.now, step.leaseFor);
    PulledHost(s, step);
  }

  lemma AckRevokes(s: System, u: UserId, e: nat, now: Time)
    requires AckMsg(u, RevokedAck(u, e)) in s.net && CanonicalId(u) && u in s.host.connections
    requires s.host.connections[u].epoch == e && s.host.connections[u].status == RevocationPending
    ensures var t := Next(s, HostHandles(AckMsg(u, RevokedAck(u, e)), now));
      && t.worker == s.worker && u in t.host.connections
      && t.host.connections[u].status == Revoked && t.host.connections[u].epoch == e
  {
  }

  lemma DeleteSucceeds(s: System, u: UserId, e: nat)
    requires Inv(s) && RevokeMsg(u, e) in s.net && CanonicalId(u)
    requires u in s.host.connections && s.host.connections[u].epoch == e && s.host.connections[u].status == RevocationPending
    ensures var t := Next(s, WorkerHandles(RevokeMsg(u, e)));
      t.host == s.host && u !in t.worker.credentials && AckMsg(u, RevokedAck(u, e)) in t.net
  {
    assert UserOk(s, u);
  }

  // A sync report at the current epoch of an active or failing connection: success makes it active
  // with the time of the report and no error, failure makes it failing with the reported error.
  lemma ReportIsRecorded(h: Host, u: UserId, e: nat, ok: bool, error: string, now: Time)
    requires CanonicalId(u) && u in h.connections && h.connections[u].epoch == e
    requires h.connections[u].status == Active || h.connections[u].status == Error
    ensures var t := RecordSync(h, u, e, ok, error, now).0;
      && u in t.connections && t.connections[u].epoch == e && t.connections[u].token == h.connections[u].token
      && t.connections[u].updatedAt == now
      && (ok ==> t.connections[u].status == Active && t.connections[u].lastSyncedAt == Some(now) && t.connections[u].lastSyncError == None)
      && (!ok ==> && t.connections[u].status == Error && t.connections[u].lastSyncError == Some(error)
                  && t.connections[u].lastSyncedAt == h.connections[u].lastSyncedAt)
  {
  }

  // ---- exactly when an operation takes effect ----

  // Nothing but row u may differ.
  ghost predicate OnlyRow(h: Host, t: Host, u: UserId) {
    && t.users == h.users && t.nextId == h.nextId && t.heartbeat == h.heartbeat
    && forall v :: v != u ==> (v in t.connections <==> v in h.connections) && (v in h.connections ==> t.connections[v] == h.connections[v])
  }

  // An id that SQLite can hold.
  predicate StoredId(u: UserId) { 0 < u <= 9223372036854775807 }

  // A submission is taken exactly for an existing account and the official server, which the empty
  // address stands for. It waits as the first one or as a replacement, one epoch on, forgets every
  // lease, ack and error, and keeps the age of the connection.
  lemma SubmissionTakenExactlyWhen(h: Host, u: UserId, url: string, workspace: Option<string>, token: string, now: Time)
    ensures var (t, r) := Submit(h, u, url, workspace, token, now);
      && OnlyRow(h, t, u)
      && (r.Submitted? <==> url in {"", "https://multica.ai"} && StoredId(u) && u in h.users)
      && (!r.Submitted? ==> t == h)
      && (r.Submitted? ==>
            var c := t.connections[u];
            && r.epoch == c.epoch && c.token == Some(token) && c.workspace == workspace && c.updatedAt == now
            && c.leaseId.None? && c.revokeAckedAt.None? && c.lastSyncError.None?
            && (c.status == ReplacementPending <==> u in h.connections) && (c.status == Pending <==> u !in h.connections)
            && c.epoch == (if u in h.connections then h.connections[u].epoch else 0) + 1
            && c.createdAt == (if u in h.connections then h.connections[u].createdAt else now)
            && c.lastSyncedAt == if u in h.connections then h.connections[u].lastSyncedAt else None)
  {
  }

  // A disconnect takes effect exactly on a row that is not being revoked already.
  lemma DisconnectTakenExactlyWhen(h: Host, u: UserId, now: Time)
    ensures var (t, existed) := Revoke(h, u, now);
      && OnlyRow(h, t, u) && (existed <==> u in h.connections)
      && if u in h.connections && h.connections[u].status !in {RevocationPending, Revoked}
         then Parked(t.connections[u], h.connections[u].epoch) && t.connections[u].lastSyncError == h.connections[u].lastSyncError
         else t == h
  {
  }

  // A stored-ack is taken exactly under the live lease of the epoch that waits.
  lemma StoredAckTakenExactlyWhen(h: Host, u: UserId, lease: string, e: nat, now: Time)
    ensures var (t, r) := AckStored(h, u, lease, e, now);
      && OnlyRow(h, t, u)
      && (r.Acknowledged? <==>
            && StoredId(u) && lease != "" && u in h.connections
            && var c := h.connections[u]; Waits(c) && c.epoch == e && c.leaseId == Some(lease) && now < c.leaseExpiresAt)
      && (!r.Acknowledged? ==> t == h)
      && (r.Acknowledged? ==>
            var c, c' := h.connections[u], t.connections[u];
            c'.status == Active && c'.token.None? && c'.leaseId.None? && c'.epoch == c.epoch && c'.updatedAt == now)
  {
  }

  // A revoked-ack is taken exactly at the epoch of a row that waits for deletion or has seen it.
  lemma RevokedAckTakenExactlyWhen(h: Host, u: UserId, e: nat, now: Time)
    ensures var (t, r) := AckRevoked(h, u, e, now);
      && OnlyRow(h, t, u)
      && (r.Acknowledged? <==>
            StoredId(u) && u in h.connections && h.connections[u].epoch == e && h.connections[u].status in {RevocationPending, Revoked})
      && (if r.Acknowledged? && h.connections[u].status == RevocationPending
          then t.connections[u] == h.connections[u].(status := Revoked, revokeAckedAt := Some(now), updatedAt := now)
          else t == h)
  {
  }

  // A sync report is taken exactly at the epoch of an active or failing row.
  lemma ReportTakenExactlyWhen(h: Host, u: UserId, e: nat, ok: bool, error: string, now: Time)
    ensures var (t, r) := RecordSync(h, u, e, ok, error, now);
      && OnlyRow(h, t, u)
      && (r.Acknowledged? <==> StoredId(u) && u in h.connections && h.connections[u].epoch == e && h.connections[u].status in {Active, Error})
      && (!r.Acknowledged? ==> t == h)
  {
  }

  // A pull gives up a waiting row that names another server, at any age.
  lemma PoisonedRowIsGivenUp(h: Host, u: UserId, ttl: int, now: Time, leaseFor: UserId -> string)
    requires u in h.connections && Waits(h.connections[u]) && h.connections[u].token.Some?
    requires h.connections[u].serverUrl !in {"", "https://multica.ai"}
    ensures var t := Pull(h, ttl, now, leaseFor).0; u in t.connections && Parked(t.connections[u], h.connections[u].epoch)
  {
    hide PendingItems, RevokedItems, LeaseRow, PurgeRow;
    var c := h.connections[u];
    assert Pull(h, ttl, now, leaseFor).0.connections[u] == LeaseRow(PurgeRow(c, ttl, now), leaseFor(u), now);
    PoisonedRowParks(c, leaseFor(u), ttl, now);
  }

  lemma PoisonedRowParks(c: Connection, lease: string, ttl: int, now: Time)
    requires Waits(c) && c.token.Some? && c.serverUrl !in {"", "https://multica.ai"}
    ensures Parked(LeaseRow(PurgeRow(c, ttl, now), lease, now), c.epoch)
  {
  }
}
