// What the handoff promises, over every run of HandoffSystem.
module HandoffTheorems {
  import opened Prelude
  import opened HandoffHost
  import opened WorkerStore
  import opened HandoffSystem
  import opened HandoffInvariant

  function Run(steps: seq<Step>): System { Exec(Init(), steps) }

  lemma RunInv(steps: seq<Step>)
    ensures Inv(Run(steps))
  {
    InitOk();
    RunKeeps(Init(), steps);
  }

  lemma {:induction false} ExecSplit(s: System, first: seq<Step>, rest: seq<Step>)
    ensures Exec(s, first + rest) == Exec(Exec(s, first), rest)
  {
    if rest == [] {
      assert first + rest == first;
    } else {
      var k := |rest| - 1;
      ExecSplit(s, first, rest[..k]);
      assert first + rest == (first + rest[..k]) + [rest[k]];
      assert (first + rest)[..|first + rest| - 1] == first + rest[..k];
    }
  }

  // "revoked" means erased: the worker holds nothing, every token still in flight is of
  // an older epoch, and handling it again installs nothing.
  lemma RevokedMeansErased(steps: seq<Step>, u: UserId)
    requires u in Run(steps).host.connections && Run(steps).host.connections[u].status == Revoked
    ensures var s := Run(steps);
      && u !in s.worker.credentials
      && forall m :: m in s.net && m.TokenMsg? && m.user == u ==>
           && m.item.epoch < s.host.connections[u].epoch
           && WorkerStep(s, m) == s
  {
    RunInv(steps);
    var s := Run(steps);
    assert UserOk(s, u);
    forall m | m in s.net && m.TokenMsg? && m.user == u
      ensures m.item.epoch < s.host.connections[u].epoch && WorkerStep(s, m) == s
    {
      assert MessageOk(s, m);
    }
  }

  // The account is gone and no tombstone row is left.
  ghost predicate Gone(s: System, u: UserId) {
    u !in s.host.connections && u !in s.host.users && u < s.host.nextId
  }

  // Terminal for epoch e: revoked at e, or the row has been removed with its account.
  ghost predicate Terminal(s: System, u: UserId, e: nat) {
    Gone(s, u) || (u in s.host.connections && s.host.connections[u].status == Revoked && s.host.connections[u].epoch == e)
  }

  lemma GoneStaysGone(s: System, step: Step, u: UserId)
    requires Gone(s, u)
    ensures Gone(Next(s, step), u)
  {
  }

  lemma PulledHost(s: System, step: Step)
    requires step.WorkerPull?
    ensures Next(s, step).host == Pulled(s.host, step.ttl, step.now, step.leaseFor)
  {
  }

  lemma PullRow(h: Host, u: UserId, ttl: int, now: Time, leaseFor: UserId -> string)
    requires u in h.connections
    ensures var t := Pulled(h, ttl, now, leaseFor);
      && u in t.connections && t.users == h.users && t.nextId == h.nextId
      && t.connections[u] == LeaseRow(PurgeRow(h.connections[u], ttl, now), leaseFor(u), now)
      && t.connections[u].epoch >= h.connections[u].epoch
  {
  }

  // The epoch of a row after one step, or its removal with the account.
  ghost predicate EpochMoves(s: System, t: System, u: UserId, step: Step) {
    && u in s.host.connections
    && if u in t.host.connections
       then t.host.connections[u].epoch >= s.host.connections[u].epoch
       else s.host.connections[u].status == Revoked && step.DeleteAccount?
  }

  lemma EpochPull(s: System, step: Step, u: UserId)
    requires u in s.host.connections && step.WorkerPull?
    ensures EpochMoves(s, Next(s, step), u, step)
  {
    PulledHost(s, step);
    PullRow(s.host, u, step.ttl, step.now, step.leaseFor);
  }

  lemma EpochStep(s: System, step: Step, u: UserId)
    requires u in s.host.connections
    ensures EpochMoves(s, Next(s, step), u, step)
  {
    match step
    case WorkerPull(_, _, _) => EpochPull(s, step, u);
    case HostHandles(m, now) => HostStepEpoch(s.host, m, now, u);
    case _ =>
  }

  lemma HostStepEpoch(h: Host, m: Message, now: Time, u: UserId)
    requires u in h.connections
    ensures var t := HostStep(h, m, now).0;
      u in t.connections && t.connections[u].epoch == h.connections[u].epoch
  {
  }

  // The worker has passed epoch e, or stands at it with a tombstone.
  ghost predicate Floor(w: Worker, u: UserId, e: nat) {
    u in w.versions && (w.versions[u].epoch > e || (w.versions[u].epoch == e && w.versions[u].revoked))
  }

  lemma FloorStep(s: System, step: Step, u: UserId, e: nat)
    requires Floor(s.worker, u, e)
    ensures Floor(Next(s, step).worker, u, e)
  {
  }

  lemma {:induction false} FloorLasts(s: System, more: seq<Step>, u: UserId, e: nat)
    requires Floor(s.worker, u, e)
    ensures Floor(Exec(s, more).worker, u, e)
  {
    if more != [] {
      FloorLasts(s, more[..|more| - 1], u, e);
      FloorStep(Exec(s, more[..|more| - 1]), more[|more| - 1], u, e);
    }
  }

  // The account is gone, whether or not its row is still there as a tombstone.
  ghost predicate NoAccount(s: System, u: UserId) { u !in s.host.users && u < s.host.nextId }

  lemma NoAccountStep(s: System, step: Step, u: UserId)
    requires NoAccount(s, u)
    ensures NoAccount(Next(s, step), u)
    ensures forall e: nat :: (u, e) in Next(s, step).submitted ==> (u, e) in s.submitted
  {
  }

  lemma {:induction false} NoAccountLasts(s: System, more: seq<Step>, u: UserId)
    requires NoAccount(s, u)
    ensures NoAccount(Exec(s, more), u)
    ensures forall e: nat :: (u, e) in Exec(s, more).submitted ==> (u, e) in s.submitted
  {
    if more != [] {
      NoAccountLasts(s, more[..|more| - 1], u);
      NoAccountStep(Exec(s, more[..|more| - 1]), more[|more| - 1], u);
    }
  }

  // No later delivery, whatever its order, brings the token back: whatever the worker holds
  // later was submitted by the owner since, at a newer epoch; and once the account is deleted,
  // tombstone row or not, it never holds anything again, and nobody else gets the account's id.
  lemma RevocationIsFinal(steps: seq<Step>, more: seq<Step>, u: UserId, e: nat)
    requires Terminal(Run(steps), u, e)
    ensures var s, t := Run(steps), Run(steps + more);
      && (u in t.worker.credentials ==>
            var k := t.worker.credentials[u];
            k.epoch > e && (u, k.epoch) !in s.submitted && Held(t, u, k.epoch, k.workspace, k.token))
      && (u !in s.host.users ==> u !in t.worker.credentials && u !in t.host.users)
  {
    var s := Run(steps);
    RunInv(steps);
    ExecSplit(Init(), steps, more);
    RunInv(steps + more);
    assert UserOk(s, u) && UserOk(Run(steps + more), u);
    if !Gone(s, u) { FloorLasts(s, more, u, e); }
    if u !in s.host.users { NoAccountLasts(s, more, u); GoneLasts(s, more, u); }
  }

  lemma {:induction false} GoneLasts(s: System, more: seq<Step>, u: UserId)
    ensures Gone(s, u) ==> Gone(Exec(s, more), u)
  {
    if more != [] {
      GoneLasts(s, more[..|more| - 1], u);
      if Gone(s, u) { GoneStaysGone(Exec(s, more[..|more| - 1]), more[|more| - 1], u); }
    }
  }

  // Token custody. The host keeps a plaintext exactly while it waits to hand it over,
  // and active or error at an epoch means the worker holds what was submitted at it.
  lemma TokenCustody(steps: seq<Step>, u: UserId)
    requires u in Run(steps).host.connections
    ensures var s := Run(steps); var c := s.host.connections[u];
      && (c.token.Some? <==> c.status == Pending || c.status == ReplacementPending)
      && (c.token.Some? ==> Held(s, u, c.epoch, c.workspace, c.token.value))
      && (c.status == Active || c.status == Error ==>
            && IsCurrent(s.worker, u, c.epoch)
            && Held(s, u, c.epoch, s.worker.credentials[u].workspace, s.worker.credentials[u].token))
  {
    RunInv(steps);
    assert UserOk(Run(steps), u);
  }

  // Whatever the worker holds was submitted by that user at exactly that epoch.
  lemma WorkerHoldsOnlySubmissions(steps: seq<Step>, u: UserId)
    requires u in Run(steps).worker.credentials
    ensures var s := Run(steps); var k := s.worker.credentials[u];
      Held(s, u, k.epoch, k.workspace, k.token) && k.serverUrl == OFFICIAL_URL && u in s.host.connections
  {
    RunInv(steps);
    assert UserOk(Run(steps), u);
  }

  // An epoch names at most one submission: what is recorded for it never changes.
  lemma {:induction false} SubmissionsAreStable(steps: seq<Step>, more: seq<Step>, u: UserId, e: nat)
    requires (u, e) in Run(steps).submitted
    ensures (u, e) in Run(steps + more).submitted
    ensures Run(steps + more).submitted[(u, e)] == Run(steps).submitted[(u, e)]
  {
    if more == [] {
      assert steps + more == steps;
    } else {
      var k := |more| - 1;
      SubmissionsAreStable(steps, more[..k], u, e);
      ExecSplit(Init(), steps + more[..k], [more[k]]);
      assert steps + more == (steps + more[..k]) + [more[k]];
      var s := Run(steps + more[..k]);
      RunInv(steps + more[..k]);
      assert UserOk(s, u);
      assert [more[k]][..0] == [];
      assert Run(steps + more) == Next(s, more[k]);
    }
  }

  // Epochs never decrease while the row lives, and a removed row never returns.
  lemma {:induction false} EpochsNeverDecrease(steps: seq<Step>, more: seq<Step>, u: UserId)
    requires u in Run(steps).host.connections
    ensures var t := Run(steps + more);
      if u in t.host.connections then t.host.connections[u].epoch >= Run(steps).host.connections[u].epoch
      else Gone(t, u)
  {
    if more == [] {
      assert steps + more == steps;
    } else {
      var k := |more| - 1;
      EpochsNeverDecrease(steps, more[..k], u);
      ExecSplit(Init(), steps + more[..k], [more[k]]);
      assert steps + more == (steps + more[..k]) + [more[k]];
      var s := Run(steps + more[..k]);
      assert [more[k]][..0] == [];
      assert Run(steps + more) == Next(s, more[k]);
      RunInv(steps + more[..k]);
      assert UserOk(s, u);
      if u in s.host.connections { EpochStep(s, more[k], u); } else { GoneStaysGone(s, more[k], u); }
    }
  }

  // ---- one stored-ack per epoch, and only for the latest live lease ----

  ghost predicate AcceptsStored(s: System, step: Step, u: UserId, e: nat) {
    && step.HostHandles? && step.m in s.net && step.m.AckMsg? && step.m.ack.StoredAck?
    && step.m.ack.user == u && step.m.ack.epoch == e
    && HostStep(s.host, step.m, step.now).1 == Acknowledged(Active)
  }

  // Epoch e of user u can no longer be acknowledged as stored.
  ghost predicate Closed(s: System, u: UserId, e: nat) {
    if u in s.host.connections
    then s.host.connections[u].epoch > e || (s.host.connections[u].epoch == e && !Leasable(s.host.connections[u].status))
    else Gone(s, u)
  }

  // At the closed epoch itself the row can only move on or stay closed.
  lemma ClosedRow(s: System, step: Step, u: UserId, e: nat)
    requires u in s.host.connections && s.host.connections[u].epoch == e && !Leasable(s.host.connections[u].status)
    requires u in Next(s, step).host.connections && Next(s, step).host.connections[u].epoch == e
    ensures !Leasable(Next(s, step).host.connections[u].status)
  {
    if step.WorkerPull? {
      PulledHost(s, step);
      PullRow(s.host, u, step.ttl, step.now, step.leaseFor);
    }
  }

  lemma ClosedAccepts(s: System, step: Step, u: UserId, e: nat)
    requires Closed(s, u, e)
    ensures !AcceptsStored(s, step, u, e)
  {
  }

  lemma ClosedStays(s: System, step: Step, u: UserId, e: nat)
    requires Inv(s) && Closed(s, u, e)
    ensures Closed(Next(s, step), u, e) && !AcceptsStored(s, step, u, e)
  {
    assert UserOk(s, u);
    ClosedAccepts(s, step, u, e);
    if u in s.host.connections {
      EpochStep(s, step, u);
      if s.host.connections[u].epoch == e && u in Next(s, step).host.connections && Next(s, step).host.connections[u].epoch == e {
        ClosedRow(s, step, u, e);
      }
    } else {
      GoneStaysGone(s, step, u);
    }
  }

  lemma {:induction false} ClosedLasts(s: System, more: seq<Step>, u: UserId, e: nat)
    requires Inv(s) && Closed(s, u, e)
    ensures Closed(Exec(s, more), u, e)
  {
    if more != [] {
      var k := |more| - 1;
      ClosedLasts(s, more[..k], u, e);
      RunKeeps(s, more[..k]);
      ClosedStays(Exec(s, more[..k]), more[k], u, e);
    }
  }

  lemma AtMostOneStoredAck(steps: seq<Step>, i: nat, j: nat, u: UserId, e: nat)
    requires i < j < |steps|
    requires AcceptsStored(Run(steps[..i]), steps[i], u, e)
    ensures !AcceptsStored(Run(steps[..j]), steps[j], u, e)
  {
    RunInv(steps[..i]);
    RunInv(steps[..i + 1]);
    RunInv(steps[..j]);
    assert steps[..i + 1][..i] == steps[..i];
    assert steps[..j] == steps[..i + 1] + steps[i + 1..j];
    ExecSplit(Init(), steps[..i + 1], steps[i + 1..j]);
    assert Closed(Run(steps[..i + 1]), u, e);
    ClosedLasts(Run(steps[..i + 1]), steps[i + 1..j], u, e);
    ClosedStays(Run(steps[..j]), steps[j], u, e);
  }

  // The most recent pull of a run.
  function LastPull(steps: seq<Step>): Option<Step> {
    if steps == [] then None
    else if steps[|steps| - 1].WorkerPull? then Some(steps[|steps| - 1])
    else LastPull(steps[..|steps| - 1])
  }

  ghost predicate LeaseOf(c: Connection, u: UserId, p: Option<Step>) {
    c.leaseId.Some? ==>
      && p.Some? && p.value.WorkerPull?
      && c.leaseId.value == p.value.leaseFor(u)
      && c.leaseExpiresAt == p.value.now + LEASE_SECONDS
  }

  lemma LeasePull(s: System, step: Step, u: UserId)
    requires UserOk(s, u) && step.WorkerPull? && u in s.host.connections
    ensures u in Next(s, step).host.connections && LeaseOf(Next(s, step).host.connections[u], u, Some(step))
  {
    PulledHost(s, step);
    PullRow(s.host, u, step.ttl, step.now, step.leaseFor);
    PulledRowLease(s.host.connections[u], u, step);
  }

  lemma PulledRowLease(c: Connection, u: UserId, step: Step)
    requires step.WorkerPull? && (c.token.Some? <==> Leasable(c.status)) && (c.leaseId.Some? ==> Leasable(c.status))
    ensures LeaseOf(LeaseRow(PurgeRow(c, step.ttl, step.now), step.leaseFor(u), step.now), u, Some(step))
  {
  }

  lemma LeaseStep(s: System, step: Step, u: UserId, p: Option<Step>)
    requires UserOk(s, u) && u in Next(s, step).host.connections
    requires u in s.host.connections ==> LeaseOf(s.host.connections[u], u, p)
    ensures LeaseOf(Next(s, step).host.connections[u], u, if step.WorkerPull? then Some(step) else p)
  {
    match step
    case WorkerPull(_, _, _) => if u in s.host.connections { LeasePull(s, step, u); }
    case HostHandles(m, now) => if u in s.host.connections { HostStepLease(s.host, m, now, u); }
    case _ =>
  }

  lemma HostStepLease(h: Host, m: Message, now: Time, u: UserId)
    requires u in h.connections
    ensures var d := HostStep(h, m, now).0.connections;
      && u in d
      && (d[u].leaseId == None || (d[u].leaseId == h.connections[u].leaseId && d[u].leaseExpiresAt == h.connections[u].leaseExpiresAt))
  {
  }

  lemma {:induction false} LeasesComeFromTheLastPull(steps: seq<Step>, u: UserId)
    requires u in Run(steps).host.connections
    ensures LeaseOf(Run(steps).host.connections[u], u, LastPull(steps))
  {
    if steps != [] {
      var k := |steps| - 1;
      RunInv(steps[..k]);
      assert UserOk(Run(steps[..k]), u);
      if u in Run(steps[..k]).host.connections { LeasesComeFromTheLastPull(steps[..k], u); }
      LeaseStep(Run(steps[..k]), steps[k], u, LastPull(steps[..k]));
    }
  }

  // A stored-ack succeeds only with the lease of the latest pull, before it expires.
  lemma StoredAckAnswersTheLatestPull(steps: seq<Step>, step: Step, u: UserId, e: nat)
    requires AcceptsStored(Run(steps), step, u, e)
    ensures var p := LastPull(steps);
      p.Some? && p.value.WorkerPull? && step.m.ack.lease == p.value.leaseFor(u) && step.now < p.value.now + LEASE_SECONDS
  {
    LeasesComeFromTheLastPull(steps, u);
  }

  // The store's "conflicting data" error cannot happen: no message in flight contradicts
  // what the worker holds for its epoch, and none names another server.
  lemma StoreNeverConflicts(steps: seq<Step>, m: Message)
    requires m in Run(steps).net && m.TokenMsg?
    ensures var x := m.item;
      var r := StoreToken(Run(steps).worker, x.user, x.serverUrl, x.workspace, x.token, x.epoch).1;
      r == Accepted || r == Stale || !CanonicalId(x.user)
  {
    RunInv(steps);
    assert MessageOk(Run(steps), m);
    assert UserOk(Run(steps), m.user);
  }

  // Nothing waits for ever unnoticed: a row in revocation_pending is on the next purge list.
  lemma PurgeListIsComplete(steps: seq<Step>, u: UserId, ttl: int, now: Time, leaseFor: UserId -> string)
    requires u in Run(steps).host.connections && Run(steps).host.connections[u].status == RevocationPending
    ensures RevokedItem(u, Run(steps).host.connections[u].epoch) in Pull(Run(steps).host, ttl, now, leaseFor).2
  {
    RunInv(steps);
    var s := Run(steps);
    assert UserOk(s, u);
    var h := Pull(s.host, ttl, now, leaseFor).0;
    RevokedItemsExact(Ascending(h.connections.Keys), h.connections, RevokedItem(u, s.host.connections[u].epoch));
  }

  // ---- the worker's loop is a run of the system ----

  // The entries a cycle gets to before a malformed one aborts it.
  function PendingDeliveries(w: Worker, entries: seq<Wire<PendingItem>>): seq<Step> {
    if entries == [] then []
    else
      var k := |entries| - 1;
      PendingDeliveries(w, entries[..k])
      + (if PendingCycle(w, entries[..k]).alive && entries[k].Entry?
         then [WorkerHandles(TokenMsg(entries[k].item.user, entries[k].item))] else [])
  }

  function RevokedDeliveries(c: Cycle, entries: seq<Wire<RevokedItem>>): seq<Step> {
    if entries == [] then []
    else
      var k := |entries| - 1;
      RevokedDeliveries(c, entries[..k])
      + (if RevokedCycle(c, entries[..k]).alive && entries[k].Entry? && CanonicalId(entries[k].item.user)
         then [WorkerHandles(RevokeMsg(entries[k].item.user, entries[k].item.epoch))] else [])
  }

  ghost predicate AcksSent(s: System, acks: seq<Ack>) {
    forall i :: 0 <= i < |acks| ==> AckMsg(acks[i].user, acks[i]) in s.net
  }

  // A run grown by at most one delivery.
  lemma ExecDelivery(s: System, before: seq<Step>, m: Message, deliver: bool)
    requires deliver ==> m in Exec(s, before).net
    ensures Exec(s, before + (if deliver then [WorkerHandles(m)] else []))
         == if deliver then WorkerStep(Exec(s, before), m) else Exec(s, before)
  {
    var d := WorkerHandles(m);
    assert (before + [d])[..|before + [d]| - 1] == before;
    assert before + [] == before;
  }

  // The worker and the network are where a cycle has got to.
  ghost predicate Follows(s: System, t: System, c: Cycle) {
    t.worker == c.worker && AcksSent(t, c.acks) && t.host == s.host && s.net <= t.net
  }

  lemma FollowsPending(s: System, t: System, c: Cycle, entry: Wire<PendingItem>)
    requires Follows(s, t, c)
    ensures Follows(s,
      if c.alive && entry.Entry? then WorkerStep(t, TokenMsg(entry.item.user, entry.item)) else t,
      HandlePending(c, entry))
  {
  }

  lemma FollowsRevoked(s: System, t: System, c: Cycle, entry: Wire<RevokedItem>)
    requires Follows(s, t, c)
    ensures Follows(s,
      if c.alive && entry.Entry? && CanonicalId(entry.item.user)
      then WorkerStep(t, RevokeMsg(entry.item.user, entry.item.epoch)) else t,
      HandleRevoked(c, entry))
  {
  }

  lemma {:induction false} PendingCycleIsARun(s: System, entries: seq<Wire<PendingItem>>)
    requires forall x :: x in entries && x.Entry? ==> TokenMsg(x.item.user, x.item) in s.net
    ensures Follows(s, Exec(s, PendingDeliveries(s.worker, entries)), PendingCycle(s.worker, entries))
  {
    if entries != [] {
      var k := |entries| - 1;
      PendingCycleIsARun(s, entries[..k]);
      var c, x := PendingCycle(s.worker, entries[..k]), entries[k];
      var before := PendingDeliveries(s.worker, entries[..k]);
      FollowsPending(s, Exec(s, before), c, x);
      var m := if x.Entry? then TokenMsg(x.item.user, x.item) else SyncMsg(0, 0, true, "");
      ExecDelivery(s, before, m, c.alive && x.Entry?);
    }
  }

  lemma {:induction false} RevokedCycleIsARun(s: System, c: Cycle, entries: seq<Wire<RevokedItem>>)
    requires c.worker == s.worker && AcksSent(s, c.acks)
    requires forall x :: x in entries && x.Entry? ==> RevokeMsg(x.item.user, x.item.epoch) in s.net
    ensures Follows(s, Exec(s, RevokedDeliveries(c, entries)), RevokedCycle(c, entries))
  {
    if entries != [] {
      var k := |entries| - 1;
      RevokedCycleIsARun(s, c, entries[..k]);
      var d, x := RevokedCycle(c, entries[..k]), entries[k];
      var before := RevokedDeliveries(c, entries[..k]);
      FollowsRevoked(s, Exec(s, before), d, x);
      var m := if x.Entry? then RevokeMsg(x.item.user, x.item.epoch) else SyncMsg(0, 0, true, "");
      ExecDelivery(s, before, m, d.alive && x.Entry? && CanonicalId(x.item.user));
    }
  }

  // pull_once refines the system: a whole cycle over a response in flight, cut short or
  // not, leaves the worker where delivering its entries one by one does, and prepares
  // only acks the system sends.
  lemma PullOnceIsARun(s: System, pending: seq<Wire<PendingItem>>, revoked: seq<Wire<RevokedItem>>)
    requires forall x :: x in pending && x.Entry? ==> TokenMsg(x.item.user, x.item) in s.net
    requires forall x :: x in revoked && x.Entry? ==> RevokeMsg(x.item.user, x.item.epoch) in s.net
    ensures var first := PendingCycle(s.worker, pending);
      var c := RevokedCycle(first, revoked);
      var t := Exec(s, PendingDeliveries(s.worker, pending) + RevokedDeliveries(first, revoked));
      t.worker == c.worker && AcksSent(t, c.acks) && t.host == s.host
  {
    var first := PendingCycle(s.worker, pending);
    PendingCycleIsARun(s, pending);
    RevokedCycleIsARun(Exec(s, PendingDeliveries(s.worker, pending)), first, revoked);
    ExecSplit(s, PendingDeliveries(s.worker, pending), RevokedDeliveries(first, revoked));
  }
}
