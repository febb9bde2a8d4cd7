// Every step keeps the invariant of HandoffSystem.
module HandoffInvariant {
  import opened Prelude
  import opened HandoffHost
  import opened WorkerStore
  import opened HandoffSystem

  lemma SignUpKeeps(s: System, admin: bool)
    requires Inv(s)
    ensures Inv(Next(s, SignUp(admin)))
  {
    var t := Next(s, SignUp(admin));
    forall u: UserId ensures UserOk(t, u) { assert UserOk(s, u); }
    forall m | m in t.net ensures MessageOk(t, m) { assert MessageOk(s, m); }
  }

  // Nothing that concerns x has moved.
  ghost predicate SameUser(s: System, t: System, x: UserId) {
    && t.host.nextId == s.host.nextId
    && (x in t.host.users <==> x in s.host.users)
    && (x in t.host.connections <==> x in s.host.connections)
    && (x in s.host.connections ==> t.host.connections[x] == s.host.connections[x])
    && t.worker == s.worker
    && forall e: nat :: ((x, e) in t.submitted <==> (x, e) in s.submitted)
                     && ((x, e) in s.submitted ==> t.submitted[(x, e)] == s.submitted[(x, e)])
  }

  lemma SameUserOk(s: System, t: System, x: UserId)
    requires SameUser(s, t, x) && UserOk(s, x)
    ensures UserOk(t, x)
  {
  }

  lemma SameUserMessage(s: System, t: System, m: Message)
    requires SameUser(s, t, m.user) && MessageOk(s, m)
    ensures MessageOk(t, m)
  {
  }

  // The submitting user: one epoch further, with the submission on record.
  lemma SubmitterOk(s: System, u: UserId, url: string, ws: Option<string>, token: string, now: Time)
    requires UserOk(s, u)
    ensures UserOk(Next(s, SubmitToken(u, url, ws, token, now)), u)
  {
  }

  lemma SubmitterMessage(s: System, m: Message, url: string, ws: Option<string>, token: string, now: Time)
    requires UserOk(s, m.user) && MessageOk(s, m)
    ensures MessageOk(Next(s, SubmitToken(m.user, url, ws, token, now)), m)
  {
  }

  lemma SubmitSpares(s: System, u: UserId, url: string, ws: Option<string>, token: string, now: Time, x: UserId)
    requires x != u
    ensures SameUser(s, Next(s, SubmitToken(u, url, ws, token, now)), x)
  {
  }

  lemma SubmitKeeps(s: System, u: UserId, url: string, ws: Option<string>, token: string, now: Time)
    requires Inv(s)
    ensures Inv(Next(s, SubmitToken(u, url, ws, token, now)))
  {
    var t := Next(s, SubmitToken(u, url, ws, token, now));
    forall x: UserId ensures UserOk(t, x) {
      assert UserOk(s, x);
      if x == u {
        SubmitterOk(s, u, url, ws, token, now);
      } else {
        SubmitSpares(s, u, url, ws, token, now, x);
        SameUserOk(s, t, x);
      }
    }
    forall m | m in t.net ensures MessageOk(t, m) {
      assert MessageOk(s, m) && UserOk(s, m.user);
      if m.user == u {
        SubmitterMessage(s, m, url, ws, token, now);
      } else {
        SubmitSpares(s, u, url, ws, token, now, m.user);
        SameUserMessage(s, t, m);
      }
    }
  }

  // Replacing rows of the table by rows of the same or, for parked rows, the next epoch.
  ghost predicate Advances(c: Connection, d: Connection) {
    || (d.epoch == c.epoch && (Revoking(c.status) ==> Revoking(d.status)))
    || (d.epoch == c.epoch + 1 && Revoking(d.status))
  }

  lemma TableKeeps(s: System, t: System)
    requires Inv(s)
    requires t == s.(host := t.host)
    requires t.host.users == s.host.users && t.host.nextId == s.host.nextId
    requires t.host.connections.Keys == s.host.connections.Keys
    requires forall u :: u in s.host.connections ==>
      RowOk(t, u, t.host.connections[u]) && Advances(s.host.connections[u], t.host.connections[u])
    ensures Inv(t)
  {
    forall u: UserId ensures UserOk(t, u) {
      assert UserOk(s, u);
      assert u in t.host.connections <==> u in s.host.connections;
    }
    forall m | m in t.net ensures MessageOk(t, m) {
      assert MessageOk(s, m);
      assert UserOk(s, m.user);
      assert m.user in t.host.connections <==> m.user in s.host.connections;
    }
  }

  lemma DisconnectKeeps(s: System, u: UserId, now: Time)
    requires Inv(s)
    ensures Inv(Next(s, Disconnect(u, now)))
  {
    var t := Next(s, Disconnect(u, now));
    forall x | x in s.host.connections
      ensures RowOk(t, x, t.host.connections[x]) && Advances(s.host.connections[x], t.host.connections[x])
    {
      assert UserOk(s, x);
    }
    TableKeeps(s, t);
  }

  lemma PurgeKeeps(s: System, t: System, ttl: int, now: Time)
    requires Inv(s)
    requires t == s.(host := t.host)
    requires t.host.users == s.host.users && t.host.nextId == s.host.nextId
    requires t.host.connections == Purge(s.host.connections, ttl, now)
    ensures Inv(t)
  {
    forall x | x in s.host.connections
      ensures RowOk(t, x, t.host.connections[x]) && Advances(s.host.connections[x], t.host.connections[x])
    {
      assert UserOk(s, x);
    }
    TableKeeps(s, t);
  }

  lemma LeaseKeeps(s: System, t: System, leaseFor: UserId -> string, now: Time)
    requires Inv(s)
    requires t == s.(host := t.host)
    requires t.host.users == s.host.users && t.host.nextId == s.host.nextId
    requires t.host.connections == LeaseTable(s.host.connections, leaseFor, now)
    ensures Inv(t)
  {
    forall x | x in s.host.connections
      ensures RowOk(t, x, t.host.connections[x]) && Advances(s.host.connections[x], t.host.connections[x])
    {
      assert UserOk(s, x);
    }
    TableKeeps(s, t);
  }

  // Every message a pull sends is about the row it was read from.
  lemma PullKeeps(s: System, ttl: int, now: Time, leaseFor: UserId -> string)
    requires Inv(s)
    ensures Inv(Next(s, WorkerPull(ttl, now, leaseFor)))
  {
    var step := WorkerPull(ttl, now, leaseFor);
    var t := Next(s, step);
    var swept := Purge(s.host.connections, ttl, now);
    var a := s.(host := s.host.(connections := swept));
    PurgeKeeps(s, a, ttl, now);
    var b := a.(host := t.host);
    LeaseKeeps(a, b, leaseFor, now);
    var (h, pending, revoked) := Pull(s.host, ttl, now, leaseFor);
    assert t == b.(net := t.net);
    forall u: UserId ensures UserOk(t, u) { assert UserOk(b, u); }
    forall m | m in t.net ensures MessageOk(t, m) {
      if m in b.net {
        assert MessageOk(b, m);
      } else if m in TokenMessages(pending) {
        var x :| x in pending && m == TokenMsg(x.user, x);
        PendingItemsExact(Ascending(swept.Keys), swept, leaseFor, now, x);
        assert UserOk(a, x.user);
        assert x.user in t.host.connections;
      } else {
        var x :| x in revoked && m == RevokeMsg(x.user, x.epoch);
        RevokedItemsExact(Ascending(h.connections.Keys), h.connections, x);
        assert UserOk(b, x.user);
      }
    }
  }

  lemma PoisonKeeps(s: System, u: UserId, url: string)
    requires Inv(s)
    ensures Inv(Next(s, PoisonUrl(u, url)))
  {
    var t := Next(s, PoisonUrl(u, url));
    if u in s.host.connections {
      forall x | x in s.host.connections
        ensures RowOk(t, x, t.host.connections[x]) && Advances(s.host.connections[x], t.host.connections[x])
      {
        assert UserOk(s, x);
      }
      TableKeeps(s, t);
    }
  }

  lemma WorkerStoresKeeps(s: System, m: Message)
    requires Inv(s) && m in s.net && m.TokenMsg?
    ensures Inv(WorkerStep(s, m))
  {
    var t := WorkerStep(s, m);
    assert MessageOk(s, m);
    assert UserOk(s, m.user);
    forall u: UserId ensures UserOk(t, u) { assert UserOk(s, u); }
    forall n | n in t.net ensures MessageOk(t, n) {
      if n in s.net { assert MessageOk(s, n); }
    }
  }

  lemma WorkerDeletesKeeps(s: System, m: Message)
    requires Inv(s) && m in s.net && m.RevokeMsg?
    ensures Inv(WorkerStep(s, m))
  {
    var t := WorkerStep(s, m);
    assert MessageOk(s, m);
    assert UserOk(s, m.user);
    forall u: UserId ensures UserOk(t, u) { assert UserOk(s, u); }
    forall n | n in t.net ensures MessageOk(t, n) {
      if n in s.net { assert MessageOk(s, n); }
    }
  }

  lemma StoredAckRow(s: System, u: UserId, lease: string, e: nat, now: Time, x: UserId)
    requires x in s.host.connections && UserOk(s, x) && MessageOk(s, AckMsg(u, StoredAck(u, e, lease)))
    ensures var t := s.(host := AckStored(s.host, u, lease, e, now).0);
      && t.host == s.host.(connections := t.host.connections) && t.host.connections.Keys == s.host.connections.Keys
      && RowOk(t, x, t.host.connections[x]) && Advances(s.host.connections[x], t.host.connections[x])
  {
  }

  lemma RevokedAckRow(s: System, u: UserId, e: nat, now: Time, x: UserId)
    requires x in s.host.connections && UserOk(s, x) && MessageOk(s, AckMsg(u, RevokedAck(u, e)))
    ensures var t := s.(host := AckRevoked(s.host, u, e, now).0);
      && t.host == s.host.(connections := t.host.connections) && t.host.connections.Keys == s.host.connections.Keys
      && RowOk(t, x, t.host.connections[x]) && Advances(s.host.connections[x], t.host.connections[x])
  {
  }

  lemma SyncRow(s: System, u: UserId, e: nat, ok: bool, error: string, now: Time, x: UserId)
    requires x in s.host.connections && UserOk(s, x)
    ensures var t := s.(host := RecordSync(s.host, u, e, ok, error, now).0);
      && t.host == s.host.(connections := t.host.connections) && t.host.connections.Keys == s.host.connections.Keys
      && RowOk(t, x, t.host.connections[x]) && Advances(s.host.connections[x], t.host.connections[x])
  {
  }

  lemma HostRow(s: System, m: Message, now: Time, x: UserId)
    requires x in s.host.connections && UserOk(s, x) && MessageOk(s, m)
    ensures var t := s.(host := HostStep(s.host, m, now).0);
      && t.host == s.host.(connections := t.host.connections) && t.host.connections.Keys == s.host.connections.Keys
      && RowOk(t, x, t.host.connections[x]) && Advances(s.host.connections[x], t.host.connections[x])
  {
    match m
    case AckMsg(_, StoredAck(u, e, lease)) => StoredAckRow(s, u, lease, e, now, x);
    case AckMsg(_, RevokedAck(u, e)) => RevokedAckRow(s, u, e, now, x);
    case SyncMsg(u, e, ok, error) => SyncRow(s, u, e, ok, error, now, x);
    case _ =>
  }

  lemma HostFrame(h: Host, m: Message, now: Time)
    ensures var t := HostStep(h, m, now).0; t == h.(connections := t.connections) && t.connections.Keys == h.connections.Keys
  {
  }

  lemma HostHandlesKeeps(s: System, m: Message, now: Time)
    requires Inv(s) && m in s.net
    ensures Inv(s.(host := HostStep(s.host, m, now).0))
  {
    var t := s.(host := HostStep(s.host, m, now).0);
    assert MessageOk(s, m);
    HostFrame(s.host, m, now);
    forall x | x in s.host.connections
      ensures RowOk(t, x, t.host.connections[x]) && Advances(s.host.connections[x], t.host.connections[x])
    {
      assert UserOk(s, x);
      HostRow(s, m, now, x);
    }
    TableKeeps(s, t);
  }

  lemma DeletedUser(s: System, u: UserId, now: Time)
    requires UserOk(s, u)
    ensures UserOk(Next(s, DeleteAccount(u, now)), u)
  {
  }

  lemma DeletedMessage(s: System, m: Message, now: Time)
    requires UserOk(s, m.user) && MessageOk(s, m)
    ensures MessageOk(Next(s, DeleteAccount(m.user, now)), m)
  {
  }

  lemma DeleteSpares(s: System, u: UserId, now: Time, x: UserId)
    requires x != u
    ensures SameUser(s, Next(s, DeleteAccount(u, now)), x)
  {
  }

  lemma DeleteKeeps(s: System, u: UserId, now: Time)
    requires Inv(s)
    ensures Inv(Next(s, DeleteAccount(u, now)))
  {
    var t := Next(s, DeleteAccount(u, now));
    forall x: UserId ensures UserOk(t, x) {
      assert UserOk(s, x);
      if x == u {
        DeletedUser(s, u, now);
      } else {
        DeleteSpares(s, u, now, x);
        SameUserOk(s, t, x);
      }
    }
    forall m | m in t.net ensures MessageOk(t, m) {
      assert MessageOk(s, m) && UserOk(s, m.user);
      if m.user == u {
        DeletedMessage(s, m, now);
      } else {
        DeleteSpares(s, u, now, m.user);
        SameUserMessage(s, t, m);
      }
    }
  }

  lemma StepKeeps(s: System, step: Step)
    requires Inv(s)
    ensures Inv(Next(s, step))
  {
    match step
    case SignUp(admin) => SignUpKeeps(s, admin);
    case SubmitToken(u, url, ws, token, now) => SubmitKeeps(s, u, url, ws, token, now);
    case Disconnect(u, now) => DisconnectKeeps(s, u, now);
    case ViewStatus(ttl, now) => PurgeKeeps(s, Next(s, step), ttl, now);
    case WorkerPull(ttl, now, leaseFor) => PullKeeps(s, ttl, now, leaseFor);
    case PoisonUrl(u, url) => PoisonKeeps(s, u, url);
    case WorkerHandles(m) =>
      if m in s.net {
        if m.TokenMsg? { WorkerStoresKeeps(s, m); } else if m.RevokeMsg? { WorkerDeletesKeeps(s, m); }
      }
    case WorkerReports(u, e, ok, error) =>
      var t := Next(s, step);
      forall x: UserId ensures UserOk(t, x) { assert UserOk(s, x); }
      forall m | m in t.net ensures MessageOk(t, m) { if m in s.net { assert MessageOk(s, m); } }
    case HostHandles(m, now) => if m in s.net { HostHandlesKeeps(s, m, now); }
    case DeleteAccount(u, now) => DeleteKeeps(s, u, now);
  }

  // Safety of every run, the base of all the theorems about the handoff.
  lemma {:induction false} RunKeeps(s: System, steps: seq<Step>)
    requires Inv(s)
    ensures Inv(Exec(s, steps))
  {
    if steps != [] {
      var k := |steps| - 1;
      RunKeeps(s, steps[..k]);
      StepKeeps(Exec(s, steps[..k]), steps[k]);
    }
  }

  lemma InitOk()
    ensures Inv(Init())
  {
    var s := Init();
    forall u: UserId ensures UserOk(s, u) { }
  }
}
