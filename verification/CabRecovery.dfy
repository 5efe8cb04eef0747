/** What the backups are for: a node that restarts blank gets its cab orders back. */
module CabRecovery {
  import opened CabOrders
  import opened Config
  import opened Control
  import opened Nodes
  import opened OrderLattice
  import opened Orders
  import opened RunInvariants
  import opened Systems

  /** The cab order of `n` in its own order table. */
  function Own(s: System, n: Elev, f: Floor): Order { s.nodes[n].peers.orders[f][CAB] }

  /** The cab order of `n` in the backup that node `q` keeps. */
  function Backup(s: System, q: Elev, n: Elev, f: Floor): Order { s.nodes[q].peers.cab[n][f] }

  predicate BackupBelow(s: System, q: Elev, n: Elev, f: Floor, v: nat) { Backup(s, q, n, f).version <= v }

  predicate PacketBelow(k: Packet, n: Elev, f: Floor, v: nat) { k.cab[n][f].version <= v }

  /** No copy anywhere is newer than version `v`. */
  ghost predicate NoneAbove(s: System, n: Elev, f: Floor, v: nat) {
    && (forall q: Elev {:trigger BackupBelow(s, q, n, f, v)} :: BackupBelow(s, q, n, f, v))
    && (forall k {:trigger PacketBelow(k, n, f, v)} :: k in s.net ==> PacketBelow(k, n, f, v))
  }

  /** The action neither presses the cab button of `n` at `f` nor clears an outstanding cab order. */
  ghost predicate CabQuiet(s: System, a: Action, n: Elev, f: Floor) {
    && (a.Begin? && a.n == n ==> !a.buttons[f][CAB])
    && (a.Finish? && a.n == n && s.nodes[n].pending.Some? && Own(s, n, f).status.Confirmed? ==>
          !(s.nodes[n].pending.value[CAB] && s.nodes[n].car.state.floor == f))
  }

  // One action

  lemma BegunBackup(m: NodeData, i: Inputs, buttons: BoolTable, n: Elev, f: Floor)
    requires CabOk(m.peers)
    ensures m.Begin(i, buttons).peers.cab[n][f] ==
      if n == m.peers.id && buttons[f][CAB] then m.peers.cab[n][f].AfterRequest(n).AfterConfirm(n)
      else m.peers.cab[n][f]
  {
  }

  lemma FinishedBackup(m: NodeData, n: Elev, f: Floor)
    requires IsElev(m.peers.id) && m.pending.Some?
    ensures m.Finish().peers.cab[n][f] ==
      if n == m.peers.id && m.car.state.floor == f && m.pending.value[CAB] then
        m.peers.cab[n][f].AfterClear().AfterReset()
      else m.peers.cab[n][f]
  {
  }

  /** The node is not the owner `n`, or it is and leaves its cab order alone. */
  lemma FinishKeepsBackup(m: NodeData, n: Elev, f: Floor)
    requires CabOk(m.peers) && m.pending.Some?
    requires m.peers.id == n && m.peers.orders[f][CAB].status.Confirmed? ==>
      !(m.pending.value[CAB] && m.car.state.floor == f)
    ensures m.Finish().peers.cab[n][f] == m.peers.cab[n][f]
  {
    FinishedBackup(m, n, f);
    assert IsCab(m.peers.cab[n][f], n);
  }

  lemma BegunBelow(s: System, a: Action, q: Elev, n: Elev, f: Floor)
    requires a.Begin? && a.n == q && Enabled(s, a) && CabOk(s.nodes[q].peers) && (q != n || CabQuiet(s, a, n, f))
    ensures Backup(Apply(s, a), q, n, f) == Backup(s, q, n, f)
  {
  }

  lemma FinishedBelow(s: System, a: Action, q: Elev, n: Elev, f: Floor)
    requires a.Finish? && a.n == q && Enabled(s, a) && CabOk(s.nodes[q].peers) && (q != n || CabQuiet(s, a, n, f))
    ensures Backup(Apply(s, a), q, n, f) == Backup(s, q, n, f)
  {
    FinishKeepsBackup(s.nodes[q], n, f);
  }

  lemma ReceivedBelow(s: System, a: Action, q: Elev, n: Elev, f: Floor)
    requires a.Deliver? && a.n == q && Enabled(s, a) && CabOk(s.nodes[q].peers) && CabPacketOk(a.packet)
    ensures var v := Backup(Apply(s, a), q, n, f).version;
      Backup(s, q, n, f).version <= v && (v == Backup(s, q, n, f).version || v == a.packet.cab[n][f].version)
  {
  }

  /** While the owner is quiet, or at any other node, backups stay below a bound on all copies. */
  lemma BackupStaysBelow(s: System, a: Action, q: Elev, n: Elev, f: Floor, v: nat)
    requires CabOk(s.nodes[q].peers) && BackupBelow(s, q, n, f, v)
    requires a.Deliver? && a.packet in s.net ==> CabPacketOk(a.packet) && PacketBelow(a.packet, n, f, v)
    requires q != n || CabQuiet(s, a, n, f)
    ensures BackupBelow(Apply(s, a), q, n, f, v)
    ensures !(a.Restart? && a.n == q) ==> Backup(s, q, n, f).version <= Backup(Apply(s, a), q, n, f).version
  {
    if Enabled(s, a) && !a.Lose? && !a.Send? && a.n == q {
      match a
      case Begin(_, _, _) => BegunBelow(s, a, q, n, f);
      case Finish(_) => FinishedBelow(s, a, q, n, f);
      case Deliver(_, _, _) => ReceivedBelow(s, a, q, n, f);
      case Restart(_, _, _, _) => assert Backup(Apply(s, a), q, n, f) == BLANK;
    }
  }

  lemma CopiesAreCab(s: System, n: Elev)
    requires CabsOk(s)
    ensures CabOk(s.nodes[n].peers)
    ensures forall f: Floor {:trigger Own(s, n, f)} :: Own(s, n, f) == Backup(s, n, n, f)
  {
  }

  lemma BegunGrows(s: System, a: Action, n: Elev, f: Floor)
    requires a.Begin? && a.n == n && Enabled(s, a) && CabOk(s.nodes[n].peers)
    ensures Backup(s, n, n, f).version <= Backup(Apply(s, a), n, n, f).version
  {
    BegunBackup(s.nodes[n], a.inputs, a.buttons, n, f);
  }

  lemma FinishedGrows(s: System, a: Action, n: Elev, f: Floor)
    requires a.Finish? && a.n == n && Enabled(s, a)
    ensures Backup(s, n, n, f).version <= Backup(Apply(s, a), n, n, f).version
  {
    FinishedBackup(s.nodes[n], n, f);
  }

  /** The owner's own operations only raise its version. */
  lemma OwnGrows(s: System, a: Action, t: System, n: Elev, f: Floor)
    requires t == Apply(s, a)
    requires CabOk(s.nodes[n].peers) && !(a.Restart? && a.n == n)
    requires a.Deliver? && a.packet in s.net ==> CabPacketOk(a.packet)
    ensures Backup(s, n, n, f).version <= Backup(t, n, n, f).version
  {
    if Enabled(s, a) && !a.Lose? && !a.Send? && a.n == n {
      match a
      case Begin(_, _, _) => BegunGrows(s, a, n, f);
      case Finish(_) => FinishedGrows(s, a, n, f);
      case Deliver(_, _, _) => ReceivedBelow(s, a, n, n, f);
    }
  }

  lemma PacketStaysBelow(s: System, a: Action, k: Packet, n: Elev, f: Floor, v: nat)
    requires NoneAbove(s, n, f, v) && k in Apply(s, a).net
    ensures PacketBelow(k, n, f, v)
  {
    if k !in s.net {
      assert a.Send? && k.cab[n][f] == Backup(s, a.n, n, f) && BackupBelow(s, a.n, n, f, v);
    }
  }

  /** All copies stay below `w`, if the owner's does. */
  lemma StaysBelow(s: System, a: Action, n: Elev, f: Floor, v: nat, w: nat)
    requires CabsOk(s) && NoneAbove(s, n, f, v) && v <= w
    requires BackupBelow(Apply(s, a), n, n, f, w)
    ensures NoneAbove(Apply(s, a), n, f, w)
  {
    forall q: Elev
      ensures BackupBelow(Apply(s, a), q, n, f, w)
    {
      assert BackupBelow(s, q, n, f, v);
      if a.Deliver? {
        assert a.packet in s.net ==> PacketBelow(a.packet, n, f, v);
      }
      if q != n {
        BackupStaysBelow(s, a, q, n, f, v);
      }
    }
    forall k | k in Apply(s, a).net
      ensures PacketBelow(k, n, f, w)
    {
      PacketStaysBelow(s, a, k, n, f, v);
    }
  }

  // Runs

  lemma OwnIsBackup(r: Run, k: nat, n: Elev, f: Floor)
    requires k <= |r.actions|
    ensures Own(r.trace[k], n, f) == Backup(r.trace[k], n, n, f)
  {
    CabsAlwaysOk(r, k);
    CopiesAreCab(r.trace[k], n);
  }

  lemma BackupStaysNewest(s: System, a: Action, t: System, n: Elev, f: Floor)
    requires t == Apply(s, a) && CabsOk(s) && !(a.Restart? && a.n == n)
    requires NoneAbove(s, n, f, Backup(s, n, n, f).version)
    ensures NoneAbove(t, n, f, Backup(t, n, n, f).version)
  {
    CopiesAreCab(s, n);
    OwnGrows(s, a, t, n, f);
    StaysBelow(s, a, n, f, Backup(s, n, n, f).version, Backup(t, n, n, f).version);
  }

  lemma BackupStaysNewestAt(r: Run, k: nat, n: Elev, f: Floor)
    requires 0 < k <= |r.actions| && NotRestarted(r, k - 1, n)
    requires NoneAbove(r.trace[k - 1], n, f, Backup(r.trace[k - 1], n, n, f).version)
    ensures NoneAbove(r.trace[k], n, f, Backup(r.trace[k], n, n, f).version)
  {
    CabsAlwaysOk(r, k - 1);
    StepTo(r, k);
    BackupStaysNewest(r.trace[k - 1], r.actions[k - 1], r.trace[k], n, f);
  }

  lemma {:induction false} BackupIsNewest(r: Run, j: nat, k: nat, n: Elev, f: Floor)
    requires j <= k <= |r.actions| && StaysUp(r, j, k, n)
    requires NoneAbove(r.trace[j], n, f, Backup(r.trace[j], n, n, f).version)
    ensures NoneAbove(r.trace[k], n, f, Backup(r.trace[k], n, n, f).version)
  {
    if j < k {
      BackupIsNewest(r, j, k - 1, n, f);
      assert NotRestarted(r, k - 1, n);
      BackupStaysNewestAt(r, k, n, f);
    }
  }

  lemma InitialBackups(s: System, n: Elev, f: Floor)
    requires Initial(s)
    ensures NoneAbove(s, n, f, Backup(s, n, n, f).version)
  {
    forall q: Elev
      ensures Backup(s, q, n, f).version == 0
    {
      assert Started(s, q);
    }
  }

  /** As long as a node stays up, its own copy of its cab order stays the newest of all. */
  lemma OwnStaysNewest(r: Run, j: nat, k: nat, n: Elev, f: Floor)
    requires j <= k <= |r.actions| && StaysUp(r, j, k, n)
    requires NoneAbove(r.trace[j], n, f, Own(r.trace[j], n, f).version)
    ensures NoneAbove(r.trace[k], n, f, Own(r.trace[k], n, f).version)
  {
    OwnIsBackup(r, j, n, f);
    BackupIsNewest(r, j, k, n, f);
    OwnIsBackup(r, k, n, f);
  }

  /** Until it restarts, nobody has a newer copy of a node's cab order than the node itself. */
  lemma OwnIsNewest(r: Run, k: nat, n: Elev, f: Floor)
    requires k <= |r.actions| && StaysUp(r, 0, k, n)
    ensures NoneAbove(r.trace[k], n, f, Own(r.trace[k], n, f).version)
  {
    InitialBackups(r.trace[0], n, f);
    OwnIsBackup(r, 0, n, f);
    OwnStaysNewest(r, 0, k, n, f);
  }

  lemma EchoAtNode(s: System, a: Action, n: Elev, f: Floor)
    requires a.Deliver? && a.n == n && CabOk(s.nodes[n].peers)
    requires a.packet in s.net ==> CabPacketOk(a.packet) && a.packet.cab[n][f].version <= Own(s, n, f).version
    ensures Own(Apply(s, a), n, f) == Own(s, n, f)
  {
    if Enabled(s, a) {
      CabMergeIsMax(Own(s, n, f), a.packet.cab[n][f], n);
    }
  }

  /** So echoes of a node's own cab orders never change them. */
  lemma EchoIsHarmless(r: Run, k: nat, n: Elev, f: Floor)
    requires k < |r.actions| && r.actions[k].Deliver? && r.actions[k].n == n
    requires StaysUp(r, 0, k, n)
    ensures Own(r.trace[k + 1], n, f) == Own(r.trace[k], n, f)
  {
    OwnIsNewest(r, k, n, f);
    CabsAlwaysOk(r, k);
    assert r.Step(k);
    var v := Own(r.trace[k], n, f).version;
    assert r.actions[k].packet in r.trace[k].net ==> PacketBelow(r.actions[k].packet, n, f, v);
    EchoAtNode(r.trace[k], r.actions[k], n, f);
  }

  // Recovery

  /** Nothing is newer than `v`, and the peer `m` has version `v` of the cab order of `n`. */
  ghost predicate KeptBy(s: System, m: Elev, n: Elev, f: Floor, v: nat) {
    NoneAbove(s, n, f, v) && Backup(s, m, n, f).version == v
  }

  /** The peer keeps it while `n` is quiet, however often `n` and others restart. */
  lemma StaysKept(s: System, a: Action, t: System, m: Elev, n: Elev, f: Floor, v: nat)
    requires t == Apply(s, a)
    requires CabsOk(s) && KeptBy(s, m, n, f, v) && CabQuiet(s, a, n, f) && !(a.Restart? && a.n == m)
    ensures KeptBy(t, m, n, f, v)
  {
    assert a.Deliver? && a.packet in s.net ==> PacketBelow(a.packet, n, f, v);
    assert BackupBelow(s, n, n, f, v) && BackupBelow(s, m, n, f, v);
    BackupStaysBelow(s, a, n, n, f, v);
    BackupStaysBelow(s, a, m, n, f, v);
    StaysBelow(s, a, n, f, v, v);
  }

  ghost predicate QuietAt(r: Run, i: nat, n: Elev, f: Floor) {
    i < |r.actions| && i < |r.trace| && CabQuiet(r.trace[i], r.actions[i], n, f)
  }

  ghost predicate QuietUntil(r: Run, j: nat, k: nat, n: Elev, f: Floor) {
    forall i: nat {:trigger QuietAt(r, i, n, f)} :: j <= i < k ==> QuietAt(r, i, n, f)
  }

  lemma QuietWithin(r: Run, j: nat, k: nat, i: nat, m: Elev, n: Elev, f: Floor)
    requires QuietUntil(r, j, k, n, f) && StaysUp(r, j, k, m) && i <= k
    ensures QuietUntil(r, j, i, n, f) && StaysUp(r, j, i, m)
  {
  }

  lemma StaysKeptAt(r: Run, k: nat, m: Elev, n: Elev, f: Floor, v: nat)
    requires 0 < k <= |r.actions| && KeptBy(r.trace[k - 1], m, n, f, v)
    requires QuietAt(r, k - 1, n, f) && NotRestarted(r, k - 1, m)
    ensures KeptBy(r.trace[k], m, n, f, v)
  {
    CabsAlwaysOk(r, k - 1);
    assert CabQuiet(r.trace[k - 1], r.actions[k - 1], n, f);
    StepTo(r, k);
    StaysKept(r.trace[k - 1], r.actions[k - 1], r.trace[k], m, n, f, v);
  }

  lemma {:induction false} RunKeeps(r: Run, j: nat, k: nat, m: Elev, n: Elev, f: Floor, v: nat)
    requires j <= k <= |r.actions| && KeptBy(r.trace[j], m, n, f, v)
    requires QuietUntil(r, j, k, n, f)
    requires StaysUp(r, j, k, m)
    ensures KeptBy(r.trace[k], m, n, f, v)
  {
    if j < k {
      RunKeeps(r, j, k - 1, m, n, f, v);
      assert QuietAt(r, k - 1, n, f) && NotRestarted(r, k - 1, m);
      StaysKeptAt(r, k, m, n, f, v);
    }
  }

  /** One packet of the peer brings the order back. */
  lemma PacketRestores(s: System, a: Action, t: System, n: Elev, f: Floor, v: nat)
    requires a.Deliver? && a.n == n && Enabled(s, a) && t == Apply(s, a)
    requires CabOk(s.nodes[n].peers) && CabPacketOk(a.packet)
    requires a.packet.id != n && a.packet.cab[n][f].version == v && Own(s, n, f).version <= v
    ensures Own(t, n, f).version == v
  {
    CabMergeIsMax(Own(s, n, f), a.packet.cab[n][f], n);
  }

  /** The packet that `m` has sent since `start` carries version `v`. */
  lemma PacketKeeps(r: Run, start: nat, sent: nat, m: Elev, n: Elev, f: Floor, v: nat)
    requires start <= sent < |r.actions| && KeptBy(r.trace[start], m, n, f, v)
    requires QuietUntil(r, start, sent, n, f) && StaysUp(r, start, sent, m)
    requires r.trace[sent].nodes[m].booted
    ensures r.trace[sent].nodes[m].peers.Send().id == m && r.trace[sent].nodes[m].peers.Send().cab[n][f].version == v
  {
    RunKeeps(r, start, sent, m, n, f, v);
    NodeAlwaysOk(r, sent, m);
    SendOk(r.trace[sent].nodes[m]);
  }

  lemma DeliveredIsCab(r: Run, k: nat, n: Elev)
    requires k < |r.actions| && r.actions[k].Deliver? && Enabled(r.trace[k], r.actions[k])
    ensures CabOk(r.trace[k].nodes[n].peers) && CabPacketOk(r.actions[k].packet)
  {
    CabsAlwaysOk(r, k);
    CopiesAreCab(r.trace[k], n);
    assert CabPacketOk(r.actions[k].packet);
  }

  /** `n` has received it. */
  lemma PacketArrives(r: Run, sent: nat, got: nat, m: Elev, n: Elev, f: Floor, v: nat)
    requires m != n && Exchange(r, n, m, sent, got)
    requires Own(r.trace[got], n, f).version <= v
    requires r.actions[got].packet.id == m && r.actions[got].packet.cab[n][f].version == v
    ensures Own(r.trace[got + 1], n, f).version == v
  {
    DeliveredIsCab(r, got, n);
    assert r.Step(got);
    PacketRestores(r.trace[got], r.actions[got], r.trace[got + 1], n, f, v);
  }

  lemma OwnStaysBelow(r: Run, j: nat, k: nat, m: Elev, n: Elev, f: Floor, v: nat)
    requires j <= k <= |r.actions| && KeptBy(r.trace[j], m, n, f, v)
    requires QuietUntil(r, j, k, n, f) && StaysUp(r, j, k, m)
    ensures Own(r.trace[k], n, f).version <= v
  {
    RunKeeps(r, j, k, m, n, f, v);
    assert BackupBelow(r.trace[k], n, n, f, v);
    OwnIsBackup(r, k, n, f);
  }

  lemma BackupGrowsAt(r: Run, k: nat, n: Elev, f: Floor)
    requires 0 < k <= |r.actions| && NotRestarted(r, k - 1, n)
    ensures Backup(r.trace[k - 1], n, n, f).version <= Backup(r.trace[k], n, n, f).version
  {
    CabsAlwaysOk(r, k - 1);
    StepTo(r, k);
    OwnGrows(r.trace[k - 1], r.actions[k - 1], r.trace[k], n, f);
  }

  lemma OwnGrowsAt(r: Run, k: nat, n: Elev, f: Floor)
    requires 0 < k <= |r.actions| && NotRestarted(r, k - 1, n)
    ensures Own(r.trace[k - 1], n, f).version <= Own(r.trace[k], n, f).version
  {
    BackupGrowsAt(r, k, n, f);
    OwnIsBackup(r, k - 1, n, f);
    OwnIsBackup(r, k, n, f);
  }

  /** While the owner stays up, its own version does not fall back. */
  lemma {:induction false} OwnDoesNotFall(r: Run, j: nat, k: nat, n: Elev, f: Floor)
    requires j <= k <= |r.actions| && StaysUp(r, j, k, n)
    ensures Own(r.trace[j], n, f).version <= Own(r.trace[k], n, f).version
  {
    if j < k {
      OwnDoesNotFall(r, j, k - 1, n, f);
      assert NotRestarted(r, k - 1, n);
      OwnGrowsAt(r, k, n, f);
    }
  }

  lemma ExchangeRestores(r: Run, start: nat, sent: nat, got: nat, k: nat, m: Elev, n: Elev, f: Floor, v: nat)
    requires m != n && start <= sent < got < k <= |r.actions| && KeptBy(r.trace[start], m, n, f, v)
    requires QuietUntil(r, start, k, n, f) && StaysUp(r, start, k, m)
    requires Exchange(r, n, m, sent, got)
    ensures Own(r.trace[got + 1], n, f).version == v
  {
    QuietWithin(r, start, k, sent, m, n, f);
    PacketKeeps(r, start, sent, m, n, f, v);
    QuietWithin(r, start, k, got, m, n, f);
    OwnStaysBelow(r, start, got, m, n, f, v);
    PacketArrives(r, sent, got, m, n, f, v);
  }

  /** Nor does it fall back or grow after the exchange. */
  lemma VersionStays(r: Run, start: nat, got: nat, k: nat, m: Elev, n: Elev, f: Floor, v: nat)
    requires start <= got < k <= |r.actions| && KeptBy(r.trace[start], m, n, f, v)
    requires QuietUntil(r, start, k, n, f) && StaysUp(r, start, k, m)
    requires Own(r.trace[got + 1], n, f).version == v && StaysUp(r, got + 1, k, n)
    ensures Own(r.trace[k], n, f).version == v
  {
    OwnDoesNotFall(r, got + 1, k, n, f);
    OwnStaysBelow(r, start, k, m, n, f, v);
  }

  lemma VersionRecovers(r: Run, start: nat, sent: nat, got: nat, k: nat, m: Elev, n: Elev, f: Floor, v: nat)
    requires m != n && start <= sent < got < k <= |r.actions| && KeptBy(r.trace[start], m, n, f, v)
    requires QuietUntil(r, start, k, n, f) && StaysUp(r, start, k, m)
    requires Exchange(r, n, m, sent, got) && StaysUp(r, got + 1, k, n)
    ensures Own(r.trace[k], n, f).version == v
  {
    assert Own(r.trace[got + 1], n, f).version == v by {
      ExchangeRestores(r, start, sent, got, k, m, n, f, v);
    }
    VersionStays(r, start, got, k, m, n, f, v);
  }

  lemma OwnIsCab(r: Run, k: nat, n: Elev, f: Floor)
    requires k <= |r.actions|
    ensures IsCab(Own(r.trace[k], n, f), n)
  {
    CabsAlwaysOk(r, k);
    assert CabOk(r.trace[k].nodes[n].peers);
  }

  lemma OwnIsDetermined(r: Run, j: nat, k: nat, n: Elev, f: Floor)
    requires j <= |r.actions| && k <= |r.actions|
    requires Own(r.trace[j], n, f).version == Own(r.trace[k], n, f).version
    ensures Own(r.trace[j], n, f) == Own(r.trace[k], n, f)
  {
    OwnIsCab(r, j, n, f);
    OwnIsCab(r, k, n, f);
  }

  /** Cab recovery. At `crash` some peer `m` holds the last cab order of `n` and nobody a newer one;
      then `n` restarts blank. Let `n` not press or clear that cab order up to `k`, and `m` stay up.
      Once `n` has received one packet that `m` has sent after the crash, the order is what it was,
      whatever else is lost, delayed, repeated or delivered; and it is the newest copy again. */
  lemma CabRecovers(r: Run, crash: nat, sent: nat, got: nat, k: nat, m: Elev, n: Elev, f: Floor)
    requires m != n && crash < sent < got < k <= |r.actions|
    requires r.actions[crash].Restart? && r.actions[crash].n == n
    requires KeptBy(r.trace[crash], m, n, f, Own(r.trace[crash], n, f).version)
    requires QuietUntil(r, crash, k, n, f) && StaysUp(r, crash, k, m)
    requires Exchange(r, n, m, sent, got) && StaysUp(r, got + 1, k, n)
    ensures Own(r.trace[k], n, f) == Own(r.trace[crash], n, f)
    ensures NoneAbove(r.trace[k], n, f, Own(r.trace[k], n, f).version)
  {
    var v := Own(r.trace[crash], n, f).version;
    VersionRecovers(r, crash, sent, got, k, m, n, f, v);
    OwnIsDetermined(r, crash, k, n, f);
    RunKeeps(r, crash, k, m, n, f, v);
  }

  /** In particular after the first crash, if `m` holds the last cab order of `n` by then. */
  lemma BackupRecovers(r: Run, crash: nat, sent: nat, got: nat, k: nat, m: Elev, n: Elev, f: Floor)
    requires m != n && crash < sent < got < k <= |r.actions|
    requires r.actions[crash].Restart? && r.actions[crash].n == n && StaysUp(r, 0, crash, n)
    requires Backup(r.trace[crash], m, n, f) == Own(r.trace[crash], n, f)
    requires QuietUntil(r, crash, k, n, f) && StaysUp(r, crash, k, m)
    requires Exchange(r, n, m, sent, got) && StaysUp(r, got + 1, k, n)
    ensures Own(r.trace[k], n, f) == Own(r.trace[crash], n, f)
  {
    OwnIsNewest(r, crash, n, f);
    CabRecovers(r, crash, sent, got, k, m, n, f);
  }

  // Backing up

  /** Whoever receives a packet of `n` backs up the cab orders that it carries. */
  lemma DeliveryBacksUp(s: System, a: Action, t: System, m: Elev, n: Elev, f: Floor)
    requires a.Deliver? && a.n == m && Enabled(s, a) && a.packet.id == n != m && t == Apply(s, a)
    requires CabOk(s.nodes[m].peers) && CabPacketOk(a.packet)
    ensures var o := a.packet.orders[f][CAB];
      && Leq(o, Backup(t, m, n, f)) && Leq(Backup(s, m, n, f), Backup(t, m, n, f))
      && (Backup(t, m, n, f) == o || Backup(t, m, n, f) == Backup(s, m, n, f))
  {
    MergeIsJoin(Backup(s, m, n, f), a.packet.orders[f][CAB], BLANK);
    CabMergeIsMax(Backup(s, m, n, f), a.packet.orders[f][CAB], n);
  }

  /** The owner itself keeps its cab order while it is quiet and stays up. */
  lemma OwnerKeeps(r: Run, j: nat, k: nat, n: Elev, f: Floor)
    requires j <= k <= |r.actions| && StaysUp(r, 0, k, n) && QuietUntil(r, j, k, n, f)
    ensures KeptBy(r.trace[k], n, n, f, Own(r.trace[j], n, f).version)
    ensures Own(r.trace[k], n, f).version == Own(r.trace[j], n, f).version
  {
    OwnIsNewest(r, j, n, f);
    OwnIsBackup(r, j, n, f);
    RunKeeps(r, j, k, n, n, f, Own(r.trace[j], n, f).version);
    OwnIsBackup(r, k, n, f);
  }

  lemma PacketCarriesOwn(r: Run, m: Elev, n: Elev, sent: nat, got: nat, f: Floor)
    requires Exchange(r, m, n, sent, got)
    ensures r.actions[got].packet.id == n && r.actions[got].packet.orders[f][CAB] == Own(r.trace[sent], n, f)
  {
    NodeAlwaysOk(r, sent, n);
    SendOk(r.trace[sent].nodes[n]);
  }

  lemma ExchangeBacksUp(r: Run, m: Elev, n: Elev, sent: nat, got: nat, f: Floor)
    requires m != n && Exchange(r, m, n, sent, got)
    ensures Own(r.trace[sent], n, f).version <= Backup(r.trace[got + 1], m, n, f).version
  {
    PacketCarriesOwn(r, m, n, sent, got, f);
    DeliveredIsCab(r, got, m);
    assert r.Step(got);
    DeliveryBacksUp(r.trace[got], r.actions[got], r.trace[got + 1], m, n, f);
  }

  /** One packet from `n` to `m`, while `n` is quiet, and `m` keeps its newest cab order. */
  lemma ExchangeKeeps(r: Run, m: Elev, n: Elev, sent: nat, got: nat, h: nat, f: Floor)
    requires m != n && Exchange(r, m, n, sent, got) && h == got + 1
    requires StaysUp(r, 0, h, n) && QuietUntil(r, sent, h, n, f)
    ensures KeptBy(r.trace[h], m, n, f, Own(r.trace[h], n, f).version)
  {
    OwnerKeeps(r, sent, h, n, f);
    ExchangeBacksUp(r, m, n, sent, got, f);
    assert BackupBelow(r.trace[h], m, n, f, Own(r.trace[sent], n, f).version);
  }

  lemma QuietUpTo(r: Run, j: nat, i: nat, k: nat, n: Elev, f: Floor)
    requires j <= i <= k && QuietUntil(r, j, k, n, f) && StaysUp(r, 0, k, n)
    ensures QuietUntil(r, j, i, n, f) && StaysUp(r, 0, i, n)
  {
  }

  lemma QuietFrom(r: Run, j: nat, i: nat, k: nat, n: Elev, f: Floor)
    requires j <= i <= k && QuietUntil(r, j, k, n, f)
    ensures QuietUntil(r, i, k, n, f)
  {
  }

  lemma KeptOn(r: Run, heard: nat, crash: nat, m: Elev, n: Elev, f: Floor)
    requires heard <= crash <= |r.actions| && KeptBy(r.trace[heard], m, n, f, Own(r.trace[heard], n, f).version)
    requires StaysUp(r, 0, crash, n) && QuietUntil(r, heard, crash, n, f) && StaysUp(r, heard, crash, m)
    ensures KeptBy(r.trace[crash], m, n, f, Own(r.trace[crash], n, f).version)
  {
    OwnerKeeps(r, heard, crash, n, f);
    RunKeeps(r, heard, crash, m, n, f, Own(r.trace[heard], n, f).version);
  }

  lemma KeptAtCrash(r: Run, told: nat, heard: nat, crash: nat, m: Elev, n: Elev, f: Floor)
    requires m != n && heard < crash <= |r.actions| && Exchange(r, m, n, told, heard)
    requires StaysUp(r, 0, crash, n) && QuietUntil(r, told, crash, n, f) && StaysUp(r, heard + 1, crash, m)
    ensures KeptBy(r.trace[crash], m, n, f, Own(r.trace[crash], n, f).version)
  {
    var h := heard + 1;
    QuietUpTo(r, told, h, crash, n, f);
    ExchangeKeeps(r, m, n, told, heard, h, f);
    QuietFrom(r, told, h, crash, n, f);
    KeptOn(r, h, crash, m, n, f);
  }

  /** Cab orders survive a first crash, from end to end: `n` sends to `m` before it, and `m` to `n` after it.
      If the cab order is left alone from the first packet on and `m` stays up from then on, `n` has its
      order back. */
  lemma FirstCrashRecovers(r: Run, told: nat, heard: nat, crash: nat, sent: nat, got: nat, k: nat, m: Elev, n: Elev,
      f: Floor)
    requires m != n && heard < crash < sent < got < k <= |r.actions|
    requires Exchange(r, m, n, told, heard) && Exchange(r, n, m, sent, got)
    requires r.actions[crash].Restart? && r.actions[crash].n == n
    requires StaysUp(r, 0, crash, n) && StaysUp(r, got + 1, k, n) && StaysUp(r, heard + 1, k, m)
    requires QuietUntil(r, told, k, n, f)
    ensures Own(r.trace[k], n, f) == Own(r.trace[told], n, f)
    ensures NoneAbove(r.trace[k], n, f, Own(r.trace[k], n, f).version)
  {
    KeptAtCrash(r, told, heard, crash, m, n, f);
    CabRecovers(r, crash, sent, got, k, m, n, f);
    OwnerKeeps(r, told, crash, n, f);
    OwnIsDetermined(r, told, k, n, f);
  }
}
