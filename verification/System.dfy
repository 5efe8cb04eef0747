/** All nodes and the network between them, as a state machine.

    UDP broadcasts may be lost, repeated, reordered and delayed: a packet that has been sent stays
    deliverable, to anyone and any number of times, until it is lost. */
module Systems {
  import opened Config
  import opened Control
  import opened Nodes
  import opened Orders

  type NodeSeq = s: seq<NodeData> | |s| == ELEVS && forall n :: IsElev(n) ==> s[n].peers.id == n
    witness seq(ELEVS, n => FreshNode(n, 0, false, false))

  datatype System = System(nodes: NodeSeq, net: set<Packet>)
  {
    function SetNode(n: int, m: NodeData): System
      requires IsElev(n) && m.peers.id == n
    {
      this.(nodes := nodes[n := m])
    }
  }

  datatype Action =
    | Begin(n: int, inputs: Inputs, buttons: BoolTable)
    | Finish(n: int)
    | Send(n: int)
    | Deliver(n: int, packet: Packet, now: int)
    | Lose(packet: Packet)
    | Restart(n: int, floor: int, stopped: bool, obstruction: bool)

  /** Can the action happen? A halted process does nothing until it is restarted. */
  ghost predicate Enabled(s: System, a: Action) {
    match a
    case Begin(n, _, _) => IsElev(n) && s.nodes[n].pending.None? && !s.nodes[n].peers.halted
    case Finish(n) => IsElev(n) && s.nodes[n].pending.Some? && !s.nodes[n].peers.halted
    case Send(n) => IsElev(n) && s.nodes[n].booted && !s.nodes[n].peers.halted
    case Deliver(n, packet, _) =>
      IsElev(n) && s.nodes[n].booted && !s.nodes[n].peers.halted && packet in s.net && packet.Valid()
    case Lose(_) => true
    case Restart(n, floor, _, _) => IsElev(n) && IsFloor(floor)
  }

  ghost function Perform(s: System, a: Action): System
    requires Enabled(s, a)
  {
    match a
    case Begin(n, i, buttons) => s.SetNode(n, s.nodes[n].Begin(i, buttons))
    case Finish(n) => s.SetNode(n, s.nodes[n].Finish())
    case Send(n) => s.(net := s.net + {s.nodes[n].peers.Send()})
    case Deliver(n, packet, now) => s.SetNode(n, s.nodes[n].Receive(packet, now))
    case Lose(packet) => s.(net := s.net - {packet})
    case Restart(n, floor, stopped, obstruction) => s.SetNode(n, FreshNode(n, floor, stopped, obstruction))
  }

  /** An action that is not enabled does not happen, so any sequence of actions makes a run. */
  ghost function Apply(s: System, a: Action): System {
    if Enabled(s, a) then Perform(s, a) else s
  }

  /** Node `n` has been initialized at some floor and done nothing yet. */
  predicate Started(s: System, n: Elev) {
    var c := s.nodes[n].car.state;
    IsFloor(c.floor) && s.nodes[n] == FreshNode(n, c.floor, c.stopped, c.obstruction)
  }

  /** Every node has just been initialized and nothing has been sent. */
  ghost predicate Initial(s: System) {
    && s.net == {}
    && forall n: Elev {:trigger Started(s, n)} :: Started(s, n)
  }

  /** The states that `actions` lead through. */
  datatype Execution = Execution(trace: seq<System>, actions: seq<Action>)
  {
    ghost predicate Step(k: nat) {
      k < |actions| && k + 1 < |trace| && trace[k + 1] == Apply(trace[k], actions[k])
    }

    ghost predicate IsRun() {
      && |trace| == |actions| + 1
      && Initial(trace[0])
      && forall k: nat {:trigger Step(k)} :: k < |actions| ==> Step(k)
    }
  }

  /** Any interleaving of any actions, from the start of the system on. */
  type Run = r: Execution | r.IsRun()
    ghost witness Execution([System(seq(ELEVS, n => FreshNode(n, 0, false, false)), {})], [])

  lemma StepTo(r: Run, k: nat)
    requires 0 < k <= |r.actions|
    ensures r.trace[k] == Apply(r.trace[k - 1], r.actions[k - 1])
  {
    assert r.Step(k - 1);
  }

  /** What becomes of node `n`. */
  ghost function After(s: System, a: Action, n: Elev): NodeData {
    var m := s.nodes[n];
    if !Enabled(s, a) || a.Lose? || a.n != n then m
    else match a
      case Begin(_, i, buttons) => m.Begin(i, buttons)
      case Finish(_) => m.Finish()
      case Deliver(_, k, now) => m.Receive(k, now)
      case Restart(_, floor, stopped, obstruction) => FreshNode(n, floor, stopped, obstruction)
      case _ => m
  }

  lemma AfterIs(s: System, a: Action, n: Elev)
    ensures Apply(s, a).nodes[n] == After(s, a, n)
  {
  }

  lemma NodeNext(r: Run, k: nat, n: Elev)
    requires 0 < k <= |r.actions|
    ensures r.trace[k].nodes[n] == After(r.trace[k - 1], r.actions[k - 1], n)
  {
    StepTo(r, k);
    AfterIs(r.trace[k - 1], r.actions[k - 1], n);
  }

  function Last(r: Run): System { r.trace[|r.actions|] }

  lemma ThenIsRun(r: Run, a: Action)
    ensures Execution(r.trace + [Apply(Last(r), a)], r.actions + [a]).IsRun()
  {
    var q := Execution(r.trace + [Apply(Last(r), a)], r.actions + [a]);
    forall k: nat | k < |q.actions|
      ensures q.Step(k)
    {
      if k < |r.actions| {
        assert r.Step(k);
      }
    }
  }

  /** The run that goes on with `a`. */
  ghost function Then(r: Run, a: Action): (q: Run)
    ensures q.actions == r.actions + [a] && q.trace == r.trace + [Apply(Last(r), a)]
  {
    var q := Execution(r.trace + [Apply(Last(r), a)], r.actions + [a]);
    ThenIsRun(r, a);
    q
  }

  predicate NotRestarted(r: Run, i: nat, n: int) {
    i < |r.actions| ==> !(r.actions[i].Restart? && r.actions[i].n == n)
  }

  /** Node `n` is not restarted by the actions from `j` up to `k`. */
  ghost predicate StaysUp(r: Run, j: nat, k: nat, n: int) {
    forall i: nat {:trigger NotRestarted(r, i, n)} :: j <= i < k ==> NotRestarted(r, i, n)
  }

  /** Action `i` is a step of node `n`. */
  predicate BeginsAt(r: Run, i: nat, n: Elev) {
    && i < |r.actions| && i < |r.trace|
    && r.actions[i].Begin? && r.actions[i].n == n
    && r.trace[i].nodes[n].pending.None? && !r.trace[i].nodes[n].peers.halted
  }

  /** The action `got` delivers to `i` the packet that `j` sent in the action `sent`. */
  ghost predicate Exchange(r: Run, i: Elev, j: Elev, sent: nat, got: nat) {
    && sent < got < |r.actions| && got < |r.trace|
    && r.actions[sent] == Action.Send(j) && Enabled(r.trace[sent], r.actions[sent])
    && r.actions[got].Deliver? && Enabled(r.trace[got], r.actions[got])
    && r.actions[got].n == i && r.actions[got].packet == r.trace[sent].nodes[j].peers.Send()
  }
}
