/**
 The gate between several answering candidates and one client stream.

 Text is a sequence of bytes. The client, the network and the deadlines are the environment: every operation
 is told whether its context has ended and whether the client accepts what is sent to it.
 */
module StreamGate {
  import opened Common

  datatype StreamEvent = Reset | Delta(text: string) | Other

  /** The environment of one operation: is its context over, and are its first and second send accepted? */
  datatype Client = Client(cancelled: bool, first: bool, second: bool)

  datatype Gate = Gate(
    active: Option<Uuid>, buffers: map<Uuid, string>, frozen: bool, broken: bool, log: seq<StreamEvent>)

  const LIMIT := 131_072
  const NEW := Gate(None, map[], false, false, [])

  function BufferOf(buffers: map<Uuid, string>, id: Uuid): string { if id in buffers then buffers[id] else "" }

  /** An event reaches the client unless an earlier one did not. */
  function Send(g: Gate, e: StreamEvent, accepted: bool): (Gate, bool)
  {
    if g.broken then (g, false)
    else if !accepted then (g.(broken := true), false)
    else (g.(log := g.log + [e]), true)
  }

  /** A candidate emits. The first candidate with text becomes the visible one. */
  function EmitStep(g: Gate, id: Uuid, e: StreamEvent, client: Client): (Gate, bool)
  {
    if client.cancelled || g.frozen then (g, false)
    else
      var buffer := BufferOf(g.buffers, id);
      match e
      case Reset =>
        var g1 := g.(buffers := g.buffers[id := ""]);
        if g.active == Some(id) then Send(g1, e, client.first) else (g1, true)
      case Other => (g.(buffers := g.buffers[id := buffer]), true)
      case Delta(text) =>
        if |buffer| + |text| > LIMIT then (g.(buffers := g.buffers[id := buffer]), false)
        else
          var g1 := g.(buffers := g.buffers[id := buffer + text]);
          if g.active.None? then
            var (g2, ok) := Send(g1.(active := Some(id)), Reset, client.first);
            if ok then Send(g2, Delta(buffer + text), client.second) else (g2, false)
          else if g.active == Some(id) then Send(g1, e, client.first)
          else (g1, true)
  }

  function FailedStep(g: Gate, id: Uuid, client: Client): Gate
  {
    if !g.frozen && g.active == Some(id) then Send(g.(active := None), Reset, client.first).0 else g
  }

  function CommitStep(g: Gate, id: Uuid, client: Client): (Gate, bool)
  {
    var g1 := g.(frozen := true);
    if g.broken then (g1, false)
    else if g.active == Some(id) then (g1, true)
    else
      var (g2, ok) := Send(g1, Reset, client.first);
      if !ok then (g2, false)
      else if |BufferOf(g.buffers, id)| > 0 then Send(g2, Delta(BufferOf(g.buffers, id)), client.second)
      else (g2, true)
  }

  // ---- What the client sees. ----

  /** What the client displays after a log: reset clears, delta appends. */
  function Replay(log: seq<StreamEvent>): string
  {
    if log == [] then ""
    else
      match log[|log| - 1]
      case Reset => ""
      case Delta(text) => Replay(log[..|log| - 1]) + text
      case Other => Replay(log[..|log| - 1])
  }

  lemma ReplayAppend(log: seq<StreamEvent>, e: StreamEvent)
    ensures Replay(log + [e]) == match e case Reset => "" case Delta(text) => Replay(log) + text case Other => Replay(log)
  {
    assert (log + [e])[..|log|] == log;
  }

  /** The active candidate's text, or nothing. */
  function Visible(g: Gate): string { if g.active.None? then "" else BufferOf(g.buffers, g.active.value) }

  ghost predicate Faithful(g: Gate)
  {
    !g.broken ==> Replay(g.log) == Visible(g)
  }

  datatype Op =
    | Emit(id: Uuid, e: StreamEvent, client: Client)
    | Failed(id: Uuid, client: Client)
    | Commit(id: Uuid, client: Client)
    | Close

  function Apply(g: Gate, op: Op): Gate
  {
    match op
    case Emit(id, e, client) => EmitStep(g, id, e, client).0
    case Failed(id, client) => FailedStep(g, id, client)
    case Commit(id, client) => CommitStep(g, id, client).0
    case Close => g.(frozen := true)
  }

  function Run(g: Gate, ops: seq<Op>): Gate
  {
    if ops == [] then g else Apply(Run(g, ops[..|ops| - 1]), ops[|ops| - 1])
  }

  lemma SendReplay(g: Gate, e: StreamEvent, accepted: bool)
    ensures var (g', ok) := Send(g, e, accepted);
            && g'.active == g.active && g'.buffers == g.buffers && (g.broken ==> g'.broken) && (!ok ==> g'.broken)
            && (ok ==> Replay(g'.log) == match e case Reset => "" case Delta(t) => Replay(g.log) + t case Other => Replay(g.log))
  {
    ReplayAppend(g.log, e);
  }

  lemma DeltaFaithful(g: Gate, id: Uuid, text: string, client: Client)
    requires Faithful(g)
    ensures Faithful(EmitStep(g, id, Delta(text), client).0)
  {
    var buffer := BufferOf(g.buffers, id);
    var g1 := g.(buffers := g.buffers[id := buffer + text]);
    if g.active.None? {
      var g2 := g1.(active := Some(id));
      SendReplay(g2, Reset, client.first);
      SendReplay(Send(g2, Reset, client.first).0, Delta(buffer + text), client.second);
      assert "" + (buffer + text) == buffer + text;
    } else {
      SendReplay(g1, Delta(text), client.first);
    }
  }

  lemma EmitFaithful(g: Gate, id: Uuid, e: StreamEvent, client: Client)
    requires Faithful(g)
    ensures Faithful(EmitStep(g, id, e, client).0)
  {
    match e
    case Reset => SendReplay(g.(buffers := g.buffers[id := ""]), e, client.first);
    case Other =>
    case Delta(text) => DeltaFaithful(g, id, text, client);
  }

  lemma FailedFaithful(g: Gate, id: Uuid, client: Client)
    requires Faithful(g)
    ensures Faithful(FailedStep(g, id, client))
  {
    ReplayAppend(g.log, Reset);
  }

  /** Candidates may emit, fail and be cut off in any order: the client always sees the active one's buffer. */
  lemma {:induction false} ReplayIsVisible(ops: seq<Op>)
    requires forall op | op in ops :: !op.Commit?
    ensures Faithful(Run(NEW, ops))
  {
    if ops != [] {
      ReplayIsVisible(ops[..|ops| - 1]);
      var g, op := Run(NEW, ops[..|ops| - 1]), ops[|ops| - 1];
      if op.Emit? { EmitFaithful(g, op.id, op.e, op.client); }
      if op.Failed? { FailedFaithful(g, op.id, op.client); }
    }
  }

  /** A commit that succeeds leaves exactly the winner's buffer on the client's screen. */
  lemma CommitShowsWinner(g: Gate, id: Uuid, client: Client)
    requires Faithful(g) && CommitStep(g, id, client).1
    ensures var g' := CommitStep(g, id, client).0;
            Replay(g'.log) == BufferOf(g.buffers, id) && g'.buffers == g.buffers && g'.frozen && !g'.broken
  {
    if g.active != Some(id) {
      var g1, buffer := g.(frozen := true), BufferOf(g.buffers, id);
      SendReplay(g1, Reset, client.first);
      if |buffer| > 0 {
        SendReplay(Send(g1, Reset, client.first).0, Delta(buffer), client.second);
        assert "" + buffer == buffer;
      }
    }
  }

  lemma {:induction false} FrozenIsSilent(g: Gate, later: seq<Op>)
    requires g.frozen && forall op | op in later :: !op.Commit?
    ensures Run(g, later) == g
  {
    if later != [] { FrozenIsSilent(g, later[..|later| - 1]); }
  }

  /** After a successful commit the screen shows the winner's text for good, whatever the losers still try. */
  lemma WinnerStays(ops: seq<Op>, id: Uuid, client: Client, later: seq<Op>)
    requires (forall op | op in ops :: !op.Commit?) && (forall op | op in later :: !op.Commit?)
    requires CommitStep(Run(NEW, ops), id, client).1
    ensures var g := Run(NEW, ops);
            Replay(Run(CommitStep(g, id, client).0, later).log) == BufferOf(g.buffers, id)
  {
    ReplayIsVisible(ops);
    CommitShowsWinner(Run(NEW, ops), id, client);
    FrozenIsSilent(CommitStep(Run(NEW, ops), id, client).0, later);
  }

  // ---- Whose text is visible. ----

  /** The first candidate with text becomes visible with all it has said so far. */
  lemma FirstTextIsShown(g: Gate, id: Uuid, text: string, client: Client)
    requires g.active.None? && !g.frozen && !g.broken && !client.cancelled && client.first && client.second
    requires |BufferOf(g.buffers, id)| + |text| <= LIMIT
    ensures var (g', ok) := EmitStep(g, id, Delta(text), client);
            && ok && g'.active == Some(id) && g'.log == g.log + [Reset, Delta(BufferOf(g.buffers, id) + text)]
            && Replay(g'.log) == BufferOf(g.buffers, id) + text && Visible(g') == Replay(g'.log)
  {
    var buffer := BufferOf(g.buffers, id) + text;
    assert g.log + [Reset] + [Delta(buffer)] == g.log + [Reset, Delta(buffer)];
    ReplayAppend(g.log, Reset);
    ReplayAppend(g.log + [Reset], Delta(buffer));
    assert "" + buffer == buffer;
  }

  /** What a candidate that is not visible says is kept, and not sent. */
  lemma OthersAreKept(g: Gate, id: Uuid, text: string, client: Client)
    requires g.active.Some? && g.active.value != id && !g.frozen && !client.cancelled
    requires |BufferOf(g.buffers, id)| + |text| <= LIMIT
    ensures EmitStep(g, id, Delta(text), client) == (g.(buffers := g.buffers[id := BufferOf(g.buffers, id) + text]), true)
  {
  }

  /** The visible candidate stays visible until it fails, whatever it and the others do. */
  lemma {:induction false} ActiveStays(g: Gate, ops: seq<Op>, id: Uuid)
    requires g.active == Some(id) && forall op | op in ops :: !(op.Failed? && op.id == id)
    ensures Run(g, ops).active == Some(id)
  {
    if ops != [] { ActiveStays(g, ops[..|ops| - 1], id); }
  }

  /** A visible candidate that fails is withdrawn from the screen, and any other failure leaves everything as it is. */
  lemma FailedIsWithdrawn(g: Gate, id: Uuid, client: Client)
    requires !g.frozen && !g.broken && client.first
    ensures var g' := FailedStep(g, id, client);
            if g.active == Some(id) then g'.active.None? && g'.log == g.log + [Reset] && Replay(g'.log) == "" && !g'.broken
            else g' == g
  {
    ReplayAppend(g.log, Reset);
  }

  // ---- The object. ----

  class StreamGate {
    var active: Option<Uuid>
    var buffers: map<Uuid, string>
    var frozen: bool
    var broken: bool
    var log: seq<StreamEvent>

    ghost function State(): Gate
      reads this
    {
      Gate(active, buffers, frozen, broken, log)
    }

    constructor ()
      ensures State() == NEW
    {
      active, buffers, frozen, broken, log := None, map[], false, false, [];
    }

    method SendEvent(e: StreamEvent, accepted: bool) returns (ok: bool)
      modifies this
      ensures (State(), ok) == Send(old(State()), e, accepted)
    {
      if broken { return false; }
      if !accepted {
        broken := true;
        return false;
      }
      log := log + [e];
      return true;
    }

    method Emit(id: Uuid, e: StreamEvent, client: Client) returns (ok: bool)
      modifies this
      ensures (State(), ok) == EmitStep(old(State()), id, e, client)
    {
      if client.cancelled { return false; }
      if frozen { return false; }
      if id !in buffers { buffers := buffers[id := ""]; }
      if e.Reset? {
        buffers := buffers[id := ""];
        assert buffers == old(buffers)[id := ""];
        if active == Some(id) { ok := SendEvent(e, client.first); return; }
        return true;
      }
      assert buffers == old(buffers)[id := BufferOf(old(buffers), id)];
      if !e.Delta? { return true; }
      if |buffers[id]| + |e.text| > LIMIT { return false; }
      buffers := buffers[id := buffers[id] + e.text];
      assert buffers == old(buffers)[id := BufferOf(old(buffers), id) + e.text];
      if active == None {
        active := Some(id);
        ok := SendEvent(Reset, client.first);
        if !ok { return; }
        ok := SendEvent(Delta(buffers[id]), client.second);
        return;
      }
      if active == Some(id) { ok := SendEvent(e, client.first); return; }
      return true;
    }

    method Fail(id: Uuid, client: Client)
      modifies this
      ensures State() == FailedStep(old(State()), id, client)
    {
      if !frozen && active == Some(id) {
        active := None;
        var _ := SendEvent(Reset, client.first);
      }
    }

    method Commit(id: Uuid, client: Client) returns (ok: bool)
      modifies this
      ensures (State(), ok) == CommitStep(old(State()), id, client)
    {
      frozen := true;
      if broken { return false; }
      if active != Some(id) {
        ok := SendEvent(Reset, client.first);
        if !ok { return; }
        if id in buffers && |buffers[id]| > 0 { ok := SendEvent(Delta(buffers[id]), client.second); return; }
      }
      return true;
    }

    method Shut()
      modifies this
      ensures State() == old(State()).(frozen := true)
    {
      frozen := true;
    }
  }
}
