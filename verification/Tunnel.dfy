/** The CONNECT / DATA / CLOSE protocol between an input node and a direct output node. */
module Tunnel {
  import opened Bytes

  type Id = int

  datatype Target = Target(host: string, port: int)

  datatype Msg =
    | Connect(id: Id, target: Target)
    | Close(id: Id, error: Option<string>)
    | Data(id: Id, data: Chunk)

  // ---------- One node ----------

  datatype Conn = Conn(connected: bool, messages: seq<Chunk>, wasClosed: bool, errorMessage: Option<string>)

  /** `connections` is the Map of the source. `detached` holds the records out of the Map whose socket still owes its
      "close" event. The other fields are histories of the present use of each id: the target that its client asked
      for or that its socket was made for, what the socket has emitted and been given, and the CLOSEs sent. */
  datatype Node = Node(connections: map<Id, Conn>, detached: map<Id, multiset<Conn>>, targets: map<Id, Target>,
                       read: map<Id, seq<Chunk>>, wrote: map<Id, seq<Chunk>>, closes: multiset<Id>)

  const NEW_NODE: Node := Node(map[], map[], map[], map[], map[], multiset{})

  const NEW_CONN: Conn := Conn(false, [], false, None)

  function At(log: map<Id, seq<Chunk>>, id: Id): seq<Chunk> {
    if id in log then log[id] else []
  }

  function Appended(log: map<Id, seq<Chunk>>, id: Id, more: seq<Chunk>): map<Id, seq<Chunk>> {
    log[id := At(log, id) + more]
  }

  function Held(detached: map<Id, multiset<Conn>>, id: Id): multiset<Conn> {
    if id in detached then detached[id] else multiset{}
  }

  function Detach(n: Node, id: Id): map<Id, multiset<Conn>> {
    if id in n.connections then n.detached[id := Held(n.detached, id) + multiset{n.connections[id]}] else n.detached
  }

  /** createConnection: a record that is in the Map under this id is overwritten, and its socket keeps its listeners. */
  function Create(n: Node, id: Id, target: Target): Node {
    Node(n.connections[id := NEW_CONN], Detach(n, id), n.targets[id := target],
         n.read[id := []], n.wrote[id := []], n.closes[id := 0])
  }

  function OnClose(n: Node, id: Id): Node {
    if id !in n.connections then n
    else
      var c := n.connections[id].(wasClosed := true);
      n.(connections := n.connections - {id}, detached := n.detached[id := Held(n.detached, id) + multiset{c}])
  }

  function OnData(n: Node, id: Id, data: Chunk): Node {
    if id !in n.connections then n
    else
      var c := n.connections[id];
      if c.connected then n.(wrote := Appended(n.wrote, id, [data]))
      else n.(connections := n.connections[id := c.(messages := c.messages + [data])])
  }

  function Handle(n: Node, m: Msg, isOutput: bool): Node {
    match m
    case Connect(id, target) => if isOutput then Create(n, id, target) else n   // an input node throws
    case Close(id, _) => OnClose(n, id)
    case Data(id, data) => OnData(n, id, data)
  }

  /** `Closed` carries the record if it has left the Map. */
  datatype SocketEvent =
    | Accepted(id: Id, target: Target)            // a local client of the input node, connected already
    | Ready(id: Id)                               // "connect" and then "ready" of an output socket
    | Received(id: Id, data: Chunk)
    | Failed(id: Id, message: string)
    | Closed(id: Id, late: Option<Conn>)

  datatype Reaction = Reaction(node: Node, sent: seq<Msg>)

  /** A socket's data and error listeners go with its record's place in the Map, its close listener does not.
      An output socket emits data only once it is connected. */
  predicate CanHappen(n: Node, e: SocketEvent, isOutput: bool) {
    match e
    case Accepted(_, _) => !isOutput
    case Ready(id) => isOutput && id in n.connections && !n.connections[id].connected
    case Received(id, _) => id in n.connections && (isOutput ==> n.connections[id].connected)
    case Failed(id, _) => id in n.connections
    case Closed(id, late) => if late.Some? then late.value in Held(n.detached, id) else id in n.connections
  }

  /** What the close listener does to its record first. */
  function Disconnected(n: Node, id: Id, late: Option<Conn>): Node
    requires CanHappen(n, Closed(id, late), true)
  {
    if late.Some? then n.(detached := n.detached[id := Held(n.detached, id) - multiset{late.value}])
    else n.(connections := n.connections[id := n.connections[id].(connected := false)])
  }

  /** A close listener then removes whatever record is in the Map under its id. */
  function Removed(n: Node, id: Id): Node {
    n.(connections := n.connections - {id}, closes := n.closes + multiset{id})
  }

  function React(n: Node, e: SocketEvent, isOutput: bool): Reaction
    requires CanHappen(n, e, isOutput)
  {
    match e
    case Accepted(id, target) =>
      var created := Create(n, id, target);
      Reaction(created.(connections := created.connections[id := NEW_CONN.(connected := true)]), [Connect(id, target)])
    case Ready(id) =>
      var c := n.connections[id];
      Reaction(n.(connections := n.connections[id := c.(connected := true, messages := [])],
                  wrote := Appended(n.wrote, id, c.messages)), [])
    case Received(id, data) =>
      Reaction(n.(read := Appended(n.read, id, [data])), [Data(id, data)])
    case Failed(id, message) =>
      Reaction(n.(connections := n.connections[id := n.connections[id].(errorMessage := Some(message))]), [])
    case Closed(id, late) =>
      var c := if late.Some? then late.value else n.connections[id];
      var after := Disconnected(n, id, late);
      if c.wasClosed then Reaction(after, []) else Reaction(Removed(after, id), [Close(id, c.errorMessage)])
  }

  // ---------- Two nodes and two channels ----------

  /** `stale` is a history: the ids whose present use began while DATA of an earlier use was on its way to the
      input node. */
  datatype World = World(input: Node, output: Node, toOutput: seq<Msg>, toInput: seq<Msg>, stale: set<Id>)

  const BEGIN: World := World(NEW_NODE, NEW_NODE, [], [], {})

  datatype Event =
    | Local(isOutput: bool, event: SocketEvent)
    | Deliver(isOutput: bool)

  predicate Possible(w: World, e: Event) {
    match e
    case Local(isOutput, event) => CanHappen(if isOutput then w.output else w.input, event, isOutput)
    case Deliver(isOutput) => (if isOutput then w.toOutput else w.toInput) != []
  }

  function StaleAfter(stale: set<Id>, e: SocketEvent, toInput: seq<Msg>): set<Id> {
    if !e.Accepted? then stale else if Only(e.id, toInput) == [] then stale - {e.id} else stale + {e.id}
  }

  function Step(w: World, e: Event): World
    requires Possible(w, e)
  {
    match e
    case Local(true, event) =>
      var r := React(w.output, event, true);
      w.(output := r.node, toInput := w.toInput + r.sent)
    case Local(false, event) =>
      var r := React(w.input, event, false);
      w.(input := r.node, toOutput := w.toOutput + r.sent, stale := StaleAfter(w.stale, event, w.toInput))
    case Deliver(true) => w.(output := Handle(w.output, w.toOutput[0], true), toOutput := w.toOutput[1..])
    case Deliver(false) => w.(input := Handle(w.input, w.toInput[0], false), toInput := w.toInput[1..])
  }

  /** A CLOSE for this id is on its way to the input node or can still be sent there: the output has a record, or
      will have one by a CONNECT in flight. */
  predicate CloseMayCome(v: View) {
    v.output.conn.Some? || Opening(v.input.out) || Closing(v.output.out)
  }

  /** An id may come back (it is a hash of a socket's addresses and ports), but not before its last CLOSE. */
  predicate Safe(w: World, e: Event) {
    e.Local? && e.event.Accepted? ==> !CloseMayCome(ViewOf(w, e.event.id))
  }

  /** One event after the other; an event that cannot happen, or takes an id back too early, is passed over. */
  function RunFrom(start: World, events: seq<Event>): World {
    if events == [] then start
    else
      var w := RunFrom(start, events[..|events| - 1]);
      var e := events[|events| - 1];
      if Possible(w, e) && Safe(w, e) then Step(w, e) else w
  }

  function Run(events: seq<Event>): World {
    RunFrom(BEGIN, events)
  }

  // ---------- What concerns one id ----------

  function Only(id: Id, channel: seq<Msg>): seq<Msg> {
    if channel == [] then []
    else (if channel[0].id == id then [channel[0]] else []) + Only(id, channel[1..])
  }

  lemma {:induction false} OnlySent(id: Id, channel: seq<Msg>, sent: seq<Msg>)
    requires |sent| <= 1
    ensures Only(id, channel + sent) == Only(id, channel) + if sent != [] && sent[0].id == id then sent else []
  {
    if channel == [] {
      assert [] + sent == sent;
      assert sent == [] || sent[1..] == [];
    } else {
      assert (channel + sent)[0] == channel[0] && (channel + sent)[1..] == channel[1..] + sent;
      OnlySent(id, channel[1..], sent);
      Assoc(if channel[0].id == id then [channel[0]] else [], Only(id, channel[1..]),
            if sent != [] && sent[0].id == id then sent else []);
    }
  }

  lemma OnlyRest(id: Id, channel: seq<Msg>)
    requires channel != []
    ensures var u := Only(id, channel);
      if channel[0].id == id then u != [] && u[0] == channel[0] && Only(id, channel[1..]) == u[1..]
      else Only(id, channel[1..]) == u
  {
  }

  function Of<T>(table: map<Id, T>, id: Id): Option<T> {
    if id in table then Some(table[id]) else None
  }

  /** One end of one connection, and what it has in flight. */
  datatype End = End(conn: Option<Conn>, detached: multiset<Conn>, target: Option<Target>,
                     read: seq<Chunk>, wrote: seq<Chunk>, closes: nat, out: seq<Msg>)

  datatype View = View(stale: bool, input: End, output: End)

  function EndOf(n: Node, id: Id, channel: seq<Msg>): End {
    End(Of(n.connections, id), Held(n.detached, id), Of(n.targets, id),
        At(n.read, id), At(n.wrote, id), n.closes[id], Only(id, channel))
  }

  function ViewOf(w: World, id: Id): View {
    View(id in w.stale, EndOf(w.input, id, w.toOutput), EndOf(w.output, id, w.toInput))
  }

  function Subject(w: World, e: Event): Id
    requires Possible(w, e)
  {
    match e
    case Deliver(isOutput) => if isOutput then w.toOutput[0].id else w.toInput[0].id
    case Local(_, event) => event.id
  }

  lemma HandleOther(n: Node, m: Msg, isOutput: bool, id: Id, channel: seq<Msg>)
    requires m.id != id
    ensures EndOf(Handle(n, m, isOutput), id, channel) == EndOf(n, id, channel)
  {
    match m
    case Connect(_, target) => CreateElsewhere(n, m.id, target, id);
    case Close(_, _) => OnCloseElsewhere(n, m.id, id);
    case Data(_, data) => OnDataElsewhere(n, m.id, data, id);
  }

  lemma OnDataElsewhere(n: Node, other: Id, data: Chunk, id: Id)
    requires other != id
    ensures EndOf(OnData(n, other, data), id, []) == EndOf(n, id, [])
  {
  }

  lemma OnCloseElsewhere(n: Node, other: Id, id: Id)
    requires other != id
    ensures EndOf(OnClose(n, other), id, []) == EndOf(n, id, [])
  {
  }

  lemma CreateElsewhere(n: Node, other: Id, target: Target, id: Id)
    requires other != id
    ensures EndOf(Create(n, other, target), id, []) == EndOf(n, id, [])
  {
    assert Held(Detach(n, other), id) == Held(n.detached, id);
  }

  lemma CloseElsewhere(n: Node, other: Id, late: Option<Conn>, id: Id)
    requires CanHappen(n, Closed(other, late), true) && other != id
    ensures EndOf(Disconnected(n, other, late), id, []) == EndOf(n, id, [])
  {
  }

  lemma RemovedElsewhere(n: Node, other: Id, id: Id)
    requires other != id
    ensures EndOf(Removed(n, other), id, []) == EndOf(n, id, [])
  {
  }

  lemma ReactElsewhere(n: Node, e: SocketEvent, isOutput: bool, id: Id)
    requires CanHappen(n, e, isOutput) && e.id != id
    ensures EndOf(React(n, e, isOutput).node, id, []) == EndOf(n, id, [])
  {
    match e
    case Accepted(_, target) => CreateElsewhere(n, e.id, target, id);
    case Closed(_, late) =>
      CloseElsewhere(n, e.id, late, id);
      RemovedElsewhere(Disconnected(n, e.id, late), e.id, id);
    case Ready(_) =>
    case Received(_, _) =>
    case Failed(_, _) =>
  }

  lemma ReactOther(n: Node, e: SocketEvent, isOutput: bool, id: Id, channel: seq<Msg>)
    requires CanHappen(n, e, isOutput) && e.id != id
    ensures var r := React(n, e, isOutput); EndOf(r.node, id, channel + r.sent) == EndOf(n, id, channel)
  {
    OnlySent(id, channel, SentBy(n, e, isOutput));
    ReactElsewhere(n, e, isOutput, id);
  }

  function SentBy(n: Node, e: SocketEvent, isOutput: bool): (sent: seq<Msg>)
    requires CanHappen(n, e, isOutput)
    ensures |sent| <= 1 && (sent != [] ==> sent[0].id == e.id)
  {
    React(n, e, isOutput).sent
  }

  /** Isolation: an event changes nothing that concerns any other id. */
  lemma ConnectionsAreIsolated(w: World, e: Event, id: Id)
    requires Possible(w, e) && Subject(w, e) != id
    ensures ViewOf(Step(w, e), id) == ViewOf(w, id)
  {
    match e
    case Local(isOutput, event) =>
      if isOutput {
        ReactOther(w.output, event, true, id, w.toInput);
      } else {
        ReactOther(w.input, event, false, id, w.toOutput);
      }
    case Deliver(isOutput) =>
      if isOutput {
        HandleOther(w.output, w.toOutput[0], true, id, w.toInput);
      } else {
        HandleOther(w.input, w.toInput[0], false, id, w.toOutput);
      }
  }

  // ---------- The invariant of one id ----------

  function DataIn(msgs: seq<Msg>): seq<Chunk> {
    if msgs == [] then []
    else (if msgs[0].Data? then [msgs[0].data] else []) + DataIn(msgs[1..])
  }

  lemma {:induction false} DataInSnoc(msgs: seq<Msg>, m: Msg)
    ensures DataIn(msgs + [m]) == DataIn(msgs) + if m.Data? then [m.data] else []
  {
    if msgs == [] {
      assert [] + [m] == [m];
    } else {
      assert (msgs + [m])[0] == msgs[0] && (msgs + [m])[1..] == msgs[1..] + [m];
      DataInSnoc(msgs[1..], m);
      Assoc(if msgs[0].Data? then [msgs[0].data] else [], DataIn(msgs[1..]), if m.Data? then [m.data] else []);
    }
  }

  /** Data, and perhaps one CLOSE at the end. */
  predicate Body(msgs: seq<Msg>) {
    forall i :: 0 <= i < |msgs| ==> msgs[i].Data? || (msgs[i].Close? && i == |msgs| - 1)
  }

  /** A CONNECT is in flight. */
  predicate Opening(msgs: seq<Msg>) {
    msgs != [] && (msgs[0].Connect? || Opening(msgs[1..]))
  }

  /** From the CONNECT on; what is left of the use before goes ahead of it. */
  function Current(msgs: seq<Msg>): (r: seq<Msg>)
    requires Opening(msgs)
    ensures r != [] && r[0].Connect? && (Closing(msgs) <==> Closing(r))
  {
    if msgs[0].Connect? then msgs else Current(msgs[1..])
  }

  predicate Closing(msgs: seq<Msg>) {
    msgs != [] && msgs[|msgs| - 1].Close?
  }

  predicate EndInvariant(e: End) {
    && e.closes <= 1 && (forall c :: c in e.detached ==> c.wasClosed)
    && (e.conn.Some? ==> e.closes == 0 && !e.conn.value.wasClosed && !Closing(e.out)
                         && (e.conn.value.connected ==> e.conn.value.messages == [])
                         && (!e.conn.value.connected ==> e.wrote == [] && e.read == []))
  }

  /** The CONNECT of the present use has not reached the output, which has no record. */
  predicate Announced(v: View)
    requires Opening(v.input.out)
  {
    var current := Current(v.input.out);
    && v.output.conn.None? && !Closing(v.output.out)
    && Body(current[1..]) && v.input.target == Some(current[0].target) && v.input.read == DataIn(current)
    && (v.input.conn.None? ==> Closing(current))
    && (v.input.out[0].Connect? || v.output.target.Some?)
  }

  predicate Settled(v: View) {
    && Body(v.input.out) && v.output.target == v.input.target
    && (v.input.out != [] || v.input.conn.Some? || v.output.conn.Some? ==> v.output.target.Some?)
    && v.output.wrote <= v.input.read
    && (v.output.conn.Some? ==>
          v.input.read == v.output.wrote + v.output.conn.value.messages + DataIn(v.input.out))
    && (v.input.conn.Some? && v.output.conn.None? ==> Closing(v.output.out))
    && (v.input.conn.None? && v.output.conn.Some? ==> Closing(v.input.out))
  }

  /** The stream towards the input, for an id that came back with nothing left on its way there. */
  predicate ReturnStream(v: View) {
    if Opening(v.input.out) then v.output.out == [] && v.input.wrote == []
    else
      && v.input.wrote <= v.output.read
      && (v.input.conn.Some? ==> v.output.read == v.input.wrote + DataIn(v.output.out))
  }

  predicate Invariant(v: View) {
    && EndInvariant(v.input) && EndInvariant(v.output) && Body(v.output.out)
    && (v.input.conn.Some? ==> v.input.conn.value.connected)
    && (if Opening(v.input.out) then Announced(v) else Settled(v))
    && (!v.stale ==> ReturnStream(v))
  }

  // ---------- Steps of one id ----------

  predicate Applies(own: End, e: SocketEvent) {
    match e
    case Accepted(_, _) => true
    case Ready(_) => own.conn.Some? && !own.conn.value.connected
    case Received(_, _) => own.conn.Some?
    case Failed(_, _) => own.conn.Some?
    case Closed(_, late) => if late.Some? then late.value in own.detached else own.conn.Some?
  }

  function Created(own: End, target: Target): End {
    own.(conn := Some(NEW_CONN), target := Some(target), read := [], wrote := [], closes := 0,
         detached := if own.conn.Some? then own.detached + multiset{own.conn.value} else own.detached)
  }

  /** The effect of a socket event on its own end. */
  function Stepped(own: End, e: SocketEvent): End
    requires Applies(own, e)
  {
    match e
    case Accepted(id, target) =>
      Created(own, target).(conn := Some(NEW_CONN.(connected := true)), out := own.out + [Connect(id, target)])
    case Ready(_) =>
      own.(conn := Some(own.conn.value.(connected := true, messages := [])),
           wrote := own.wrote + own.conn.value.messages)
    case Received(id, data) => own.(read := own.read + [data], out := own.out + [Data(id, data)])
    case Failed(_, message) => own.(conn := Some(own.conn.value.(errorMessage := Some(message))))
    case Closed(id, late) =>
      var c := if late.Some? then late.value else own.conn.value;
      var after := DisconnectedEnd(own, late);
      if c.wasClosed then after else RemovedEnd(after).(out := own.out + [Close(id, c.errorMessage)])
  }

  function DisconnectedEnd(own: End, late: Option<Conn>): End
    requires late.Some? || own.conn.Some?
  {
    if late.Some? then own.(detached := own.detached - multiset{late.value})
    else own.(conn := Some(own.conn.value.(connected := false)))
  }

  function RemovedEnd(own: End): End {
    own.(conn := None, closes := own.closes + 1)
  }

  /** The effect of a delivered message on the end it reaches. */
  function Reached(own: End, m: Msg, isOutput: bool): End {
    match m
    case Connect(_, target) => if isOutput then Created(own, target) else own
    case Close(_, _) =>
      if own.conn.None? then own
      else own.(conn := None, detached := own.detached + multiset{own.conn.value.(wasClosed := true)})
    case Data(_, data) =>
      if own.conn.None? then own
      else if own.conn.value.connected then own.(wrote := own.wrote + [data])
      else own.(conn := Some(own.conn.value.(messages := own.conn.value.messages + [data])))
  }

  lemma CreatedView(n: Node, id: Id, target: Target)
    ensures EndOf(Create(n, id, target), id, []) == Created(EndOf(n, id, []), target)
  {
  }

  lemma DisconnectedView(n: Node, id: Id, late: Option<Conn>)
    requires CanHappen(n, Closed(id, late), true)
    ensures EndOf(Disconnected(n, id, late), id, []) == DisconnectedEnd(EndOf(n, id, []), late)
  {
  }

  lemma RemovedView(n: Node, id: Id)
    ensures EndOf(Removed(n, id), id, []) == RemovedEnd(EndOf(n, id, []))
  {
  }

  lemma AcceptSteps(n: Node, e: SocketEvent)
    requires CanHappen(n, e, false) && e.Accepted?
    ensures var own := EndOf(n, e.id, []); EndOf(React(n, e, false).node, e.id, []) == Stepped(own, e).(out := [])
  {
    CreatedView(n, e.id, e.target);
  }

  lemma CloseSteps(n: Node, e: SocketEvent, isOutput: bool)
    requires CanHappen(n, e, isOutput) && e.Closed?
    ensures var own := EndOf(n, e.id, []);
      Applies(own, e) && EndOf(React(n, e, isOutput).node, e.id, []) == Stepped(own, e).(out := [])
  {
    var after := Disconnected(n, e.id, e.late);
    DisconnectedView(n, e.id, e.late);
    RemovedView(after, e.id);
    ClosedEnds(EndOf(n, e.id, []), e);
    var c := if e.late.Some? then e.late.value else n.connections[e.id];
    assert React(n, e, isOutput).node == if c.wasClosed then after else Removed(after, e.id);
  }

  lemma ClosedEnds(own: End, e: SocketEvent)
    requires Applies(own, e) && e.Closed? && own.out == []
    ensures var after := DisconnectedEnd(own, e.late);
      var c := if e.late.Some? then e.late.value else own.conn.value;
      Stepped(own, e).(out := []) == if c.wasClosed then after else RemovedEnd(after)
  {
  }

  /** A socket event steps its own end, whatever was in flight before. */
  lemma ReactSteps(n: Node, e: SocketEvent, isOutput: bool)
    requires CanHappen(n, e, isOutput)
    ensures var own := EndOf(n, e.id, []);
      Applies(own, e) && EndOf(React(n, e, isOutput).node, e.id, []) == Stepped(own, e).(out := [])
  {
    match e
    case Accepted(_, _) => AcceptSteps(n, e);
    case Closed(_, _) => CloseSteps(n, e, isOutput);
    case Ready(_) =>
    case Received(_, _) =>
    case Failed(_, _) =>
  }

  lemma ReactSends(n: Node, e: SocketEvent, isOutput: bool)
    requires CanHappen(n, e, isOutput)
    ensures Applies(EndOf(n, e.id, []), e) && Stepped(EndOf(n, e.id, []), e).out == SentBy(n, e, isOutput)
  {
  }

  lemma SteppedOut(own: End, e: SocketEvent, out: seq<Msg>)
    requires Applies(own, e) && own.out == []
    ensures Stepped(own.(out := out), e) == Stepped(own, e).(out := out + Stepped(own, e).out)
  {
    assert out + [] == out;
  }

  lemma ReactView(n: Node, e: SocketEvent, isOutput: bool, channel: seq<Msg>)
    requires CanHappen(n, e, isOutput)
    ensures var r := React(n, e, isOutput); var own := EndOf(n, e.id, channel);
      Applies(own, e) && EndOf(r.node, e.id, channel + r.sent) == Stepped(own, e)
  {
    OnlySent(e.id, channel, SentBy(n, e, isOutput));
    ReactSteps(n, e, isOutput);
    ReactSends(n, e, isOutput);
    SteppedOut(EndOf(n, e.id, []), e, Only(e.id, channel));
    assert Only(e.id, channel) + [] == Only(e.id, channel);
  }

  function WithLocal(v: View, isOutput: bool, e: SocketEvent): View
    requires Applies(if isOutput then v.output else v.input, e)
  {
    if isOutput then v.(output := Stepped(v.output, e))
    else v.(input := Stepped(v.input, e), stale := if e.Accepted? then v.output.out != [] else v.stale)
  }

  lemma LocalView(w: World, e: Event, id: Id)
    requires Possible(w, e) && e.Local? && e.event.id == id
    ensures Applies(if e.isOutput then ViewOf(w, id).output else ViewOf(w, id).input, e.event)
    ensures ViewOf(Step(w, e), id) == WithLocal(ViewOf(w, id), e.isOutput, e.event)
  {
    ReactView(if e.isOutput then w.output else w.input, e.event, e.isOutput,
              if e.isOutput then w.toInput else w.toOutput);
  }

  function WithDelivery(v: View, isOutput: bool): View
    requires (if isOutput then v.input.out else v.output.out) != []
  {
    if isOutput then
      v.(output := Reached(v.output, v.input.out[0], true), input := v.input.(out := v.input.out[1..]))
    else
      v.(input := Reached(v.input, v.output.out[0], false), output := v.output.(out := v.output.out[1..]))
  }

  lemma DeliverView(w: World, isOutput: bool, id: Id)
    requires Possible(w, Deliver(isOutput)) && Subject(w, Deliver(isOutput)) == id
    ensures var v := ViewOf(w, id);
      && (isOutput ==> v.input.out != [] && v.input.out[0] == w.toOutput[0])
      && (!isOutput ==> v.output.out != [] && v.output.out[0] == w.toInput[0])
      && ViewOf(Step(w, Deliver(isOutput)), id) == WithDelivery(v, isOutput)
  {
    var channel := if isOutput then w.toOutput else w.toInput;
    HandleView(if isOutput then w.output else w.input, channel[0], isOutput,
               if isOutput then w.toInput else w.toOutput);
    OnlyRest(id, channel);
  }

  lemma HandleView(n: Node, m: Msg, isOutput: bool, channel: seq<Msg>)
    ensures EndOf(Handle(n, m, isOutput), m.id, channel) == Reached(EndOf(n, m.id, channel), m, isOutput)
  {
    match m
    case Connect(_, target) => CreatedView(n, m.id, target);
    case Close(_, _) => OnCloseView(n, m.id, channel);
    case Data(_, data) => OnDataView(n, m.id, data, channel);
  }

  lemma OnCloseView(n: Node, id: Id, channel: seq<Msg>)
    ensures EndOf(OnClose(n, id), id, channel) == Reached(EndOf(n, id, channel), Close(id, None), false)
  {
  }

  lemma OnDataView(n: Node, id: Id, data: Chunk, channel: seq<Msg>)
    ensures EndOf(OnData(n, id, data), id, channel) == Reached(EndOf(n, id, channel), Data(id, data), false)
  {
    if id in n.connections {
      var c := n.connections[id];
      if c.connected {
        assert At(Appended(n.wrote, id, [data]), id) == At(n.wrote, id) + [data];
      } else {
        var kept := c.(messages := c.messages + [data]);
        assert Of(n.connections[id := kept], id) == Some(kept);
      }
    }
  }

  lemma BodySnoc(msgs: seq<Msg>, m: Msg)
    requires Body(msgs) && !Closing(msgs) && !m.Connect?
    ensures Body(msgs + [m])
  {
  }

  lemma BodyRest(msgs: seq<Msg>)
    requires Body(msgs) && msgs != []
    ensures Body(msgs[1..]) && (msgs[0].Close? ==> |msgs| == 1)
    ensures |msgs| > 1 ==> (Closing(msgs) <==> Closing(msgs[1..]))
    ensures !Closing(msgs) ==> !Closing(msgs[1..])
  {
    forall i | 0 <= i < |msgs[1..]| ensures msgs[1..][i] == msgs[i + 1] {
    }
  }

  lemma {:induction false} BodyIsNotOpening(msgs: seq<Msg>)
    requires Body(msgs)
    ensures !Opening(msgs)
  {
    if msgs != [] {
      BodyRest(msgs);
      BodyIsNotOpening(msgs[1..]);
    }
  }

  lemma {:induction false} OpeningSnoc(msgs: seq<Msg>, m: Msg)
    ensures Opening(msgs + [m]) <==> Opening(msgs) || m.Connect?
    ensures Opening(msgs) ==> Current(msgs + [m]) == Current(msgs) + [m]
    ensures !Opening(msgs) && m.Connect? ==> Current(msgs + [m]) == [m]
  {
    if msgs == [] {
      assert [] + [m] == [m];
    } else {
      assert (msgs + [m])[1..] == msgs[1..] + [m];
      OpeningSnoc(msgs[1..], m);
    }
  }

  lemma AcceptKeeps(v: View, e: SocketEvent)
    requires Invariant(v) && e.Accepted? && !CloseMayCome(v)
    ensures Invariant(WithLocal(v, false, e))
  {
    var m := Connect(e.id, e.target);
    OpeningSnoc(v.input.out, m);
    DataInSnoc([], m);
    assert [] + [m] == [m] && [m][1..] == [];
  }

  lemma UpChannelSnoc(v: View, m: Msg)
    requires Invariant(v) && v.input.conn.Some? && !m.Connect?
    ensures var u := v.input.out; var longer := u + [m];
      && (Opening(longer) <==> Opening(u))
      && (if Opening(u) then
            && Current(longer)[0] == Current(u)[0] && Body(Current(longer)[1..])
            && DataIn(Current(longer)) == DataIn(Current(u)) + if m.Data? then [m.data] else []
          else Body(longer) && DataIn(longer) == DataIn(u) + if m.Data? then [m.data] else [])
  {
    var u := v.input.out;
    OpeningSnoc(u, m);
    if Opening(u) {
      var current := Current(u);
      DataInSnoc(current, m);
      assert (current + [m])[1..] == current[1..] + [m];
      BodySnoc(current[1..], m);
    } else {
      DataInSnoc(u, m);
      BodySnoc(u, m);
    }
  }

  lemma InputDataKeeps(v: View, e: SocketEvent)
    requires Invariant(v) && e.Received? && v.input.conn.Some?
    ensures Invariant(WithLocal(v, false, e))
  {
    UpChannelSnoc(v, Data(e.id, e.data));
    if v.output.conn.Some? {
      Assoc(v.output.wrote + v.output.conn.value.messages, DataIn(v.input.out), [e.data]);
    }
  }

  lemma InputCloseKeeps(v: View, e: SocketEvent)
    requires Invariant(v) && e.Closed? && Applies(v.input, e)
    ensures Invariant(WithLocal(v, false, e))
  {
    if e.late.None? {
      UpChannelSnoc(v, Close(e.id, v.input.conn.value.errorMessage));
    }
  }

  lemma InputStepKeeps(v: View, e: SocketEvent)
    requires Invariant(v) && !e.Ready? && Applies(v.input, e) && (e.Accepted? ==> !CloseMayCome(v))
    ensures Invariant(WithLocal(v, false, e))
  {
    match e
    case Accepted(_, _) => AcceptKeeps(v, e);
    case Received(_, _) => InputDataKeeps(v, e);
    case Closed(_, _) => InputCloseKeeps(v, e);
    case Failed(_, _) =>
  }

  lemma OutputSendKeeps(v: View, e: SocketEvent)
    requires Invariant(v) && v.output.conn.Some?
    requires (e.Closed? && e.late.None?) || (e.Received? && v.output.conn.value.connected)
    ensures Invariant(WithLocal(v, true, e))
  {
    var m := if e.Closed? then Close(e.id, v.output.conn.value.errorMessage) else Data(e.id, e.data);
    DataInSnoc(v.output.out, m);
    BodySnoc(v.output.out, m);
    Assoc(v.input.wrote, DataIn(v.output.out), if m.Data? then [m.data] else []);
  }

  lemma OutputReadyKeeps(v: View, e: SocketEvent)
    requires Invariant(v) && e.Ready? && Applies(v.output, e)
    ensures Invariant(WithLocal(v, true, e))
  {
    var kept := v.output.conn.value.messages;
    assert v.output.wrote + kept + [] == v.output.wrote + kept;
  }

  lemma OutputStepKeeps(v: View, e: SocketEvent)
    requires Invariant(v) && !e.Accepted? && Applies(v.output, e)
    requires e.Received? ==> v.output.conn.value.connected
    ensures Invariant(WithLocal(v, true, e))
  {
    if e.Ready? {
      OutputReadyKeeps(v, e);
    } else if e.Received? || (e.Closed? && e.late.None?) {
      OutputSendKeeps(v, e);
    }
  }

  /** A CONNECT starts the present use at the output; what reached it before belongs to an earlier use. */
  lemma OpeningReachedKeeps(v: View)
    requires Invariant(v) && Opening(v.input.out)
    ensures Invariant(WithDelivery(v, true))
  {
    var u := v.input.out;
    if u[0].Connect? {
      BodyIsNotOpening(u[1..]);
      assert Closing(u) ==> |u| > 1 && u[1..][|u| - 2] == u[|u| - 1];
    }
  }

  lemma CloseReachedKeeps(v: View)
    requires Invariant(v) && v.input.out != [] && v.input.out[0].Close? && !Opening(v.input.out)
    ensures Invariant(WithDelivery(v, true))
  {
    BodyRest(v.input.out);
  }

  lemma DataReachedKeeps(v: View)
    requires Invariant(v) && v.input.out != [] && v.input.out[0].Data? && !Opening(v.input.out)
    ensures Invariant(WithDelivery(v, true))
  {
    var u := v.input.out;
    BodyRest(u);
    if v.output.conn.Some? {
      DataMovesOn(v.output.wrote, v.output.conn.value.messages, u[0].data, DataIn(u[1..]));
      assert DataIn(u) == [u[0].data] + DataIn(u[1..]);
    }
  }

  lemma DataMovesOn(wrote: seq<Chunk>, messages: seq<Chunk>, data: Chunk, later: seq<Chunk>)
    ensures wrote + messages + ([data] + later) == wrote + (messages + [data]) + later
    ensures messages == [] ==> wrote + messages + ([data] + later) == wrote + [data] + messages + later
  {
    Assoc(wrote + messages, [data], later);
    Assoc(wrote, messages, [data]);
  }

  lemma OutputReachedKeeps(v: View)
    requires Invariant(v) && v.input.out != []
    ensures Invariant(WithDelivery(v, true))
  {
    if Opening(v.input.out) {
      OpeningReachedKeeps(v);
    } else if v.input.out[0].Close? {
      CloseReachedKeeps(v);
    } else {
      DataReachedKeeps(v);
    }
  }

  lemma InputReachedKeeps(v: View)
    requires Invariant(v) && v.output.out != []
    ensures Invariant(WithDelivery(v, false))
  {
    var d := v.output.out;
    BodyRest(d);
    if v.input.conn.Some? && d[0].Data? {
      Assoc(v.input.wrote, [d[0].data], DataIn(d[1..]));
    }
  }

  lemma StepKeeps(w: World, e: Event, id: Id)
    requires Possible(w, e) && Safe(w, e) && Invariant(ViewOf(w, id))
    ensures Invariant(ViewOf(Step(w, e), id))
  {
    var v := ViewOf(w, id);
    if Subject(w, e) != id {
      ConnectionsAreIsolated(w, e, id);
    } else {
      match e
      case Local(isOutput, event) =>
        LocalView(w, e, id);
        if isOutput {
          OutputStepKeeps(v, event);
        } else {
          InputStepKeeps(v, event);
        }
      case Deliver(isOutput) =>
        DeliverView(w, isOutput, id);
        if isOutput {
          OutputReachedKeeps(v);
        } else {
          InputReachedKeeps(v);
        }
    }
  }

  lemma {:induction false} RunKeeps(start: World, events: seq<Event>, id: Id)
    requires Invariant(ViewOf(start, id))
    ensures Invariant(ViewOf(RunFrom(start, events), id))
  {
    if events != [] {
      var w := RunFrom(start, events[..|events| - 1]);
      var e := events[|events| - 1];
      RunKeeps(start, events[..|events| - 1], id);
      if Possible(w, e) && Safe(w, e) {
        StepKeeps(w, e, id);
      }
    }
  }

  // ---------- Whole runs ----------

  /** What the output's socket of the present use of an id has been given. */
  function OutputWrote(w: World, id: Id): seq<Chunk> {
    if Opening(Only(id, w.toOutput)) then [] else At(w.output.wrote, id)
  }

  function OutputRead(w: World, id: Id): seq<Chunk> {
    if Opening(Only(id, w.toOutput)) then [] else At(w.output.read, id)
  }

  /** Data read from the client's socket arrives at the output's in order and unaltered, and at the target that was
      asked for. While the output's record is in its table, or its CONNECT on the way, nothing is lost either. */
  predicate UpInOrder(w: World, id: Id) {
    var v := ViewOf(w, id);
    && OutputWrote(w, id) <= v.input.read
    && (v.output.conn.Some? ==>
          v.input.read == OutputWrote(w, id) + v.output.conn.value.messages + DataIn(v.input.out))
    && if Opening(v.input.out) then
         var current := Current(v.input.out);
         v.input.read == DataIn(current) && v.input.target == Some(current[0].target)
       else v.input.target == v.output.target
  }

  predicate DownInOrder(w: World, id: Id) {
    var v := ViewOf(w, id);
    && v.input.wrote <= OutputRead(w, id)
    && (v.input.conn.Some? ==> OutputRead(w, id) == v.input.wrote + DataIn(v.output.out))
  }

  lemma TunnelStreams(events: seq<Event>, id: Id)
    ensures UpInOrder(Run(events), id)
    ensures id !in Run(events).stale ==> DownInOrder(Run(events), id)
  {
    RunKeeps(BEGIN, events, id);
  }

  /** Table agreement: with nothing in flight, both nodes know the same connections. */
  predicate Agree(w: World) {
    w.toOutput == [] && w.toInput == [] ==> w.input.connections.Keys == w.output.connections.Keys
  }

  lemma AgreeOnward(start: World, events: seq<Event>)
    requires forall id :: Invariant(ViewOf(start, id))
    ensures Agree(RunFrom(start, events))
  {
    var w := RunFrom(start, events);
    if w.toOutput == [] && w.toInput == [] {
      forall id: Id ensures id in w.input.connections <==> id in w.output.connections {
        RunKeeps(start, events, id);
      }
    }
  }

  lemma TablesAgree(events: seq<Event>)
    ensures Agree(Run(events))
  {
    AgreeOnward(BEGIN, events);
  }

  lemma Disciplined(v: View)
    requires Invariant(v)
    ensures forall m :: m in v.output.out ==> !m.Connect?
    ensures Opening(v.input.out) ==> forall m :: m in Current(v.input.out)[1..] ==> !m.Connect?
    ensures v.input.out != [] && !v.input.out[0].Connect? ==> v.output.target.Some?
  {
  }

  /** Protocol discipline: each side sends at most one CLOSE for a use of an id, an input node never gets a CONNECT,
      at most one CONNECT of an id is in flight and the output has no record of that id meanwhile, and nothing else
      of an id reaches the output before its first CONNECT. */
  lemma ProtocolDiscipline(events: seq<Event>, id: Id)
    ensures var w := Run(events); var u := Only(id, w.toOutput);
      && w.input.closes[id] <= 1 && w.output.closes[id] <= 1
      && (forall m :: m in Only(id, w.toInput) ==> !m.Connect?)
      && (Opening(u) ==> id !in w.output.connections && forall m :: m in Current(u)[1..] ==> !m.Connect?)
      && (u != [] && !u[0].Connect? ==> id in w.output.targets)
  {
    RunKeeps(BEGIN, events, id);
    Disciplined(ViewOf(Run(events), id));
  }

  lemma {:induction false} OnlyMember(id: Id, channel: seq<Msg>, m: Msg)
    ensures m in Only(id, channel) <==> m in channel && m.id == id
  {
    if channel != [] {
      OnlyMember(id, channel[1..], m);
    }
  }

  /** An input node never has to throw "This is a InputConnection". */
  lemma NoConnectToInput(events: seq<Event>, m: Msg)
    requires m in Run(events).toInput
    ensures !m.Connect?
  {
    ProtocolDiscipline(events, m.id);
    OnlyMember(m.id, Run(events).toInput, m);
  }

  lemma LoneClose(msgs: seq<Msg>)
    requires Body(msgs) && msgs != [] && msgs[0].Close?
    ensures DataIn(msgs) == []
  {
    BodyRest(msgs);
    assert msgs[1..] == [];
  }

  lemma ClosedAfterTheData(v: View)
    requires Invariant(v)
    ensures v.input.out != [] && v.input.out[0].Close? && v.output.conn.Some? && v.output.conn.value.connected ==>
              v.output.wrote == v.input.read
    ensures v.output.out != [] && v.output.out[0].Close? && v.input.conn.Some? && !v.stale ==>
              v.input.wrote == v.output.read
  {
    if v.input.out != [] && v.input.out[0].Close? && !Opening(v.input.out) {
      LoneClose(v.input.out);
    }
    if v.output.out != [] && v.output.out[0].Close? {
      LoneClose(v.output.out);
    }
  }

  /** An orderly close loses nothing: when a CLOSE reaches a connected socket's record, that socket has been
      given everything that was ever read at the other end. */
  lemma CloseComesAfterTheData(events: seq<Event>, isOutput: bool)
    ensures var w := Run(events); var channel := if isOutput then w.toOutput else w.toInput;
      channel != [] && channel[0].Close? ==>
        var id := channel[0].id; var v := ViewOf(w, id);
        && (isOutput && v.output.conn.Some? && v.output.conn.value.connected ==> v.output.wrote == v.input.read)
        && (!isOutput && v.input.conn.Some? && !v.stale ==> v.input.wrote == v.output.read)
  {
    var w := Run(events);
    var channel := if isOutput then w.toOutput else w.toInput;
    if channel != [] && channel[0].Close? {
      var id := channel[0].id;
      RunKeeps(BEGIN, events, id);
      OnlyRest(id, channel);
      ClosedAfterTheData(ViewOf(w, id));
    }
  }

  // ---------- When an id may come back ----------

  /** No further use of the id begins. */
  predicate SameUse(events: seq<Event>, id: Id) {
    forall e :: e in events && e.Local? && e.event.Accepted? ==> e.event.id != id
  }

  lemma Go(start: World, events: seq<Event>, e: Event) returns (longer: seq<Event>)
    requires var w := RunFrom(start, events); Possible(w, e) && Safe(w, e)
    ensures longer == events + [e] && RunFrom(start, longer) == Step(RunFrom(start, events), e)
  {
    longer := events + [e];
    assert longer[..|events|] == events;
  }

  lemma GoDeliver(start: World, events: seq<Event>, isOutput: bool, id: Id) returns (longer: seq<Event>)
    requires Possible(RunFrom(start, events), Deliver(isOutput))
    ensures RunFrom(start, longer) == Step(RunFrom(start, events), Deliver(isOutput))
    ensures SameUse(events, id) ==> SameUse(longer, id)
  {
    longer := Go(start, events, Deliver(isOutput));
  }

  lemma DeliveredToOutput(w: World, id: Id)
    requires w.toOutput != []
    ensures var after := Step(w, Deliver(true)); var u := Only(id, w.toOutput);
      && after.toOutput == w.toOutput[1..] && after.toInput == w.toInput && after.input == w.input
      && if w.toOutput[0].id == id then
           && u != [] && u[0] == w.toOutput[0] && Only(id, after.toOutput) == u[1..]
           && (u[0].Connect? ==> id in after.output.connections && !after.output.connections[id].wasClosed)
         else
           && Only(id, after.toOutput) == u && (id in after.output.connections <==> id in w.output.connections)
  {
    OnlyRest(id, w.toOutput);
  }

  lemma DeliveredToInput(w: World, id: Id)
    requires w.toInput != []
    ensures var after := Step(w, Deliver(false)); var d := Only(id, w.toInput);
      && after.toInput == w.toInput[1..] && after.toOutput == w.toOutput && after.output == w.output
      && (id in after.input.connections ==> id in w.input.connections)
      && if w.toInput[0].id == id then
           && d != [] && d[0] == w.toInput[0] && Only(id, after.toInput) == d[1..]
           && (d[0].Close? ==> id !in after.input.connections)
         else Only(id, after.toInput) == d
  {
    OnlyRest(id, w.toInput);
  }

  /** Delivering all that is on its way to the input node; a CLOSE among it removes the record. */
  lemma {:induction false} DrainToInput(start: World, events: seq<Event>, id: Id) returns (longer: seq<Event>)
    ensures var w := RunFrom(start, events); var after := RunFrom(start, longer);
      && after.toInput == [] && after.toOutput == w.toOutput && after.output == w.output
      && (id !in w.input.connections || Closing(Only(id, w.toInput)) ==> id !in after.input.connections)
    decreases |RunFrom(start, events).toInput|
  {
    var w := RunFrom(start, events);
    longer := events;
    if w.toInput != [] {
      longer := Go(start, events, Deliver(false));
      DeliveredToInput(w, id);
      longer := DrainToInput(start, longer, id);
    }
  }

  predicate EndsInConnect(msgs: seq<Msg>) {
    msgs != [] && msgs[|msgs| - 1].Connect?
  }

  /** Delivering all that is on its way to the output node; a CONNECT at its end leaves a record. */
  lemma {:induction false} DrainToOutput(start: World, events: seq<Event>, id: Id) returns (longer: seq<Event>)
    ensures var w := RunFrom(start, events); var after := RunFrom(start, longer); var u := Only(id, w.toOutput);
      && after.toOutput == [] && after.toInput == w.toInput && after.input == w.input
      && (EndsInConnect(u) || (u == [] && id in w.output.connections) ==> id in after.output.connections)
    decreases |RunFrom(start, events).toOutput|
  {
    var w := RunFrom(start, events);
    longer := events;
    if w.toOutput != [] {
      longer := Go(start, events, Deliver(true));
      DeliveredToOutput(w, id);
      longer := DrainToOutput(start, longer, id);
    }
  }

  lemma OpeningRest(u: seq<Msg>)
    requires EndsInConnect(u) && Opening(u[..|u| - 1]) && !u[0].Connect?
    ensures EndsInConnect(u[1..]) && Opening(u[1..][..|u[1..]| - 1])
  {
    assert u[..|u| - 1][1..] == u[1..][..|u| - 2];
  }

  /** Delivering up to the next CONNECT of an id, when another one follows. */
  lemma {:induction false} DeliverConnect(start: World, events: seq<Event>, id: Id) returns (longer: seq<Event>)
    requires var u := Only(id, RunFrom(start, events).toOutput);
      EndsInConnect(u) && Opening(u[..|u| - 1])
    ensures var after := RunFrom(start, longer);
      && id in after.output.connections && !after.output.connections[id].wasClosed
      && EndsInConnect(Only(id, after.toOutput))
    ensures var w := RunFrom(start, events); var after := RunFrom(start, longer);
      after.toInput == w.toInput && after.input == w.input
    ensures SameUse(events, id) ==> SameUse(longer, id)
    decreases |RunFrom(start, events).toOutput|
  {
    var w := RunFrom(start, events);
    var u := Only(id, w.toOutput);
    longer := GoDeliver(start, events, true, id);
    DeliveredToOutput(w, id);
    if w.toOutput[0].id == id && u[0].Connect? {
      assert u[|u| - 1] == u[1..][|u| - 2];
    } else {
      if w.toOutput[0].id == id {
        OpeningRest(u);
      }
      longer := DeliverConnect(start, longer, id);
    }
  }

  /** The output's CLOSE can be brought on its way to the input node while the CONNECT of the new use waits. */
  lemma BringClose(start: World, id: Id) returns (events: seq<Event>)
    requires var v := ViewOf(start, id); var u := v.input.out;
      && EndsInConnect(u) && EndInvariant(v.output)
      && (v.output.conn.Some? || Closing(v.output.out) || Opening(u[..|u| - 1]))
    ensures var after := ViewOf(RunFrom(start, events), id);
      EndsInConnect(after.input.out) && Closing(after.output.out)
  {
    events := [];
    if !Closing(ViewOf(start, id).output.out) {
      if id !in start.output.connections {
        events := DeliverConnect(start, events, id);
      }
      var w := RunFrom(start, events);
      var e := Local(true, Closed(id, None));
      LocalView(w, e, id);
      events := Go(start, events, e);
    }
  }

  /** An id that comes back while a CLOSE for it may still come: that CLOSE takes the new record from the input node,
      and the output, which learns of the new use only afterwards, keeps its own until its socket closes. */
  lemma EarlyReuseBreaksAgreement(events: seq<Event>, e: Event) returns (more: seq<Event>)
    requires Possible(Run(events), e) && !Safe(Run(events), e)
    ensures var w := RunFrom(Step(Run(events), e), more);
      w.toOutput == [] && w.toInput == [] && e.event.id !in w.input.connections && e.event.id in w.output.connections
  {
    var id := e.event.id;
    var w := Run(events);
    RunKeeps(BEGIN, events, id);
    LocalView(w, e, id);
    var start := Step(w, e);
    var u := Only(id, start.toOutput);
    assert u[..|u| - 1] == Only(id, w.toOutput);
    more := BringClose(start, id);
    more := DrainToInput(start, more, id);
    more := DrainToOutput(start, more, id);
  }

  /** The exact condition: taking an id keeps the tables in agreement, whatever happens afterwards, if and only if
      no CLOSE for it may come. */
  lemma ReuseIsSafeExactly(events: seq<Event>, e: Event)
    requires Possible(Run(events), e)
    ensures Safe(Run(events), e) <==> forall more :: Agree(RunFrom(Step(Run(events), e), more))
  {
    var w := Run(events);
    if Safe(w, e) {
      forall id: Id ensures Invariant(ViewOf(Step(w, e), id)) {
        RunKeeps(BEGIN, events, id);
        StepKeeps(w, e, id);
      }
      forall more: seq<Event> ensures Agree(RunFrom(Step(w, e), more)) {
        AgreeOnward(Step(w, e), more);
      }
    } else {
      var more := EarlyReuseBreaksAgreement(events, e);
      assert !Agree(RunFrom(Step(w, e), more));
    }
  }

  lemma {:induction false} DeliverStale(start: World, events: seq<Event>, id: Id) returns (longer: seq<Event>)
    requires var w := RunFrom(start, events); var d := Only(id, w.toInput);
      d != [] && d[0].Data? && id in w.input.connections && w.input.connections[id].connected
    requires SameUse(events, id)
    ensures var w := RunFrom(start, events); var after := RunFrom(start, longer);
      && At(after.input.wrote, id) == At(w.input.wrote, id) + [Only(id, w.toInput)[0].data]
      && after.toOutput == w.toOutput && SameUse(longer, id)
    decreases |RunFrom(start, events).toInput|
  {
    var w := RunFrom(start, events);
    longer := GoDeliver(start, events, false, id);
    if w.toInput[0].id != id {
      longer := DeliverStale(start, longer, id);
    }
  }

  lemma AcceptedView(w: World, e: Event)
    requires Possible(w, e) && e.Local? && e.event.Accepted?
    ensures var id := e.event.id; var after := Step(w, e); var u := Only(id, after.toOutput);
      && id in after.input.connections && after.input.connections[id].connected && At(after.input.wrote, id) == []
      && after.toInput == w.toInput && after.output == w.output
      && EndsInConnect(u) && u[..|u| - 1] == Only(id, w.toOutput)
  {
    OnlySent(e.event.id, w.toOutput, [Connect(e.event.id, e.event.target)]);
  }

  lemma EndsInConnectIsOpening(u: seq<Msg>)
    requires EndsInConnect(u)
    ensures Opening(u)
  {
    assert u == u[..|u| - 1] + [u[|u| - 1]];
    OpeningSnoc(u[..|u| - 1], u[|u| - 1]);
  }

  /** The output can send data of an earlier use while the CONNECT of the new one waits. */
  lemma BringStale(start: World, id: Id) returns (events: seq<Event>)
    requires var v := ViewOf(start, id); var u := v.input.out;
      && EndsInConnect(u) && v.output.out == []
      && (v.output.conn.Some? || Opening(u[..|u| - 1]))
    ensures var after := RunFrom(start, events);
      && SameUse(events, id) && after.input == start.input
      && EndsInConnect(Only(id, after.toOutput)) && Only(id, after.toInput) == [Data(id, [1])]
  {
    events := [];
    if id !in start.output.connections {
      events := DeliverConnect(start, events, id);
    }
    if !RunFrom(start, events).output.connections[id].connected {
      events := GetReady(start, events, id);
    }
    LocalView(RunFrom(start, events), Local(true, Received(id, [1])), id);
    events := Go(start, events, Local(true, Received(id, [1])));
  }

  lemma GetReady(start: World, events: seq<Event>, id: Id) returns (longer: seq<Event>)
    requires var w := RunFrom(start, events); id in w.output.connections && !w.output.connections[id].connected
    ensures var w := RunFrom(start, events); var after := RunFrom(start, longer);
      && after.input == w.input && after.toOutput == w.toOutput && after.toInput == w.toInput
      && id in after.output.connections && after.output.connections[id].connected
    ensures SameUse(events, id) ==> SameUse(longer, id)
  {
    longer := Go(start, events, Local(true, Ready(id)));
    assert RunFrom(start, events).toInput + [] == RunFrom(start, events).toInput;
  }

  /** Nothing that the output has read in an earlier use of the id is on its way to the input node or can still be
      sent there. */
  predicate ReturnClean(v: View) {
    v.output.conn.None? && !Opening(v.input.out) && DataIn(v.output.out) == []
  }

  lemma NothingButData(msgs: seq<Msg>)
    requires Body(msgs)
    ensures DataIn(msgs) != [] ==> msgs[0].Data?
    ensures DataIn(msgs) == [] && !Closing(msgs) ==> msgs == []
  {
    if msgs != [] && msgs[0].Close? {
      LoneClose(msgs);
    }
  }

  /** An id that comes back otherwise: the next client can be given bytes that the present use never read. */
  lemma StaleDataReachesTheNextClient(events: seq<Event>, e: Event) returns (more: seq<Event>)
    requires Possible(Run(events), e) && e.Local? && e.event.Accepted?
    requires !ReturnClean(ViewOf(Run(events), e.event.id))
    ensures var after := RunFrom(Step(Run(events), e), more); var id := e.event.id;
      SameUse(more, id) && !(At(after.input.wrote, id) <= OutputRead(after, id))
  {
    var id := e.event.id;
    var w := Run(events);
    RunKeeps(BEGIN, events, id);
    var v := ViewOf(w, id);
    NothingButData(v.output.out);
    assert DataIn(v.output.out) == [] ==> v.output.out == [];
    AcceptedView(w, e);
    var start := Step(w, e);
    assert RunFrom(start, []) == start;
    more := [];
    if DataIn(v.output.out) == [] {
      more := BringStale(start, id);
    }
    EndsInConnectIsOpening(Only(id, RunFrom(start, more).toOutput));
    more := DeliverStale(start, more, id);
  }

  /** What keeps the stream in order while one client has the id, however its use began. */
  predicate DownKept(v: View) {
    && (v.input.conn.Some? ==> v.input.conn.value.connected && !v.input.conn.value.wasClosed)
    && if Opening(v.input.out) then
         && v.output.conn.None? && !Opening(Current(v.input.out)[1..])
         && DataIn(v.output.out) == [] && v.input.wrote == []
       else
         && v.input.wrote <= v.output.read
         && (v.input.conn.Some? ==> v.output.read == v.input.wrote + DataIn(v.output.out))
  }

  lemma UpSentKeepsDown(v: View, m: Msg)
    requires DownKept(v) && !m.Connect?
    ensures DownKept(v.(input := v.input.(out := v.input.out + [m])))
  {
    var u := v.input.out;
    OpeningSnoc(u, m);
    if Opening(u) {
      var rest := Current(u)[1..];
      assert (Current(u) + [m])[1..] == rest + [m];
      OpeningSnoc(rest, m);
    }
  }

  lemma LocalKeepsDown(v: View, isOutput: bool, e: SocketEvent)
    requires DownKept(v) && !e.Accepted? && (e.Ready? ==> isOutput)
    requires Applies(if isOutput then v.output else v.input, e)
    ensures DownKept(WithLocal(v, isOutput, e))
  {
    if isOutput {
      if e.Received? || e.Closed? {
        OutputKeepsDown(v, e);
      }
    } else {
      InputKeepsDown(v, e);
    }
  }

  lemma OutputKeepsDown(v: View, e: SocketEvent)
    requires DownKept(v) && (e.Received? || e.Closed?) && Applies(v.output, e)
    ensures DownKept(WithLocal(v, true, e))
  {
    var d := v.output.out;
    var after := Stepped(v.output, e).out;
    if after != d {
      var m := after[|d|];
      assert after == d + [m];
      DataInSnoc(d, m);
      Assoc(v.input.wrote, DataIn(d), if m.Data? then [m.data] else []);
      assert DataIn(d) + [] == DataIn(d);
    }
  }

  lemma InputKeepsDown(v: View, e: SocketEvent)
    requires DownKept(v) && !e.Accepted? && !e.Ready? && Applies(v.input, e)
    ensures DownKept(WithLocal(v, false, e))
  {
    var u := v.input.out;
    var after := Stepped(v.input, e).out;
    if after != u {
      assert after == u + [after[|u|]];
      UpSentKeepsDown(v, after[|u|]);
    }
  }

  lemma DeliverKeepsDown(v: View, isOutput: bool)
    requires DownKept(v) && (if isOutput then v.input.out else v.output.out) != []
    ensures DownKept(WithDelivery(v, isOutput))
  {
    if !isOutput {
      var d := v.output.out;
      if d[0].Data? {
        Assoc(v.input.wrote, [d[0].data], DataIn(d[1..]));
      } else {
        assert DataIn(d) == DataIn(d[1..]);
      }
    }
  }

  lemma StepKeepsDown(w: World, e: Event, id: Id)
    requires Possible(w, e) && DownKept(ViewOf(w, id)) && SameUse([e], id)
    ensures DownKept(ViewOf(Step(w, e), id))
  {
    assert e in [e];
    if Subject(w, e) != id {
      ConnectionsAreIsolated(w, e, id);
    } else if e.Local? {
      LocalView(w, e, id);
      LocalKeepsDown(ViewOf(w, id), e.isOutput, e.event);
    } else {
      DeliverView(w, e.isOutput, id);
      DeliverKeepsDown(ViewOf(w, id), e.isOutput);
    }
  }

  lemma {:induction false} RunKeepsDown(start: World, events: seq<Event>, id: Id)
    requires DownKept(ViewOf(start, id)) && SameUse(events, id)
    ensures DownKept(ViewOf(RunFrom(start, events), id))
  {
    if events != [] {
      var n := |events| - 1;
      RunKeepsDown(start, events[..n], id);
      var w := RunFrom(start, events[..n]);
      assert events[n] in events;
      if Possible(w, events[n]) && Safe(w, events[n]) {
        StepKeepsDown(w, events[n], id);
      }
    }
  }

  lemma CleanUseStartsDown(w: World, e: Event)
    requires Possible(w, e) && e.Local? && e.event.Accepted? && ReturnClean(ViewOf(w, e.event.id))
    ensures DownKept(ViewOf(Step(w, e), e.event.id))
  {
    var id := e.event.id;
    LocalView(w, e, id);
    OpeningSnoc(Only(id, w.toOutput), Connect(id, e.event.target));
  }

  lemma CleanUseStaysInOrder(w: World, e: Event, more: seq<Event>)
    requires Possible(w, e) && e.Local? && e.event.Accepted? && ReturnClean(ViewOf(w, e.event.id))
    requires SameUse(more, e.event.id)
    ensures DownInOrder(RunFrom(Step(w, e), more), e.event.id)
  {
    CleanUseStartsDown(w, e);
    RunKeepsDown(Step(w, e), more, e.event.id);
  }

  /** The exact condition: the next client's stream stays in order, whatever happens while it has the id, if and only
      if no data of an earlier use is on its way to the input node or can still be sent there. */
  lemma ReuseKeepsTheStreamExactly(events: seq<Event>, e: Event)
    requires Possible(Run(events), e) && e.Local? && e.event.Accepted?
    ensures ReturnClean(ViewOf(Run(events), e.event.id)) <==>
            forall more :: SameUse(more, e.event.id) ==> DownInOrder(RunFrom(Step(Run(events), e), more), e.event.id)
  {
    var id := e.event.id;
    var w := Run(events);
    if ReturnClean(ViewOf(w, id)) {
      forall more | SameUse(more, id) ensures DownInOrder(RunFrom(Step(w, e), more), id) {
        CleanUseStaysInOrder(w, e, more);
      }
    } else {
      var more := StaleDataReachesTheNextClient(events, e);
      assert !DownInOrder(RunFrom(Step(w, e), more), id);
    }
  }

  /** An id that comes back while its last client's socket is open overwrites that record. When that socket closes
      later, it takes the new client's record with it and sends a CLOSE for the id. */
  lemma OverwrittenRecordTakesTheNewOne(n: Node, id: Id, target: Target)
    requires id in n.connections && !n.connections[id].wasClosed
    ensures var first := n.connections[id]; var after := React(n, Accepted(id, target), false).node;
      && id in after.connections && CanHappen(after, Closed(id, Some(first)), false)
      && var r := React(after, Closed(id, Some(first)), false);
         id !in r.node.connections && r.sent == [Close(id, first.errorMessage)]
  {
  }
}
