/** What took place, and what it says about the nodes: who has emitted what, which messages went out, which
    connections are there. None of it is computed from the nodes' own records. */
module TunnelEvents {
  import opened Bytes
  import opened Tunnel

  /** A socket's event at one of the nodes, or a message that reached one. */
  datatype Entry =
    | Did(isOutput: bool, event: SocketEvent)
    | Got(isOutput: bool, msg: Msg)

  function EntryId(e: Entry): Id {
    match e
    case Did(_, event) => event.id
    case Got(_, msg) => msg.id
  }

  function EntryOf(w: World, e: Event): Entry
    requires Possible(w, e)
  {
    match e
    case Local(isOutput, event) => Did(isOutput, event)
    case Deliver(isOutput) => Got(isOutput, if isOutput then w.toOutput[0] else w.toInput[0])
  }

  /** The events of a run that took place. */
  function Trace(events: seq<Event>): seq<Entry> {
    if events == [] then []
    else
      var w := Run(events[..|events| - 1]);
      var e := events[|events| - 1];
      var before := Trace(events[..|events| - 1]);
      if Possible(w, e) && Safe(w, e) then before + [EntryOf(w, e)] else before
  }

  // ---------- What a trace says ----------

  predicate Begins(e: Entry, id: Id) {
    e.Did? && e.event.Accepted? && e.event.id == id
  }

  /** The data that a socket has emitted in the present use of the id. */
  function Emitted(trace: seq<Entry>, isOutput: bool, id: Id): seq<Chunk> {
    if trace == [] then []
    else
      var e := trace[|trace| - 1];
      var before := Emitted(trace[..|trace| - 1], isOutput, id);
      if Begins(e, id) then []
      else if e.Did? && e.isOutput == isOutput && e.event.Received? && e.event.id == id then before + [e.event.data]
      else before
  }

  /** The target that its client has asked for. */
  function Wanted(trace: seq<Entry>, id: Id): Option<Target> {
    if trace == [] then None
    else
      var e := trace[|trace| - 1];
      if Begins(e, id) then Some(e.event.target) else Wanted(trace[..|trace| - 1], id)
  }

  /** Whether the output's socket has become ready. */
  predicate IsReady(trace: seq<Entry>, id: Id) {
    trace != [] &&
      var e := trace[|trace| - 1];
      if Begins(e, id) then false
      else (e.Did? && e.isOutput && e.event == Ready(id)) || IsReady(trace[..|trace| - 1], id)
  }

  /** The last error of a socket. */
  function Complaint(trace: seq<Entry>, isOutput: bool, id: Id): Option<string> {
    if trace == [] then None
    else
      var e := trace[|trace| - 1];
      if Begins(e, id) then None
      else if e.Did? && e.isOutput == isOutput && e.event.Failed? && e.event.id == id then Some(e.event.message)
      else Complaint(trace[..|trace| - 1], isOutput, id)
  }

  /** A connection is there from its client's arrival or its CONNECT until its socket closes or a CLOSE arrives. */
  predicate Lives(trace: seq<Entry>, isOutput: bool, id: Id) {
    trace != [] &&
      var e := trace[|trace| - 1];
      if EntryId(e) != id || e.isOutput != isOutput then Lives(trace[..|trace| - 1], isOutput, id)
      else
        match e
        case Did(_, Accepted(_, _)) => true
        case Got(_, Connect(_, _)) => true
        case Did(_, Closed(_, None)) => false
        case Got(_, Close(_, _)) => false
        case _ => Lives(trace[..|trace| - 1], isOutput, id)
  }

  /** The messages that a node has to send: a CONNECT per client, all the data of the sockets, and a CLOSE with the last
      error when a socket closes whose connection is still there. */
  function Messages(trace: seq<Entry>, isOutput: bool): seq<Msg> {
    if trace == [] then []
    else
      var e := trace[|trace| - 1];
      var before := Messages(trace[..|trace| - 1], isOutput);
      if e.Got? || e.isOutput != isOutput then before
      else
        match e.event
        case Accepted(id, target) => before + [Connect(id, target)]
        case Received(id, data) => before + [Data(id, data)]
        case Closed(id, None) => before + [Close(id, Complaint(trace[..|trace| - 1], isOutput, id))]
        case _ => before
  }

  function Handed(trace: seq<Entry>, isOutput: bool): seq<Msg> {
    if trace == [] then []
    else
      var e := trace[|trace| - 1];
      var before := Handed(trace[..|trace| - 1], isOutput);
      if e.Got? && e.isOutput == isOutput then before + [e.msg] else before
  }

  // ---------- The nodes keep to it, one id at a time ----------

  ghost predicate Kept(v: View, trace: seq<Entry>, id: Id)
  {
    && v.input.read == Emitted(trace, false, id)
    && (if Opening(v.input.out) then [] else v.output.read) == Emitted(trace, true, id)
    && v.input.target == Wanted(trace, id)
    && (v.input.conn.Some? <==> Lives(trace, false, id))
    && (v.output.conn.Some? <==> Lives(trace, true, id))
    && (v.input.conn.Some? ==> v.input.conn.value.errorMessage == Complaint(trace, false, id))
    && (v.output.conn.Some? ==>
          && v.output.conn.value.errorMessage == Complaint(trace, true, id)
          && (v.output.conn.value.connected <==> IsReady(trace, id)))
    && (Opening(v.input.out) ==> !IsReady(trace, id) && Complaint(trace, true, id) == None)
  }

  lemma OtherEntry(trace: seq<Entry>, e: Entry, isOutput: bool, id: Id)
    requires EntryId(e) != id
    ensures Emitted(trace + [e], isOutput, id) == Emitted(trace, isOutput, id)
    ensures Wanted(trace + [e], id) == Wanted(trace, id)
    ensures IsReady(trace + [e], id) == IsReady(trace, id)
    ensures Complaint(trace + [e], isOutput, id) == Complaint(trace, isOutput, id)
    ensures Lives(trace + [e], isOutput, id) == Lives(trace, isOutput, id)
  {
    assert (trace + [e])[..|trace|] == trace;
  }

  lemma OwnEntry(trace: seq<Entry>, e: Entry, isOutput: bool, id: Id)
    requires EntryId(e) == id
    ensures Emitted(trace + [e], isOutput, id) ==
      if Begins(e, id) then []
      else Emitted(trace, isOutput, id)
           + if e.Did? && e.isOutput == isOutput && e.event.Received? then [e.event.data] else []
    ensures Wanted(trace + [e], id) == if Begins(e, id) then Some(e.event.target) else Wanted(trace, id)
    ensures IsReady(trace + [e], id) ==
      (!Begins(e, id) && ((e.Did? && e.isOutput && e.event.Ready?) || IsReady(trace, id)))
    ensures Complaint(trace + [e], isOutput, id) ==
      if Begins(e, id) then None
      else if e.Did? && e.isOutput == isOutput && e.event.Failed? then Some(e.event.message)
      else Complaint(trace, isOutput, id)
    ensures Lives(trace + [e], isOutput, id) ==
      if e.isOutput != isOutput then Lives(trace, isOutput, id)
      else if (e.Did? && e.event.Accepted?) || (e.Got? && e.msg.Connect?) then true
      else if (e.Did? && e.event.Closed? && e.event.late.None?) || (e.Got? && e.msg.Close?) then false
      else Lives(trace, isOutput, id)
  {
    assert (trace + [e])[..|trace|] == trace;
  }

  lemma LocalKept(v: View, trace: seq<Entry>, isOutput: bool, e: SocketEvent)
    requires Invariant(v) && Kept(v, trace, e.id)
    requires Applies(if isOutput then v.output else v.input, e)
    requires e.Accepted? ==> !isOutput && !CloseMayCome(v)
    requires e.Ready? ==> isOutput
    ensures Kept(WithLocal(v, isOutput, e), trace + [Did(isOutput, e)], e.id)
  {
    if isOutput {
      OutputKept(v, trace, e);
    } else {
      InputKept(v, trace, e);
    }
  }

  lemma OutputKept(v: View, trace: seq<Entry>, e: SocketEvent)
    requires Invariant(v) && Kept(v, trace, e.id) && Applies(v.output, e) && !e.Accepted?
    ensures Kept(WithLocal(v, true, e), trace + [Did(true, e)], e.id)
  {
    OwnEntry(trace, Did(true, e), false, e.id);
    OwnEntry(trace, Did(true, e), true, e.id);
  }

  lemma InputKept(v: View, trace: seq<Entry>, e: SocketEvent)
    requires Invariant(v) && Kept(v, trace, e.id) && Applies(v.input, e) && !e.Ready?
    requires e.Accepted? ==> !CloseMayCome(v)
    ensures Kept(WithLocal(v, false, e), trace + [Did(false, e)], e.id)
  {
    OwnEntry(trace, Did(false, e), false, e.id);
    OwnEntry(trace, Did(false, e), true, e.id);
    var after := Stepped(v.input, e).out;
    if after != v.input.out {
      assert after == v.input.out + [after[|v.input.out|]];
      OpeningSnoc(v.input.out, after[|v.input.out|]);
    }
  }

  lemma DeliveredKept(v: View, trace: seq<Entry>, isOutput: bool, id: Id)
    requires Invariant(v) && Kept(v, trace, id) && (if isOutput then v.input.out else v.output.out) != []
    requires (if isOutput then v.input.out[0] else v.output.out[0]).id == id
    ensures var m := if isOutput then v.input.out[0] else v.output.out[0];
      Kept(WithDelivery(v, isOutput), trace + [Got(isOutput, m)], id)
  {
    var m := if isOutput then v.input.out[0] else v.output.out[0];
    OwnEntry(trace, Got(isOutput, m), false, id);
    OwnEntry(trace, Got(isOutput, m), true, id);
    if isOutput && m.Connect? {
      BodyIsNotOpening(v.input.out[1..]);
    }
  }

  lemma OtherKept(v: View, trace: seq<Entry>, e: Entry, id: Id)
    requires Kept(v, trace, id) && EntryId(e) != id
    ensures Kept(v, trace + [e], id)
  {
    OtherEntry(trace, e, false, id);
    OtherEntry(trace, e, true, id);
  }

  lemma StepKept(w: World, trace: seq<Entry>, e: Event, id: Id)
    requires Possible(w, e) && Safe(w, e) && Invariant(ViewOf(w, id)) && Kept(ViewOf(w, id), trace, id)
    ensures Kept(ViewOf(Step(w, e), id), trace + [EntryOf(w, e)], id)
  {
    if Subject(w, e) != id {
      ConnectionsAreIsolated(w, e, id);
      OtherKept(ViewOf(w, id), trace, EntryOf(w, e), id);
    } else if e.Local? {
      LocalView(w, e, id);
      LocalKept(ViewOf(w, id), trace, e.isOutput, e.event);
    } else {
      DeliverView(w, e.isOutput, id);
      DeliveredKept(ViewOf(w, id), trace, e.isOutput, id);
    }
  }

  /** In every run, the nodes' records are what the events say. */
  lemma {:induction false} RecordsAreKept(events: seq<Event>, id: Id)
    ensures Kept(ViewOf(Run(events), id), Trace(events), id)
  {
    if events != [] {
      var n := |events| - 1;
      RecordsAreKept(events[..n], id);
      RunKeeps(BEGIN, events[..n], id);
      var w := Run(events[..n]);
      if Possible(w, events[n]) && Safe(w, events[n]) {
        StepKept(w, Trace(events[..n]), events[n], id);
      }
    }
  }

  /** What a socket can do next is what the events say too: a client may always come, a connection's socket may fail,
      close and, once it is ready, emit any data, and an output socket becomes ready once. */
  lemma SocketsAreFree(events: seq<Event>, isOutput: bool, e: SocketEvent)
    requires e.Closed? ==> e.late.None?
    ensures Possible(Run(events), Local(isOutput, e)) <==>
      match e
      case Accepted(_, _) => !isOutput
      case Ready(id) => isOutput && Lives(Trace(events), true, id) && !IsReady(Trace(events), id)
      case Received(id, _) => Lives(Trace(events), isOutput, id) && (isOutput ==> IsReady(Trace(events), id))
      case Failed(id, _) => Lives(Trace(events), isOutput, id)
      case Closed(id, _) => Lives(Trace(events), isOutput, id)
  {
    RecordsAreKept(events, e.id);
    RunKeeps(BEGIN, events, e.id);
  }

  /** Whether something of the id was on its way to the input node when its present use began. */
  predicate BeganStale(events: seq<Event>, id: Id) {
    events != [] &&
      var w := Run(events[..|events| - 1]);
      var e := events[|events| - 1];
      if Possible(w, e) && Safe(w, e) && Begins(EntryOf(w, e), id) then Only(id, w.toInput) != []
      else BeganStale(events[..|events| - 1], id)
  }

  lemma {:induction false} StaleMeans(events: seq<Event>, id: Id)
    ensures id in Run(events).stale <==> BeganStale(events, id)
  {
    if events != [] {
      var n := |events| - 1;
      StaleMeans(events[..n], id);
      var w := Run(events[..n]);
      if Possible(w, events[n]) && Safe(w, events[n]) {
        StepStale(w, events[n], id);
      }
    }
  }

  lemma StepStale(w: World, e: Event, id: Id)
    requires Possible(w, e)
    ensures id in Step(w, e).stale <==>
              if Begins(EntryOf(w, e), id) then Only(id, w.toInput) != [] else id in w.stale
  {
  }

  // ---------- The channels ----------

  ghost predicate Carried(w: World, trace: seq<Entry>)
  {
    && Handed(trace, true) + w.toOutput == Messages(trace, false)
    && Handed(trace, false) + w.toInput == Messages(trace, true)
  }

  lemma EntryAdds(trace: seq<Entry>, e: Entry, isOutput: bool)
    ensures Handed(trace + [e], isOutput)
            == Handed(trace, isOutput) + if e.Got? && e.isOutput == isOutput then [e.msg] else []
    ensures Messages(trace + [e], isOutput) == Messages(trace, isOutput) + Owed(trace, e, isOutput)
  {
    assert (trace + [e])[..|trace|] == trace;
  }

  function Owed(trace: seq<Entry>, e: Entry, isOutput: bool): seq<Msg> {
    if e.Got? || e.isOutput != isOutput then []
    else
      match e.event
      case Accepted(id, target) => [Connect(id, target)]
      case Received(id, data) => [Data(id, data)]
      case Closed(id, None) => [Close(id, Complaint(trace, isOutput, id))]
      case _ => []
  }

  /** A node sends exactly what an event makes it owe. */
  lemma SendsWhatIsOwed(w: World, trace: seq<Entry>, e: Event)
    requires Possible(w, e) && Safe(w, e) && e.Local?
    requires Invariant(ViewOf(w, e.event.id)) && Kept(ViewOf(w, e.event.id), trace, e.event.id)
    ensures React(if e.isOutput then w.output else w.input, e.event, e.isOutput).sent
            == Owed(trace, Did(e.isOutput, e.event), e.isOutput)
  {
    var id := e.event.id;
    var n := if e.isOutput then w.output else w.input;
    var v := ViewOf(w, id);
    assert (if e.isOutput then v.output else v.input) == EndOf(n, id, if e.isOutput then w.toInput else w.toOutput);
    NodeSendsWhatIsOwed(n, trace, e.event, e.isOutput);
  }

  lemma NodeSendsWhatIsOwed(n: Node, trace: seq<Entry>, e: SocketEvent, isOutput: bool)
    requires CanHappen(n, e, isOutput)
    requires e.Closed? && e.late.Some? ==> e.late.value.wasClosed
    requires e.Closed? && e.late.None? ==>
      !n.connections[e.id].wasClosed && n.connections[e.id].errorMessage == Complaint(trace, isOutput, e.id)
    ensures React(n, e, isOutput).sent == Owed(trace, Did(isOutput, e), isOutput)
  {
  }

  lemma StepCarried(w: World, trace: seq<Entry>, e: Event)
    requires Possible(w, e) && Safe(w, e) && Carried(w, trace)
    requires var id := EntryId(EntryOf(w, e)); Invariant(ViewOf(w, id)) && Kept(ViewOf(w, id), trace, id)
    ensures Carried(Step(w, e), trace + [EntryOf(w, e)])
  {
    var entry := EntryOf(w, e);
    EntryAdds(trace, entry, false);
    EntryAdds(trace, entry, true);
    if e.Local? {
      SendsWhatIsOwed(w, trace, e);
      var sent := Owed(trace, entry, e.isOutput);
      Assoc(Handed(trace, !e.isOutput), if e.isOutput then w.toInput else w.toOutput, sent);
    } else {
      var channel := if e.isOutput then w.toOutput else w.toInput;
      assert channel == [channel[0]] + channel[1..];
      Assoc(Handed(trace, e.isOutput), [channel[0]], channel[1..]);
    }
  }

  /** In every run, what has reached a node and what is in flight are together the messages that the other one has to
      send, unaltered, complete and in order. */
  lemma {:induction false} ChannelsCarryTheEvents(events: seq<Event>)
    ensures Carried(Run(events), Trace(events))
  {
    if events != [] {
      var n := |events| - 1;
      var w := Run(events[..n]);
      ChannelsCarryTheEvents(events[..n]);
      if Possible(w, events[n]) && Safe(w, events[n]) {
        var id := EntryId(EntryOf(w, events[n]));
        RecordsAreKept(events[..n], id);
        RunKeeps(BEGIN, events[..n], id);
        StepCarried(w, Trace(events[..n]), events[n]);
      }
    }
  }

  // ---------- From socket to socket ----------

  /** The tunnel between two sockets, in every run: the output's socket dials what was asked for and has been given a
      prefix of the data that the client's socket has emitted; while its connection is there, what is missing is kept
      back until it is ready, or in flight. The other way likewise, for an id that began clean. */
  lemma SocketToSocket(events: seq<Event>, id: Id)
    ensures var w := Run(events); var trace := Trace(events);
      && OutputWrote(w, id) <= Emitted(trace, false, id)
      && (Lives(trace, true, id) ==>
            && id in w.output.connections && Of(w.output.targets, id) == Wanted(trace, id)
            && Emitted(trace, false, id)
               == At(w.output.wrote, id) + w.output.connections[id].messages + DataIn(Only(id, w.toOutput))
            && (IsReady(trace, id) ==> w.output.connections[id].messages == []))
      && (id !in w.stale ==>
            && At(w.input.wrote, id) <= Emitted(trace, true, id)
            && (Lives(trace, false, id) ==>
                  Emitted(trace, true, id) == At(w.input.wrote, id) + DataIn(Only(id, w.toInput))))
  {
    RecordsAreKept(events, id);
    RunKeeps(BEGIN, events, id);
    TunnelStreams(events, id);
  }

  // ---------- Socket events alone ----------

  /** The sockets' part of a trace. */
  function Dids(trace: seq<Entry>): seq<Entry> {
    if trace == [] then []
    else
      var e := trace[|trace| - 1];
      var before := Dids(trace[..|trace| - 1]);
      if e.Did? then before + [e] else before
  }

  lemma DidsSnoc(trace: seq<Entry>, e: Entry)
    ensures Dids(trace + [e]) == Dids(trace) + if e.Did? then [e] else []
  {
    assert (trace + [e])[..|trace|] == trace;
  }

  /** What was emitted and asked for, and which sockets are ready, are the sockets' part alone. */
  lemma {:induction false} DidsSayAll(trace: seq<Entry>, isOutput: bool, id: Id)
    ensures Emitted(Dids(trace), isOutput, id) == Emitted(trace, isOutput, id)
    ensures Wanted(Dids(trace), id) == Wanted(trace, id)
    ensures IsReady(Dids(trace), id) == IsReady(trace, id)
  {
    if trace != [] {
      var n := |trace| - 1;
      DidsSayAll(trace[..n], isOutput, id);
      var before := Dids(trace[..n]);
      assert trace[n].Did? ==> (before + [trace[n]])[..|before|] == before;
    }
  }
}
