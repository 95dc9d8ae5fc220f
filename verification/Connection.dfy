/** The connection table object of a node, for both the socks input and the direct output. */
module ConnectionTables {
  import opened Bytes
  import opened Tunnel

  lemma AppendedInTurn(log: map<Id, seq<Chunk>>, id: Id, messages: seq<Chunk>)
    requires messages != []
    ensures Appended(Appended(log, id, [messages[0]]), id, messages[1..]) == Appended(log, id, messages)
  {
    assert [messages[0]] + messages[1..] == messages;
    Assoc(At(log, id), [messages[0]], messages[1..]);
  }

  lemma NothingAppended(log: map<Id, seq<Chunk>>, id: Id, messages: seq<Chunk>)
    ensures Appended(Appended(log, id, []), id, messages) == Appended(log, id, messages)
    ensures id in log ==> Appended(log, id, []) == log
  {
    assert At(log, id) + [] == At(log, id);
  }

  class ConnectionTable {
    const isOutput: bool
    var transportConnected: bool
    var connections: map<Id, Conn>
    var detached: map<Id, multiset<Conn>>  // records out of the Map that their sockets' close listeners still hold
    var targets: map<Id, Target>
    var read: map<Id, seq<Chunk>>
    var wrote: map<Id, seq<Chunk>>         // what each id's socket has been given by socket.write
    var closes: multiset<Id>
    var sent: seq<Msg>                     // messages given to the multiplexer so far

    ghost function View(): Node
      reads this
    {
      Node(connections, detached, targets, read, wrote, closes)
    }

    constructor (isOutput: bool)
      ensures this.isOutput == isOutput && transportConnected && View() == NEW_NODE && sent == []
    {
      this.isOutput := isOutput;
      transportConnected := true;
      connections, detached, targets, read, wrote, closes, sent := map[], map[], map[], map[], map[], multiset{}, [];
    }

    method CreateConnection(id: Id, target: Target)
      modifies `connections, `detached, `targets, `read, `wrote, `closes
      ensures View() == Create(old(View()), id, target)
    {
      detached := Detach(Node(connections, detached, targets, read, wrote, closes), id);
      connections := connections[id := NEW_CONN];
      targets := targets[id := target];
      read, wrote, closes := read[id := []], wrote[id := []], closes[id := 0];
    }

    method DeleteConnection(id: Id)
      modifies `connections
      ensures connections == old(connections) - {id}
    {
      connections := connections - {id};
    }

    method WriteToSocket(id: Id, data: Chunk)
      modifies `wrote
      ensures wrote == Appended(old(wrote), id, [data])
    {
      wrote := Appended(wrote, id, [data]);
    }

    /** A local socks client: denied without a transport. */
    method HandleOnSocksServerConnection(id: Id, target: Target) returns (accepted: bool)
      requires !isOutput
      modifies this
      ensures accepted == old(transportConnected) == transportConnected
      ensures !accepted ==> View() == old(View()) && sent == old(sent)
      ensures accepted ==> View() == React(old(View()), Accepted(id, target), isOutput).node
      ensures accepted ==>
        && sent == old(sent) + [Connect(id, target)]
        && id in connections && connections[id].connected && targets[id] == target
    {
      accepted := transportConnected;
      if !transportConnected {
        return;
      }
      CreateConnection(id, target);
      connections := connections[id := connections[id].(connected := true)];
      sent := sent + [Connect(id, target)];
    }

    /** The multiplexer hands over one message. Returns true where an input node throws. */
    method HandleMessage(m: Msg) returns (threw: bool)
      modifies this
      ensures View() == Handle(old(View()), m, isOutput) && sent == old(sent)
      ensures threw <==> m.Connect? && !isOutput
      ensures transportConnected == old(transportConnected)
    {
      threw := false;
      match m {
        case Connect(id, target) =>
          if isOutput {
            CreateConnection(id, target);
          } else {
            threw := true;
          }
        case Close(id, _) =>
          if id in connections {
            detached := detached[id := Held(detached, id) + multiset{connections[id].(wasClosed := true)}];
            DeleteConnection(id);
          }
        case Data(id, data) =>
          if id in connections {
            var c := connections[id];
            if c.connected {
              WriteToSocket(id, data);
            } else {
              connections := connections[id := c.(messages := c.messages + [data])];
            }
          }
      }
    }

    /** "connect" and "ready", which a socket emits one right after the other. */
    method HandleSocketOnReady(id: Id)
      requires CanHappen(View(), Ready(id), isOutput)
      modifies `connections, `wrote
      ensures View() == React(old(View()), Ready(id), isOutput).node
      ensures At(wrote, id) == old(At(wrote, id)) + old(connections[id]).messages
      ensures id in connections && connections[id].connected && connections[id].messages == []
    {
      var c := connections[id].(connected := true);
      ghost var all := Appended(wrote, id, c.messages);
      wrote := Appended(wrote, id, []);
      NothingAppended(old(wrote), id, c.messages);
      while c.messages != []
        invariant connections == old(connections)
        invariant c == old(connections[id]).(connected := true, messages := c.messages)
        invariant id in wrote && all == Appended(wrote, id, c.messages)
        decreases |c.messages|
      {
        AppendedInTurn(wrote, id, c.messages);
        WriteToSocket(id, c.messages[0]);
        c := c.(messages := c.messages[1..]);
      }
      NothingAppended(wrote, id, []);
      connections := connections[id := c];
    }

    method HandleSocketOnError(id: Id, message: string)
      requires CanHappen(View(), Failed(id, message), isOutput)
      modifies `connections
      ensures View() == React(old(View()), Failed(id, message), isOutput).node
    {
      connections := connections[id := connections[id].(errorMessage := Some(message))];
    }

    method HandleSocketOnData(id: Id, data: Chunk)
      requires CanHappen(View(), Received(id, data), isOutput)
      modifies `read, `sent
      ensures View() == React(old(View()), Received(id, data), isOutput).node
      ensures sent == old(sent) + [Data(id, data)] && At(read, id) == old(At(read, id)) + [data]
    {
      read := Appended(read, id, [data]);
      sent := sent + [Data(id, data)];
    }

    /** The close listener outlives the record's place in the Map: `late` is the record if it has left it. */
    method HandleSocketOnClose(id: Id, late: Option<Conn>)
      requires CanHappen(View(), Closed(id, late), isOutput)
      modifies `connections, `detached, `closes, `sent
      ensures transportConnected ==> View() == React(old(View()), Closed(id, late), isOutput).node
      ensures var c := if late.Some? then late.value else old(connections[id]);
        if transportConnected && !c.wasClosed then
          id !in connections && sent == old(sent) + [Close(id, c.errorMessage)]
        else sent == old(sent)
      ensures !transportConnected ==> View() == Disconnected(old(View()), id, late) && sent == old(sent)
    {
      var c: Conn;
      if late.Some? {
        c := late.value;
        detached := detached[id := Held(detached, id) - multiset{c}];
      } else {
        c := connections[id];
        connections := connections[id := c.(connected := false)];
      }
      if c.wasClosed || !transportConnected {
        return;
      }
      DeleteConnection(id);
      closes := closes + multiset{id};
      sent := sent + [Close(id, c.errorMessage)];
    }
  }
}
