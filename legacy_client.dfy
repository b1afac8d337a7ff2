/**
 * The older AudioConnectClient and its AudioConnectClientHandler. Each
 * connect makes a new Connection: a handler holding the players the web
 * service tracks and those of them not on this server, on its own channel
 * and event loop group. The client is connected as soon as a connection
 * exists, whether or not its handshake has finished. As in the newer
 * client, what Netty decides arrives as parameters, and the follow-up of an
 * ADD command waits in a queue for the main server thread.
 */
module LegacyClient {
  import opened Wrappers
  import opened Messages
  import opened Client

  /** A Connection: the handler's player sets together with what the client sees of its channel and group. */
  class Connection {
    var trackedPlayers: set<Uuid>
    var offlinePlayers: set<Uuid>
    /** Whether the handshaker completed. */
    var handshaken: bool
    /** The CONNECTION_REFUSED attribute of the channel. */
    var refused: bool
    /** Whether a close of the channel was requested. */
    var closing: bool
    /** Whether the event loop group was shut down. */
    var groupShutdown: bool
    var sent: seq<OutFrame>
    /** The players whose ADD follow-up waits for the main thread, in order. */
    var addTasks: seq<Uuid>

    /** The state of a new handler on a new channel: nothing tracked, sent or requested yet. */
    predicate Initial()
      reads this
    {
      trackedPlayers == {} && offlinePlayers == {} && !handshaken && !refused && !closing && !groupShutdown
      && sent == [] && addTasks == []
    }

    /** The fields besides the player sets and the frames sent: handshake, refusal, close, group and queued follow-ups. */
    function Lifecycle(): (bool, bool, bool, bool, seq<Uuid>)
      reads this
    {
      (handshaken, refused, closing, groupShutdown, addTasks)
    }

    constructor ()
      ensures Initial()
    {
      trackedPlayers, offlinePlayers := {}, {};
      handshaken, refused, closing, groupShutdown := false, false, false, false;
      sent, addTasks := [], [];
    }

    /**
     * channelRead0: before the handshaker completes, the object must be the
     * upgrade response; a response the handshaker rejects marks the channel
     * refused and closes it. After, a close frame empties both player sets
     * and closes the channel, a text frame that decodes has its commands
     * applied, and anything else (a ping included) is only logged.
     */
    method ChannelRead(msg: Inbound) returns (r: Result<(), ClientError>)
      modifies this
      ensures r.Err? <==> !old(handshaken) && !msg.Response?
      ensures !old(handshaken) && msg.Response? ==>
        trackedPlayers == old(trackedPlayers) && offlinePlayers == old(offlinePlayers) && addTasks == old(addTasks)
        && (handshaken <==> msg.status == SwitchingProtocols && msg.accepted)
        && (refused <==> old(refused) || !handshaken)
        && (closing <==> old(closing) || !handshaken)
      ensures old(handshaken) && msg.FrameIn? && msg.frame.CloseIn? ==>
        trackedPlayers == {} && offlinePlayers == {} && closing && addTasks == old(addTasks)
      ensures old(handshaken) && (msg.RawIn? || (msg.FrameIn? && !msg.frame.CloseIn? && !(msg.frame.TextIn? && msg.frame.decoded.Some?))) ==>
        trackedPlayers == old(trackedPlayers) && offlinePlayers == old(offlinePlayers) && closing == old(closing)
        && addTasks == old(addTasks)
      ensures old(handshaken) && msg.FrameIn? && msg.frame.TextIn? && msg.frame.decoded.Some? ==>
        var ms := msg.frame.decoded.value;
        trackedPlayers == Tracked(old(trackedPlayers), ms)
        && offlinePlayers == old(offlinePlayers) - Removed(ms)
        && addTasks == old(addTasks) + Added(ms)
      ensures old(handshaken) && msg.FrameIn? && msg.frame.TextIn? ==> closing == old(closing)
      ensures old(handshaken) ==> handshaken && refused == old(refused)
      ensures r.Err? ==> unchanged(this)
      ensures sent == old(sent) && groupShutdown == old(groupShutdown)
    {
      if !handshaken {
        if !msg.Response? {
          return Err(ClassCast);
        }
        if msg.status == SwitchingProtocols && msg.accepted {
          handshaken := true;
        } else {
          refused := true;
          closing := true;
        }
        return Ok(());
      }
      if msg.FrameIn? {
        match msg.frame {
          case CloseIn =>
            trackedPlayers, offlinePlayers := {}, {};
            closing := true;
          case TextIn(decoded) =>
            if decoded.Some? {
              HandleCommands(decoded.value);
            }
          case _ =>
        }
      }
      return Ok(());
    }

    /** The loop over a text frame's messages: ADD tracks the player and hands a follow-up to the main thread, REMOVE forgets the player. */
    method HandleCommands(messages: seq<Message>)
      modifies this`trackedPlayers, this`offlinePlayers, this`addTasks
      ensures trackedPlayers == Tracked(old(trackedPlayers), messages)
      ensures offlinePlayers == old(offlinePlayers) - Removed(messages)
      ensures addTasks == old(addTasks) + Added(messages)
    {
      var tracked, offline, added := trackedPlayers, offlinePlayers, addTasks;
      var i := 0;
      while i < |messages|
        invariant 0 <= i <= |messages|
        invariant tracked == Tracked(trackedPlayers, messages[..i])
        invariant offline == offlinePlayers - Removed(messages[..i])
        invariant added == addTasks + Added(messages[..i])
        modifies {}
      {
        CommandStep(trackedPlayers, messages, i);
        var message := messages[i];
        if message.CommandMessage? {
          if message.command == AddPlayer {
            tracked := tracked + {message.player};
            added := added + [message.player];
          } else {
            tracked := tracked - {message.player};
            offline := offline - {message.player};
          }
        }
        i := i + 1;
      }
      assert messages[..i] == messages;
      trackedPlayers, offlinePlayers, addTasks := tracked, offline, added;
    }

    /**
     * The follow-up of ADD on the main thread: a player not on this server
     * joins the offline set, and the web service is told CONNECTED or
     * DISCONNECTED.
     */
    method RunAddTask(onServer: bool)
      requires addTasks != []
      modifies this`offlinePlayers, this`sent, this`addTasks
      ensures addTasks == old(addTasks[1..])
      ensures var player := old(addTasks[0]);
        offlinePlayers == (if onServer then old(offlinePlayers) else old(offlinePlayers) + {player})
        && sent == old(sent) + [TextFrame([ConnectionStatusMessage(player, if onServer then Connected else Disconnected)])]
    {
      var player := addTasks[0];
      addTasks := addTasks[1..];
      if !onServer {
        offlinePlayers := offlinePlayers + {player};
      }
      sent := sent + [TextFrame([ConnectionStatusMessage(player, if onServer then Connected else Disconnected)])];
    }

    /** exceptionCaught: the channel is closed, so the close listener decides on a reconnect. */
    method ExceptionCaught()
      modifies this`closing
      ensures closing
    {
      closing := true;
    }
  }

  /** The tracked set after a sequence of messages: ADD adds, REMOVE removes, in order. */
  function Tracked(tracked: set<Uuid>, messages: seq<Message>): set<Uuid>
  {
    if messages == [] then tracked
    else
      var init := Tracked(tracked, messages[..|messages| - 1]);
      var m := messages[|messages| - 1];
      if m.CommandMessage? && m.command == AddPlayer then init + {m.player}
      else if m.CommandMessage? then init - {m.player}
      else init
  }

  /** The players some REMOVE command names. */
  function Removed(messages: seq<Message>): (r: set<Uuid>)
    ensures forall p :: p in r <==> exists i :: 0 <= i < |messages| && messages[i] == CommandMessage(p, RemovePlayer)
  {
    set i | 0 <= i < |messages| && messages[i].CommandMessage? && messages[i].command == RemovePlayer :: messages[i].player
  }

  /** The players of the ADD commands, in order. */
  function Added(messages: seq<Message>): (r: seq<Uuid>)
    ensures |r| <= |messages|
  {
    if messages == [] then []
    else
      var init := Added(messages[..|messages| - 1]);
      var m := messages[|messages| - 1];
      if m.CommandMessage? && m.command == AddPlayer then init + [m.player] else init
  }

  /** A player is tracked only if tracked before or named by some ADD command. */
  lemma {:induction false} TrackedOnlyAdds(tracked: set<Uuid>, messages: seq<Message>)
    ensures forall p :: p in Tracked(tracked, messages) ==>
      (p in tracked || exists i :: 0 <= i < |messages| && messages[i] == CommandMessage(p, AddPlayer))
  {
    if messages != [] {
      var init := messages[..|messages| - 1];
      TrackedOnlyAdds(tracked, init);
      forall p | p in Tracked(tracked, messages) && p !in tracked
        ensures exists i :: 0 <= i < |messages| && messages[i] == CommandMessage(p, AddPlayer)
      {
        if p in Tracked(tracked, init) {
          var i :| 0 <= i < |init| && init[i] == CommandMessage(p, AddPlayer);
          assert messages[i] == init[i];
        } else {
          assert messages[|messages| - 1] == CommandMessage(p, AddPlayer);
        }
      }
    }
  }

  /** The follow-ups handed to the main thread are exactly the players of the ADD commands. */
  lemma {:induction false} AddedNames(messages: seq<Message>)
    ensures forall p :: p in Added(messages) <==> exists i :: 0 <= i < |messages| && messages[i] == CommandMessage(p, AddPlayer)
  {
    if messages != [] {
      var init := messages[..|messages| - 1];
      AddedNames(init);
      assert forall i :: 0 <= i < |messages| - 1 ==> init[i] == messages[i];
    }
  }

  /** Tracked, Removed and Added over one more message. */
  lemma CommandStep(tracked: set<Uuid>, messages: seq<Message>, i: int)
    requires 0 <= i < |messages|
    ensures var m := messages[i];
      Tracked(tracked, messages[..i + 1])
        == (if m.CommandMessage? && m.command == AddPlayer then Tracked(tracked, messages[..i]) + {m.player}
            else if m.CommandMessage? then Tracked(tracked, messages[..i]) - {m.player}
            else Tracked(tracked, messages[..i]))
      && Removed(messages[..i + 1])
        == Removed(messages[..i]) + (if m.CommandMessage? && m.command == RemovePlayer then {m.player} else {})
      && Added(messages[..i + 1])
        == Added(messages[..i]) + (if m.CommandMessage? && m.command == AddPlayer then [m.player] else [])
  {
    assert messages[..i + 1][..i] == messages[..i];
  }

  /** The last command about a player decides whether they are tracked. */
  lemma {:induction false} LastCommandDecides(tracked: set<Uuid>, messages: seq<Message>, p: Uuid, i: int)
    requires 0 <= i < |messages| && messages[i].CommandMessage? && messages[i].player == p
    requires forall j :: i < j < |messages| && messages[j].CommandMessage? ==> messages[j].player != p
    ensures p in Tracked(tracked, messages) <==> messages[i].command == AddPlayer
  {
    var n := |messages|;
    if i < n - 1 {
      LastCommandDecides(tracked, messages[..n - 1], p, i);
    }
  }

  class LegacyAudioConnectClient {
    var connection: Option<Connection>
    var reconnectAttempts: nat
    /**
     * The delays of the reconnects scheduled on the current connection's
     * event loop, in order; shutting that loop's group down drops them.
     */
    var retries: seq<int>

    constructor ()
      ensures connection.None? && reconnectAttempts == 0 && retries == []
    {
      connection, reconnectAttempts, retries := None, 0, [];
    }

    /** The objects a call may change besides the client: the current connection. */
    function Current(): set<object>
      reads this
    {
      if connection.Some? then {connection.value} else {}
    }

    /** isConnected: a connection exists, handshake or not. */
    predicate IsConnected()
      reads this
    {
      connection.Some?
    }

    /** isPlayerTracked */
    predicate IsPlayerTracked(player: Uuid)
      reads this, Current()
    {
      connection.Some? && player in connection.value.trackedPlayers
    }

    /**
     * connect(reconnectAttempt): IllegalStateException while a connection
     * exists; otherwise a fresh connection, after a user connect reset the
     * attempt counter (a retry has already counted itself).
     */
    method Connect(reconnect: bool) returns (r: Result<(), ClientError>)
      modifies this`connection, this`reconnectAttempts
      ensures r.Err? <==> old(connection).Some?
      ensures r.Err? ==> connection == old(connection) && reconnectAttempts == old(reconnectAttempts)
      ensures r.Ok? ==> (connection.Some? && fresh(connection.value) && connection.value.Initial()
        && reconnectAttempts == (if reconnect then old(reconnectAttempts) else 0))
    {
      if connection.Some? {
        return Err(IllegalState);
      }
      if !reconnect {
        reconnectAttempts := 0;
      }
      var c := new Connection();
      connection := Some(c);
      return Ok(());
    }

    /** The listener on the transport connect: success resets the attempt counter. */
    method TransportConnected(success: bool)
      modifies this`reconnectAttempts
      ensures reconnectAttempts == if success then 0 else old(reconnectAttempts)
    {
      if success {
        reconnectAttempts := 0;
      }
    }

    /**
     * shutdown: the connection is dropped, its event loop group shut down
     * and both of its player sets emptied; false when there was none.
     */
    method Shutdown() returns (had: bool)
      modifies this`connection, this`retries, Current()
      ensures connection.None?
      ensures had <==> old(connection).Some?
      ensures retries == if had then [] else old(retries)
      ensures had ==> var c := old(connection).value;
        c.groupShutdown && c.trackedPlayers == {} && c.offlinePlayers == {}
        && c.sent == old(c.sent) && c.handshaken == old(c.handshaken) && c.refused == old(c.refused)
        && c.addTasks == old(c.addTasks)
    {
      if connection.None? {
        return false;
      }
      var c := connection.value;
      connection, retries := None, [];
      c.groupShutdown := true;
      c.trackedPlayers, c.offlinePlayers := {}, {};
      return true;
    }

    /** disconnect: shutdown when connected. */
    method Disconnect()
      modifies this`connection, this`retries, Current()
      ensures connection.None?
      ensures retries == if old(connection).Some? then [] else old(retries)
      ensures old(connection).Some? ==> var c := old(connection).value;
        c.groupShutdown && c.trackedPlayers == {} && c.offlinePlayers == {}
        && c.sent == old(c.sent) && c.handshaken == old(c.handshaken) && c.refused == old(c.refused)
        && c.addTasks == old(c.addTasks)
    {
      if connection.Some? {
        var _ := Shutdown();
      }
    }

    /**
     * writeAndFlush: IllegalStateException when not connected; dropped
     * with a warning when the channel is not writable; otherwise sent as
     * one text frame.
     */
    method WriteAndFlush(messages: seq<Message>, writable: bool) returns (r: Result<bool, ClientError>)
      modifies Current()
      ensures connection == old(connection)
      ensures r.Err? <==> connection.None?
      ensures r.Ok? ==> (r.value <==> writable)
      ensures r.Ok? && writable ==> connection.value.sent == old(connection.value.sent) + [TextFrame(messages)]
      ensures r.Ok? && !writable ==> connection.value.sent == old(connection.value.sent)
      ensures connection.Some? ==> var c := connection.value;
        c.trackedPlayers == old(c.trackedPlayers) && c.offlinePlayers == old(c.offlinePlayers)
        && c.Lifecycle() == old(c.Lifecycle())
    {
      if connection.None? {
        return Err(IllegalState);
      }
      if !writable {
        return Ok(false);
      }
      var c := connection.value;
      c.sent := c.sent + [TextFrame(messages)];
      return Ok(true);
    }

    /** notifyPlayerJoin: a player of the offline set leaves it and is reported CONNECTED. */
    method NotifyPlayerJoin(player: Uuid, writable: bool)
      modifies Current()
      ensures connection == old(connection)
      ensures connection.Some? ==> var c := connection.value;
        c.trackedPlayers == old(c.trackedPlayers)
        && c.offlinePlayers == old(c.offlinePlayers) - {player}
        && c.sent == old(c.sent) + (if player in old(c.offlinePlayers) && writable
             then [TextFrame([ConnectionStatusMessage(player, Connected)])] else [])
        && c.Lifecycle() == old(c.Lifecycle())
    {
      if connection.Some? && player in connection.value.offlinePlayers {
        var c := connection.value;
        c.offlinePlayers := c.offlinePlayers - {player};
        var _ := WriteAndFlush([ConnectionStatusMessage(player, Connected)], writable);
      }
    }

    /** notifyPlayerQuit: a tracked player not yet offline joins the offline set and is reported DISCONNECTED. */
    method NotifyPlayerQuit(player: Uuid, writable: bool)
      modifies Current()
      ensures connection == old(connection)
      ensures connection.Some? ==> var c := connection.value;
        var quits := player in old(c.trackedPlayers) && player !in old(c.offlinePlayers);
        c.trackedPlayers == old(c.trackedPlayers)
        && c.offlinePlayers == (if quits then old(c.offlinePlayers) + {player} else old(c.offlinePlayers))
        && c.sent == old(c.sent) + (if quits && writable
             then [TextFrame([ConnectionStatusMessage(player, Disconnected)])] else [])
        && c.Lifecycle() == old(c.Lifecycle())
    {
      if connection.Some? && player in connection.value.trackedPlayers && player !in connection.value.offlinePlayers {
        var c := connection.value;
        c.offlinePlayers := c.offlinePlayers + {player};
        var _ := WriteAndFlush([ConnectionStatusMessage(player, Disconnected)], writable);
      }
    }

    /**
     * The close listener: nothing once the connection was dropped; a
     * refused connection or a positive maximum of attempts reached shuts
     * down without retry; otherwise a reconnect is scheduled after
     * ReconnectDelay. It looks at the client's current connection.
     */
    method ChannelClosed(maxAttempts: int, interval: int, rate: real, maxInterval: int) returns (retried: bool)
      modifies this`connection, this`retries, Current()
      ensures old(connection).None? ==> !retried && connection.None?
      ensures var stops := old(connection).Some? && (old(connection).value.refused || (maxAttempts > 0 && reconnectAttempts >= maxAttempts));
        (stops ==> connection.None? && retries == [] && var c := old(connection).value;
          c.groupShutdown && c.trackedPlayers == {} && c.offlinePlayers == {}
          && c.sent == old(c.sent) && c.handshaken == old(c.handshaken) && c.refused == old(c.refused)
          && c.addTasks == old(c.addTasks))
        && (retried <==> old(connection).Some? && !stops)
      ensures retried ==> (connection == old(connection) && unchanged(connection.value)
        && retries == old(retries) + [ReconnectDelay(interval, rate, reconnectAttempts, maxInterval)])
      ensures old(connection).None? ==> retries == old(retries)
    {
      if connection.None? {
        return false;
      }
      if connection.value.refused || (maxAttempts > 0 && reconnectAttempts >= maxAttempts) {
        var _ := Shutdown();
        return false;
      }
      retries := retries + [ReconnectDelay(interval, rate, reconnectAttempts, maxInterval)];
      return true;
    }

    /** The scheduled reconnect fires: the attempt is counted, the connection shut down and a new one made. */
    method RunRetry() returns (r: Result<(), ClientError>)
      requires retries != []
      modifies this`retries, this`reconnectAttempts, this`connection, Current()
      ensures retries == if old(connection).Some? then [] else old(retries[1..])
      ensures r.Ok? && reconnectAttempts == old(reconnectAttempts) + 1
      ensures connection.Some? && fresh(connection.value) && connection.value.Initial()
      ensures old(connection).Some? ==> var c := old(connection).value;
        c.groupShutdown && c.trackedPlayers == {} && c.offlinePlayers == {}
        && c.sent == old(c.sent) && c.handshaken == old(c.handshaken) && c.refused == old(c.refused)
        && c.addTasks == old(c.addTasks)
    {
      retries := retries[1..];
      reconnectAttempts := reconnectAttempts + 1;
      var _ := Shutdown();
      r := Connect(true);
    }
  }
}
