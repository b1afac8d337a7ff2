/**
 * The newer AudioConnectClient: the WebSocket client that supplies player
 * audio data to the AudioConnect web service. The transport is reduced to
 * what the client observes of it: a channel per connection attempt with the
 * frames written to it, whether the close listener is still attached, and
 * whether a close was requested. What Netty decides (whether a channel is
 * active or writable, whether the transport connect succeeded, the HTTP
 * status of the upgrade response) arrives as parameters. Each callback is
 * one sequential step; the tasks the network thread hands to the main
 * server thread wait in a queue until the main thread runs them.
 */
module Client {
  import opened Wrappers
  import opened JavaInts
  import opened Messages
  import opened Scheduling
  import opened AudioLists

  /** The state of a connection's handshake future. */
  datatype Handshake = Pending | Succeeded | Failed

  /** A PlayerConnection: which ONLINE message made it, when, and whether the player is on this server. */
  datatype PlayerConnection = PlayerConnection(serial: nat, connectionTimestamp: int, online: bool)

  /** A Connection: its channel, its handshake future and the players connected to the web client. */
  datatype Connection = Connection(channel: nat, handshake: Handshake, players: map<Uuid, PlayerConnection>)

  /**
   * What the client sees of a channel: whether its close listener is still
   * attached, whether its handshaker completed, whether a close was
   * requested, and the frames written to it.
   */
  datatype Channel = Channel(listening: bool, handshaken: bool, closing: bool, sent: seq<OutFrame>)

  /** A PlayerAudioStatusEvent fired on the main thread. */
  datatype StatusEvent = StatusEvent(player: Uuid, status: Status)

  /** A task handed to the main server thread by a status message. */
  datatype MainTask =
    | HandleOnline(channel: nat, player: Uuid, serial: nat)
    | HandleOffline(player: Uuid)

  /** What an inbound object is: the upgrade response, a WebSocket frame, or anything else. */
  datatype Inbound =
    | Response(status: int, accepted: bool)
    | FrameIn(frame: InFrame)
    | RawIn

  /**
   * The exceptions the model keeps: connect after shutdown
   * (IllegalStateException), a dereference of the connection after it was
   * cleared (NullPointerException), and a non-response before the handshake
   * completed (ClassCastException).
   */
  datatype ClientError = IllegalState | NullConnection | ClassCast

  /** The reason text of the close frame sent on disconnect. */
  const GoingOffline: string := "Going offline"

  /** The scheduler runs every 20 ticks with up to 20 displaced buckets. */
  const SchedulerTicks: int := 20

  /** Math.pow over exact reals, for a whole exponent. */
  function Pow(rate: real, n: nat): (p: real)
    ensures rate >= 0.0 ==> p >= 0.0
    ensures rate >= 1.0 ==> p >= 1.0
  {
    if n == 0 then 1.0 else rate * Pow(rate, n - 1)
  }

  /** Pow does not decrease in the exponent when the base is at least 1. */
  lemma {:induction false} PowGrows(rate: real, a: nat, b: nat)
    requires rate >= 1.0 && a <= b
    ensures Pow(rate, a) <= Pow(rate, b)
  {
    if a < b {
      PowGrows(rate, a, b - 1);
      ScaleUp(rate, Pow(rate, b - 1));
    }
  }

  lemma ScaleUp(rate: real, p: real)
    requires rate >= 1.0 && p >= 0.0
    ensures rate * p >= p
  {
    assert rate * p - p == (rate - 1.0) * p;
  }

  /** A cast of a double to int: rounded toward zero, then saturated to the int range. */
  function DoubleToInt(x: real): (r: int)
    ensures IsInt32(r)
    ensures x >= 0.0 ==> 0 <= r && r as real <= x
    ensures x >= 0.0 && x < IntMax as real ==> x < r as real + 1.0
  {
    if x >= 0.0 then (if x.Floor > IntMax then IntMax else x.Floor)
    else
      var t := -((-x).Floor);
      if t < IntMin then IntMin else t
  }

  /** The cast keeps the order of its inputs. */
  lemma DoubleToIntMonotone(x: real, y: real)
    requires 0.0 <= x <= y
    ensures DoubleToInt(x) <= DoubleToInt(y)
  {
    assert x.Floor <= y.Floor;
  }

  /**
   * The reconnect delay of the close listener: interval * rate^attempts
   * milliseconds, cast to int and capped at the maximum interval.
   */
  function ReconnectDelay(interval: int, rate: real, attempts: nat, maxInterval: int): (delay: int)
    ensures delay <= maxInterval
    ensures IsInt32(maxInterval) ==> IsInt32(delay)
    ensures interval >= 0 && rate >= 0.0 && maxInterval >= 0 ==> delay >= 0
    ensures interval >= 0 && rate >= 0.0 ==>
      delay == maxInterval || (delay as real <= interval as real * Pow(rate, attempts))
  {
    var delay := DoubleToInt(interval as real * Pow(rate, attempts));
    if delay > maxInterval then maxInterval else delay
  }

  /** With a rate of at least 1 each failed attempt waits at least as long as the one before. */
  lemma ReconnectDelayGrows(interval: int, rate: real, a: nat, b: nat, maxInterval: int)
    requires interval >= 0 && rate >= 1.0 && a <= b
    ensures ReconnectDelay(interval, rate, a, maxInterval) <= ReconnectDelay(interval, rate, b, maxInterval)
  {
    PowGrows(rate, a, b);
    ScaleGrows(interval as real, Pow(rate, a), Pow(rate, b));
    DoubleToIntMonotone(interval as real * Pow(rate, a), interval as real * Pow(rate, b));
  }

  lemma ScaleGrows(k: real, x: real, y: real)
    requires k >= 0.0 && 0.0 <= x <= y
    ensures 0.0 <= k * x <= k * y
  {
    assert k * y - k * x == k * (y - x);
  }

  /** PayloadBuilder.tracks: one AudioTrackMessage per configured track, with its settings. */
  function TrackMessages(player: Uuid, tracks: seq<(string, TrackSettings)>): (msgs: seq<Message>)
    ensures |msgs| == |tracks|
    ensures forall i :: 0 <= i < |tracks| ==> msgs[i] == TrackMessage(player, tracks[i].0, tracks[i].1)
  {
    seq(|tracks|, i requires 0 <= i < |tracks| => TrackMessage(player, tracks[i].0, tracks[i].1))
  }

  /** A channel after one more frame was written to it. */
  function WithFrame(ch: Channel, frame: OutFrame): Channel
  {
    ch.(sent := ch.sent + [frame])
  }

  /** A channel after disconnect detached it: no close listener, and a 1001 close frame then a close when it was active. */
  function Detached(ch: Channel, active: bool): (d: Channel)
    ensures !d.listening && d.handshaken == ch.handshaken
    ensures active ==> d.closing && d.sent == ch.sent + [CloseFrame(GoingAway, GoingOffline)]
    ensures !active ==> d.closing == ch.closing && d.sent == ch.sent
  {
    if active then ch.(listening := false, closing := true, sent := ch.sent + [CloseFrame(GoingAway, GoingOffline)])
    else ch.(listening := false)
  }

  /**
   * The main thread marks online the PlayerConnection an ONLINE message
   * made; only while the connection still maps the player to that one
   * (same serial) is the change visible through the connection.
   */
  function OnlineMarked(conn: Option<Connection>, player: Uuid, serial: nat): (r: Option<Connection>)
    ensures r.Some? <==> conn.Some?
    ensures r.Some? ==>
      r.value.channel == conn.value.channel && r.value.handshake == conn.value.handshake
      && r.value.players.Keys == conn.value.players.Keys
      && (forall p :: p in conn.value.players && p != player ==> r.value.players[p] == conn.value.players[p])
    ensures conn.Some? && player in conn.value.players && conn.value.players[player].serial == serial ==>
      r.value.players[player] == conn.value.players[player].(online := true)
    ensures !(conn.Some? && player in conn.value.players && conn.value.players[player].serial == serial) ==> r == conn
  {
    if conn.Some? && player in conn.value.players && conn.value.players[player].serial == serial then
      var pc := conn.value.players[player];
      Some(conn.value.(players := conn.value.players[player := pc.(online := true)]))
    else conn
  }

  /**
   * What handling inbound messages can change: the connection, the
   * channels, the tasks for the main thread, the PlayerConnection counter
   * and the announced audio ids.
   */
  datatype ClientView = ClientView(connection: Option<Connection>, channels: seq<Channel>,
                                   mainTasks: seq<MainTask>, serials: nat, audioIds: set<string>)

  /**
   * handleMessage on channel c, as a function of the view: what each kind
   * of message does, and the NullPointerException of a status message
   * after the connection was cleared.
   */
  function Handled(s: ClientView, c: nat, m: Message, writable: bool, now: int): (Result<(), ClientError>, ClientView)
  {
    match m
    case AudioListMessage(action, ids) =>
      (Ok(()), s.(audioIds := if action == Add then s.audioIds + set id | id in ids else s.audioIds - set id | id in ids))
    case StatusMessage(player, status) =>
      if s.connection.None? then (Err(NullConnection), s)
      else if status == Online then
        (Ok(()), s.(connection := Some(s.connection.value.(players :=
                      s.connection.value.players[player := PlayerConnection(s.serials, now, false)])),
                    mainTasks := s.mainTasks + [HandleOnline(c, player, s.serials)],
                    serials := s.serials + 1))
      else
        (Ok(()), s.(connection := Some(s.connection.value.(players := s.connection.value.players - {player})),
                    mainTasks := s.mainTasks + [HandleOffline(player)]))
    case HeartbeatMessage =>
      (Ok(()), if writable && c < |s.channels| then s.(channels := s.channels[c := WithFrame(s.channels[c], TextFrame([HeartbeatMessage]))]) else s)
    case _ => (Ok(()), s)
  }

  /** The loop of handleFrame over a decoded text frame: each message in order, until one throws. */
  function HandledAll(s: ClientView, c: nat, messages: seq<Message>, writable: bool, now: int): (Result<(), ClientError>, ClientView)
  {
    if messages == [] then (Ok(()), s)
    else
      var before := HandledAll(s, c, messages[..|messages| - 1], writable, now);
      if before.0.Err? then before else Handled(before.1, c, messages[|messages| - 1], writable, now)
  }

  /** Once a message threw, the rest of the frame changes nothing. */
  lemma {:induction false} HandledAllStops(s: ClientView, c: nat, messages: seq<Message>, writable: bool, now: int, i: nat)
    requires i <= |messages| && HandledAll(s, c, messages[..i], writable, now).0.Err?
    ensures HandledAll(s, c, messages, writable, now) == HandledAll(s, c, messages[..i], writable, now)
    decreases |messages| - i
  {
    if i < |messages| {
      assert messages[..i + 1][..i] == messages[..i];
      HandledAllStops(s, c, messages, writable, now, i + 1);
    } else {
      assert messages[..i] == messages;
    }
  }

  /**
   * A frame throws exactly when it holds a status message and there is no
   * connection: no message clears the connection, so a frame that started
   * with one never throws.
   */
  lemma {:induction false} HandledAllFails(s: ClientView, c: nat, messages: seq<Message>, writable: bool, now: int)
    ensures HandledAll(s, c, messages, writable, now).0.Err? <==>
      s.connection.None? && exists i :: 0 <= i < |messages| && messages[i].StatusMessage?
    ensures HandledAll(s, c, messages, writable, now).0.Ok? ==>
      (HandledAll(s, c, messages, writable, now).1.connection.Some? <==> s.connection.Some?)
  {
    if messages != [] {
      var init := messages[..|messages| - 1];
      HandledAllFails(s, c, init, writable, now);
      if !(exists i :: 0 <= i < |init| && init[i].StatusMessage?) && messages[|messages| - 1].StatusMessage? {
        assert init[0..] == init;
      }
      forall i | 0 <= i < |init| ensures init[i] == messages[i] { }
    }
  }

  /** A frame without status messages leaves the connection, the main thread's queue and the counter alone. */
  lemma {:induction false} HandledAllQuiet(s: ClientView, c: nat, messages: seq<Message>, writable: bool, now: int)
    requires forall i :: 0 <= i < |messages| ==> !messages[i].StatusMessage?
    ensures var (r, t) := HandledAll(s, c, messages, writable, now);
      r.Ok? && t.connection == s.connection && t.mainTasks == s.mainTasks && t.serials == s.serials
  {
    if messages != [] {
      HandledAllQuiet(s, c, messages[..|messages| - 1], writable, now);
    }
  }

  /** A frame without audio list messages leaves the announced ids alone. */
  lemma {:induction false} HandledAllKeepsAudio(s: ClientView, c: nat, messages: seq<Message>, writable: bool, now: int)
    requires forall i :: 0 <= i < |messages| ==> !messages[i].AudioListMessage?
    ensures HandledAll(s, c, messages, writable, now).1.audioIds == s.audioIds
  {
    if messages != [] {
      HandledAllKeepsAudio(s, c, messages[..|messages| - 1], writable, now);
    }
  }

  /**
   * handleFrame as a function of the view: a ping is answered with a pong,
   * a close frame closes channel c, a decoded text frame has its messages
   * handled, and anything else changes nothing.
   */
  function FrameHandled(s: ClientView, c: nat, frame: InFrame, writable: bool, now: int): (Result<(), ClientError>, ClientView)
  {
    match frame
    case PingIn(payload) =>
      (Ok(()), if c < |s.channels| then s.(channels := s.channels[c := WithFrame(s.channels[c], PongFrame(payload))]) else s)
    case CloseIn =>
      (Ok(()), if c < |s.channels| then s.(channels := s.channels[c := s.channels[c].(closing := true)]) else s)
    case TextIn(decoded) =>
      if decoded.Some? then HandledAll(s, c, decoded.value, writable, now) else (Ok(()), s)
    case _ => (Ok(()), s)
  }

  class AudioConnectClient {
    const scheduler: PlayerScheduler
    const audioList: AudioList
    /** Whether the event loop group is shutting down. */
    var shuttingDown: bool
    /** Whether the player status listener was registered. */
    var registered: bool
    var connection: Option<Connection>
    var reconnectAttempts: nat
    /** Every channel a connect opened, by index. */
    var channels: seq<Channel>
    /** The delays of the reconnects scheduled on the event loop, in order. */
    var retries: seq<int>
    /** The tasks waiting for the main server thread, in order. */
    var mainTasks: seq<MainTask>
    /** The player status events fired, in order. */
    var events: seq<StatusEvent>
    /** How many PlayerConnections were made. */
    var serials: nat

    predicate Valid()
      reads this, scheduler
    {
      scheduler.Valid()
      && (connection.Some? ==> connection.value.channel < |channels|)
      // only the current connection's channel has the close listener attached
      && (forall i :: 0 <= i < |channels| && channels[i].listening ==> connection.Some? && connection.value.channel == i)
      && (forall t :: t in mainTasks && t.HandleOnline? ==> t.channel < |channels|)
    }

    /** isConnected: a connection whose handshake succeeded. */
    predicate IsConnected()
      reads this
    {
      connection.Some? && connection.value.handshake == Succeeded
    }

    /** isPlayerConnected: the player is connected to the web client. */
    predicate IsPlayerConnected(player: Uuid)
      reads this
    {
      connection.Some? && player in connection.value.players
    }

    /** The part of the state that inbound messages change. */
    function View(): ClientView
      reads this, audioList
    {
      ClientView(connection, channels, mainTasks, serials, audioList.audioIds)
    }

    /** Whether some bucket of the scheduler holds the player. */
    predicate Scheduled(player: Uuid)
      reads scheduler
    {
      exists j :: 0 <= j < |scheduler.buckets| && player in scheduler.buckets[j]
    }

    constructor (audioList: AudioList)
      ensures Valid() && fresh(scheduler) && this.audioList == audioList
      ensures !shuttingDown && !registered && connection.None? && reconnectAttempts == 0
      ensures channels == [] && retries == [] && mainTasks == [] && events == []
    {
      scheduler := new PlayerScheduler(SchedulerTicks, SchedulerTicks);
      this.audioList := audioList;
      shuttingDown, registered, connection, reconnectAttempts := false, false, None, 0;
      channels, retries, mainTasks, events, serials := [], [], [], [], 0;
    }

    /** scheduler.addPlayer, after which some bucket holds the player. */
    method Schedule(player: Uuid)
      requires Valid()
      modifies scheduler
      ensures Valid() && Scheduled(player)
      ensures forall q :: q != player ==> (Scheduled(q) <==> old(Scheduled(q)))
    {
      ghost var before := scheduler.buckets;
      var added := scheduler.AddPlayer(player);
      if added {
        ghost var l := Lightest(before);
        assert player in scheduler.buckets[l];
      } else {
        ghost var j :| 0 <= j < scheduler.maximumTasks && player in before[j];
        assert player in scheduler.buckets[j];
      }
      forall q | q != player
        ensures Scheduled(q) <==> old(Scheduled(q))
      {
        if old(Scheduled(q)) {
          var j :| 0 <= j < |before| && q in before[j];
          assert q in scheduler.buckets[j];
        }
        if Scheduled(q) {
          var j :| 0 <= j < |scheduler.buckets| && q in scheduler.buckets[j];
          assert q in before[j];
        }
      }
    }

    /** scheduler.removePlayer, after which no bucket holds the player; true when one did. */
    method Unschedule(player: Uuid) returns (removed: bool)
      requires Valid()
      modifies scheduler
      ensures Valid() && !Scheduled(player)
      ensures removed <==> old(Scheduled(player))
      ensures forall q :: q != player ==> (Scheduled(q) <==> old(Scheduled(q)))
    {
      removed := scheduler.RemovePlayer(player);
    }

    /** Write one frame to channel c. */
    method Send(c: nat, frame: OutFrame)
      requires c < |channels|
      modifies this`channels
      ensures channels == old(channels)[c := WithFrame(old(channels[c]), frame)]
    {
      channels := channels[c := WithFrame(channels[c], frame)];
    }

    /**
     * The public connect: registers the player status listener, then
     * connects as the user asked (not as a retry).
     */
    method Connect() returns (r: Result<bool, ClientError>)
      requires Valid()
      modifies this`registered, this`connection, this`reconnectAttempts, this`channels
      ensures Valid() && registered
      ensures r.Err? <==> shuttingDown
      ensures r == Ok(true) <==> !shuttingDown && old(connection).None?
      ensures r == Ok(true) ==>
        connection == Some(Connection(|old(channels)|, Pending, map[]))
        && channels == old(channels) + [Channel(true, false, false, [])]
        && reconnectAttempts == 0
      ensures r != Ok(true) ==>
        connection == old(connection) && channels == old(channels) && reconnectAttempts == old(reconnectAttempts)
    {
      registered := true;
      r := ConnectWith(false);
    }

    /**
     * connect(reconnect): IllegalStateException once shutting down; nothing
     * while a connection exists; otherwise a new channel with the close
     * listener attached and a pending handshake, after the attempt counter
     * was reset (user connect) or incremented (retry). The result says
     * whether a connection was made.
     */
    method ConnectWith(reconnect: bool) returns (r: Result<bool, ClientError>)
      requires Valid()
      modifies this`connection, this`reconnectAttempts, this`channels
      ensures Valid()
      ensures r.Err? <==> shuttingDown
      ensures r == Ok(true) <==> !shuttingDown && old(connection).None?
      ensures r == Ok(true) ==>
        connection == Some(Connection(|old(channels)|, Pending, map[]))
        && channels == old(channels) + [Channel(true, false, false, [])]
        && reconnectAttempts == (if reconnect then old(reconnectAttempts) + 1 else 0)
      ensures r != Ok(true) ==>
        connection == old(connection) && channels == old(channels) && reconnectAttempts == old(reconnectAttempts)
    {
      if shuttingDown {
        return Err(IllegalState);
      }
      if connection.Some? {
        return Ok(false);
      }
      if reconnect {
        reconnectAttempts := reconnectAttempts + 1;
      } else {
        reconnectAttempts := 0;
      }
      connection := Some(Connection(|channels|, Pending, map[]));
      channels := channels + [Channel(true, false, false, [])];
      return Ok(true);
    }

    /**
     * The listener on the transport connect of channel c: success resets
     * the attempt counter; failure fails the handshake of that connection
     * if it is still the current one.
     */
    method TransportConnected(c: nat, success: bool)
      requires Valid()
      modifies this`reconnectAttempts, this`connection
      ensures Valid()
      ensures success ==> reconnectAttempts == 0 && connection == old(connection)
      ensures !success ==> reconnectAttempts == old(reconnectAttempts)
      ensures !success && old(connection).Some? && old(connection).value.channel == c ==>
        connection == Some(old(connection).value.(handshake := Failed))
      ensures !success && !(old(connection).Some? && old(connection).value.channel == c) ==> connection == old(connection)
    {
      if success {
        reconnectAttempts := 0;
      } else if connection.Some? && connection.value.channel == c {
        connection := Some(connection.value.(handshake := Failed));
      }
    }

    /**
     * writeAndFlush: the messages go out as one text frame only when there
     * is a connection, its handshake succeeded and its channel is writable;
     * otherwise they are dropped.
     */
    method WriteAndFlush(messages: seq<Message>, writable: bool) returns (sent: bool)
      requires Valid()
      modifies this`channels
      ensures Valid()
      ensures sent <==> IsConnected() && writable
      ensures sent ==> var c := connection.value.channel;
        channels == old(channels)[c := WithFrame(old(channels[c]), TextFrame(messages))]
      ensures !sent ==> channels == old(channels)
    {
      if connection.Some? && connection.value.handshake == Succeeded && writable {
        Send(connection.value.channel, TextFrame(messages));
        return true;
      }
      return false;
    }

    /**
     * disconnect: the connection is detached; if there was one, the
     * scheduler is emptied, its channel loses the close listener (so no
     * reconnect follows) and, when active, is sent close code 1001 and
     * closed. `active` is whether Netty reports the channel active.
     */
    method Disconnect(active: bool) returns (had: bool)
      requires Valid()
      modifies this`connection, this`channels, scheduler
      ensures Valid() && connection.None?
      ensures had <==> old(connection).Some?
      ensures had ==> var c := old(connection).value.channel;
        channels == old(channels)[c := Detached(old(channels[c]), active)]
        && forall player :: !Scheduled(player)
      ensures !had ==> channels == old(channels) && unchanged(scheduler)
      ensures forall i :: 0 <= i < |channels| ==> !channels[i].listening
    {
      if connection.None? {
        return false;
      }
      var c := connection.value.channel;
      connection := None;
      scheduler.Clear();
      channels := channels[c := Detached(channels[c], active)];
      return true;
    }

    /**
     * shutdown: nothing once shutting down; otherwise disconnect, then the
     * event loop group shuts down, so every later connect fails.
     */
    method Shutdown(active: bool) returns (already: bool)
      requires Valid()
      modifies this`shuttingDown, this`connection, this`channels, scheduler
      ensures Valid() && shuttingDown
      ensures already <==> old(shuttingDown)
      ensures already ==> connection == old(connection) && channels == old(channels) && unchanged(scheduler)
      ensures !already ==> connection.None? && forall i :: 0 <= i < |channels| ==> !channels[i].listening
      ensures !already && old(connection).Some? ==> var c := old(connection).value.channel;
        channels == old(channels)[c := Detached(old(channels[c]), active)]
        && forall player :: !Scheduled(player)
      ensures !already && old(connection).None? ==> channels == old(channels) && unchanged(scheduler)
    {
      if shuttingDown {
        return true;
      }
      var _ := Disconnect(active);
      shuttingDown := true;
      return false;
    }

    /**
     * ConnectionCloseListener on channel c: it runs only while attached.
     * It disconnects, then stops when a positive maximum of attempts is
     * reached, and otherwise schedules a reconnect after ReconnectDelay.
     */
    method ChannelClosed(c: nat, maxAttempts: int, interval: int, rate: real, maxInterval: int)
      returns (retried: bool)
      requires Valid() && c < |channels|
      modifies this`connection, this`channels, this`retries, scheduler
      ensures Valid()
      ensures !old(channels[c].listening) ==>
        !retried && connection == old(connection) && channels == old(channels) && retries == old(retries) && unchanged(scheduler)
      ensures old(channels[c].listening) ==> connection.None? && (retried <==> !(maxAttempts > 0 && reconnectAttempts >= maxAttempts))
      ensures old(channels[c].listening) ==>
        channels == old(channels)[c := Detached(old(channels[c]), false)]
        && (forall player :: !Scheduled(player))
        && forall i :: 0 <= i < |channels| ==> !channels[i].listening
      ensures retried ==> retries == old(retries) + [ReconnectDelay(interval, rate, reconnectAttempts, maxInterval)]
      ensures !retried ==> retries == old(retries)
    {
      if !channels[c].listening {
        return false;
      }
      var _ := Disconnect(false);
      if maxAttempts > 0 && reconnectAttempts >= maxAttempts {
        return false;
      }
      retries := retries + [ReconnectDelay(interval, rate, reconnectAttempts, maxInterval)];
      return true;
    }

    /** The scheduled reconnect fires: connect(true). */
    method RunRetry() returns (r: Result<bool, ClientError>)
      requires Valid() && retries != []
      modifies this`retries, this`connection, this`reconnectAttempts, this`channels
      ensures Valid() && retries == old(retries[1..])
      ensures r.Err? <==> shuttingDown
      ensures r == Ok(true) <==> !shuttingDown && old(connection).None?
      ensures r == Ok(true) ==>
        connection == Some(Connection(|old(channels)|, Pending, map[]))
        && channels == old(channels) + [Channel(true, false, false, [])]
        && reconnectAttempts == old(reconnectAttempts) + 1
      ensures r != Ok(true) ==>
        connection == old(connection) && channels == old(channels) && reconnectAttempts == old(reconnectAttempts)
    {
      retries := retries[1..];
      r := ConnectWith(true);
    }

    /**
     * finishHandshake: an upgrade answered 101 (section 4.1 of RFC 6455)
     * that the handshaker accepts completes the handshake. Anything else
     * fails it and disconnects, so no channel keeps a close listener and
     * no reconnect follows. Without a connection, reading its handshake
     * future throws, but only after an accepted 101 has already completed
     * the channel's handshake.
     */
    method FinishHandshake(c: nat, status: int, accepted: bool, active: bool) returns (r: Result<bool, ClientError>)
      requires Valid() && c < |channels|
      modifies this`connection, this`channels, scheduler
      ensures Valid()
      ensures old(connection).None? <==> r.Err?
      ensures old(connection).None? ==>
        r == Err(NullConnection) && connection == old(connection) && unchanged(scheduler)
        && channels == if status == SwitchingProtocols && accepted
                       then old(channels)[c := old(channels[c]).(handshaken := true)]
                       else old(channels)
      ensures r == Ok(true) <==> old(connection).Some? && status == SwitchingProtocols && accepted
      ensures r == Ok(true) ==>
        IsConnected() && connection == Some(old(connection).value.(handshake := Succeeded))
        && channels == old(channels)[c := old(channels[c]).(handshaken := true)]
        && unchanged(scheduler)
      ensures r == Ok(false) ==> connection.None? && forall i :: 0 <= i < |channels| ==> !channels[i].listening
      ensures r == Ok(false) ==> var d := old(connection).value.channel;
        channels == old(channels)[d := Detached(old(channels[d]), active)]
        && forall player :: !Scheduled(player)
    {
      if status == SwitchingProtocols && accepted {
        // the handshaker completes the channel's handshake before the future is touched
        channels := channels[c := channels[c].(handshaken := true)];
        if connection.None? {
          return Err(NullConnection);
        }
        connection := Some(connection.value.(handshake := Succeeded));
        return Ok(true);
      }
      if connection.None? {
        return Err(NullConnection);
      }
      connection := Some(connection.value.(handshake := Failed));
      var _ := Disconnect(active);
      return Ok(false);
    }

    /**
     * exceptionCaught: fails a pending handshake and closes the channel, so
     * the close listener reconnects.
     */
    method ExceptionCaught(c: nat) returns (r: Result<(), ClientError>)
      requires Valid() && c < |channels|
      modifies this`connection, this`channels
      ensures Valid()
      ensures r.Err? <==> old(connection).None?
      ensures r.Err? ==> connection == old(connection) && channels == old(channels)
      ensures r.Ok? ==> channels == old(channels)[c := old(channels[c]).(closing := true)]
      ensures r.Ok? ==> connection == Some(
        if old(connection).value.handshake == Pending then old(connection).value.(handshake := Failed) else old(connection).value)
    {
      if connection.None? {
        return Err(NullConnection);
      }
      if connection.value.handshake == Pending {
        connection := Some(connection.value.(handshake := Failed));
      }
      channels := channels[c := channels[c].(closing := true)];
      return Ok(());
    }

    /**
     * handleMessage: an audio list update adds or removes ids; ONLINE
     * records a new PlayerConnection and OFFLINE drops it, each handing a
     * task to the main thread; a heartbeat is echoed when the channel is
     * writable; anything else is only logged.
     */
    method HandleMessage(c: nat, message: Message, writable: bool, now: int) returns (r: Result<(), ClientError>)
      requires Valid() && c < |channels|
      modifies this`connection, this`channels, this`mainTasks, this`serials, audioList
      ensures Valid()
      ensures r.Err? <==> message.StatusMessage? && old(connection).None?
      ensures message.AudioListMessage? && message.action == Add ==>
        audioList.audioIds == old(audioList.audioIds) + set id | id in message.ids
      ensures message.AudioListMessage? && message.action == Remove ==>
        audioList.audioIds == old(audioList.audioIds) - set id | id in message.ids
      ensures !message.AudioListMessage? ==> unchanged(audioList)
      ensures r.Ok? && message.StatusMessage? && message.status == Online ==>
        connection == Some(old(connection).value.(players :=
          old(connection).value.players[message.player := PlayerConnection(old(serials), now, false)]))
        && mainTasks == old(mainTasks) + [HandleOnline(c, message.player, old(serials))]
      ensures r.Ok? && message.StatusMessage? && message.status == Offline ==>
        connection == Some(old(connection).value.(players := old(connection).value.players - {message.player}))
        && mainTasks == old(mainTasks) + [HandleOffline(message.player)]
      ensures !(r.Ok? && message.StatusMessage?) ==> connection == old(connection) && mainTasks == old(mainTasks)
      ensures message.HeartbeatMessage? && writable ==>
        channels == old(channels)[c := WithFrame(old(channels[c]), TextFrame([HeartbeatMessage]))]
      ensures !(message.HeartbeatMessage? && writable) ==> channels == old(channels)
      ensures (r, View()) == Handled(old(View()), c, message, writable, now)
    {
      match message {
        case AudioListMessage(action, ids) =>
          if action == Add {
            var _ := audioList.AddAll(ids);
          } else {
            var _ := audioList.RemoveAll(ids);
          }
        case StatusMessage(player, status) =>
          if connection.None? {
            return Err(NullConnection);
          }
          if status == Online {
            var pc := PlayerConnection(serials, now, false);
            connection := Some(connection.value.(players := connection.value.players[player := pc]));
            mainTasks := mainTasks + [HandleOnline(c, player, serials)];
            serials := serials + 1;
          } else {
            connection := Some(connection.value.(players := connection.value.players - {player}));
            mainTasks := mainTasks + [HandleOffline(player)];
          }
        case HeartbeatMessage =>
          if writable {
            Send(c, TextFrame([HeartbeatMessage]));
          }
        case _ =>
      }
      return Ok(());
    }

    /**
     * handleFrame: a ping is answered with a pong carrying the same payload
     * (section 5.5.3 of RFC 6455); a close frame closes the channel; a text
     * frame that does not decode is dropped, one that does has its messages
     * handled in order; anything else is only logged.
     */
    method HandleFrame(c: nat, frame: InFrame, writable: bool, now: int) returns (r: Result<(), ClientError>)
      requires Valid() && c < |channels|
      modifies this`connection, this`channels, this`mainTasks, this`serials, audioList
      ensures Valid()
      ensures frame.PingIn? ==> r.Ok? && channels == old(channels)[c := WithFrame(old(channels[c]), PongFrame(frame.payload))]
      ensures frame.CloseIn? ==> r.Ok? && channels == old(channels)[c := old(channels[c]).(closing := true)]
      ensures frame.PingIn? || frame.CloseIn? ==> connection == old(connection) && mainTasks == old(mainTasks) && unchanged(audioList)
      ensures frame.PongIn? || frame.OtherIn? || (frame.TextIn? && frame.decoded.None?) ==>
        r.Ok? && channels == old(channels) && connection == old(connection) && mainTasks == old(mainTasks) && unchanged(audioList)
      ensures (r, View()) == FrameHandled(old(View()), c, frame, writable, now)
    {
      match frame {
        case PingIn(payload) =>
          Send(c, PongFrame(payload));
        case CloseIn =>
          channels := channels[c := channels[c].(closing := true)];
        case TextIn(decoded) =>
          if decoded.Some? {
            r := HandleMessages(c, decoded.value, writable, now);
            return;
          }
        case _ =>
      }
      return Ok(());
    }

    /** The loop of handleFrame over a text frame's messages; an exception ends it. */
    method HandleMessages(c: nat, messages: seq<Message>, writable: bool, now: int) returns (r: Result<(), ClientError>)
      requires Valid() && c < |channels|
      modifies this`connection, this`channels, this`mainTasks, this`serials, audioList
      ensures Valid()
      ensures (r, View()) == HandledAll(old(View()), c, messages, writable, now)
      ensures r.Err? <==> old(connection).None? && exists i :: 0 <= i < |messages| && messages[i].StatusMessage?
    {
      var i := 0;
      while i < |messages|
        invariant 0 <= i <= |messages|
        invariant Valid() && c < |channels|
        invariant (Ok(()), View()) == HandledAll(old(View()), c, messages[..i], writable, now)
      {
        assert messages[..i + 1][..i] == messages[..i];
        r := HandleMessage(c, messages[i], writable, now);
        if r.Err? {
          HandledAllStops(old(View()), c, messages, writable, now, i + 1);
          HandledAllFails(old(View()), c, messages, writable, now);
          return;
        }
        i := i + 1;
      }
      assert messages[..i] == messages;
      HandledAllFails(old(View()), c, messages, writable, now);
      return Ok(());
    }

    /**
     * channelRead0: before the handshaker completes, the object must be the
     * upgrade response; after, a frame is handled and anything else is only
     * logged.
     */
    method ChannelRead(c: nat, msg: Inbound, writable: bool, active: bool, now: int) returns (r: Result<(), ClientError>)
      requires Valid() && c < |channels|
      modifies this`connection, this`channels, this`mainTasks, this`serials, audioList, scheduler
      ensures Valid()
      ensures !old(channels[c].handshaken) && !msg.Response? ==>
        r == Err(ClassCast) && connection == old(connection) && channels == old(channels) && unchanged(scheduler)
      ensures !old(channels[c].handshaken) ==>
        mainTasks == old(mainTasks) && serials == old(serials) && unchanged(audioList)
      ensures old(channels[c].handshaken) && !msg.FrameIn? ==>
        r.Ok? && channels == old(channels) && connection == old(connection) && mainTasks == old(mainTasks)
        && serials == old(serials) && unchanged(audioList) && unchanged(scheduler)
      ensures !old(channels[c].handshaken) && msg.Response? ==>
        (r.Err? <==> old(connection).None?)
        && (r.Err? ==>
              r == Err(NullConnection) && connection == old(connection) && unchanged(scheduler)
              && channels == if msg.status == SwitchingProtocols && msg.accepted
                             then old(channels)[c := old(channels[c]).(handshaken := true)]
                             else old(channels))
      ensures !old(channels[c].handshaken) && msg.Response? && r.Ok? ==>
        (IsConnected() <==> msg.status == SwitchingProtocols && msg.accepted)
      ensures !old(channels[c].handshaken) && msg.Response? && r.Ok? && msg.status == SwitchingProtocols && msg.accepted ==>
        connection == Some(old(connection).value.(handshake := Succeeded))
        && channels == old(channels)[c := old(channels[c]).(handshaken := true)]
        && unchanged(scheduler)
      ensures !old(channels[c].handshaken) && msg.Response? && r.Ok? && !(msg.status == SwitchingProtocols && msg.accepted) ==>
        var d := old(connection).value.channel;
        connection.None?
        && channels == old(channels)[d := Detached(old(channels[d]), active)]
        && forall player :: !Scheduled(player)
      ensures old(channels[c].handshaken) && msg.FrameIn? ==>
        (r, View()) == FrameHandled(old(View()), c, msg.frame, writable, now) && unchanged(scheduler)
    {
      if !channels[c].handshaken {
        if !msg.Response? {
          return Err(ClassCast);
        }
        var done := FinishHandshake(c, msg.status, msg.accepted, active);
        if done.Err? {
          return Err(done.error);
        }
        if !done.value {
          assert connection.None?;
        }
        return Ok(());
      }
      if msg.FrameIn? {
        r := HandleFrame(c, msg.frame, writable, now);
        return;
      }
      return Ok(());
    }

    /**
     * The main thread runs the oldest handed-over task. ONLINE: a player on
     * this server is marked online (on the PlayerConnection the message
     * made), scheduled, and sent ONLINE with the track settings and their
     * audio; a player not on this server is sent OFFLINE with the track
     * settings. OFFLINE: a scheduled player is unscheduled and an OFFLINE
     * event fired.
     */
    method RunMainTask(isOnline: bool, tracks: seq<(string, TrackSettings)>, audio: seq<Message>)
      requires Valid() && mainTasks != []
      modifies this`mainTasks, this`connection, this`channels, this`events, scheduler
      ensures Valid() && mainTasks == old(mainTasks[1..])
      ensures var t := old(mainTasks[0]);
        t.HandleOnline? && isOnline ==>
          connection == OnlineMarked(old(connection), t.player, t.serial)
          && Scheduled(t.player) && (forall q :: q != t.player ==> (Scheduled(q) <==> old(Scheduled(q))))
          && channels == old(channels)[t.channel := WithFrame(old(channels[t.channel]),
               TextFrame([StatusMessage(t.player, Online)] + TrackMessages(t.player, tracks) + audio))]
          && events == old(events) + [StatusEvent(t.player, Online)]
      ensures var t := old(mainTasks[0]);
        t.HandleOnline? && !isOnline ==>
          connection == old(connection) && unchanged(scheduler) && events == old(events)
          && channels == old(channels)[t.channel := WithFrame(old(channels[t.channel]),
               TextFrame([StatusMessage(t.player, Offline)] + TrackMessages(t.player, tracks)))]
      ensures var t := old(mainTasks[0]);
        t.HandleOffline? ==>
          connection == old(connection) && channels == old(channels) && !Scheduled(t.player)
          && (forall q :: q != t.player ==> (Scheduled(q) <==> old(Scheduled(q))))
          && events == old(events) + (if old(Scheduled(t.player)) then [StatusEvent(t.player, Offline)] else [])
    {
      var task := mainTasks[0];
      mainTasks := mainTasks[1..];
      match task {
        case HandleOnline(c, player, serial) =>
          RunOnline(c, player, serial, isOnline, tracks, audio);
        case HandleOffline(player) =>
          RunOffline(player);
      }
    }

    /** The main-thread half of an online handshake for one player. */
    method RunOnline(c: nat, player: Uuid, serial: nat, isOnline: bool, tracks: seq<(string, TrackSettings)>, audio: seq<Message>)
      requires Valid() && c < |channels|
      modifies this`connection, this`channels, this`events, scheduler
      ensures Valid()
      ensures isOnline ==>
          connection == OnlineMarked(old(connection), player, serial)
          && Scheduled(player) && (forall q :: q != player ==> (Scheduled(q) <==> old(Scheduled(q))))
          && channels == old(channels)[c := WithFrame(old(channels[c]),
               TextFrame([StatusMessage(player, Online)] + TrackMessages(player, tracks) + audio))]
          && events == old(events) + [StatusEvent(player, Online)]
      ensures !isOnline ==>
          connection == old(connection) && unchanged(scheduler) && events == old(events)
          && channels == old(channels)[c := WithFrame(old(channels[c]),
               TextFrame([StatusMessage(player, Offline)] + TrackMessages(player, tracks)))]
    {
      if isOnline {
        connection := OnlineMarked(connection, player, serial);
        Schedule(player);
        Send(c, TextFrame([StatusMessage(player, Online)] + TrackMessages(player, tracks) + audio));
        events := events + [StatusEvent(player, Online)];
      } else {
        Send(c, TextFrame([StatusMessage(player, Offline)] + TrackMessages(player, tracks)));
      }
    }

    /** The main-thread half of a player going offline: unscheduled, and an OFFLINE event if they were scheduled. */
    method RunOffline(player: Uuid)
      requires Valid()
      modifies this`events, scheduler
      ensures Valid() && !Scheduled(player)
      ensures forall q :: q != player ==> (Scheduled(q) <==> old(Scheduled(q)))
      ensures events == old(events) + (if old(Scheduled(player)) then [StatusEvent(player, Offline)] else [])
    {
      var removed := Unschedule(player);
      if removed {
        events := events + [StatusEvent(player, Offline)];
      }
    }

    /**
     * onPlayerJoin: only a known player who was not online becomes online,
     * is scheduled, has ONLINE and their audio written (gated as
     * writeAndFlush) and fires an ONLINE event.
     */
    method PlayerJoined(player: Uuid, audio: seq<Message>, writable: bool)
      requires Valid()
      modifies this`connection, this`channels, this`events, scheduler
      ensures Valid()
      ensures var joins := registered && old(connection).Some? && player in old(connection).value.players
        && !old(connection).value.players[player].online;
        (joins ==>
          connection == Some(old(connection).value.(players := old(connection).value.players[player :=
            old(connection).value.players[player].(online := true)]))
          && Scheduled(player) && (forall q :: q != player ==> (Scheduled(q) <==> old(Scheduled(q))))
          && events == old(events) + [StatusEvent(player, Online)]
          && (IsConnected() && writable ==> var c := connection.value.channel;
                channels == old(channels)[c := WithFrame(old(channels[c]), TextFrame([StatusMessage(player, Online)] + audio))])
          && (!(IsConnected() && writable) ==> channels == old(channels)))
        && (!joins ==> connection == old(connection) && channels == old(channels) && events == old(events) && unchanged(scheduler))
    {
      if registered && connection.Some? && player in connection.value.players && !connection.value.players[player].online {
        var pc := connection.value.players[player].(online := true);
        connection := Some(connection.value.(players := connection.value.players[player := pc]));
        Schedule(player);
        var _ := WriteAndFlush([StatusMessage(player, Online)] + audio, writable);
        events := events + [StatusEvent(player, Online)];
      }
    }

    /**
     * onPlayerQuit: only a known player who was online goes offline, is
     * unscheduled, has OFFLINE written (gated as writeAndFlush) and fires an
     * OFFLINE event.
     */
    method PlayerQuit(player: Uuid, writable: bool)
      requires Valid()
      modifies this`connection, this`channels, this`events, scheduler
      ensures Valid()
      ensures var quits := registered && old(connection).Some? && player in old(connection).value.players
        && old(connection).value.players[player].online;
        (quits ==>
          connection == Some(old(connection).value.(players := old(connection).value.players[player :=
            old(connection).value.players[player].(online := false)]))
          && !Scheduled(player) && (forall q :: q != player ==> (Scheduled(q) <==> old(Scheduled(q))))
          && events == old(events) + [StatusEvent(player, Offline)]
          && (IsConnected() && writable ==> var c := connection.value.channel;
                channels == old(channels)[c := WithFrame(old(channels[c]), TextFrame([StatusMessage(player, Offline)]))])
          && (!(IsConnected() && writable) ==> channels == old(channels)))
        && (!quits ==> connection == old(connection) && channels == old(channels) && events == old(events) && unchanged(scheduler))
    {
      if registered && connection.Some? && player in connection.value.players && connection.value.players[player].online {
        var pc := connection.value.players[player].(online := false);
        connection := Some(connection.value.(players := connection.value.players[player := pc]));
        var _ := Unschedule(player);
        var _ := WriteAndFlush([StatusMessage(player, Offline)], writable);
        events := events + [StatusEvent(player, Offline)];
      }
    }
  }
}
