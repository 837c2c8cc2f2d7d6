/** The battle client: a cache of at most one pushed battle snapshot, the
    three registered callbacks, and the socket through which intents are
    sent.

    Sending (`socket.emit`) is modelled as appending to the log `sent`;
    invoking a registered callback is modelled as appending to the log
    `invoked`; pushed socket events are inputs to `Receive`. Callbacks are
    named by an opaque `HandlerId`. The clock is the parameter `now` and each
    `Math.random()` draw is a real parameter in [0, 1). */
module BattleService {
  import opened Wrappers
  import Decimal
  import ProximityService

  datatype BattlePlayer = BattlePlayer(id: string, name: string, health: int, attack: int, defense: int, level: int)

  datatype Status = Waiting | Active | Finished

  datatype Action = Attack | Defend | Special

  /** A move; `damage` is optional and the client never fills it in. */
  datatype BattleMove = BattleMove(playerId: string, action: Action, targetId: Option<string>, damage: Option<int>, timestamp: int)

  datatype BattleState = BattleState(id: string, players: seq<BattlePlayer>, currentTurn: string, status: Status, winner: Option<string>, moves: seq<BattleMove>)

  /** The messages the client emits. */
  datatype Outbound =
    | InitiateBattle(targetDeviceId: string, player: BattlePlayer, timestamp: int)
    | AcceptBattle(battleId: string, accepting: BattlePlayer)
    | DeclineBattle(declined: string)
    | MakeMove(move: BattleMove)

  /** The socket events the client listens to. `SocketError` is only logged. */
  datatype Push =
    | BattleStarted(started: BattleState)
    | BattleUpdate(updated: BattleState)
    | BattleEnded(winner: string)
    | SocketError

  type HandlerId = nat

  datatype Callbacks = Callbacks(onBattleStart: Option<HandlerId>, onBattleUpdate: Option<HandlerId>, onBattleEnd: Option<HandlerId>)

  /** One call of a registered callback, with its argument. */
  datatype Invocation =
    | StartInvoked(startHandler: HandlerId, startBattle: BattleState)
    | UpdateInvoked(updateHandler: HandlerId, updateBattle: BattleState)
    | EndInvoked(endHandler: HandlerId, endWinner: string)

  /** The socket's connection; `sid` is the id the server gave it. */
  datatype Link = Offline | Online(sid: string)

  datatype Client = Client(link: Link, current: Option<BattleState>, callbacks: Callbacks, sent: seq<Outbound>, invoked: seq<Invocation>)

  /** The service as constructed: a socket that does not connect by itself,
      no battle, no callbacks. */
  function Initial(): (c: Client)
    ensures c.link == Offline && c.current == None
    ensures c.sent == [] && c.invoked == []
  {
    Client(Offline, None, Callbacks(None, None, None), [], [])
  }

  /** `socket.id || ''`. */
  function SocketId(c: Client): string
  {
    if c.link.Online? then c.link.sid else ""
  }

  /** `connect`: opens the socket when it is not connected; `sid` is the id
      the server assigns. Nothing else changes. */
  function Connect(c: Client, sid: string): (r: Client)
    ensures r.link.Online?
    ensures c.link.Online? ==> r == c
    ensures c.link == Offline ==> r.link == Online(sid)
    ensures r.current == c.current && r.callbacks == c.callbacks && r.sent == c.sent && r.invoked == c.invoked
  {
    if c.link == Offline then c.(link := Online(sid)) else c
  }

  /** `disconnect`: closes the socket when it is connected. Nothing else changes. */
  function Disconnect(c: Client): (r: Client)
    ensures r.link == Offline
    ensures c.link == Offline ==> r == c
    ensures r.current == c.current && r.callbacks == c.callbacks && r.sent == c.sent && r.invoked == c.invoked
  {
    if c.link.Online? then c.(link := Offline) else c
  }

  /** The callback call a push causes, if its callback is set. */
  function Notification(cb: Callbacks, p: Push): seq<Invocation>
  {
    match p
    case BattleStarted(b) => if cb.onBattleStart.Some? then [StartInvoked(cb.onBattleStart.value, b)] else []
    case BattleUpdate(b) => if cb.onBattleUpdate.Some? then [UpdateInvoked(cb.onBattleUpdate.value, b)] else []
    case BattleEnded(w) => if cb.onBattleEnd.Some? then [EndInvoked(cb.onBattleEnd.value, w)] else []
    case SocketError => []
  }

  /** The socket listeners. A `battle_started` or `battle_update` snapshot
      replaces the cache wholesale and is handed to the matching callback
      only; `battle_ended` hands the winner to `onBattleEnd` and leaves the
      cache alone; an error changes nothing. */
  function Receive(c: Client, p: Push): (r: Client)
    ensures r.link == c.link && r.callbacks == c.callbacks && r.sent == c.sent
    ensures p.BattleStarted? ==> r.current == Some(p.started)
    ensures p.BattleUpdate? ==> r.current == Some(p.updated)
    ensures p.BattleEnded? || p.SocketError? ==> r.current == c.current
    ensures |c.invoked| <= |r.invoked| <= |c.invoked| + 1 && r.invoked[..|c.invoked|] == c.invoked
    ensures p.BattleStarted? ==>
      (|r.invoked| > |c.invoked| <==> c.callbacks.onBattleStart.Some?) &&
      (c.callbacks.onBattleStart.Some? ==> r.invoked[|c.invoked|] == StartInvoked(c.callbacks.onBattleStart.value, p.started))
    ensures p.BattleUpdate? ==>
      (|r.invoked| > |c.invoked| <==> c.callbacks.onBattleUpdate.Some?) &&
      (c.callbacks.onBattleUpdate.Some? ==> r.invoked[|c.invoked|] == UpdateInvoked(c.callbacks.onBattleUpdate.value, p.updated))
    ensures p.BattleEnded? ==>
      (|r.invoked| > |c.invoked| <==> c.callbacks.onBattleEnd.Some?) &&
      (c.callbacks.onBattleEnd.Some? ==> r.invoked[|c.invoked|] == EndInvoked(c.callbacks.onBattleEnd.value, p.winner))
    ensures p.SocketError? ==> r == c
  {
    var invoked := c.invoked + Notification(c.callbacks, p);
    match p
    case BattleStarted(b) => c.(current := Some(b), invoked := invoked)
    case BattleUpdate(b) => c.(current := Some(b), invoked := invoked)
    case BattleEnded(_) => c.(invoked := invoked)
    case SocketError => c
  }

  /** `setBattleCallbacks`: all three handlers are replaced; one left out of
      the argument becomes unset. */
  function SetBattleCallbacks(c: Client, start: Option<HandlerId>, update: Option<HandlerId>, end: Option<HandlerId>): (r: Client)
    ensures r.callbacks.onBattleStart == start && r.callbacks.onBattleUpdate == update && r.callbacks.onBattleEnd == end
    ensures r.link == c.link && r.current == c.current && r.sent == c.sent && r.invoked == c.invoked
  {
    c.(callbacks := Callbacks(start, update, end))
  }

  /** `initiateBattle`: connects first when not connected (`sid` is the id the
      server then assigns), emits one `initiate_battle` for the target device
      and reports success. */
  function Initiate(c: Client, target: ProximityService.DeviceInfo, player: BattlePlayer, now: int, sid: string): (r: (Client, bool))
    ensures r.1
    ensures r.0.link.Online?
    ensures c.link.Online? ==> r.0.link == c.link
    ensures r.0.sent == c.sent + [InitiateBattle(target.id, player, now)]
    ensures r.0.current == c.current && r.0.callbacks == c.callbacks && r.0.invoked == c.invoked
  {
    var connected := if c.link.Online? then c else Connect(c, sid);
    (connected.(sent := connected.sent + [InitiateBattle(target.id, player, now)]), true)
  }

  /** `acceptBattle`: emits one `accept_battle`. */
  function Accept(c: Client, battleId: string, player: BattlePlayer): (r: Client)
    ensures r.sent == c.sent + [AcceptBattle(battleId, player)]
    ensures r.link == c.link && r.current == c.current && r.callbacks == c.callbacks && r.invoked == c.invoked
  {
    c.(sent := c.sent + [AcceptBattle(battleId, player)])
  }

  /** `declineBattle`: emits one `decline_battle`. */
  function Decline(c: Client, battleId: string): (r: Client)
    ensures r.sent == c.sent + [DeclineBattle(battleId)]
    ensures r.link == c.link && r.current == c.current && r.callbacks == c.callbacks && r.invoked == c.invoked
  {
    c.(sent := c.sent + [DeclineBattle(battleId)])
  }

  /** `makeMove`: refused (nothing sent) without a cached battle; otherwise
      one `make_move` from this socket with the given action and target and
      no damage. The client never computes an outcome. */
  function Move(c: Client, action: Action, targetId: Option<string>, now: int): (r: Client)
    ensures r.link == c.link && r.current == c.current && r.callbacks == c.callbacks && r.invoked == c.invoked
    ensures c.current == None ==> r.sent == c.sent
    ensures c.current.Some? ==> |r.sent| == |c.sent| + 1 && r.sent[..|c.sent|] == c.sent
    ensures c.current.Some? ==> r.sent[|c.sent|] == MakeMove(BattleMove(SocketId(c), action, targetId, None, now))
  {
    if c.current == None then c
    else c.(sent := c.sent + [MakeMove(BattleMove(SocketId(c), action, targetId, None, now))])
  }

  /** `cleanup`: disconnects and forgets the cached battle. */
  function Cleanup(c: Client): (r: Client)
    ensures r.current == None && r.link == Offline
    ensures r.callbacks == c.callbacks && r.sent == c.sent && r.invoked == c.invoked
  {
    Disconnect(c).(current := None)
  }

  /** `Math.floor(x * width) + offset` for a draw `x` of `Math.random()`. */
  function Scaled(x: real, width: nat, offset: int): (v: int)
    requires 0.0 <= x < 1.0 && width > 0
    ensures offset <= v < offset + width
  {
    assert 0.0 <= x * width as real < width as real;
    (x * width as real).Floor + offset
  }

  /** The draws of `Math.random()` a call of `generatePlayerStats` makes, and
      the random id text used when the socket has no id. */
  datatype Draws = Draws(randomId: string, name: real, health: real, attack: real, defense: real, level: real)

  predicate ValidDraws(d: Draws)
  {
    && 0.0 <= d.name < 1.0 && 0.0 <= d.health < 1.0 && 0.0 <= d.attack < 1.0
    && 0.0 <= d.defense < 1.0 && 0.0 <= d.level < 1.0
  }

  /** `generatePlayerStats`: the socket id (or a random id without one), a
      name `Player_<n>` with n in [0, 999], and stats in their ranges. */
  function GeneratePlayerStats(c: Client, d: Draws): (p: BattlePlayer)
    requires ValidDraws(d)
    ensures 50 <= p.health <= 99
    ensures 10 <= p.attack <= 29
    ensures 5 <= p.defense <= 19
    ensures 1 <= p.level <= 10
    ensures p.id == (if SocketId(c) != "" then SocketId(c) else d.randomId)
    ensures exists n: nat :: n < 1000 && p.name == "Player_" + Decimal.NatToString(n)
  {
    var n := Scaled(d.name, 1000, 0);
    BattlePlayer(
      if SocketId(c) != "" then SocketId(c) else d.randomId,
      "Player_" + Decimal.NatToString(n),
      Scaled(d.health, 50, 50),
      Scaled(d.attack, 20, 10),
      Scaled(d.defense, 15, 5),
      Scaled(d.level, 10, 1))
  }

  /** The client after handling the pushes in the order received. */
  function ReceiveAll(c: Client, ps: seq<Push>): Client
    decreases |ps|
  {
    if |ps| == 0 then c else ReceiveAll(Receive(c, ps[0]), ps[1..])
  }

  /** The snapshot the latest `battle_started` or `battle_update` carries, or
      `init` when the pushes carry none. */
  function LastSnapshot(init: Option<BattleState>, ps: seq<Push>): Option<BattleState>
    decreases |ps|
  {
    if |ps| == 0 then init
    else match ps[|ps| - 1]
      case BattleStarted(b) => Some(b)
      case BattleUpdate(b) => Some(b)
      case _ => LastSnapshot(init, ps[..|ps| - 1])
  }

  /** The callback calls the pushes cause, one per push with a set handler,
      in the order the pushes arrived. */
  function Notifications(cb: Callbacks, ps: seq<Push>): seq<Invocation>
    decreases |ps|
  {
    if |ps| == 0 then [] else Notifications(cb, ps[..|ps| - 1]) + Notification(cb, ps[|ps| - 1])
  }

  lemma {:induction false} ReceiveAllSnoc(c: Client, ps: seq<Push>, p: Push)
    ensures ReceiveAll(c, ps + [p]) == Receive(ReceiveAll(c, ps), p)
    decreases |ps|
  {
    if |ps| > 0 {
      assert (ps + [p])[1..] == ps[1..] + [p];
      ReceiveAllSnoc(Receive(c, ps[0]), ps[1..], p);
    }
  }

  /** Whatever pushes arrive, the cache holds the latest pushed snapshot. */
  lemma {:induction false} ReceiveAllCache(c: Client, ps: seq<Push>)
    ensures ReceiveAll(c, ps).current == LastSnapshot(c.current, ps)
    decreases |ps|
  {
    if |ps| > 0 {
      var front := ps[..|ps| - 1];
      assert ps == front + [ps[|ps| - 1]];
      ReceiveAllCache(c, front);
      ReceiveAllSnoc(c, front, ps[|ps| - 1]);
    }
  }

  /** Whatever pushes arrive, callbacks are called in arrival order, one call
      per push whose handler is set, without merging or reordering. */
  lemma {:induction false} ReceiveAllInvocations(c: Client, ps: seq<Push>)
    ensures ReceiveAll(c, ps).invoked == c.invoked + Notifications(c.callbacks, ps)
    decreases |ps|
  {
    if |ps| > 0 {
      var front := ps[..|ps| - 1];
      var p := ps[|ps| - 1];
      assert ps == front + [p];
      ReceiveAllInvocations(c, front);
      ReceiveAllSnoc(c, front, p);
      ReceiveAllKeeps(c, front);
      assert Receive(ReceiveAll(c, front), p).invoked == ReceiveAll(c, front).invoked + Notification(c.callbacks, p);
    }
  }

  /** Pushes never send anything, never touch the socket and never change
      the registered callbacks. */
  lemma {:induction false} ReceiveAllKeeps(c: Client, ps: seq<Push>)
    ensures ReceiveAll(c, ps).callbacks == c.callbacks
    ensures ReceiveAll(c, ps).sent == c.sent && ReceiveAll(c, ps).link == c.link
    decreases |ps|
  {
    if |ps| > 0 {
      ReceiveAllKeeps(Receive(c, ps[0]), ps[1..]);
    }
  }

  /** `battle_ended` does not clear the cache, so a move made after the end
      of a battle is still sent. */
  lemma MoveAfterEndIsSent(c: Client, b: BattleState, winner: string, action: Action, now: int)
    ensures var r := Move(Receive(Receive(c, BattleStarted(b)), BattleEnded(winner)), action, None, now);
      |r.sent| == |c.sent| + 1 && r.sent[|c.sent|].MakeMove?
  {
  }
}
