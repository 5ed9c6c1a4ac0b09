/** The client registry of the API server and the relay's tables of local apps (internal/api/server.go, handlers.go, internal/relay/manager.go). */
module Registry {
  import opened Common

  /**
    `clients` maps each open socket to its app; `appPeer` is the current app, empty if none;
    `refreshers` names the presence refresher of each local app; `running` holds the uncancelled
    refreshers with the app each announces; `next` numbers them.
   */
  datatype State = State(clients: map<nat, PeerId>, appPeer: PeerId, localApps: set<PeerId>,
                         refreshers: map<PeerId, nat>, running: map<nat, PeerId>, next: nat)

  predicate HasClientFor(s: State, app: PeerId) {
    exists c :: c in s.clients && s.clients[c] == app
  }

  function AddClient(s: State, c: nat, app: PeerId): State {
    s.(clients := s.clients[c := app], appPeer := app)
  }

  function RemoveClient(s: State, c: nat): State
    requires c in s.clients
  {
    var s' := s.(clients := s.clients - {c});
    if s.appPeer == s.clients[c] && !HasClientFor(s', s.clients[c]) then s'.(appPeer := []) else s'
  }

  /** Replaces the app's refresher, cancelling the old one. */
  function AppConnected(s: State, app: PeerId): State {
    s.(localApps := s.localApps + {app}, refreshers := s.refreshers[app := s.next],
       running := (if app in s.refreshers then s.running - {s.refreshers[app]} else s.running)[s.next := app],
       next := s.next + 1)
  }

  function AppDisconnected(s: State, app: PeerId): State {
    s.(localApps := s.localApps - {app}, refreshers := s.refreshers - {app},
       running := if app in s.refreshers then s.running - {s.refreshers[app]} else s.running)
  }

  function Connect(s: State, c: nat, app: PeerId): State {
    AppConnected(AddClient(s, c, app), app)
  }

  /** A socket closes; the app goes offline with its last one. */
  function Close(s: State, c: nat): State
    requires c in s.clients
  {
    var s' := RemoveClient(s, c);
    if HasClientFor(s', s.clients[c]) then s' else AppDisconnected(s', s.clients[c])
  }

  /** Each local app has exactly one running refresher, and the current app is open. */
  ghost predicate Refreshed(s: State) {
    && s.refreshers.Keys == s.localApps
    && (forall app :: app in s.refreshers ==> s.refreshers[app] in s.running && s.running[s.refreshers[app]] == app)
    && (forall k :: k in s.running ==> k < s.next && s.running[k] in s.refreshers && s.refreshers[s.running[k]] == k)
    && (s.appPeer == [] || HasClientFor(s, s.appPeer))
  }

  /** The local apps are those with an open socket. */
  ghost predicate Agree(s: State) {
    Refreshed(s) && forall app :: app in s.localApps <==> HasClientFor(s, app)
  }

  /** The same for every app but one, whose close handler is between its steps. */
  ghost predicate AgreeBut(s: State, app: PeerId) {
    Refreshed(s) && forall a :: a != app ==> (a in s.localApps <==> HasClientFor(s, a))
  }

  datatype Event = Opened(c: nat, app: PeerId) | Closed(c: nat)

  ghost predicate Runs(s: State, es: seq<Event>)
    decreases |es|
  {
    es != [] ==> (es[0].Opened? <==> es[0].c !in s.clients) && Runs(Step(s, es[0]), es[1..])
  }

  function Step(s: State, e: Event): State {
    match e
    case Opened(c, app) => Connect(s, c, app)
    case Closed(c) => if c in s.clients then Close(s, c) else s
  }

  ghost function Run(s: State, es: seq<Event>): State
    requires Runs(s, es)
    decreases |es|
  {
    if es == [] then s else Run(Step(s, es[0]), es[1..])
  }

  lemma ConnectClients(s: State, c: nat, app: PeerId)
    requires c !in s.clients
    ensures forall a :: HasClientFor(Connect(s, c, app), a) <==> a == app || HasClientFor(s, a)
  {
    var s' := Connect(s, c, app);
    assert s'.clients[c] == app;
    forall a | HasClientFor(s, a) ensures HasClientFor(s', a) {
      var k :| k in s.clients && s.clients[k] == a;
      assert s'.clients[k] == a;
    }
  }

  lemma RemoveClients(s: State, c: nat)
    requires c in s.clients
    ensures forall a :: a != s.clients[c] ==> (HasClientFor(RemoveClient(s, c), a) <==> HasClientFor(s, a))
  {
    var s' := RemoveClient(s, c);
    forall a | a != s.clients[c] && HasClientFor(s, a) ensures HasClientFor(s', a) {
      var k :| k in s.clients && s.clients[k] == a;
      assert k in s'.clients && s'.clients[k] == a;
    }
  }

  lemma ConnectRefreshed(s: State, c: nat, app: PeerId)
    requires Refreshed(s) && c !in s.clients
    ensures Refreshed(Connect(s, c, app))
  {
    ConnectClients(s, c, app);
  }

  lemma RemoveRefreshed(s: State, c: nat)
    requires Refreshed(s) && c in s.clients
    ensures Refreshed(RemoveClient(s, c))
  {
    RemoveClients(s, c);
    var s' := RemoveClient(s, c);
    assert forall a :: HasClientFor(s', a) <==> HasClientFor(s.(clients := s.clients - {c}), a);
  }

  lemma DisconnectRefreshed(s: State, app: PeerId)
    requires Refreshed(s)
    ensures Refreshed(AppDisconnected(s, app))
  {
    assert forall a :: HasClientFor(AppDisconnected(s, app), a) <==> HasClientFor(s, a);
  }

  lemma ConnectAgrees(s: State, c: nat, app: PeerId)
    requires Agree(s) && c !in s.clients
    ensures Agree(Connect(s, c, app))
  {
    ConnectRefreshed(s, c, app);
    ConnectClients(s, c, app);
  }

  lemma CloseAgrees(s: State, c: nat)
    requires Agree(s) && c in s.clients
    ensures Agree(Close(s, c))
  {
    RemoveAgreesBut(s, c);
    var s', app := RemoveClient(s, c), s.clients[c];
    if !HasClientFor(s', app) {
      LateDisconnect(s', app);
    } else {
      assert HasClientFor(s, app);
    }
  }

  /** A state the server starts in. */
  function Start(): State {
    State(map[], [], {}, map[], map[], 0)
  }

  lemma {:induction false} RunAgrees(s: State, es: seq<Event>)
    requires Agree(s) && Runs(s, es)
    ensures Agree(Run(s, es))
    decreases |es|
  {
    if es != [] {
      match es[0] {
        case Opened(c, app) => ConnectAgrees(s, c, app);
        case Closed(c) => CloseAgrees(s, c);
      }
      RunAgrees(Step(s, es[0]), es[1..]);
    }
  }

  /** Over every run of connects and closes from a fresh server the registry and the relay tables agree. */
  lemma {:induction false} TablesAgree(es: seq<Event>)
    requires Runs(Start(), es)
    ensures Agree(Run(Start(), es))
  {
    RunAgrees(Start(), es);
  }

  /** The app of the last socket opened in a run. */
  function LastOpened(es: seq<Event>): Option<PeerId> {
    if es == [] then None else if es[|es| - 1].Opened? then Some(es[|es| - 1].app) else LastOpened(es[..|es| - 1])
  }

  ghost function CurrentApp(s: State, es: seq<Event>): PeerId {
    if LastOpened(es).Some? && HasClientFor(s, LastOpened(es).value) then LastOpened(es).value else []
  }

  lemma {:induction false} RunLast(s: State, es: seq<Event>)
    requires Runs(s, es) && es != []
    ensures var m := |es| - 1;
      && Runs(s, es[..m]) && (es[m].Opened? <==> es[m].c !in Run(s, es[..m]).clients)
      && Run(s, es) == Step(Run(s, es[..m]), es[m])
    decreases |es|
  {
    var m := |es| - 1;
    if m > 0 {
      RunLast(Step(s, es[0]), es[1..]);
      assert es[1..][..m - 1] == es[..m][1..] && es[1..][m - 1] == es[m];
    }
  }

  lemma CloseCurrent(s: State, es: seq<Event>, c: nat)
    requires s.appPeer == CurrentApp(s, es) && c in s.clients
    ensures Close(s, c).appPeer == CurrentApp(Close(s, c), es)
  {
    RemoveClients(s, c);
    var s', last := RemoveClient(s, c), Close(s, c);
    assert HasClientFor(s, s.clients[c]);
    assert forall a :: HasClientFor(last, a) <==> HasClientFor(s', a);
    assert forall a :: HasClientFor(s', a) <==> HasClientFor(s.(clients := s.clients - {c}), a);
  }

  /** The current app is that of the last socket opened, while that app has a socket open, and otherwise none. */
  lemma {:induction false} CurrentIsLastOpened(es: seq<Event>)
    requires Runs(Start(), es)
    ensures Run(Start(), es).appPeer == CurrentApp(Run(Start(), es), es)
  {
    if es != [] {
      var m := |es| - 1;
      RunLast(Start(), es);
      CurrentIsLastOpened(es[..m]);
      var s := Run(Start(), es[..m]);
      match es[m]
      case Opened(c, app) => ConnectClients(s, c, app);
      case Closed(c) =>
        CloseCurrent(s, es[..m], c);
        assert CurrentApp(Close(s, c), es) == CurrentApp(Close(s, c), es[..m]);
    }
  }

  // ----- A close handler interrupted between its steps -----

  /** After its first step, removing the socket, all apps but its own agree. */
  lemma RemoveAgreesBut(s: State, c: nat)
    requires Agree(s) && c in s.clients
    ensures AgreeBut(RemoveClient(s, c), s.clients[c])
  {
    RemoveRefreshed(s, c);
    RemoveClients(s, c);
  }

  lemma CloseAgreesBut(s: State, c: nat, app: PeerId)
    requires AgreeBut(s, app) && c in s.clients
    ensures AgreeBut(Close(s, c), app)
  {
    RemoveRefreshed(s, c);
    RemoveClients(s, c);
    var s', a, last := RemoveClient(s, c), s.clients[c], Close(s, c);
    assert HasClientFor(s, a);
    if !HasClientFor(s', a) {
      DisconnectRefreshed(s', a);
    }
    assert forall a :: HasClientFor(last, a) <==> HasClientFor(s', a);
  }

  /** Other sockets may open and close meanwhile, for this app too. */
  lemma {:induction false} RunAgreesBut(s: State, es: seq<Event>, app: PeerId)
    requires AgreeBut(s, app) && Runs(s, es)
    ensures AgreeBut(Run(s, es), app)
    decreases |es|
  {
    if es != [] {
      match es[0] {
        case Opened(c, a) =>
          ConnectRefreshed(s, c, a);
          ConnectClients(s, c, a);
        case Closed(c) => CloseAgreesBut(s, c, app);
      }
      RunAgreesBut(Step(s, es[0]), es[1..], app);
    }
  }

  /** The disconnect at the end of the handler restores the agreement exactly when the app has no socket then. */
  lemma LateDisconnect(s: State, app: PeerId)
    requires AgreeBut(s, app)
    ensures Agree(AppDisconnected(s, app)) <==> !HasClientFor(s, app)
  {
    var s' := AppDisconnected(s, app);
    assert forall a :: HasClientFor(s', a) <==> HasClientFor(s, a);
    DisconnectRefreshed(s, app);
  }

  /**
    A socket closes, other sockets open and close in any order while its handler is between removing it
    and disconnecting the app: the disconnect leaves the tables in agreement exactly when no socket of
    the app is open at that point, whatever the sibling check saw before.
   */
  lemma {:induction false} InterruptedClose(s: State, c: nat, es: seq<Event>)
    requires Agree(s) && c in s.clients && Runs(RemoveClient(s, c), es)
    ensures var late := Run(RemoveClient(s, c), es);
      Agree(AppDisconnected(late, s.clients[c])) <==> !HasClientFor(late, s.clients[c])
  {
    RemoveAgreesBut(s, c);
    RunAgreesBut(RemoveClient(s, c), es, s.clients[c]);
    LateDisconnect(Run(RemoveClient(s, c), es), s.clients[c]);
  }

  /** So a socket opening while the app's last one is closing ends up open but not delivered to. */
  lemma RaceStrandsSocket(s: State, c: nat, c': nat)
    requires Agree(s) && c in s.clients && c' !in s.clients && !HasClientFor(RemoveClient(s, c), s.clients[c])
    ensures var app := s.clients[c];
      var raced := Connect(RemoveClient(s, c), c', app);
      && HasClientFor(AppDisconnected(raced, app), app) && app !in AppDisconnected(raced, app).localApps
      && !Agree(AppDisconnected(raced, app))
  {
    var app := s.clients[c];
    ConnectClients(RemoveClient(s, c), c', app);
    var late := AppDisconnected(Connect(RemoveClient(s, c), c', app), app);
    assert late.clients[c'] == app;
  }

  class ApiServer {
    var clients: map<nat, PeerId>
    var appPeer: PeerId
    var localApps: set<PeerId>
    var refreshers: map<PeerId, nat>
    var running: map<nat, PeerId>
    var next: nat
    const maxAppConnections: int

    function Abs(): State
      reads this
    {
      State(clients, appPeer, localApps, refreshers, running, next)
    }

    constructor (maxAppConnections: int)
      ensures Abs() == Start() && Agree(Abs())
      ensures this.maxAppConnections == maxAppConnections
    {
      clients, appPeer, localApps, refreshers, running, next := map[], [], {}, map[], map[], 0;
      this.maxAppConnections := maxAppConnections;
    }

    method HasClient(app: PeerId) returns (found: bool)
      ensures found <==> HasClientFor(Abs(), app)
    {
      var todo := clients.Keys;
      while todo != {}
        invariant todo <= clients.Keys
        invariant forall c :: c in clients && c !in todo ==> clients[c] != app
      {
        var c :| c in todo;
        if clients[c] == app {
          assert c in Abs().clients;
          return true;
        }
        todo := todo - {c};
      }
      return false;
    }

    method Remove(c: nat)
      requires c in clients
      modifies this`clients, this`appPeer
      ensures Abs() == RemoveClient(old(Abs()), c)
    {
      var app := clients[c];
      clients := clients - {c};
      if appPeer == app {
        var sibling := HasClient(app);
        assert HasClientFor(Abs(), app) <==> HasClientFor(old(Abs()).(clients := clients), app);
        appPeer := if sibling then app else [];
      }
    }

    method ConnectApp(app: PeerId)
      modifies this`localApps, this`refreshers, this`running, this`next
      ensures Abs() == AppConnected(old(Abs()), app)
    {
      if app in refreshers {
        running := running - {refreshers[app]};
      }
      localApps := localApps + {app};
      refreshers := refreshers[app := next];
      running := running[next := app];
      next := next + 1;
    }

    method DisconnectApp(app: PeerId)
      modifies this`localApps, this`refreshers, this`running
      ensures Abs() == AppDisconnected(old(Abs()), app)
    {
      localApps := localApps - {app};
      if app in refreshers {
        running := running - {refreshers[app]};
        refreshers := refreshers - {app};
      }
    }

    /** The connect half of handleWS. */
    method Open(c: nat, app: PeerId) returns (ok: bool)
      requires Agree(Abs()) && c !in clients
      modifies this
      ensures Agree(Abs())
      ensures ok <==> !(maxAppConnections > 0 && |old(clients)| >= maxAppConnections)
      ensures Abs() == if ok then Connect(old(Abs()), c, app) else old(Abs())
    {
      if maxAppConnections > 0 && |clients| >= maxAppConnections {
        return false;
      }
      ConnectAgrees(Abs(), c, app);
      clients := clients[c := app];
      appPeer := app;
      ConnectApp(app);
      return true;
    }

    /** The close half of handleWS. */
    method Shut(c: nat)
      requires Agree(Abs()) && c in clients
      modifies this
      ensures Agree(Abs())
      ensures Abs() == Close(old(Abs()), c)
    {
      CloseAgrees(Abs(), c);
      var app := clients[c];
      Remove(c);
      var sibling := HasClient(app);
      if !sibling {
        DisconnectApp(app);
      }
    }

    /** The sockets that get an event sent to `app`: all of that app's and no others. */
    method SendToApp(app: PeerId) returns (reached: set<nat>)
      ensures reached == set c | c in clients && clients[c] == app
    {
      reached := {};
      var todo := clients.Keys;
      while todo != {}
        invariant todo <= clients.Keys
        invariant reached == set c | c in clients && c !in todo && clients[c] == app
      {
        var c :| c in todo;
        if clients[c] == app {
          reached := reached + {c};
        }
        todo := todo - {c};
      }
    }
  }
}
