/** The index of live Relay connections (registerPort and unregisterPort in internal/tun/runtime.go). */
module RelayRegistry {
  import opened Common

  type User = nat

  /** Go's string order: byte by byte, a proper prefix first. */
  predicate Less(a: string, b: string) {
    b != [] && (a == [] || a[0] < b[0] || (a[0] == b[0] && Less(a[1..], b[1..])))
  }

  lemma {:induction false} LessTotal(a: string, b: string)
    ensures a == b || Less(a, b) || Less(b, a)
    ensures !(Less(a, b) && Less(b, a)) && !Less(a, a)
    decreases |a|
  {
    if a != [] {
      LessTotal(a[1..], a[1..]);
      if b != [] {
        LessTotal(a[1..], b[1..]);
        assert a == [a[0]] + a[1..] && b == [b[0]] + b[1..];
      }
    }
  }

  lemma {:induction false} LessTransitive(a: string, b: string, c: string)
    requires Less(a, b) && Less(b, c)
    ensures Less(a, c)
    decreases |a|
  {
    if a != [] && a[0] == b[0] && b[0] == c[0] {
      LessTransitive(a[1..], b[1..], c[1..]);
    }
  }

  /** The first difference is at `k`, and decides for `a`. */
  predicate LessAt(a: string, b: string, k: nat) {
    k < |a| && k < |b| && a[..k] == b[..k] && a[k] < b[k]
  }

  lemma LessAtShifts(a: string, b: string, k: nat)
    requires a != [] && b != [] && a[0] == b[0]
    ensures LessAt(a, b, k + 1) <==> LessAt(a[1..], b[1..], k)
  {
    if k < |a[1..]| && k < |b[1..]| {
      assert a[..k + 1] == [a[0]] + a[1..][..k] && b[..k + 1] == [b[0]] + b[1..][..k];
      assert a[..k + 1][1..] == a[1..][..k] && b[..k + 1][1..] == b[1..][..k];
    }
  }

  /** The order told position by position: a proper prefix is less, else the first difference decides. */
  lemma {:induction false} LessByPosition(a: string, b: string)
    ensures Less(a, b) <==> (|a| < |b| && a <= b) || exists k: nat :: LessAt(a, b, k)
  {
    if a != [] && b != [] && a[0] == b[0] {
      LessByPosition(a[1..], b[1..]);
      assert a <= b <==> a[1..] <= b[1..];
      if k: nat :| LessAt(a[1..], b[1..], k) {
        LessAtShifts(a, b, k);
      }
      if k: nat :| LessAt(a, b, k) {
        LessAtShifts(a, b, k - 1);
      }
    } else if a != [] && b != [] && a[0] < b[0] {
      assert LessAt(a, b, 0);
    }
  }

  class PeerPort {
    const relayId: string
    var done: bool

    constructor (relayId: string)
      ensures this.relayId == relayId && !done
    {
      this.relayId, done := relayId, false;
    }

    method Close()
      modifies this
      ensures done
    {
      done := true;
    }
  }

  type Connections = map<string, PeerPort>
  type Relays = map<User, Connections>

  function Of(relays: Relays, user: User): Connections {
    if user in relays then relays[user] else map[]
  }

  function SetConnections(relays: Relays, user: User, connections: Connections): Relays {
    if connections == map[] then relays - {user} else relays[user := connections]
  }

  /** A relay ID that is in use refuses the newcomer. */
  function Registered(relays: Relays, user: User, p: PeerPort): Relays {
    if p.relayId in Of(relays, user) then relays
    else SetConnections(relays, user, Of(relays, user)[p.relayId := p])
  }

  /** Only the very connection that closed is removed. */
  function Unregistered(relays: Relays, user: User, p: PeerPort): Relays {
    if p.relayId in Of(relays, user) && Of(relays, user)[p.relayId] == p
    then SetConnections(relays, user, Of(relays, user) - {p.relayId}) else relays
  }

  /** `p` is the connection with the least relay ID. */
  ghost predicate Least(connections: Connections, p: PeerPort) {
    && p.relayId in connections && connections[p.relayId] == p
    && forall id :: id in connections ==> !Less(id, p.relayId)
  }

  ghost predicate RelaysOk(relays: Relays) {
    forall u :: u in relays ==> relays[u] != map[] && forall id :: id in relays[u] ==> relays[u][id].relayId == id
  }

  /** The outbound index holds, for exactly the users with a connection, the least one. */
  ghost predicate IndexOk(ports: map<User, PeerPort>, relays: Relays) {
    && ports.Keys == relays.Keys
    && forall u :: u in ports ==> Least(relays[u], ports[u])
  }

  /** The index is a function of the live connections, so no map iteration order can show. */
  lemma IndexUnique(a: map<User, PeerPort>, b: map<User, PeerPort>, relays: Relays)
    requires RelaysOk(relays) && IndexOk(a, relays) && IndexOk(b, relays)
    ensures a == b
  {
    forall u | u in a ensures a[u] == b[u] {
      LessTotal(a[u].relayId, b[u].relayId);
    }
  }

  /** Removing another connection leaves the least one least. */
  lemma LeastSurvives(connections: Connections, p: PeerPort, selected: PeerPort)
    requires forall id :: id in connections ==> connections[id].relayId == id
    requires Least(connections, selected) && selected != p
    requires p.relayId in connections && connections[p.relayId] == p
    ensures Least(connections - {p.relayId}, selected)
  {
  }

  /** What is left of a user's connections after one of them closed. */
  function Left(relays: Relays, user: User, p: PeerPort): Connections {
    var connections := Of(relays, user);
    if p.relayId in connections && connections[p.relayId] == p then connections - {p.relayId} else connections
  }

  lemma LeftOver(ports: map<User, PeerPort>, relays: Relays, user: User, p: PeerPort)
    requires RelaysOk(relays) && IndexOk(ports, relays)
    ensures SetConnections(relays, user, Left(relays, user, p)) == Unregistered(relays, user, p)
    ensures Of(Unregistered(relays, user, p), user) == Left(relays, user, p)
    ensures forall id :: id in Left(relays, user, p) ==> Left(relays, user, p)[id].relayId == id
    ensures user !in ports ==> Left(relays, user, p) == map[]
    ensures user in ports && ports[user] != p ==>
      Left(relays, user, p) != map[] && Least(Left(relays, user, p), ports[user])
  {
    hide Less;
    if user in ports && ports[user] != p && p.relayId in relays[user] && relays[user][p.relayId] == p {
      LeastSurvives(relays[user], p, ports[user]);
    }
  }

  /** A new connection is the least one exactly when it is less than the least one so far. */
  lemma NewLeast(connections: Connections, selected: PeerPort, p: PeerPort)
    requires Least(connections, selected) && p.relayId !in connections
    ensures Least(connections[p.relayId := p], if Less(p.relayId, selected.relayId) then p else selected)
  {
    LessTotal(p.relayId, p.relayId);
    LessTotal(p.relayId, selected.relayId);
    if Less(p.relayId, selected.relayId) {
      forall id | id in connections ensures !Less(id, p.relayId) {
        if Less(id, p.relayId) {
          LessTransitive(id, p.relayId, selected.relayId);
        }
      }
    }
  }

  /** Two indexes that differ at most at one user. */
  predicate SameBut(a: map<User, PeerPort>, b: map<User, PeerPort>, user: User) {
    && (forall u :: u in a && u != user ==> u in b && b[u] == a[u])
    && (forall u :: u in b && u != user ==> u in a)
  }

  lemma SameButOne(ports: map<User, PeerPort>, user: User, ports': map<User, PeerPort>)
    requires ports' == ports || (user in ports' && ports' == ports[user := ports'[user]])
    ensures SameBut(ports, ports', user)
  {
  }

  lemma LeastAdded(ports: map<User, PeerPort>, relays: Relays, user: User, p: PeerPort)
    requires RelaysOk(relays) && IndexOk(ports, relays) && p.relayId !in Of(relays, user)
    ensures Least(Of(relays, user)[p.relayId := p],
                  if user !in ports || Less(p.relayId, ports[user].relayId) then p else ports[user])
  {
    if user in ports {
      NewLeast(relays[user], ports[user], p);
    } else {
      LessTotal(p.relayId, p.relayId);
    }
  }

  /** Only the entry of the user whose connections changed has to be selected again. */
  lemma IndexSet(ports: map<User, PeerPort>, relays: Relays, user: User, now: Connections, ports': map<User, PeerPort>)
    requires RelaysOk(relays) && IndexOk(ports, relays) && SameBut(ports, ports', user)
    requires forall id :: id in now ==> now[id].relayId == id
    requires if now == map[] then user !in ports' else user in ports' && Least(now, ports'[user])
    ensures RelaysOk(SetConnections(relays, user, now)) && IndexOk(ports', SetConnections(relays, user, now))
  {
    hide Less, Least;
    var after := SetConnections(relays, user, now);
    SetOne(relays, user, now);
    hide SetConnections;
    forall u | u in ports' ensures u in after && Least(after[u], ports'[u]) {
      assert u != user ==> u in ports;
    }
    forall u | u in after ensures u in ports' {
      assert u != user ==> u in ports;
    }
  }

  lemma SetOne(relays: Relays, user: User, now: Connections)
    ensures var after := SetConnections(relays, user, now);
            && (user in after <==> now != map[]) && (user in after ==> after[user] == now)
            && forall u :: u != user ==> (u in after <==> u in relays) && (u in after ==> after[u] == relays[u])
  {
  }

  lemma IndexAdded(ports: map<User, PeerPort>, relays: Relays, user: User, p: PeerPort, ports': map<User, PeerPort>)
    requires RelaysOk(relays) && IndexOk(ports, relays) && p.relayId !in Of(relays, user)
    requires SameBut(ports, ports', user)
    requires user in ports' && Least(Of(relays, user)[p.relayId := p], ports'[user])
    ensures RelaysOk(Registered(relays, user, p)) && IndexOk(ports', Registered(relays, user, p))
  {
    hide Less, Least, IndexOk, SameBut, SetConnections;
    var now := Of(relays, user)[p.relayId := p];
    assert p.relayId in now;
    IndexSet(ports, relays, user, now, ports');
  }

  lemma IndexUpdated(ports: map<User, PeerPort>, relays: Relays, user: User, p: PeerPort, ports': map<User, PeerPort>)
    requires RelaysOk(relays) && IndexOk(ports, relays)
    requires SameBut(ports, ports', user)
    requires var left := Left(relays, user, p);
             if left == map[] then user !in ports' else user in ports' && Least(left, ports'[user])
    ensures RelaysOk(Unregistered(relays, user, p)) && IndexOk(ports', Unregistered(relays, user, p))
  {
    hide Less, Least, IndexOk, RelaysOk, SameBut, SetConnections, Unregistered, Left;
    LeftOver(ports, relays, user, p);
    IndexSet(ports, relays, user, Left(relays, user, p), ports');
  }

  class PortTable {
    var ports: map<User, PeerPort>
    var relayPorts: Relays

    ghost predicate Valid()
      reads this
    {
      RelaysOk(relayPorts) && IndexOk(ports, relayPorts)
    }

    constructor ()
      ensures Valid() && relayPorts == map[]
    {
      ports, relayPorts := map[], map[];
    }

    method RegisterPort(user: User, p: PeerPort) returns (accepted: bool)
      requires Valid()
      modifies this, p
      ensures Valid() && relayPorts == Registered(old(relayPorts), user, p)
      ensures accepted == (p.relayId !in Of(old(relayPorts), user))
      ensures !accepted ==> p.done && ports == old(ports)
      ensures accepted ==> p.done == old(p.done)
    {
      hide Less, Least;
      var connections: Connections := if user in relayPorts then relayPorts[user] else map[];
      if p.relayId in connections {
        p.Close();
        return false;
      }
      LeastAdded(ports, relayPorts, user, p);
      hide IndexOk, RelaysOk, SameBut;
      connections := connections[p.relayId := p];
      relayPorts := relayPorts[user := connections];
      if user !in ports || Less(p.relayId, ports[user].relayId) {
        ports := ports[user := p];
      }
      assert SameBut(old(ports), ports, user) by {
        SameButOne(old(ports), user, ports);
      }
      IndexAdded(old(ports), old(relayPorts), user, p, ports);
      return true;
    }

    /** The scan that replaces a closed outbound connection, in whatever order the map yields them. */
    method SelectLeast(connections: Connections) returns (selected: Option<PeerPort>)
      requires forall id :: id in connections ==> connections[id].relayId == id
      ensures selected.None? <==> connections == map[]
      ensures selected.Some? ==> Least(connections, selected.value)
    {
      selected := None;
      var todo := connections.Keys;
      while todo != {}
        invariant todo <= connections.Keys
        invariant selected.None? <==> todo == connections.Keys
        invariant selected.Some? ==>
          selected.value.relayId in connections && connections[selected.value.relayId] == selected.value
        invariant selected.Some? ==> forall id :: id in connections && id !in todo ==> !Less(id, selected.value.relayId)
        decreases todo
      {
        var id :| id in todo;
        todo := todo - {id};
        LessTotal(id, id);
        if selected.None? {
          selected := Some(connections[id]);
        } else {
          LessTotal(id, selected.value.relayId);
          if Less(id, selected.value.relayId) {
            forall other | other in connections && other !in todo ensures !Less(other, id) {
              if Less(other, id) {
                LessTransitive(other, id, selected.value.relayId);
              }
            }
            selected := Some(connections[id]);
          }
        }
      }
    }

    /** A closed outbound connection is replaced by the least of those left. */
    method Reselect(user: User, p: PeerPort, connections: Connections)
      requires forall id :: id in connections ==> connections[id].relayId == id
      modifies this`ports
      ensures SameBut(old(ports), ports, user)
      ensures user in old(ports) && old(ports)[user] == p ==>
        if connections == map[] then user !in ports else user in ports && Least(connections, ports[user])
      ensures !(user in old(ports) && old(ports)[user] == p) ==> ports == old(ports)
    {
      hide Less, Least;
      if user in ports && ports[user] == p {
        ports := ports - {user};
        var selected := SelectLeast(connections);
        if selected.Some? {
          ports := ports[user := selected.value];
        }
      }
    }

    method UnregisterPort(user: User, p: PeerPort)
      requires Valid()
      modifies this, p
      ensures Valid() && relayPorts == Unregistered(old(relayPorts), user, p)
      ensures p.done
    {
      hide Less, Least, IndexOk, RelaysOk, Unregistered, SameBut;
      LeftOver(ports, relayPorts, user, p);
      ghost var left := Left(relayPorts, user, p);
      var connections: Connections := if user in relayPorts then relayPorts[user] else map[];
      if p.relayId in connections && connections[p.relayId] == p {
        connections := connections - {p.relayId};
      }
      assert connections == left;
      hide Left;
      if connections == map[] {
        relayPorts := relayPorts - {user};
      } else {
        relayPorts := relayPorts[user := connections];
      }
      Reselect(user, p, connections);
      p.Close();
      IndexUpdated(old(ports), old(relayPorts), user, p, ports);
    }
  }

  // ---------------------------------------------------------------- histories

  datatype Op = Register(user: User, p: PeerPort) | Unregister(user: User, p: PeerPort)

  function RelaysAfter(history: seq<Op>): Relays {
    if history == [] then map[]
    else
      var before := RelaysAfter(history[..|history| - 1]);
      match history[|history| - 1]
      case Register(u, p) => Registered(before, u, p)
      case Unregister(u, p) => Unregistered(before, u, p)
  }

  /**
   * Which connections are live, told from the history alone: a registration counts unless
   * its relay ID was in use for that user then, and lasts until that connection closes.
   */
  ghost function LiveAfter(history: seq<Op>): set<(User, PeerPort)> {
    if history == [] then {}
    else
      var before := LiveAfter(history[..|history| - 1]);
      match history[|history| - 1]
      case Register(u, p) => if IdInUse(before, u, p.relayId) then before else before + {(u, p)}
      case Unregister(u, p) => before - {(u, p)}
  }

  ghost predicate IdInUse(live: set<(User, PeerPort)>, user: User, id: string) {
    exists e :: e in live && e.0 == user && e.1.relayId == id
  }

  ghost predicate Agrees(relays: Relays, live: set<(User, PeerPort)>) {
    && RelaysOk(relays)
    && (forall e :: e in live ==> e.1.relayId in Of(relays, e.0) && Of(relays, e.0)[e.1.relayId] == e.1)
    && (forall u, id :: u in relays && id in relays[u] ==> (u, relays[u][id]) in live)
  }

  lemma IdAgrees(relays: Relays, live: set<(User, PeerPort)>, u: User, id: string)
    requires Agrees(relays, live)
    ensures IdInUse(live, u, id) <==> id in Of(relays, u)
  {
    if id in Of(relays, u) {
      assert (u, relays[u][id]) in live;
    }
  }

  /** Only the newcomer's user gets another connection, and only under an ID not in use. */
  lemma RegisteredOf(relays: Relays, u: User, p: PeerPort, v: User)
    ensures Of(Registered(relays, u, p), v) ==
            if v == u && p.relayId !in Of(relays, u) then Of(relays, u)[p.relayId := p] else Of(relays, v)
    ensures v in Registered(relays, u, p) <==> v in relays || (v == u && p.relayId !in Of(relays, u))
  {
    assert p.relayId in Of(relays, u)[p.relayId := p];
  }

  lemma RegisterAgrees(relays: Relays, live: set<(User, PeerPort)>, u: User, p: PeerPort)
    requires Agrees(relays, live)
    ensures Agrees(Registered(relays, u, p), if IdInUse(live, u, p.relayId) then live else live + {(u, p)})
  {
    hide IdInUse, Registered;
    IdAgrees(relays, live, u, p.relayId);
    var after: Relays := Registered(relays, u, p);
    var next := if IdInUse(live, u, p.relayId) then live else live + {(u, p)};
    forall v | v in after
      ensures after[v] != map[]
      ensures forall id :: id in after[v] ==> after[v][id].relayId == id && (v, after[v][id]) in next
    {
      RegisteredOf(relays, u, p, v);
      if v == u && p.relayId !in Of(relays, u) {
        assert p.relayId in after[v];
      }
    }
    forall e | e in next ensures e.1.relayId in Of(after, e.0) && Of(after, e.0)[e.1.relayId] == e.1 {
      RegisteredOf(relays, u, p, e.0);
    }
  }

  lemma UnregisterAgrees(relays: Relays, live: set<(User, PeerPort)>, u: User, p: PeerPort)
    requires Agrees(relays, live)
    ensures Agrees(Unregistered(relays, u, p), live - {(u, p)})
  {
    if p.relayId in Of(relays, u) && Of(relays, u)[p.relayId] == p {
      var left := Of(relays, u) - {p.relayId};
      var after := Unregistered(relays, u, p);
      assert Of(after, u) == left;
      forall e | e in live - {(u, p)} ensures e.1.relayId in Of(after, e.0) && Of(after, e.0)[e.1.relayId] == e.1 {
        if e.0 == u {
          assert e.1.relayId != p.relayId;
        }
      }
    }
  }

  lemma {:induction false} HistoryAgrees(history: seq<Op>)
    ensures Agrees(RelaysAfter(history), LiveAfter(history))
  {
    if history != [] {
      var before := history[..|history| - 1];
      HistoryAgrees(before);
      match history[|history| - 1]
      case Register(u, p) => RegisterAgrees(RelaysAfter(before), LiveAfter(before), u, p);
      case Unregister(u, p) => UnregisterAgrees(RelaysAfter(before), LiveAfter(before), u, p);
    }
  }

  /**
   * The outbound port of a user is the live connection with the least relay ID, and is absent
   * exactly when no connection of the user is live.
   */
  ghost predicate OutboundOk(ports: map<User, PeerPort>, live: set<(User, PeerPort)>, user: User) {
    && (user !in ports <==> forall e :: e in live ==> e.0 != user)
    && (user in ports ==>
          && (user, ports[user]) in live
          && forall e :: e in live && e.0 == user ==> e.1 == ports[user] || Less(ports[user].relayId, e.1.relayId))
  }

  lemma OutboundIsLeastLive(history: seq<Op>, ports: map<User, PeerPort>, user: User)
    requires IndexOk(ports, RelaysAfter(history))
    ensures OutboundOk(ports, LiveAfter(history), user)
  {
    HistoryAgrees(history);
    var relays, live := RelaysAfter(history), LiveAfter(history);
    if user in ports {
      var p := ports[user];
      assert (user, relays[user][p.relayId]) in live;
      forall e | e in live && e.0 == user ensures e.1 == p || Less(p.relayId, e.1.relayId) {
        LessTotal(p.relayId, e.1.relayId);
      }
    }
  }

  /**
   * Whatever the interleaving of registrations, closes, repeated and stale closes, a table that goes
   * through it selects the least live connection of every user.
   */
  method Play(history: seq<Op>) returns (table: PortTable)
    modifies set op | op in history :: op.p
    ensures fresh(table) && table.Valid() && table.relayPorts == RelaysAfter(history)
    ensures forall user :: OutboundOk(table.ports, LiveAfter(history), user)
  {
    hide RelaysOk, IndexOk, Registered, Unregistered, OutboundOk;
    table := new PortTable();
    for i := 0 to |history|
      invariant fresh(table) && table.Valid() && table.relayPorts == RelaysAfter(history[..i])
    {
      assert history[..i + 1][..i] == history[..i];
      match history[i] {
        case Register(user, p) => var accepted := table.RegisterPort(user, p);
        case Unregister(user, p) => table.UnregisterPort(user, p);
      }
    }
    assert history[..|history|] == history;
    forall user ensures OutboundOk(table.ports, LiveAfter(history), user) {
      OutboundIsLeastLive(history, table.ports, user);
    }
  }

  /** A close of a connection that is not the registered one removes nothing. */
  lemma StaleCloseKeeps(history: seq<Op>, user: User, p: PeerPort)
    requires (user, p) !in LiveAfter(history)
    ensures RelaysAfter(history + [Unregister(user, p)]) == RelaysAfter(history)
    ensures LiveAfter(history + [Unregister(user, p)]) == LiveAfter(history)
  {
    HistoryAgrees(history);
    assert (history + [Unregister(user, p)])[..|history|] == history;
    if p.relayId in Of(RelaysAfter(history), user) {
      assert (user, RelaysAfter(history)[user][p.relayId]) in LiveAfter(history);
    }
  }
}
