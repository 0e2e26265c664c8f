/** A signalling peer: its roles, its priority-ordered connections with outbound
    failover, its inbound request replies, and its close cascade. */
module Peers {
  import opened Messages

  // ---------------------------------------------------------------- roles

  /** A user role; roles are told apart by their id only. */
  datatype Role = Role(id: int)

  /** The id of the baseline role `userRoles.NORMAL`. Its numeric value is defined
      outside this model; nothing below depends on it. */
  const NormalRoleId: int

  const Normal: Role := Role(NormalRoleId)

  predicate HasRole(roles: seq<Role>, id: int)
  {
    exists k :: 0 <= k < |roles| && roles[k].id == id
  }

  predicate DistinctIds(roles: seq<Role>)
  {
    forall i, j :: 0 <= i < j < |roles| ==> roles[i].id != roles[j].id
  }

  /** The role list starts with the baseline role and never holds an id twice. */
  predicate RolesValid(roles: seq<Role>)
  {
    |roles| > 0 && roles[0] == Normal && DistinctIds(roles)
  }

  /** `roles.findIndex((r) => r.id === id)`. */
  function FindRole(roles: seq<Role>, id: int): (i: int)
    ensures -1 <= i < |roles|
    ensures i == -1 <==> !HasRole(roles, id)
    ensures i >= 0 ==> roles[i].id == id && forall k :: 0 <= k < i ==> roles[k].id != id
  {
    if |roles| == 0 then -1
    else if roles[0].id == id then 0
    else
      var j := FindRole(roles[1..], id);
      assert forall k :: 0 < k < |roles| ==> roles[..][k] == roles[1..][k - 1];
      if j == -1 then -1 else j + 1
  }

  /** The guard of `addRole`. */
  predicate CanAddRole(roles: seq<Role>, newRole: Role)
  {
    FindRole(roles, newRole.id) == -1 && newRole.id != NormalRoleId
  }

  /** The guard of `removeRole`. */
  predicate CanRemoveRole(roles: seq<Role>, oldRole: Role)
  {
    FindRole(roles, oldRole.id) != -1 && oldRole.id != NormalRoleId
  }

  /** The role list after `addRole(newRole)` on an open peer. */
  function AddedRole(roles: seq<Role>, newRole: Role): seq<Role>
  {
    if CanAddRole(roles, newRole) then roles + [newRole] else roles
  }

  /** The role list after `removeRole(oldRole)` on an open peer: `splice(index, 1)`. */
  function RemovedRole(roles: seq<Role>, oldRole: Role): seq<Role>
  {
    var i := FindRole(roles, oldRole.id);
    if i != -1 && oldRole.id != NormalRoleId then roles[..i] + roles[i + 1..] else roles
  }

  /** Adding a role keeps the baseline role first and the ids distinct; the role is
      present afterwards, and every role that was there still is, in the same place. */
  lemma AddRoleKeepsRolesValid(roles: seq<Role>, newRole: Role)
    requires RolesValid(roles)
    ensures RolesValid(AddedRole(roles, newRole))
    ensures HasRole(AddedRole(roles, newRole), newRole.id)
    ensures AddedRole(roles, newRole)[..|roles|] == roles
  {
    var r := AddedRole(roles, newRole);
    if CanAddRole(roles, newRole) {
      assert r[|roles|] == newRole;
      forall i, j | 0 <= i < j < |r| ensures r[i].id != r[j].id {
        if j == |roles| {
          assert r[i] == roles[i];
        } else {
          assert r[i] == roles[i] && r[j] == roles[j];
        }
      }
    } else if newRole.id == NormalRoleId {
      assert roles[0].id == newRole.id;
    } else {
      var k := FindRole(roles, newRole.id);
      assert roles[k].id == newRole.id;
    }
  }

  /** Removing a role never removes the baseline role, keeps the ids distinct,
      leaves no role with the removed id and keeps every other role. */
  lemma RemoveRoleKeepsRolesValid(roles: seq<Role>, oldRole: Role)
    requires RolesValid(roles)
    ensures RolesValid(RemovedRole(roles, oldRole))
    ensures oldRole.id != NormalRoleId ==> !HasRole(RemovedRole(roles, oldRole), oldRole.id)
    ensures forall x :: x in roles && x.id != oldRole.id ==> x in RemovedRole(roles, oldRole)
  {
    var i := FindRole(roles, oldRole.id);
    if i != -1 && oldRole.id != NormalRoleId {
      assert i != 0;
      var r := roles[..i] + roles[i + 1..];
      assert |r| == |roles| - 1;
      assert forall k :: 0 <= k < i ==> r[k] == roles[k];
      assert forall k :: i <= k < |r| ==> r[k] == roles[k + 1];
      assert r[0] == Normal;
      forall a, b | 0 <= a < b < |r| ensures r[a].id != r[b].id {
        var a' := if a < i then a else a + 1;
        var b' := if b < i then b else b + 1;
        assert r[a] == roles[a'] && r[b] == roles[b'];
      }
      forall k | 0 <= k < |r| ensures r[k].id != oldRole.id {
        var k' := if k < i then k else k + 1;
        assert r[k] == roles[k'] && k' != i;
      }
      forall x | x in roles && x.id != oldRole.id ensures x in r {
        var k :| 0 <= k < |roles| && roles[k] == x;
        assert k != i;
        if k < i { assert r[k] == x; } else { assert r[k - 1] == x; }
      }
    }
  }

  /** `addRole` changes the list exactly when its guard holds, so `gotRole` is
      emitted exactly for a real change; likewise `removeRole` and `lostRole`. */
  lemma RoleChangeIffGuard(roles: seq<Role>, role: Role)
    requires RolesValid(roles)
    ensures AddedRole(roles, role) != roles <==> !HasRole(roles, role.id) && role.id != NormalRoleId
    ensures RemovedRole(roles, role) != roles <==> HasRole(roles, role.id) && role.id != NormalRoleId
  {
    if CanRemoveRole(roles, role) {
      assert |RemovedRole(roles, role)| == |roles| - 1;
    }
    if CanAddRole(roles, role) {
      assert |AddedRole(roles, role)| == |roles| + 1;
    }
  }

  /** Adding a role twice is the same as adding it once. */
  lemma AddRoleIdempotent(roles: seq<Role>, newRole: Role)
    ensures AddedRole(AddedRole(roles, newRole), newRole) == AddedRole(roles, newRole)
  {
    if CanAddRole(roles, newRole) {
      var r := roles + [newRole];
      assert r[|roles|].id == newRole.id;
      assert HasRole(r, newRole.id);
    }
  }

  /** Removing a freshly added role gives back the original list. */
  lemma AddThenRemoveRole(roles: seq<Role>, newRole: Role)
    requires RolesValid(roles)
    requires !HasRole(roles, newRole.id) && newRole.id != NormalRoleId
    ensures RemovedRole(AddedRole(roles, newRole), newRole) == roles
  {
    var r := roles + [newRole];
    assert AddedRole(roles, newRole) == r;
    assert forall k :: 0 <= k < |roles| ==> r[k].id != newRole.id;
    var i := FindRole(r, newRole.id);
    assert r[|roles|].id == newRole.id;
    assert i == |roles|;
    assert r[..i] + r[i + 1..] == roles;
  }

  // ---------------------------------------------------------- connections

  /** A signalling connection, as far as the peer uses it: its id and priority. */
  datatype Connection = Connection(id: string, priority: int)

  predicate SortedByPriority(cs: seq<Connection>)
  {
    forall i, j :: 0 <= i < j < |cs| ==> cs[i].priority <= cs[j].priority
  }

  /** `connections.push(c)` followed by the (stable) sort on ascending priority,
      applied to a list that is already sorted: `c` goes after every connection
      whose priority is not greater than its own. */
  function InsertByPriority(cs: seq<Connection>, c: Connection): (r: seq<Connection>)
    ensures |r| == |cs| + 1
  {
    if cs == [] then [c]
    else if c.priority < cs[0].priority then [c] + cs
    else [cs[0]] + InsertByPriority(cs[1..], c)
  }

  /** Where `InsertByPriority` puts `c`: before the first connection whose
      priority is greater than `c`'s, at the end if there is none. */
  function InsertionPoint(cs: seq<Connection>, c: Connection): (k: nat)
    ensures k <= |cs|
    ensures forall i :: 0 <= i < k ==> cs[i].priority <= c.priority
    ensures k < |cs| ==> c.priority < cs[k].priority
  {
    if cs == [] then 0
    else if c.priority < cs[0].priority then 0
    else 1 + InsertionPoint(cs[1..], c)
  }

  /** Insertion keeps the old connections in their order and places `c` after
      every connection of equal or lower priority, as a stable sort of
      `cs + [c]` does. */
  lemma {:induction false} InsertByPriorityIsStable(cs: seq<Connection>, c: Connection)
    ensures InsertByPriority(cs, c) == cs[..InsertionPoint(cs, c)] + [c] + cs[InsertionPoint(cs, c)..]
  {
    if cs != [] && c.priority >= cs[0].priority {
      var tail := cs[1..];
      var k := InsertionPoint(tail, c);
      InsertByPriorityIsStable(tail, c);
      assert cs[..k + 1] == [cs[0]] + tail[..k];
      assert cs[k + 1..] == tail[k..];
    }
  }

  /** After an attach the list is a permutation of the old list plus the new
      connection. */
  lemma {:induction false} InsertByPriorityPermutes(cs: seq<Connection>, c: Connection)
    ensures multiset(InsertByPriority(cs, c)) == multiset(cs) + multiset{c}
  {
    if cs != [] && c.priority >= cs[0].priority {
      assert cs == [cs[0]] + cs[1..];
      InsertByPriorityPermutes(cs[1..], c);
    }
  }

  /** Every connection in the list after an insertion is `c` or was there before. */
  lemma {:induction false} InsertedMember(cs: seq<Connection>, c: Connection, j: int)
    requires 0 <= j < |InsertByPriority(cs, c)|
    ensures InsertByPriority(cs, c)[j] == c
         || exists i :: 0 <= i < |cs| && cs[i] == InsertByPriority(cs, c)[j]
  {
    if cs != [] && c.priority >= cs[0].priority && j > 0 {
      InsertedMember(cs[1..], c, j - 1);
      var x := InsertByPriority(cs, c)[j];
      assert x == InsertByPriority(cs[1..], c)[j - 1];
      if x != c {
        var i :| 0 <= i < |cs[1..]| && cs[1..][i] == x;
        assert cs[i + 1] == x;
      }
    }
  }

  /** After an attach on a sorted list the list is sorted again. */
  lemma {:induction false} InsertByPriorityKeepsSorted(cs: seq<Connection>, c: Connection)
    requires SortedByPriority(cs)
    ensures SortedByPriority(InsertByPriority(cs, c))
  {
    if cs != [] && c.priority >= cs[0].priority {
      var tail := cs[1..];
      assert SortedByPriority(tail);
      InsertByPriorityKeepsSorted(tail, c);
      var rest := InsertByPriority(tail, c);
      var r := [cs[0]] + rest;
      assert r == InsertByPriority(cs, c);
      forall j | 0 <= j < |rest| ensures cs[0].priority <= rest[j].priority {
        InsertedMember(tail, c, j);
        if rest[j] != c {
          var i :| 0 <= i < |tail| && tail[i] == rest[j];
          assert cs[i + 1] == tail[i];
        }
      }
      forall a, b | 0 <= a < b < |r| ensures r[a].priority <= r[b].priority {
        assert r[b] == rest[b - 1];
        if a > 0 { assert r[a] == rest[a - 1]; }
      }
    }
  }

  /** `connections.filter((c) => c.id !== id)`. */
  function Without(cs: seq<Connection>, id: string): (r: seq<Connection>)
    ensures forall x :: x in r <==> x in cs && x.id != id
    ensures |r| <= |cs|
    ensures SortedByPriority(cs) ==> SortedByPriority(r)
  {
    if cs == [] then []
    else
      var rest := Without(cs[1..], id);
      assert cs == [cs[0]] + cs[1..];
      if cs[0].id != id then [cs[0]] + rest else rest
  }

  /** The list becomes empty exactly when every connection in it had that id;
      filtering a second time changes nothing. */
  lemma {:induction false} WithoutEmptyIff(cs: seq<Connection>, id: string)
    ensures Without(cs, id) == [] <==> forall i :: 0 <= i < |cs| ==> cs[i].id == id
    ensures Without(Without(cs, id), id) == Without(cs, id)
  {
    if cs != [] {
      WithoutEmptyIff(cs[1..], id);
      assert forall i :: 1 <= i < |cs| ==> cs[i] == cs[1..][i - 1];
      if cs[0].id != id {
        assert Without(cs, id)[0] == cs[0];
      }
    }
  }

  /** The filter keeps order and multiplicity: filtering a concatenation is the
      concatenation of the filtered parts, a single connection being kept exactly
      when its id differs. */
  lemma {:induction false} WithoutKeepsOrder(a: seq<Connection>, b: seq<Connection>, id: string)
    ensures Without(a + b, id) == Without(a, id) + Without(b, id)
    ensures forall c :: Without([c], id) == if c.id != id then [c] else []
  {
    if a != [] {
      assert (a + b)[1..] == a[1..] + b;
      WithoutKeepsOrder(a[1..], b, id);
    } else {
      assert a + b == b;
    }
    forall c
      ensures Without([c], id) == if c.id != id then [c] else []
    {
      assert [c][1..] == [];
    }
  }

  /** The index of the first connection for which the attempt succeeds (`|cs|` if none). */
  function FirstAccepting(cs: seq<Connection>, succeeds: Connection -> bool): (k: nat)
    ensures k <= |cs|
    ensures forall j :: 0 <= j < k ==> !succeeds(cs[j])
    ensures k < |cs| ==> succeeds(cs[k])
  {
    if cs == [] then 0
    else if succeeds(cs[0]) then 0
    else 1 + FirstAccepting(cs[1..], succeeds)
  }

  /** The connections an outbound `notify`/`request` tries, in order: a prefix of
      the list that stops at the first success, or the whole list if all fail. */
  function Tried(cs: seq<Connection>, succeeds: Connection -> bool): (t: seq<Connection>)
    ensures |t| <= |cs| && t == cs[..|t|]
    ensures forall j :: 0 <= j < |t| - 1 ==> !succeeds(t[j])
    ensures |t| < |cs| ==> |t| > 0 && succeeds(t[|t| - 1])
    ensures (forall j :: 0 <= j < |cs| ==> !succeeds(cs[j])) ==> t == cs
    ensures (exists j :: 0 <= j < |cs| && succeeds(cs[j])) ==> |t| > 0 && succeeds(t[|t| - 1])
  {
    var k := FirstAccepting(cs, succeeds);
    if k < |cs| then cs[..k + 1] else cs
  }

  /** The outcome of one `connection.request`: it throws, or it resolves to a
      response, which may itself be `undefined` (None). */
  datatype Outcome = Failed | Resolved(response: Option<Data>)

  /** A request attempt succeeds when the connection's request does not throw. */
  function Resolves(outcome: Connection -> Outcome): Connection -> bool
  {
    c => outcome(c).Resolved?
  }

  /** What `request` resolves to: the response of the first connection whose
      request does not throw, whatever that response is, and `undefined` (None)
      when every connection throws. */
  function FirstReply(cs: seq<Connection>, outcome: Connection -> Outcome): (r: Option<Data>)
    ensures (forall j :: 0 <= j < |cs| ==> outcome(cs[j]).Failed?) ==> r.None?
    ensures (exists j :: 0 <= j < |cs| && outcome(cs[j]).Resolved?) ==>
              r == outcome(Tried(cs, Resolves(outcome))[|Tried(cs, Resolves(outcome))| - 1]).response
    ensures r.Some? <==> exists j :: 0 <= j < |cs| && outcome(cs[j]).Resolved? && outcome(cs[j]).response.Some?
                                     && forall i :: 0 <= i < j ==> outcome(cs[i]).Failed?
  {
    var k := FirstAccepting(cs, Resolves(outcome));
    assert forall j :: 0 <= j < |cs| ==> Resolves(outcome)(cs[j]) == outcome(cs[j]).Resolved?;
    if k < |cs| then outcome(cs[k]).response else None
  }

  // ---------------------------------------------------------- effects log

  datatype Delivery = AsNotification | AsRequest

  /** Outcome of running the peer's pipeline on an inbound request. */
  datatype PipelineRun = Finished(handled: bool, response: Data) | Threw

  datatype Reply = Respond(response: Data) | Reject(reason: string)

  datatype PeerEvent = GotRole(newRole: Role) | LostRole(oldRole: Role) | PeerClosed

  /** What the peer does that others observe, in order. */
  datatype Effect =
    | Sent(conn: string, delivery: Delivery, message: Message)  // connection.notify / connection.request
    | Replied(conn: string, reply: Reply)                         // respond / reject of an inbound request
    | ClosedConnection(conn: string)                              // connection.close()
    | Emitted(event: PeerEvent)                                   // this.emit(...)

  const ServerError: string := "Server error"

  /** The reply to an inbound request: `respond(context.response)` when the
      pipeline finished with `handled` set, `reject('Server error')` otherwise,
      including when the pipeline threw. */
  function ReplyTo(run: PipelineRun): (r: Reply)
    ensures r.Respond? <==> run.Finished? && run.handled
    ensures r.Respond? ==> r.response == run.response
    ensures r.Reject? ==> r.reason == ServerError
  {
    if run.Finished? && run.handled then Respond(run.response) else Reject(ServerError)
  }

  function TokenMessage(token: string): Message
  {
    Message("token", map["token" := FromString(token)])
  }

  function Attempts(cs: seq<Connection>, delivery: Delivery, msg: Message): seq<Effect>
  {
    seq(|cs|, i requires 0 <= i < |cs| => Sent(cs[i].id, delivery, msg))
  }

  function Closings(cs: seq<Connection>): seq<Effect>
  {
    seq(|cs|, i requires 0 <= i < |cs| => ClosedConnection(cs[i].id))
  }

  // ------------------------------------------------------------- objects

  /** A media router: the only part used here is its registry of peers. */
  class Router {
    const id: string
    var peers: map<string, Peer>

    constructor (id: string)
      ensures this.id == id && peers == map[]
    {
      this.id := id;
      peers := map[];
    }
  }

  /** A transport, producer or consumer owned by a peer, by id with a closed flag. */
  class MediaResource {
    const id: string
    var closed: bool

    constructor (id: string)
      ensures this.id == id && !closed
    {
      this.id := id;
      closed := false;
    }

    method Close()
      modifies this
      ensures closed
    {
      closed := true;
    }
  }

  /** `rs.forEach((r) => r.close())`. */
  method CloseAll(rs: set<MediaResource>)
    modifies rs
    ensures forall r :: r in rs ==> r.closed
  {
    var todo := rs;
    while todo != {}
      invariant todo <= rs
      invariant forall r :: r in rs - todo ==> r.closed
      decreases todo
    {
      var r :| r in todo;
      r.Close();
      todo := todo - {r};
    }
  }

  class Peer {
    const id: string
    const roomId: string
    const token: string
    var displayName: string
    var picture: Option<string>
    var closed: bool
    var roles: seq<Role>
    var connections: seq<Connection>
    var raisedHand: bool
    var raisedHandTimestamp: Option<int>
    var router: Router?
    var transports: map<string, MediaResource>
    var consumers: map<string, MediaResource>
    var producers: map<string, MediaResource>
    var log: seq<Effect>

    ghost predicate Valid()
      reads this
    {
      RolesValid(roles) && SortedByPriority(connections) && (closed ==> connections == [])
    }

    function Resources(): set<MediaResource>
      reads this
    {
      producers.Values + consumers.Values + transports.Values
    }

    /** `peerInfo`: the role ids in list order, the baseline role's first. */
    function Info(): (info: PeerInfo)
      reads this
      ensures info.id == id && info.displayName == displayName && info.picture == picture
      ensures info.raisedHand == raisedHand && info.raisedHandTimestamp == raisedHandTimestamp
      ensures |info.roles| == |roles| && forall i :: 0 <= i < |roles| ==> info.roles[i] == roles[i].id
      ensures RolesValid(roles) ==> info.roles[0] == NormalRoleId
    {
      PeerInfo(id, displayName, picture, seq(|roles|, i requires 0 <= i < |roles| reads this => roles[i].id),
               raisedHand, raisedHandTimestamp)
    }

    /** The token is given (its signing is not modelled); a connection, if any, is
        attached as by `addConnection`. */
    constructor (id: string, token: string, displayName: Option<string>, picture: Option<string>,
                 roomId: string, connection: Option<Connection>)
      ensures Valid() && !closed
      ensures this.id == id && this.token == token && this.roomId == roomId && this.picture == picture
      ensures this.displayName == (if displayName.Some? then displayName.value else "Guest")
      ensures roles == [Normal] && !raisedHand && raisedHandTimestamp.None? && router == null
      ensures transports == map[] && consumers == map[] && producers == map[]
      ensures connection.None? ==> connections == [] && log == []
      ensures connection.Some? ==> connections == [connection.value]
                                   && log == [Sent(connection.value.id, AsNotification, TokenMessage(token))]
    {
      this.id := id;
      this.token := token;
      this.roomId := roomId;
      this.displayName := if displayName.Some? then displayName.value else "Guest";
      this.picture := picture;
      closed := false;
      roles := [Normal];
      connections := [];
      raisedHand := false;
      raisedHandTimestamp := None;
      router := null;
      transports, consumers, producers := map[], map[], map[];
      log := [];
      new;
      if connection.Some? {
        AddConnection(connection.value);
      }
    }

    /** The `raisedHand` setter; the wall-clock time is a parameter. */
    method SetRaisedHand(value: bool, now: int)
      modifies this`raisedHand, this`raisedHandTimestamp
      ensures raisedHand == value && raisedHandTimestamp == Some(now)
    {
      raisedHand := value;
      raisedHandTimestamp := Some(now);
    }

    /** The `router` setter: ignores an absent router, otherwise remembers it and
        registers this peer in its `peers` under the peer's id. */
    method SetRouter(r: Router?)
      modifies this`router, r
      ensures r == null ==> router == old(router)
      ensures r != null ==> router == r && r.peers == old(r.peers)[id := this]
    {
      if r == null {
        return;
      }
      router := r;
      r.peers := r.peers[id := this];
    }

    method AddRole(newRole: Role)
      requires Valid()
      modifies this`roles, this`log
      ensures Valid()
      ensures old(closed) ==> roles == old(roles) && log == old(log)
      ensures !old(closed) ==> roles == AddedRole(old(roles), newRole)
      ensures !old(closed) ==> log == old(log) + (if CanAddRole(old(roles), newRole) then [Emitted(GotRole(newRole))] else [])
    {
      if closed {
        return;
      }
      AddRoleKeepsRolesValid(roles, newRole);
      var index := FindRole(roles, newRole.id);
      if index == -1 && newRole.id != NormalRoleId {
        roles := roles + [newRole];
        log := log + [Emitted(GotRole(newRole))];
      }
    }

    method RemoveRole(oldRole: Role)
      requires Valid()
      modifies this`roles, this`log
      ensures Valid()
      ensures old(closed) ==> roles == old(roles) && log == old(log)
      ensures !old(closed) ==> roles == RemovedRole(old(roles), oldRole)
      ensures !old(closed) ==> log == old(log) + (if CanRemoveRole(old(roles), oldRole) then [Emitted(LostRole(oldRole))] else [])
    {
      if closed {
        return;
      }
      RemoveRoleKeepsRolesValid(roles, oldRole);
      var index := FindRole(roles, oldRole.id);
      if index != -1 && oldRole.id != NormalRoleId {
        roles := roles[..index] + roles[index + 1..];
        log := log + [Emitted(LostRole(oldRole))];
      }
    }

    /** Attaches a connection: inserts it by priority and sends it the token once.
        Its inbound handlers are `OnRequest` and `OnConnectionClose`. */
    method AddConnection(c: Connection)
      requires Valid()
      modifies this`connections, this`log
      ensures Valid()
      ensures old(closed) ==> connections == old(connections) && log == old(log)
      ensures !old(closed) ==> connections == InsertByPriority(old(connections), c)
      ensures !old(closed) ==> log == old(log) + [Sent(c.id, AsNotification, TokenMessage(token))]
    {
      if closed {
        return;
      }
      InsertByPriorityKeepsSorted(connections, c);
      InsertByPriorityPermutes(connections, c);
      connections := InsertByPriority(connections, c);
      log := log + [Sent(c.id, AsNotification, TokenMessage(token))];
    }

    /** Outbound `notify`: tries the connections in order and stops at the first
        one whose `notify` does not throw. */
    method Notify(msg: Message, delivers: Connection -> bool)
      modifies this`log
      ensures old(closed) ==> log == old(log)
      ensures !old(closed) ==> log == old(log) + Attempts(Tried(connections, delivers), AsNotification, msg)
    {
      if closed {
        return;
      }
      var i := 0;
      while i < |connections|
        invariant 0 <= i <= |connections|
        invariant forall j :: 0 <= j < i ==> !delivers(connections[j])
        invariant log == old(log) + Attempts(connections[..i], AsNotification, msg)
      {
        var c := connections[i];
        log := log + [Sent(c.id, AsNotification, msg)];
        if delivers(c) {
          assert FirstAccepting(connections, delivers) == i;
          assert connections[..i + 1] == Tried(connections, delivers);
          return;
        }
        i := i + 1;
      }
      assert connections[..i] == connections;
    }

    /** Outbound `request`: the response of the first connection whose request
        does not throw, in order; `undefined` (None) when all throw or the peer
        is closed. */
    method Request(msg: Message, outcome: Connection -> Outcome) returns (reply: Option<Data>)
      modifies this`log
      ensures old(closed) ==> log == old(log) && reply.None?
      ensures !old(closed) ==> log == old(log) + Attempts(Tried(connections, Resolves(outcome)), AsRequest, msg)
      ensures !old(closed) ==> reply == FirstReply(connections, outcome)
    {
      if closed {
        return None;
      }
      var i := 0;
      while i < |connections|
        invariant 0 <= i <= |connections|
        invariant forall j :: 0 <= j < i ==> !Resolves(outcome)(connections[j])
        invariant log == old(log) + Attempts(connections[..i], AsRequest, msg)
      {
        var c := connections[i];
        log := log + [Sent(c.id, AsRequest, msg)];
        var o := outcome(c);
        if o.Resolved? {
          assert Resolves(outcome)(c);
          assert FirstAccepting(connections, Resolves(outcome)) == i;
          assert connections[..i + 1] == Tried(connections, Resolves(outcome));
          return o.response;
        }
        i := i + 1;
      }
      assert connections[..i] == connections;
      return None;
    }

    /** The handler of an inbound request on connection `conn`: exactly one reply. */
    method OnRequest(conn: string, run: PipelineRun)
      modifies this`log
      ensures log == old(log) + [Replied(conn, ReplyTo(run))]
    {
      if run.Finished? && run.handled {
        log := log + [Replied(conn, Respond(run.response))];
      } else {
        log := log + [Replied(conn, Reject(ServerError))];
      }
    }

    /** `close()`: marks the peer closed first, closes its connections and owned
        resources, deregisters it from its router, empties everything and emits
        `close`. A second call does nothing. */
    method Close()
      requires Valid()
      modifies this`closed, this`connections, this`producers, this`consumers, this`transports, this`log
      modifies router, Resources()
      ensures Valid() && closed
      ensures old(closed) ==> unchanged(this) && unchanged(Resources()) && (router != null ==> unchanged(router))
      ensures !old(closed) ==> connections == [] && producers == map[] && consumers == map[] && transports == map[]
      ensures !old(closed) ==> log == old(log) + Closings(old(connections)) + [Emitted(PeerClosed)]
      ensures !old(closed) && router != null ==> router.peers == old(router.peers) - {id}
      ensures !old(closed) ==> forall r :: r in old(Resources()) ==> r.closed
    {
      if closed {
        return;
      }
      closed := true;
      TearDown();
    }

    /** The cascade of `close()`, once `closed` is set. */
    method TearDown()
      requires RolesValid(roles) && closed
      modifies this`connections, this`producers, this`consumers, this`transports, this`log
      modifies router, Resources()
      ensures Valid()
      ensures connections == [] && producers == map[] && consumers == map[] && transports == map[]
      ensures log == old(log) + Closings(old(connections)) + [Emitted(PeerClosed)]
      ensures router != null ==> router.peers == old(router.peers) - {id}
      ensures forall r :: r in old(Resources()) ==> r.closed
    {
      CloseConnections();
      ReleaseResources();
      connections := [];
      log := log + [Emitted(PeerClosed)];
    }

    /** Closes the owned producers, consumers and transports, leaves the router
        and empties the maps. */
    method ReleaseResources()
      modifies this`producers, this`consumers, this`transports, router, Resources()
      ensures producers == map[] && consumers == map[] && transports == map[]
      ensures router != null ==> router.peers == old(router.peers) - {id}
      ensures forall r :: r in old(Resources()) ==> r.closed
    {
      var owned := Resources();
      CloseAll(owned);
      Deregister();
      producers, consumers, transports := map[], map[], map[];
    }

    /** Removes this peer's id from its router's `peers`, if it has a router. */
    method Deregister()
      modifies router
      ensures router != null ==> router.peers == old(router.peers) - {id}
    {
      if router != null {
        router.peers := router.peers - {id};
      }
    }

    /** `connections.forEach((c) => c.close())`. */
    method CloseConnections()
      modifies this`log
      ensures log == old(log) + Closings(connections)
    {
      var i := 0;
      while i < |connections|
        invariant 0 <= i <= |connections|
        invariant log == old(log) + Closings(connections[..i])
      {
        log := log + [ClosedConnection(connections[i].id)];
        i := i + 1;
      }
      assert connections[..i] == connections;
    }

    /** The `close` handler of connection `conn`: drops every entry with that id
        and closes the peer when none is left. */
    method OnConnectionClose(conn: string)
      requires Valid()
      modifies this`closed, this`connections, this`producers, this`consumers, this`transports, this`log
      modifies router, Resources()
      ensures Valid()
      ensures closed <==> old(closed) || Without(old(connections), conn) == []
      ensures !old(closed) && Without(old(connections), conn) != [] ==>
                connections == Without(old(connections), conn) && log == old(log)
      ensures !old(closed) && Without(old(connections), conn) == [] ==>
                connections == [] && producers == map[] && consumers == map[] && transports == map[]
                && log == old(log) + [Emitted(PeerClosed)]
                && (router != null ==> router.peers == old(router.peers) - {id})
                && (forall r :: r in old(Resources()) ==> r.closed)
      ensures old(closed) ==> connections == [] && log == old(log)
      ensures old(closed) ==> unchanged(this) && unchanged(Resources()) && (router != null ==> unchanged(router))
      ensures !old(closed) && Without(old(connections), conn) != [] ==>
                producers == old(producers) && consumers == old(consumers) && transports == old(transports)
                && unchanged(old(Resources())) && (router != null ==> unchanged(router))
    {
      connections := Without(connections, conn);
      if |connections| == 0 {
        Close();
      }
    }
  }

  /** A client of the specifications above: attaching priorities 2, 1, 3 orders
      the connections 1, 2, 3, and when the preferred one fails `notify` falls
      through to the next one and stops there. */
  method FailoverExample()
  {
    var p := new Peer("p", "t", None, None, "room", Some(Connection("c2", 2)));
    p.AddConnection(Connection("c1", 1));
    assert p.connections == [Connection("c1", 1), Connection("c2", 2)];
    p.AddConnection(Connection("c3", 3));
    assert [Connection("c1", 1), Connection("c2", 2)][1..] == [Connection("c2", 2)];
    assert InsertByPriority([Connection("c2", 2)], Connection("c3", 3)) == [Connection("c2", 2), Connection("c3", 3)];
    assert p.connections == [Connection("c1", 1), Connection("c2", 2), Connection("c3", 3)];

    var before := p.log;
    var msg := Message("x", map[]);
    var delivers := (c: Connection) => c.id != "c1";
    p.Notify(msg, delivers);
    assert FirstAccepting(p.connections, delivers) == 1;
    assert p.log == before + [Sent("c1", AsNotification, msg), Sent("c2", AsNotification, msg)];
  }

  /** Closing the only connection closes the peer and removes it from its router. */
  method LastConnectionExample()
  {
    var r := new Router("r");
    var p := new Peer("p", "t", None, None, "room", Some(Connection("c", 1)));
    p.SetRouter(r);
    assert "p" in r.peers;
    p.OnConnectionClose("c");
    assert p.closed && p.connections == [] && "p" !in r.peers;
  }

  datatype PeerInfo = PeerInfo(id: string, displayName: string, picture: Option<string>,
                               roles: seq<int>, raisedHand: bool, raisedHandTimestamp: Option<int>)
}
