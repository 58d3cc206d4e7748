/** The relay process of socketServer.js: two last-known collections, the
    connected sockets, and what each socket has been sent. Every message the
    relay sends is an `update-action`, so an outbox is a sequence of
    `Message`s. The pure functions below are the specification; `Server`
    is the object that holds the state and is proved against them. */
module Relay {
  import opened Protocol

  type SocketId = string

  /** `inMemoryEmployees` and `inMemoryAttendanceRecords`. */
  datatype Caches<T> = Caches(employees: seq<T>, attendanceRecords: seq<T>)

  function CacheOf<T>(c: Caches<T>, kind: string): seq<T>
    requires IsKind(kind)
  {
    if kind == EmployeesKind then c.employees else c.attendanceRecords
  }

  /** Relay state: the caches and, per connected socket, the messages sent to
      it so far (the connected sockets are the outbox's keys). */
  datatype RelayState<T> = RelayState(caches: Caches<T>, outbox: map<SocketId, seq<Message<T>>>)

  /** Process start: both caches are empty arrays and nobody is connected. */
  function Init<T>(): (st: RelayState<T>)
    ensures st.caches.employees == [] && st.caches.attendanceRecords == []
    ensures st.outbox == map[]
  {
    RelayState(Caches([], []), map[])
  }

  datatype Event<T> =
    | Connect(socket: SocketId)
    | RequestData(socket: SocketId, role: string)
    | AdminAction(socket: SocketId, data: Message<T>)
    | Disconnect(socket: SocketId)

  /** socket.io delivers `connection` for a new socket and the other events
      only for a connected one. */
  predicate Enabled<T>(st: RelayState<T>, e: Event<T>)
  {
    if e.Connect? then e.socket !in st.outbox else e.socket in st.outbox
  }

  function OnConnect<T>(st: RelayState<T>, s: SocketId): (r: RelayState<T>)
    requires s !in st.outbox
    ensures r.caches == st.caches
    ensures r.outbox.Keys == st.outbox.Keys + {s} && r.outbox[s] == []
    ensures forall t :: t in st.outbox ==> r.outbox[t] == st.outbox[t]
  {
    st.(outbox := st.outbox[s := []])
  }

  /** The two messages a `request-data` from a client is answered with. */
  function Snapshot<T>(c: Caches<T>): (r: seq<Message<T>>)
    ensures |r| == 2 && r[0].kind != r[1].kind
    ensures forall k :: 0 <= k < |r| ==> IsKind(r[k].kind) && r[k].payload == CacheOf(c, r[k].kind)
  {
    [Message(EmployeesKind, c.employees), Message(AttendanceKind, c.attendanceRecords)]
  }

  /** `request-data`: a client is sent the employees cache and then the
      attendance cache, and nobody else is sent anything; any other role is
      ignored. No cache changes. */
  function OnRequestData<T>(st: RelayState<T>, s: SocketId, role: string): (r: RelayState<T>)
    requires s in st.outbox
    ensures r.caches == st.caches && r.outbox.Keys == st.outbox.Keys
    ensures forall t :: t in st.outbox && t != s ==> r.outbox[t] == st.outbox[t]
    ensures role == ClientRole ==>
      |r.outbox[s]| == |st.outbox[s]| + 2 && r.outbox[s][..|st.outbox[s]|] == st.outbox[s] &&
      r.outbox[s][|st.outbox[s]|] == Message(EmployeesKind, st.caches.employees) &&
      r.outbox[s][|st.outbox[s]| + 1] == Message(AttendanceKind, st.caches.attendanceRecords)
    ensures role != ClientRole ==> r == st
  {
    if role == ClientRole then st.(outbox := st.outbox[s := st.outbox[s] + Snapshot(st.caches)]) else st
  }

  /** `socket.broadcast.emit`: `m` is appended to every connected socket's
      outbox but the sender's, which is left as it was. */
  function Broadcast<T>(outbox: map<SocketId, seq<Message<T>>>, s: SocketId, m: Message<T>): (r: map<SocketId, seq<Message<T>>>)
    ensures r.Keys == outbox.Keys
    ensures s in outbox ==> r[s] == outbox[s]
    ensures forall t :: t in outbox && t != s ==> r[t] == outbox[t] + [m]
  {
    map t | t in outbox :: if t == s then outbox[t] else outbox[t] + [m]
  }

  /** `admin-action`: a message of a known kind replaces that cache alone and
      is re-sent, with the new cache as payload, to every connected socket but
      the sender; a message of any other kind changes nothing. */
  function OnAdminAction<T>(st: RelayState<T>, s: SocketId, data: Message<T>): (r: RelayState<T>)
    requires s in st.outbox
    ensures data.kind == EmployeesKind ==> r.caches == Caches(data.payload, st.caches.attendanceRecords)
    ensures data.kind == AttendanceKind ==> r.caches == Caches(st.caches.employees, data.payload)
    ensures !IsKind(data.kind) ==> r == st
    ensures r.outbox.Keys == st.outbox.Keys && r.outbox[s] == st.outbox[s]
    ensures IsKind(data.kind) ==>
      forall t :: t in st.outbox && t != s ==> r.outbox[t] == st.outbox[t] + [Message(data.kind, data.payload)]
  {
    if data.kind == EmployeesKind then
      var c := st.caches.(employees := data.payload);
      RelayState(c, Broadcast(st.outbox, s, Message(EmployeesKind, c.employees)))
    else if data.kind == AttendanceKind then
      var c := st.caches.(attendanceRecords := data.payload);
      RelayState(c, Broadcast(st.outbox, s, Message(AttendanceKind, c.attendanceRecords)))
    else
      st
  }

  /** `disconnect`: the socket leaves; the caches stay as they are. */
  function OnDisconnect<T>(st: RelayState<T>, s: SocketId): (r: RelayState<T>)
    requires s in st.outbox
    ensures r.caches == st.caches
    ensures r.outbox.Keys == st.outbox.Keys - {s}
    ensures forall t :: t in r.outbox ==> r.outbox[t] == st.outbox[t]
  {
    st.(outbox := st.outbox - {s})
  }

  /** One event handled to completion. Only `connection` and `disconnect`
      change who is connected. */
  function Step<T>(st: RelayState<T>, e: Event<T>): (r: RelayState<T>)
    requires Enabled(st, e)
    ensures e.Connect? ==> r.outbox.Keys == st.outbox.Keys + {e.socket}
    ensures e.Disconnect? ==> r.outbox.Keys == st.outbox.Keys - {e.socket}
    ensures e.RequestData? || e.AdminAction? ==> r.outbox.Keys == st.outbox.Keys
  {
    match e
    case Connect(s) => OnConnect(st, s)
    case RequestData(s, role) => OnRequestData(st, s, role)
    case AdminAction(s, data) => OnAdminAction(st, s, data)
    case Disconnect(s) => OnDisconnect(st, s)
  }

  /** The events can be delivered in this order, starting from `st`. */
  predicate Admissible<T>(st: RelayState<T>, es: seq<Event<T>>)
    decreases |es|, 0
  {
    |es| == 0 || (Admissible(st, es[..|es| - 1]) && Enabled(Run(st, es[..|es| - 1]), es[|es| - 1]))
  }

  /** The relay after handling `es` one at a time, each to completion. */
  function Run<T>(st: RelayState<T>, es: seq<Event<T>>): (r: RelayState<T>)
    requires Admissible(st, es)
    decreases |es|, 1
  {
    if |es| == 0 then st else Step(Run(st, es[..|es| - 1]), es[|es| - 1])
  }

  /** A socket that takes part in none of the events is connected at the end
      exactly when it was at the start. */
  lemma {:induction false} RunKeepsUninvolved<T>(st: RelayState<T>, es: seq<Event<T>>, t: SocketId)
    requires Admissible(st, es)
    requires forall j :: 0 <= j < |es| ==> es[j].socket != t
    ensures t in Run(st, es).outbox <==> t in st.outbox
    decreases |es|
  {
    if |es| > 0 {
      var init := es[..|es| - 1];
      assert forall j :: 0 <= j < |init| ==> init[j] == es[j];
      RunKeepsUninvolved(st, init, t);
      assert es[|es| - 1].socket != t;
    }
  }

  /** `e` is an `admin-action` that writes collection `kind`. */
  predicate Writes<T>(e: Event<T>, kind: string)
  {
    e.AdminAction? && e.data.kind == kind
  }

  /** One event changes cache `kind` exactly when it writes that kind. */
  lemma StepCache<T>(st: RelayState<T>, e: Event<T>, kind: string)
    requires IsKind(kind) && Enabled(st, e)
    ensures CacheOf(Step(st, e).caches, kind) == if Writes(e, kind) then e.data.payload else CacheOf(st.caches, kind)
  {
  }

  /** `es[i]` is the last `admin-action` in `es` that writes `kind`. */
  predicate LastWrite<T>(es: seq<Event<T>>, kind: string, i: int)
  {
    0 <= i < |es| && Writes(es[i], kind) && forall j :: i < j < |es| ==> !Writes(es[j], kind)
  }

  /** A cache no `admin-action` writes keeps its starting value. */
  lemma {:induction false} UnwrittenCacheKept<T>(st: RelayState<T>, es: seq<Event<T>>, kind: string)
    requires IsKind(kind) && Admissible(st, es)
    requires forall j :: 0 <= j < |es| ==> !Writes(es[j], kind)
    ensures CacheOf(Run(st, es).caches, kind) == CacheOf(st.caches, kind)
    decreases |es|
  {
    if |es| > 0 {
      var init := es[..|es| - 1];
      assert forall j :: 0 <= j < |init| ==> init[j] == es[j];
      UnwrittenCacheKept(st, init, kind);
      StepCache(Run(st, init), es[|es| - 1], kind);
    }
  }

  /** Last write wins: after any sequence of events, a cache holds the
      payload of the last `admin-action` of its kind. */
  lemma {:induction false} LastWriteWins<T>(st: RelayState<T>, es: seq<Event<T>>, kind: string, i: nat)
    requires IsKind(kind) && Admissible(st, es) && LastWrite(es, kind, i)
    ensures CacheOf(Run(st, es).caches, kind) == es[i].data.payload
    decreases |es|
  {
    var init := es[..|es| - 1];
    var last := es[|es| - 1];
    assert Admissible(st, init) && Run(st, es) == Step(Run(st, init), last);
    StepCache(Run(st, init), last, kind);
    if i < |es| - 1 {
      assert !Writes(last, kind);
      assert LastWrite(init, kind, i) by {
        assert init[i] == es[i];
        assert forall j :: i < j < |init| ==> init[j] == es[j];
      }
      LastWriteWins(st, init, kind, i);
    }
  }

  /** Re-sending an `admin-action` leaves every cache as the first copy left
      it, and every other socket's mirror of that collection as well. */
  lemma ResendIsHarmless<T>(st: RelayState<T>, s: SocketId, data: Message<T>, t: SocketId, mirror: seq<T>)
    requires s in st.outbox && t in st.outbox && IsKind(data.kind)
    ensures OnAdminAction(OnAdminAction(st, s, data), s, data).caches == OnAdminAction(st, s, data).caches
    ensures Follow(mirror, data.kind, OnAdminAction(OnAdminAction(st, s, data), s, data).outbox[t]) ==
            Follow(mirror, data.kind, OnAdminAction(st, s, data).outbox[t])
  {
    var once := OnAdminAction(st, s, data);
    var twice := OnAdminAction(once, s, data);
    if t != s {
      var m := Message(data.kind, data.payload);
      assert twice.outbox[t] == st.outbox[t] + [m, m];
      DuplicateIsHarmless(mirror, data.kind, st.outbox[t], m);
    }
  }

  /** A socket that connects and announces itself as a client is sent exactly
      the current caches, so it is in step with the relay whatever it held
      before. */
  lemma LateJoinerSynchronises<T>(st: RelayState<T>, t: SocketId, kind: string, mirror: seq<T>)
    requires t !in st.outbox && IsKind(kind)
    ensures Admissible(st, [Connect(t), RequestData(t, ClientRole)])
    ensures Run(st, [Connect(t), RequestData(t, ClientRole)]).outbox[t] == Snapshot(st.caches)
    ensures Run(st, [Connect(t), RequestData(t, ClientRole)]).caches == st.caches
    ensures Follow(mirror, kind, Snapshot(st.caches)) == CacheOf(st.caches, kind)
  {
    var es: seq<Event<T>> := [Connect(t), RequestData(t, ClientRole)];
    assert es[..1] == [Connect(t)] && es[..1][..0] == [];
    assert Admissible(st, es[..1]) && Run(st, es[..1]) == OnConnect(st, t);
    assert Admissible(st, es) && Run(st, es) == OnRequestData(OnConnect(st, t), t, ClientRole);
    var snap := Snapshot(st.caches);
    assert snap[..1][..0] == [] && snap[..1] == [snap[0]];
  }

  /** `t` sends no `admin-action` of its own and stays connected. */
  predicate Subscribed<T>(es: seq<Event<T>>, t: SocketId)
  {
    forall j :: 0 <= j < |es| ==> !(es[j].socket == t && (es[j].AdminAction? || es[j].Disconnect?))
  }

  /** What handling `e` sends to socket `t`. */
  function Delivered<T>(st: RelayState<T>, e: Event<T>, t: SocketId): seq<Message<T>>
  {
    match e
    case RequestData(s, role) => if s == t && role == ClientRole then Snapshot(st.caches) else []
    case AdminAction(s, data) => if s != t && IsKind(data.kind) then [Message(data.kind, data.payload)] else []
    case _ => []
  }

  lemma StepOutbox<T>(st: RelayState<T>, e: Event<T>, t: SocketId)
    requires Enabled(st, e) && t in st.outbox && !(e.socket == t && (e.AdminAction? || e.Disconnect?))
    ensures t in Step(st, e).outbox && Step(st, e).outbox[t] == st.outbox[t] + Delivered(st, e, t)
  {
  }

  /** A subscriber in step with the relay stays in step across one event. */
  lemma StepKeepsInStep<T>(st: RelayState<T>, e: Event<T>, t: SocketId, kind: string, x: seq<T>)
    requires Enabled(st, e) && IsKind(kind) && x == CacheOf(st.caches, kind)
    requires !(e.socket == t && e.AdminAction?)
    ensures Follow(x, kind, Delivered(st, e, t)) == CacheOf(Step(st, e).caches, kind)
  {
    var d := Delivered(st, e, t);
    StepCache(st, e, kind);
    if |d| == 2 {
      assert d[..1][..0] == [] && d[..1] == [d[0]];
    } else if |d| == 1 {
      assert d[..0] == [];
      assert Follow(x, kind, d) == Apply(x, kind, d[0]);
    }
  }

  /** A subscriber that starts in step with the relay and applies, in order,
      everything the relay sends it, stays in step: its mirror of each
      collection equals the relay's cache after every event. */
  lemma {:induction false} SubscriberTracksRelay<T>(st: RelayState<T>, es: seq<Event<T>>, t: SocketId, kind: string, mirror: seq<T>)
    requires IsKind(kind) && Admissible(st, es) && t in st.outbox && Subscribed(es, t)
    requires mirror == CacheOf(st.caches, kind)
    ensures t in Run(st, es).outbox
    ensures |st.outbox[t]| <= |Run(st, es).outbox[t]| && Run(st, es).outbox[t][..|st.outbox[t]|] == st.outbox[t]
    ensures Follow(mirror, kind, Run(st, es).outbox[t][|st.outbox[t]|..]) == CacheOf(Run(st, es).caches, kind)
    decreases |es|
  {
    if |es| > 0 {
      var init := es[..|es| - 1];
      assert forall j :: 0 <= j < |init| ==> init[j] == es[j];
      SubscriberTracksRelay(st, init, t, kind, mirror);
      TrackOneEvent(Run(st, init), es[|es| - 1], t, kind, mirror, st.outbox[t]);
    }
  }

  /** One more event keeps a subscriber's outbox extending what it held at
      the start, and the mirror built from the messages since then equal to
      the cache. */
  lemma TrackOneEvent<T>(st: RelayState<T>, e: Event<T>, t: SocketId, kind: string, mirror: seq<T>, start: seq<Message<T>>)
    requires IsKind(kind) && Enabled(st, e) && t in st.outbox
    requires !(e.socket == t && (e.AdminAction? || e.Disconnect?))
    requires |start| <= |st.outbox[t]| && st.outbox[t][..|start|] == start
    requires Follow(mirror, kind, st.outbox[t][|start|..]) == CacheOf(st.caches, kind)
    ensures t in Step(st, e).outbox
    ensures |start| <= |Step(st, e).outbox[t]| && Step(st, e).outbox[t][..|start|] == start
    ensures Follow(mirror, kind, Step(st, e).outbox[t][|start|..]) == CacheOf(Step(st, e).caches, kind)
  {
    var n := |start|;
    var earlier := st.outbox[t][n..];
    StepOutbox(st, e, t);
    var d := Delivered(st, e, t);
    var now := Step(st, e).outbox[t];
    assert now == st.outbox[t] + d;
    assert now[..n] == start;
    assert now[n..] == earlier + d;
    FollowConcat(mirror, kind, earlier, d);
    StepKeepsInStep(st, e, t, kind, Follow(mirror, kind, earlier));
  }

  /** The relay process. `connected` and `outbox` stand for socket.io's
      socket registry and the wire; the two caches are the module-level
      variables of socketServer.js. */
  class Server<T> {
    var employees: seq<T>
    var attendanceRecords: seq<T>
    var connected: set<SocketId>
    var outbox: map<SocketId, seq<Message<T>>>

    ghost predicate Valid()
      reads this
    {
      outbox.Keys == connected
    }

    function State(): RelayState<T>
      reads this
    {
      RelayState(Caches(employees, attendanceRecords), outbox)
    }

    constructor ()
      ensures Valid() && State() == Init()
      ensures employees == [] && attendanceRecords == [] && connected == {}
    {
      employees := [];
      attendanceRecords := [];
      connected := {};
      outbox := map[];
    }

    method Connect(s: SocketId)
      requires Valid() && s !in connected
      modifies this
      ensures Valid() && State() == OnConnect(old(State()), s)
      ensures connected == old(connected) + {s}
    {
      connected := connected + {s};
      outbox := outbox[s := []];
    }

    /** `socket.emit("update-action", m)` on socket `s`. */
    method Emit(s: SocketId, m: Message<T>)
      requires s in outbox
      modifies this`outbox
      ensures outbox == old(outbox)[s := old(outbox)[s] + [m]]
    {
      outbox := outbox[s := outbox[s] + [m]];
    }

    method RequestData(s: SocketId, role: string)
      requires Valid() && s in connected
      modifies this
      ensures Valid() && State() == OnRequestData(old(State()), s, role)
      ensures connected == old(connected)
    {
      if role == ClientRole {
        Emit(s, Message(EmployeesKind, employees));
        Emit(s, Message(AttendanceKind, attendanceRecords));
        assert outbox[s] == old(outbox)[s] + Snapshot(Caches(employees, attendanceRecords));
      }
    }

    method AdminAction(s: SocketId, data: Message<T>)
      requires Valid() && s in connected
      modifies this
      ensures Valid() && State() == OnAdminAction(old(State()), s, data)
      ensures connected == old(connected)
      ensures data.kind == EmployeesKind ==> employees == data.payload && attendanceRecords == old(attendanceRecords)
      ensures data.kind == AttendanceKind ==> attendanceRecords == data.payload && employees == old(employees)
    {
      if data.kind == EmployeesKind {
        employees := data.payload;
        outbox := Broadcast(outbox, s, Message(EmployeesKind, employees));
      } else if data.kind == AttendanceKind {
        attendanceRecords := data.payload;
        outbox := Broadcast(outbox, s, Message(AttendanceKind, attendanceRecords));
      }
    }

    method Disconnect(s: SocketId)
      requires Valid() && s in connected
      modifies this
      ensures Valid() && State() == OnDisconnect(old(State()), s)
      ensures connected == old(connected) - {s}
      ensures employees == old(employees) && attendanceRecords == old(attendanceRecords)
    {
      connected := connected - {s};
      outbox := outbox - {s};
    }
  }
}
