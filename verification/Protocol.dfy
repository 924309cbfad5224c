// The object messages exchanged by a server session and a client connection, and
// the effect each of them has on the two sides' handle tables.
//
// server/src/network/session.cpp, server/src/network/handlelist.hpp,
// client/src/network/connection.cpp

module Wrappers {
  datatype Option<+T> = None | Some(value: T)
}

module Protocol {
  import opened Wrappers

  type Handle = nat
  type ObjectId = nat

  // An object inside a message: the first time a session writes an object it also
  // writes its class id and items, afterwards only the handle.
  datatype ObjectRef = Definition(handle: Handle) | Reference(handle: Handle)

  datatype Message =
    | Response(objects: seq<ObjectRef>)
    | Event(source: Handle, objects: seq<ObjectRef>)  // fired event, input monitor event, tile data event
    | Changed(source: Handle)                         // property or attribute changed
    | Destroyed(source: Handle)
    | Released(source: Handle)

  // The client's request to release a handle, with the number of times it read it.
  datatype Release = Release(handle: Handle, counter: nat)

  // ---- what a message carries ----

  function RefHandles(refs: seq<ObjectRef>): multiset<Handle> {
    if refs == [] then multiset{} else multiset{refs[0].handle} + RefHandles(refs[1..])
  }

  function Definitions(refs: seq<ObjectRef>): set<Handle> {
    set i | 0 <= i < |refs| && refs[i].Definition? :: refs[i].handle
  }

  // The handles whose server counter was incremented when the message was written.
  function Handles(m: Message): multiset<Handle> {
    match m
    case Response(refs) => RefHandles(refs)
    case Event(h, refs) => multiset{h} + RefHandles(refs)
    case Changed(h) => multiset{h}
    case Destroyed(_) => multiset{}
    case Released(_) => multiset{}
  }

  function Objects(m: Message): seq<ObjectRef> {
    if m.Response? || m.Event? then m.objects else []
  }

  function InFlight(ms: seq<Message>): multiset<Handle> {
    if ms == [] then multiset{} else Handles(ms[0]) + InFlight(ms[1..])
  }

  lemma {:induction false} InFlightAppend(ms: seq<Message>, m: Message)
    ensures InFlight(ms + [m]) == InFlight(ms) + Handles(m)
  {
    if ms != [] {
      assert (ms + [m])[1..] == ms[1..] + [m];
      InFlightAppend(ms[1..], m);
    } else {
      assert (ms + [m])[1..] == [];
    }
  }

  // ---- server side ----

  datatype Server = Server(
    next: Handle,
    itemOf: map<Handle, ObjectId>,
    handleOf: map<ObjectId, Handle>,
    counter: map<Handle, nat>)

  const INVALID_HANDLE: Handle := 0

  const NEW_SESSION := Server(1, map[], map[], map[])

  // itemOf and handleOf are inverse, a handle has a counter exactly while it has an
  // item, and handles are handed out in increasing order.
  ghost predicate ServerOk(s: Server) {
    && 1 <= s.next
    && s.itemOf.Keys == s.counter.Keys
    && (forall h :: h in s.itemOf ==> 1 <= h < s.next && s.itemOf[h] in s.handleOf && s.handleOf[s.itemOf[h]] == h)
    && (forall o :: o in s.handleOf ==> s.handleOf[o] in s.itemOf && s.itemOf[s.handleOf[o]] == o)
    && (forall h :: h in s.counter ==> 1 <= s.counter[h])
  }

  function GetCounter(s: Server, h: Handle): nat {
    if h in s.counter then s.counter[h] else 0
  }

  // Looking a handle up counts it: the caller is about to write it.
  function GetHandle(s: Server, o: ObjectId): (Server, Handle)
    requires ServerOk(s)
  {
    if o in s.handleOf then
      var h := s.handleOf[o];
      (s.(counter := s.counter[h := s.counter[h] + 1]), h)
    else
      (s, INVALID_HANDLE)
  }

  function AddItem(s: Server, o: ObjectId): (Server, Handle)
    requires ServerOk(s)
    requires o !in s.handleOf
  {
    (Server(s.next + 1, s.itemOf[s.next := o], s.handleOf[o := s.next], s.counter[s.next := 1]), s.next)
  }

  function RemoveHandle(s: Server, h: Handle): Server
    requires ServerOk(s)
  {
    if h in s.itemOf then
      Server(s.next, s.itemOf - {h}, s.handleOf - {s.itemOf[h]}, s.counter - {h})
    else
      s
  }

  function WriteObject(s: Server, o: ObjectId): (r: (Server, ObjectRef))
    requires ServerOk(s)
    ensures ServerOk(r.0)
  {
    var (s1, h) := GetHandle(s, o);
    if h == INVALID_HANDLE then
      var (s2, h2) := AddItem(s1, o);
      (s2, Definition(h2))
    else
      (s1, Reference(h))
  }

  function WriteObjects(s: Server, os: seq<ObjectId>): (r: (Server, seq<ObjectRef>))
    requires ServerOk(s)
    ensures ServerOk(r.0)
    decreases |os|
  {
    if os == [] then (s, [])
    else
      var (s1, ref) := WriteObject(s, os[0]);
      var (s2, refs) := WriteObjects(s1, os[1..]);
      (s2, [ref] + refs)
  }

  // A release is accepted only if the client has read every handle that was written.
  function ReceiveRelease(s: Server, r: Release): (Server, Option<Message>)
    requires ServerOk(s)
  {
    if r.counter == GetCounter(s, r.handle) then
      (RemoveHandle(s, r.handle), Some(Released(r.handle)))
    else
      (s, None)
  }

  // ---- client side ----

  // live: handles with an object that is referenced somewhere in the client;
  // pending: handles whose object waits for the server's permission to be freed.
  datatype Client = Client(live: set<Handle>, pending: set<Handle>, counter: map<Handle, nat>)

  const NEW_CLIENT := Client({}, {}, map[])

  // Live and pending handles are disjoint and are exactly the counted ones.
  ghost predicate ClientOk(c: Client) {
    && c.live !! c.pending
    && c.live + c.pending == c.counter.Keys
    && forall h :: h in c.counter ==> 1 <= c.counter[h]
  }

  function Count(c: Client, h: Handle): nat {
    if h in c.counter then c.counter[h] else 0
  }

  function Counted(c: Client, h: Handle): Client {
    c.(counter := c.counter[h := Count(c, h) + 1])
  }

  // None: a bare reference to an object the client does not have; the client then
  // reads a class id the message does not contain.
  function ReadObject(c: Client, ref: ObjectRef): Option<Client> {
    var h := ref.handle;
    if h in c.live then
      Some(Counted(c, h))
    else if h in c.pending then
      Some(Counted(c.(pending := c.pending - {h}, live := c.live + {h}), h))
    else if ref.Definition? then
      Some(c.(counter := c.counter[h := 1], live := c.live + {h}))
    else
      None
  }

  function ReadObjects(c: Client, refs: seq<ObjectRef>): Option<Client>
    decreases |refs|
  {
    if refs == [] then Some(c)
    else
      var c1 := ReadObject(c, refs[0]);
      if c1.None? then None else ReadObjects(c1.value, refs[1..])
  }

  // Whether the client reads the handles the message carries: a response whose
  // request was cancelled is dropped, and so is an event for an object that is not live.
  predicate IsRead(c: Client, m: Message, registered: bool) {
    match m
    case Response(_) => registered
    case Event(h, _) => h in c.live
    case Changed(_) => false
    case Destroyed(_) => false
    case Released(_) => false
  }

  function ProcessMessage(c: Client, m: Message, registered: bool): Option<Client> {
    match m
    case Response(refs) => if registered then ReadObjects(c, refs) else Some(c)
    case Event(h, refs) => if h in c.live then ReadObjects(Counted(c, h), refs) else Some(c)
    case Changed(_) => Some(c)
    case Destroyed(_) => Some(c)
    case Released(h) => Some(c.(counter := c.counter - {h}, pending := c.pending - {h}))
  }

  // The last reference to a live object goes away: keep it as pending and ask the server.
  function DropObject(c: Client, h: Handle): (Client, Release)
    requires h in c.live
  {
    (c.(live := c.live - {h}, pending := c.pending + {h}), Release(h, Count(c, h)))
  }
}
