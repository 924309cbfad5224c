// One server session and one client connection, with messages in flight in both
// directions, stepping in any order.
//
// The history variables lost, lostDefinitions and destroyed record what the program
// itself does not remember: which counted handles the client never counted, which
// object definitions it never read, and which handles the server dropped because the
// object was destroyed.

module ReleaseProtocol {
  import opened Wrappers
  import opened Protocol

  datatype System = System(
    server: Server,
    client: Client,
    down: seq<Message>,       // server to client, first in first out
    up: seq<Release>,         // client to server, first in first out
    lost: multiset<Handle>,
    lostDefinitions: set<Handle>,
    destroyed: set<Handle>)

  datatype Step =
    | Respond(objects: seq<ObjectId>)                     // answer a request with these objects
    | Fire(source: ObjectId, objects: seq<ObjectId>)      // a counted event
    | Change(source: ObjectId)                            // a property or attribute changes
    | Destroy(source: ObjectId)
    | HandleRelease                                       // the server takes the next release
    | Receive(registered: bool)                           // the client takes the next message
    | Drop(handle: Handle)                                // the client drops its last reference

  const INITIAL := System(NEW_SESSION, NEW_CLIENT, [], [], multiset{}, {}, {})

  predicate Enabled(s: System, step: Step) {
    match step
    case Respond(_) => true
    case Fire(o, _) => o in s.server.handleOf     // signals are connected only while there is a handle
    case Change(o) => o in s.server.handleOf
    case Destroy(o) => o in s.server.handleOf
    case HandleRelease => s.up != []
    case Receive(registered) => s.down != [] && ProcessMessage(s.client, s.down[0], registered).Some?
    case Drop(h) => h in s.client.live
  }

  function Next(s: System, step: Step): System
    requires ServerOk(s.server)
    requires Enabled(s, step)
  {
    match step
    case Respond(os) =>
      var (server, refs) := WriteObjects(s.server, os);
      s.(server := server, down := s.down + [Response(refs)])
    case Fire(o, os) =>
      var (server1, h) := GetHandle(s.server, o);
      var (server2, refs) := WriteObjects(server1, os);
      s.(server := server2, down := s.down + [Event(h, refs)])
    case Change(o) =>
      var (server, h) := GetHandle(s.server, o);
      s.(server := server, down := s.down + [Changed(h)])
    case Destroy(o) =>
      var (server, h) := GetHandle(s.server, o);
      s.(server := RemoveHandle(server, h), down := s.down + [Destroyed(h)], destroyed := s.destroyed + {h})
    case HandleRelease =>
      var (server, reply) := ReceiveRelease(s.server, s.up[0]);
      s.(server := server, up := s.up[1..], down := if reply.Some? then s.down + [reply.value] else s.down)
    case Receive(registered) =>
      var m := s.down[0];
      var read := IsRead(s.client, m, registered);
      s.(client := ProcessMessage(s.client, m, registered).value,
         down := s.down[1..],
         lost := if read then s.lost else s.lost + Handles(m),
         lostDefinitions := if read then s.lostDefinitions else s.lostDefinitions + Definitions(Objects(m)))
    case Drop(h) =>
      var (client, release) := DropObject(s.client, h);
      s.(client := client, up := s.up + [release])
  }

  // ---- the invariant ----

  // Every bare reference is preceded by its definition, and a handle is defined once.
  ghost predicate Announced(known: set<Handle>, refs: seq<ObjectRef>)
    decreases |refs|
  {
    refs == [] ||
    (if refs[0].Definition? then
       refs[0].handle !in known && Announced(known + {refs[0].handle}, refs[1..])
     else
       refs[0].handle in known && Announced(known, refs[1..]))
  }

  // The handles announced after a message, and after a stream of messages.
  function After(known: set<Handle>, m: Message): set<Handle> {
    if m.Released? then known - {m.source} else known + Definitions(Objects(m))
  }

  ghost predicate MessageOk(known: set<Handle>, m: Message) {
    && (m.Event? || m.Changed? ==> m.source in known)
    && Announced(known, Objects(m))
  }

  function KnownAfter(known: set<Handle>, ms: seq<Message>): set<Handle>
    decreases |ms|
  {
    if ms == [] then known else KnownAfter(After(known, ms[0]), ms[1..])
  }

  ghost predicate StreamOk(known: set<Handle>, ms: seq<Message>)
    decreases |ms|
  {
    ms == [] || (MessageOk(known, ms[0]) && StreamOk(After(known, ms[0]), ms[1..]))
  }

  function Confirmations(ms: seq<Message>): multiset<Handle> {
    if ms == [] then multiset{}
    else (if ms[0].Released? then multiset{ms[0].source} else multiset{}) + Confirmations(ms[1..])
  }

  function Known(s: System): set<Handle> {
    s.client.counter.Keys + s.lostDefinitions
  }

  // The accounts of one handle.
  ghost predicate HandleOk(s: System, h: Handle) {
    var written, read := GetCounter(s.server, h), Count(s.client, h);
    var flying, lost := InFlight(s.down)[h], s.lost[h];
    var confirmed, pending := Confirmations(s.down)[h], h in s.client.pending;
    // each write is counted by the client, in flight, or lost
    && (0 < written ==> written == read + flying + lost && h in KnownAfter(Known(s), s.down))
    // handles are handed out by the server
    && (0 < written || 0 < read || 0 < flying || 0 < lost || h in s.lostDefinitions || h in s.destroyed ==>
          1 <= h < s.server.next)
    && (h in s.destroyed ==> written == 0)
    && (h in s.lostDefinitions ==> read == 0)
    // nothing but the confirmation itself is left of a handle whose release was accepted
    && (0 < confirmed ==>
          && confirmed == 1 && pending && written == 0 && flying == 0 && lost == 0
          && h !in s.destroyed && h !in s.lostDefinitions)
    // a release names a counter value the client has had, the present one only while pending
    && (forall c: nat :: Release(h, c) in s.up ==>
          && 1 <= c
          && 1 <= h < s.server.next
          && (0 < written ==> c <= read && (c == read ==> pending)))
    // why an object is still waiting to be freed
    && (pending ==>
          || Release(h, read) in s.up || 0 < confirmed || h in s.destroyed
          || (0 < written && 0 < flying + lost))
    && (0 < read || 0 < flying ==> 0 < written || h in s.destroyed || 0 < confirmed)
    // a handle the client has forgotten lost nothing
    && (1 <= h < s.server.next && read == 0 && flying == 0 && h !in s.lostDefinitions ==>
          lost == 0 && h !in s.destroyed)
  }

  ghost predicate Inv(s: System) {
    && ServerOk(s.server)
    && ClientOk(s.client)
    && StreamOk(Known(s), s.down)
    && forall h :: HandleOk(s, h)
  }

  // ---- streams ----

  lemma {:induction false} StreamAppend(known: set<Handle>, ms: seq<Message>, m: Message)
    ensures KnownAfter(known, ms + [m]) == After(KnownAfter(known, ms), m)
    ensures StreamOk(known, ms + [m]) <==> StreamOk(known, ms) && MessageOk(KnownAfter(known, ms), m)
    decreases |ms|
  {
    if ms == [] {
      assert (ms + [m])[1..] == [];
    } else {
      assert (ms + [m])[1..] == ms[1..] + [m];
      StreamAppend(After(known, ms[0]), ms[1..], m);
    }
  }

  lemma {:induction false} ConfirmationsAppend(ms: seq<Message>, m: Message)
    ensures Confirmations(ms + [m]) == Confirmations(ms) + (if m.Released? then multiset{m.source} else multiset{})
  {
    if ms == [] {
      assert (ms + [m])[1..] == [];
    } else {
      assert (ms + [m])[1..] == ms[1..] + [m];
      ConfirmationsAppend(ms[1..], m);
    }
  }

  // A handle announced by a stream was announced before it or occurs in it.
  lemma {:induction false} KnownOrInFlight(known: set<Handle>, ms: seq<Message>)
    ensures forall h :: h in KnownAfter(known, ms) ==> h in known || h in InFlight(ms)
    decreases |ms|
  {
    if ms != [] {
      KnownOrInFlight(After(known, ms[0]), ms[1..]);
      DefinitionsOccur(Objects(ms[0]));
    }
  }

  lemma {:induction false} DefinitionsOccur(refs: seq<ObjectRef>)
    ensures forall i :: 0 <= i < |refs| ==> refs[i].handle in RefHandles(refs)
  {
    if refs != [] {
      DefinitionsOccur(refs[1..]);
      assert forall i :: 1 <= i < |refs| ==> refs[i] == refs[1..][i - 1];
    }
  }

  lemma DefinitionsCons(refs: seq<ObjectRef>)
    requires refs != []
    ensures Definitions(refs) == (if refs[0].Definition? then {refs[0].handle} else {}) + Definitions(refs[1..])
  {
    forall h | h in Definitions(refs)
      ensures h in (if refs[0].Definition? then {refs[0].handle} else {}) + Definitions(refs[1..])
    {
      var i :| 0 <= i < |refs| && refs[i].Definition? && refs[i].handle == h;
      if i > 0 {
        assert refs[1..][i - 1] == refs[i];
      }
    }
  }

  lemma HandlesOfOne(ref: ObjectRef)
    ensures RefHandles([ref]) == multiset{ref.handle}
  {
    assert RefHandles([ref]) == multiset{[ref][0].handle} + RefHandles([ref][1..]);
    assert [ref][1..] == [];
  }

  lemma RefsCons(ref: ObjectRef, rest: seq<ObjectRef>)
    ensures RefHandles([ref] + rest) == RefHandles([ref]) + RefHandles(rest)
    ensures Definitions([ref] + rest) == Definitions([ref]) + Definitions(rest)
  {
    assert ([ref] + rest)[1..] == rest && [ref][1..] == [];
    HandlesOfOne(ref);
    DefinitionsCons([ref] + rest);
    DefinitionsCons([ref]);
  }

  // ---- the server writes objects ----

  // Each written reference is counted once, each handle is defined exactly when it is new.
  ghost predicate Wrote(s: Server, t: Server, refs: seq<ObjectRef>) {
    && s.next <= t.next
    && t.counter.Keys == s.counter.Keys + Definitions(refs)
    && (forall h :: GetCounter(t, h) == GetCounter(s, h) + RefHandles(refs)[h])
    && (forall h :: h in Definitions(refs) ==> s.next <= h < t.next)
  }

  lemma WroteOne(s: Server, o: ObjectId)
    requires ServerOk(s)
    ensures Wrote(s, WriteObject(s, o).0, [WriteObject(s, o).1])
  {
    var ref := WriteObject(s, o).1;
    DefinitionsCons([ref]);
    assert [ref][1..] == [];
  }

  lemma WroteCons(s: Server, s1: Server, t: Server, ref: ObjectRef, rest: seq<ObjectRef>)
    requires Wrote(s, s1, [ref])
    requires Wrote(s1, t, rest)
    ensures Wrote(s, t, [ref] + rest)
  {
    hide RefHandles, Definitions;
    RefsCons(ref, rest);
  }

  lemma {:induction false} WriteObjectsEffect(s: Server, os: seq<ObjectId>)
    requires ServerOk(s)
    ensures Wrote(s, WriteObjects(s, os).0, WriteObjects(s, os).1)
    decreases |os|
  {
    if os != [] {
      var (s1, ref) := WriteObject(s, os[0]);
      var (t, rest) := WriteObjects(s1, os[1..]);
      WroteOne(s, os[0]);
      WriteObjectsEffect(s1, os[1..]);
      WroteCons(s, s1, t, ref, rest);
    }
  }

  lemma {:induction false} WriteObjectsAnnounced(s: Server, os: seq<ObjectId>, known: set<Handle>)
    requires ServerOk(s)
    requires s.counter.Keys <= known
    requires forall h :: h in known ==> h < s.next
    ensures Announced(known, WriteObjects(s, os).1)
    decreases |os|
  {
    if os != [] {
      var (s1, ref) := WriteObject(s, os[0]);
      var (t, rest) := WriteObjects(s1, os[1..]);
      var known1 := if ref.Definition? then known + {ref.handle} else known;
      WriteObjectsAnnounced(s1, os[1..], known1);
      assert ([ref] + rest)[1..] == rest;
    }
  }

  // ---- the client reads objects ----

  // Every reference is counted once, and what was pending is in use again.
  ghost predicate Read(c: Client, d: Client, refs: seq<ObjectRef>) {
    && ClientOk(d)
    && d.counter.Keys == c.counter.Keys + Definitions(refs)
    && (forall h :: Count(d, h) == Count(c, h) + RefHandles(refs)[h])
    && c.live <= d.live
    && (forall h :: h in d.pending <==> h in c.pending && h !in RefHandles(refs))
  }

  lemma ReadOne(c: Client, ref: ObjectRef, known: set<Handle>)
    requires ClientOk(c)
    requires c.counter.Keys <= known
    requires Announced(known, [ref])
    ensures ReadObject(c, ref).Some? <==> ref.Definition? || ref.handle in c.counter
    ensures ReadObject(c, ref).Some? ==> Read(c, ReadObject(c, ref).value, [ref])
  {
    DefinitionsCons([ref]);
    assert [ref][1..] == [];
  }

  lemma ReadCons(c: Client, c1: Client, d: Client, ref: ObjectRef, rest: seq<ObjectRef>)
    requires Read(c, c1, [ref])
    requires Read(c1, d, rest)
    ensures Read(c, d, [ref] + rest)
  {
    hide RefHandles, Definitions;
    RefsCons(ref, rest);
  }

  // Reading announced objects fails exactly on a bare reference to a handle whose
  // definition was lost.
  lemma {:induction false} ReadObjectsEffect(c: Client, refs: seq<ObjectRef>, lost: set<Handle>)
    requires ClientOk(c)
    requires c.counter.Keys !! lost
    requires Announced(c.counter.Keys + lost, refs)
    ensures ReadObjects(c, refs).Some? <==>
            forall ref :: ref in refs && ref.Reference? ==> ref.handle !in lost
    ensures ReadObjects(c, refs).Some? ==>
      && Read(c, ReadObjects(c, refs).value, refs)
      && Definitions(refs) !! c.counter.Keys + lost
    decreases |refs|
  {
    if refs != [] {
      var r := ReadObject(c, refs[0]);
      assert [refs[0]] + refs[1..] == refs;
      assert [refs[0]][1..] == [];
      ReadOne(c, refs[0], c.counter.Keys + lost);
      if r.Some? {
        var c1 := r.value;
        DefinitionsCons(refs);
        DefinitionsCons([refs[0]]);
        assert c1.counter.Keys + lost ==
               if refs[0].Definition? then c.counter.Keys + lost + {refs[0].handle} else c.counter.Keys + lost;
        ReadObjectsEffect(c1, refs[1..], lost);
        if ReadObjects(c1, refs[1..]).Some? {
          ReadCons(c, c1, ReadObjects(c1, refs[1..]).value, refs[0], refs[1..]);
        }
      }
    }
  }

  // ---- every step keeps the invariant ----

  lemma InitialInv()
    ensures Inv(INITIAL)
  {
  }

  // A message was written: its handles were counted and its definitions are new.
  ghost predicate Sent(s: System, t: System, m: Message) {
    && ServerOk(t.server)
    && t == s.(server := t.server, down := s.down + [m])
    && !m.Released? && !m.Destroyed?
    && s.server.next <= t.server.next
    && (forall h :: GetCounter(t.server, h) == GetCounter(s.server, h) + Handles(m)[h])
    && t.server.counter.Keys == s.server.counter.Keys + Definitions(Objects(m))
    && (forall h :: h in Definitions(Objects(m)) ==> s.server.next <= h < t.server.next)
    && MessageOk(KnownAfter(Known(s), s.down), m)
  }

  lemma KnownAfterFresh(s: System)
    requires Inv(s)
    ensures s.server.counter.Keys <= KnownAfter(Known(s), s.down)
    ensures forall h :: h in KnownAfter(Known(s), s.down) ==> h < s.server.next
  {
    KnownOrInFlight(Known(s), s.down);
    forall h | h in s.server.counter || h in KnownAfter(Known(s), s.down)
      ensures h in KnownAfter(Known(s), s.down) && h < s.server.next
    {
      assert HandleOk(s, h);
    }
  }

  lemma SentKeepsHandleOk(s: System, t: System, m: Message, h: Handle)
    requires ClientOk(s.client)
    requires HandleOk(s, h)
    requires t == s.(server := t.server, down := t.down)
    requires 1 <= s.server.next <= t.server.next
    requires GetCounter(t.server, h) == GetCounter(s.server, h) + Handles(m)[h]
    requires InFlight(t.down)[h] == InFlight(s.down)[h] + Handles(m)[h]
    requires Confirmations(t.down)[h] == Confirmations(s.down)[h]
    requires 0 < GetCounter(t.server, h) ==> h in KnownAfter(Known(t), t.down)
    requires 0 < GetCounter(t.server, h) ==>
               h < t.server.next && (0 < GetCounter(s.server, h) || s.server.next <= h)
    ensures HandleOk(t, h)
  {
  }

  lemma SentKeepsInv(s: System, t: System, m: Message)
    requires Inv(s) && Sent(s, t, m)
    ensures Inv(t)
  {
    InFlightAppend(s.down, m);
    ConfirmationsAppend(s.down, m);
    StreamAppend(Known(s), s.down, m);
    KnownAfterFresh(s);
    forall h ensures HandleOk(t, h) {
      assert HandleOk(s, h);
      assert 0 < GetCounter(t.server, h) ==> h in t.server.counter;
      SentKeepsHandleOk(s, t, m, h);
    }
  }

  lemma RespondKeepsInv(s: System, os: seq<ObjectId>)
    requires Inv(s)
    ensures Inv(Next(s, Respond(os)))
  {
    var (server, refs) := WriteObjects(s.server, os);
    KnownAfterFresh(s);
    WriteObjectsEffect(s.server, os);
    WriteObjectsAnnounced(s.server, os, KnownAfter(Known(s), s.down));
    SentKeepsInv(s, Next(s, Respond(os)), Response(refs));
  }

  // Looking up a handle counts it and changes nothing else.
  lemma GetHandleCounts(s: Server, o: ObjectId)
    requires ServerOk(s)
    requires o in s.handleOf
    ensures var (t, h) := GetHandle(s, o);
      && ServerOk(t)
      && h in s.counter
      && t == s.(counter := s.counter[h := s.counter[h] + 1])
  {
  }

  // The source of an event is counted once more than the objects written into it.
  lemma WroteAfterCount(s: Server, s1: Server, t: Server, h: Handle, refs: seq<ObjectRef>)
    requires h in s.counter && s1 == s.(counter := s.counter[h := s.counter[h] + 1])
    requires Wrote(s1, t, refs)
    ensures s.next <= t.next
    ensures forall k :: GetCounter(t, k) == GetCounter(s, k) + Handles(Event(h, refs))[k]
    ensures t.counter.Keys == s.counter.Keys + Definitions(refs)
    ensures forall k :: k in Definitions(refs) ==> s.next <= k < t.next
  {
  }

  lemma FireIsSent(s: System, o: ObjectId, os: seq<ObjectId>)
    requires Inv(s)
    requires o in s.server.handleOf
    ensures var (server1, h) := GetHandle(s.server, o);
      Sent(s, Next(s, Fire(o, os)), Event(h, WriteObjects(server1, os).1))
  {
    hide HandleOk, StreamOk, GetHandle, ServerOk, ClientOk, Wrote, GetCounter, Handles, RefHandles, Definitions;
    KnownAfterFresh(s);
    GetHandleCounts(s.server, o);
    var (server1, h) := GetHandle(s.server, o);
    WriteObjectsEffect(server1, os);
    WroteAfterCount(s.server, server1, WriteObjects(server1, os).0, h, WriteObjects(server1, os).1);
    WriteObjectsAnnounced(server1, os, KnownAfter(Known(s), s.down));
  }

  lemma FireKeepsInv(s: System, o: ObjectId, os: seq<ObjectId>)
    requires Inv(s)
    requires o in s.server.handleOf
    ensures Inv(Next(s, Fire(o, os)))
  {
    FireIsSent(s, o, os);
    var (server1, h) := GetHandle(s.server, o);
    SentKeepsInv(s, Next(s, Fire(o, os)), Event(h, WriteObjects(server1, os).1));
  }

  lemma ChangeKeepsInv(s: System, o: ObjectId)
    requires Inv(s)
    requires o in s.server.handleOf
    ensures Inv(Next(s, Change(o)))
  {
    KnownAfterFresh(s);
    assert Definitions([]) == {};
    SentKeepsInv(s, Next(s, Change(o)), Changed(s.server.handleOf[o]));
  }

  lemma DestroyKeepsHandleOk(s: System, t: System, d: Handle, h: Handle)
    requires HandleOk(s, h)
    requires t == s.(server := t.server, down := t.down, destroyed := s.destroyed + {d})
    requires t.server.next == s.server.next
    requires 1 <= d < s.server.next && 0 < GetCounter(s.server, d)
    requires GetCounter(t.server, h) == if h == d then 0 else GetCounter(s.server, h)
    requires InFlight(t.down)[h] == InFlight(s.down)[h]
    requires Confirmations(t.down)[h] == Confirmations(s.down)[h]
    requires KnownAfter(Known(t), t.down) == KnownAfter(Known(s), s.down)
    requires h in KnownAfter(Known(s), s.down) ==>
               0 < Count(s.client, h) || h in s.lostDefinitions || 0 < InFlight(s.down)[h]
    ensures HandleOk(t, h)
  {
  }

  lemma DestroyRemoves(s: Server, o: ObjectId)
    requires ServerOk(s)
    requires o in s.handleOf
    ensures var (t, h) := GetHandle(s, o);
      && ServerOk(t)
      && h in s.counter
      && ServerOk(RemoveHandle(t, h))
      && RemoveHandle(t, h).counter == s.counter - {h}
      && RemoveHandle(t, h).next == s.next
  {
  }

  lemma DestroyKeepsInv(s: System, o: ObjectId)
    requires Inv(s)
    requires o in s.server.handleOf
    ensures Inv(Next(s, Destroy(o)))
  {
    hide GetHandle, RemoveHandle;
    DestroyRemoves(s.server, o);
    var d := GetHandle(s.server, o).1;
    var t := Next(s, Destroy(o));
    InFlightAppend(s.down, Destroyed(d));
    ConfirmationsAppend(s.down, Destroyed(d));
    StreamAppend(Known(s), s.down, Destroyed(d));
    KnownOrInFlight(Known(s), s.down);
    assert Definitions([]) == {};
    DestroyKeepsAllHandlesOk(s, t, d);
  }

  lemma DestroyKeepsAllHandlesOk(s: System, t: System, d: Handle)
    requires forall h :: HandleOk(s, h)
    requires t == s.(server := t.server, down := t.down, destroyed := s.destroyed + {d})
    requires d in s.server.counter && 1 <= s.server.counter[d]
    requires t.server.next == s.server.next
    requires t.server.counter == s.server.counter - {d}
    requires InFlight(t.down) == InFlight(s.down)
    requires Confirmations(t.down) == Confirmations(s.down)
    requires KnownAfter(Known(t), t.down) == KnownAfter(Known(s), s.down)
    requires forall h :: h in KnownAfter(Known(s), s.down) ==> h in Known(s) || h in InFlight(s.down)
    requires forall h :: h in s.client.counter ==> 0 < s.client.counter[h]
    ensures forall h :: HandleOk(t, h)
  {
    assert HandleOk(s, d);
    forall h ensures HandleOk(t, h) {
      assert HandleOk(s, h);
      RemovedCounter(s.server, t.server, d, h);
      DestroyKeepsHandleOk(s, t, d, h);
    }
  }

  lemma RemovedCounter(s: Server, t: Server, d: Handle, h: Handle)
    requires t.counter == s.counter - {d}
    ensures GetCounter(t, h) == if h == d then 0 else GetCounter(s, h)
  {
  }

  lemma HandleReleaseKeepsInv(s: System)
    requires Inv(s)
    requires s.up != []
    ensures Inv(Next(s, HandleRelease))
  {
    var r := s.up[0];
    var t := Next(s, HandleRelease);
    if r.counter == GetCounter(s.server, r.handle) {
      AcceptKeepsInv(s);
    } else {
      forall h ensures HandleOk(t, h) {
        assert HandleOk(s, h);
        RestOfReleases(s.up, h);
      }
    }
  }

  lemma RestOfReleases(up: seq<Release>, h: Handle)
    requires up != []
    ensures forall c: nat :: Release(h, c) in up <==> Release(h, c) == up[0] || Release(h, c) in up[1..]
  {
  }

  // A release with the server's counter value finds nothing in flight and nothing lost,
  // and the client holds the object only as pending.
  lemma AcceptedRelease(s: System)
    requires Inv(s)
    requires s.up != []
    requires s.up[0].counter == GetCounter(s.server, s.up[0].handle)
    ensures var h := s.up[0].handle;
      && h in s.server.counter
      && InFlight(s.down)[h] == 0
      && s.lost[h] == 0
      && h in s.client.pending
      && h !in s.client.live
  {
    var r := s.up[0];
    assert HandleOk(s, r.handle);
    assert Release(r.handle, r.counter) in s.up;
  }

  lemma AcceptKeepsHandleOk(s: System, t: System, d: Handle, h: Handle)
    requires HandleOk(s, h)
    requires s.up != []
    requires t == s.(server := t.server, down := t.down, up := s.up[1..])
    requires s.up[0].handle == d && s.up[0].counter == GetCounter(s.server, d)
    requires t.server.next == s.server.next
    requires GetCounter(t.server, h) == if h == d then 0 else GetCounter(s.server, h)
    requires InFlight(t.down)[h] == InFlight(s.down)[h]
    requires Confirmations(t.down)[h] == Confirmations(s.down)[h] + if h == d then 1 else 0
    requires KnownAfter(Known(t), t.down) == KnownAfter(Known(s), s.down) - {d}
    ensures HandleOk(t, h)
  {
    RestOfReleases(s.up, h);
    assert Release(d, s.up[0].counter) in s.up;
  }

  lemma AcceptKeepsAllHandlesOk(s: System, t: System, d: Handle)
    requires forall h :: HandleOk(s, h)
    requires s.up != []
    requires t == s.(server := t.server, down := s.down + [Released(d)], up := s.up[1..])
    requires s.up[0].handle == d && s.up[0].counter == GetCounter(s.server, d)
    requires t.server.next == s.server.next
    requires t.server.counter == s.server.counter - {d}
    ensures forall h :: HandleOk(t, h)
  {
    InFlightAppend(s.down, Released(d));
    ConfirmationsAppend(s.down, Released(d));
    StreamAppend(Known(s), s.down, Released(d));
    forall h ensures HandleOk(t, h) {
      assert HandleOk(s, h);
      RemovedCounter(s.server, t.server, d, h);
      AcceptKeepsHandleOk(s, t, d, h);
    }
  }

  lemma AcceptKeepsInv(s: System)
    requires Inv(s)
    requires s.up != []
    requires s.up[0].counter == GetCounter(s.server, s.up[0].handle)
    ensures Inv(Next(s, HandleRelease))
  {
    hide HandleOk, StreamOk, KnownAfter, Confirmations, InFlight;
    var d := s.up[0].handle;
    var t := Next(s, HandleRelease);
    AcceptedRelease(s);
    StreamAppend(Known(s), s.down, Released(d));
    AcceptKeepsAllHandlesOk(s, t, d);
  }

  lemma DropKeepsInv(s: System, d: Handle)
    requires Inv(s)
    requires d in s.client.live
    ensures Inv(Next(s, Drop(d)))
  {
    hide ServerOk;
    var t := Next(s, Drop(d));
    forall h ensures HandleOk(t, h) {
      assert HandleOk(s, h);
    }
  }

  lemma {:induction false} AnnouncedHandles(known: set<Handle>, refs: seq<ObjectRef>)
    requires Announced(known, refs)
    ensures forall h :: h in RefHandles(refs) ==> h in known || h in Definitions(refs)
    ensures known !! Definitions(refs)
    decreases |refs|
  {
    if refs != [] {
      DefinitionsCons(refs);
      AnnouncedHandles(if refs[0].Definition? then known + {refs[0].handle} else known, refs[1..]);
    }
  }

  lemma ReadKeepsHandleOk(s: System, t: System, h: Handle, k: nat)
    requires ClientOk(s.client)
    requires HandleOk(s, h)
    requires t == s.(client := t.client, down := t.down)
    requires Count(t.client, h) == Count(s.client, h) + k
    requires InFlight(s.down)[h] == k + InFlight(t.down)[h]
    requires Confirmations(t.down)[h] == Confirmations(s.down)[h]
    requires KnownAfter(Known(t), t.down) == KnownAfter(Known(s), s.down)
    requires h in t.client.pending <==> h in s.client.pending && k == 0
    requires h in s.lostDefinitions ==> Count(t.client, h) == 0
    ensures HandleOk(t, h)
  {
  }

  // What reading a message does to the client.
  lemma ReadMessage(s: System, registered: bool)
    requires Inv(s)
    requires s.down != []
    requires IsRead(s.client, s.down[0], registered)
    requires ProcessMessage(s.client, s.down[0], registered).Some?
    ensures var m, c := s.down[0], s.client;
      var d := ProcessMessage(c, m, registered).value;
      && ClientOk(d)
      && d.counter.Keys == c.counter.Keys + Definitions(Objects(m))
      && d.counter.Keys !! s.lostDefinitions
      && (forall h :: Count(d, h) == Count(c, h) + Handles(m)[h])
      && (forall h :: h in d.pending <==> h in c.pending && h !in Handles(m))
  {
    var m, c := s.down[0], s.client;
    var c1 := if m.Event? then Counted(c, m.source) else c;
    forall h | h in c.counter ensures h !in s.lostDefinitions {
      assert HandleOk(s, h);
    }
    assert c1.counter.Keys == c.counter.Keys;
    ReadObjectsEffect(c1, Objects(m), s.lostDefinitions);
  }

  lemma RestOfStream(known: set<Handle>, ms: seq<Message>)
    requires ms != []
    ensures StreamOk(known, ms) <==> MessageOk(known, ms[0]) && StreamOk(After(known, ms[0]), ms[1..])
    ensures KnownAfter(known, ms) == KnownAfter(After(known, ms[0]), ms[1..])
    ensures InFlight(ms) == Handles(ms[0]) + InFlight(ms[1..])
    ensures !ms[0].Released? ==> Confirmations(ms) == Confirmations(ms[1..])
  {
  }

  lemma ReadKeepsInv(s: System, registered: bool)
    requires Inv(s)
    requires Enabled(s, Receive(registered))
    requires IsRead(s.client, s.down[0], registered)
    ensures Inv(Next(s, Receive(registered)))
  {
    hide HandleOk, ServerOk, ProcessMessage, StreamOk, KnownAfter, InFlight, Confirmations, Handles;
    var m, t := s.down[0], Next(s, Receive(registered));
    ReadMessage(s, registered);
    RestOfStream(Known(s), s.down);
    assert Known(t) == After(Known(s), m);
    forall h ensures HandleOk(t, h) {
      assert HandleOk(s, h);
      ReadKeepsHandleOk(s, t, h, Handles(m)[h]);
    }
  }

  lemma SkipKeepsHandleOk(s: System, t: System, h: Handle, k: nat)
    requires HandleOk(s, h)
    requires t == s.(down := t.down, lost := t.lost, lostDefinitions := t.lostDefinitions)
    requires t.lost[h] == s.lost[h] + k
    requires InFlight(s.down)[h] == k + InFlight(t.down)[h]
    requires Confirmations(t.down)[h] == Confirmations(s.down)[h]
    requires KnownAfter(Known(t), t.down) == KnownAfter(Known(s), s.down)
    requires h in s.lostDefinitions ==> h in t.lostDefinitions
    requires h in t.lostDefinitions && h !in s.lostDefinitions ==> 0 < k && Count(s.client, h) == 0
    requires 0 < k ==> 0 < Count(s.client, h) || h in t.lostDefinitions
    ensures HandleOk(t, h)
  {
  }

  lemma MessageHandles(known: set<Handle>, m: Message)
    requires MessageOk(known, m)
    ensures forall h :: h in Handles(m) ==> h in known || h in Definitions(Objects(m))
    ensures forall h :: h in Definitions(Objects(m)) ==> h in Handles(m) && h !in known
  {
    AnnouncedHandles(known, Objects(m));
    DefinitionsOccur(Objects(m));
  }

  lemma SkipKeepsInv(s: System, registered: bool)
    requires Inv(s)
    requires s.down != []
    requires !IsRead(s.client, s.down[0], registered)
    requires !s.down[0].Released?
    ensures Inv(Next(s, Receive(registered)))
  {
    hide HandleOk, ServerOk, StreamOk, KnownAfter, InFlight, Confirmations, Handles;
    var m, t := s.down[0], Next(s, Receive(registered));
    RestOfStream(Known(s), s.down);
    assert Known(t) == After(Known(s), m);
    MessageHandles(Known(s), m);
    forall h ensures HandleOk(t, h) {
      assert HandleOk(s, h);
      assert h in Handles(m) <==> 0 < Handles(m)[h];
      SkipKeepsHandleOk(s, t, h, Handles(m)[h]);
    }
  }

  lemma ForgottenKeepsHandleOk(s: System, t: System, d: Handle, h: Handle)
    requires HandleOk(s, h)
    requires t == s.(client := t.client, down := t.down)
    requires Count(t.client, h) == if h == d then 0 else Count(s.client, h)
    requires h in t.client.pending <==> h in s.client.pending && h != d
    requires InFlight(t.down)[h] == InFlight(s.down)[h]
    requires Confirmations(s.down)[h] == Confirmations(t.down)[h] + if h == d then 1 else 0
    requires KnownAfter(Known(t), t.down) == KnownAfter(Known(s), s.down)
    ensures HandleOk(t, h)
  {
  }

  // A confirmation for d that arrives finds d pending, and nothing else of d.
  lemma ReleasedIsPending(s: System)
    requires Inv(s)
    requires s.down != [] && s.down[0].Released?
    ensures var d := s.down[0].source;
      d in s.client.pending && d !in s.client.live && d !in s.lostDefinitions
  {
    assert HandleOk(s, s.down[0].source);
  }

  lemma ReleasedKeepsInv(s: System, registered: bool)
    requires Inv(s)
    requires s.down != [] && s.down[0].Released?
    ensures Inv(Next(s, Receive(registered)))
  {
    hide HandleOk, ServerOk;
    var d, t := s.down[0].source, Next(s, Receive(registered));
    ReleasedIsPending(s);
    assert Definitions([]) == {};
    assert Known(t) == After(Known(s), s.down[0]);
    forall h ensures HandleOk(t, h) {
      assert HandleOk(s, h);
      ForgottenKeepsHandleOk(s, t, d, h);
    }
  }

  lemma StepKeepsInv(s: System, step: Step)
    requires Inv(s)
    requires Enabled(s, step)
    ensures Inv(Next(s, step))
  {
    match step
    case Respond(os) => RespondKeepsInv(s, os);
    case Fire(o, os) => FireKeepsInv(s, o, os);
    case Change(o) => ChangeKeepsInv(s, o);
    case Destroy(o) => DestroyKeepsInv(s, o);
    case HandleRelease => HandleReleaseKeepsInv(s);
    case Receive(registered) =>
      if IsRead(s.client, s.down[0], registered) {
        ReadKeepsInv(s, registered);
      } else if s.down[0].Released? {
        ReleasedKeepsInv(s, registered);
      } else {
        SkipKeepsInv(s, registered);
      }
    case Drop(h) => DropKeepsInv(s, h);
  }

  // ---- whole runs ----

  ghost predicate Leads(s: System, steps: seq<Step>, t: System)
    decreases |steps|
  {
    if steps == [] then s == t
    else
      && ServerOk(s.server)
      && Enabled(s, steps[0])
      && Leads(Next(s, steps[0]), steps[1..], t)
  }

  ghost predicate Reachable(s: System) {
    exists steps :: Leads(INITIAL, steps, s)
  }

  lemma {:induction false} RunKeepsInv(s: System, steps: seq<Step>, t: System)
    requires Inv(s)
    requires Leads(s, steps, t)
    ensures Inv(t)
    decreases |steps|
  {
    if steps != [] {
      StepKeepsInv(s, steps[0]);
      RunKeepsInv(Next(s, steps[0]), steps[1..], t);
    }
  }

  lemma ReachableInv(s: System)
    requires Reachable(s)
    ensures Inv(s)
  {
    InitialInv();
    var steps :| Leads(INITIAL, steps, s);
    RunKeepsInv(INITIAL, steps, s);
  }

  // Release safety: when the server accepts a release, no message in flight carries the
  // handle, no use of it was lost, and the client holds the object only as pending.
  lemma AcceptedReleaseIsSafe(s: System)
    requires Reachable(s)
    requires s.up != []
    requires s.up[0].counter == GetCounter(s.server, s.up[0].handle)
    ensures var h := s.up[0].handle;
      && h !in InFlight(s.down)
      && h !in s.lost
      && h in s.client.pending
      && h !in s.client.live
  {
    ReachableInv(s);
    AcceptedRelease(s);
  }

  // A confirmation never frees a live object, and never meets a use of the handle:
  // not now, and not in the messages around it.
  lemma ConfirmationFreesOnlyPending(s: System, h: Handle)
    requires Reachable(s)
    requires h in Confirmations(s.down)
    ensures h in s.client.pending && h !in s.client.live
    ensures h !in InFlight(s.down)
    ensures h !in s.server.itemOf
    ensures Confirmations(s.down)[h] == 1
  {
    ReachableInv(s);
    assert HandleOk(s, h);
  }

  // The client's tables in every reachable state: the deleter never finds the handle
  // pending already, a counter is never zero, and a counter above one after a handle was
  // found not live means that the object was pending and is used again.
  lemma ClientBookkeeping(s: System, h: Handle)
    requires Reachable(s)
    ensures h in s.client.live ==> h !in s.client.pending
    ensures h in s.client.counter <==> h in s.client.live || h in s.client.pending
    ensures h in s.client.counter ==> 1 <= s.client.counter[h]
    ensures h !in s.client.live ==>
      forall ref: ObjectRef :: ref.handle == h && ReadObject(s.client, ref).Some? ==>
        (1 < ReadObject(s.client, ref).value.counter[h] <==> h in s.client.pending)
  {
    ReachableInv(s);
  }

  // The client misreads a message exactly when it reads a bare reference to an object
  // whose definition it skipped.
  lemma MisreadIffDefinitionLost(s: System, registered: bool)
    requires Reachable(s)
    requires s.down != []
    ensures ProcessMessage(s.client, s.down[0], registered).None? <==>
      && IsRead(s.client, s.down[0], registered)
      && exists ref :: ref in Objects(s.down[0]) && ref.Reference? && ref.handle in s.lostDefinitions
  {
    ReachableInv(s);
    var m, c := s.down[0], s.client;
    var c1 := if m.Event? then Counted(c, m.source) else c;
    if IsRead(c, m, registered) {
      forall h | h in c.counter ensures h !in s.lostDefinitions {
        assert HandleOk(s, h);
      }
      assert c1.counter.Keys == c.counter.Keys;
      ReadObjectsEffect(c1, Objects(m), s.lostDefinitions);
    }
  }

  // Release completeness, exactly: once nothing is in flight, a handle the client has
  // seen and no longer uses is still waiting if and only if one of its uses was lost or
  // the server destroyed the object first.
  lemma WaitingIffLostOrDestroyed(s: System, h: Handle)
    requires Reachable(s)
    requires s.down == [] && s.up == []
    requires 1 <= h < s.server.next
    requires h !in s.client.live && h !in s.lostDefinitions
    ensures h in s.client.pending <==> h in s.lost || h in s.destroyed
  {
    ReachableInv(s);
    assert HandleOk(s, h);
  }

  // The server's counter is ahead of the client's by exactly the lost uses.
  lemma CountersDifferByLost(s: System, h: Handle)
    requires Reachable(s)
    requires s.down == []
    requires h in s.server.counter
    ensures s.server.counter[h] == Count(s.client, h) + s.lost[h]
  {
    ReachableInv(s);
    assert HandleOk(s, h);
  }

  // ---- runs that lose nothing ----

  // No property or attribute change, no destroyed object, no cancelled request, and no
  // event for an object that is pending.
  predicate Lossless(s: System, step: Step) {
    match step
    case Change(_) => false
    case Destroy(_) => false
    case Receive(registered) => s.down != [] && (s.down[0].Released? || IsRead(s.client, s.down[0], registered))
    case _ => true
  }

  ghost predicate LeadsLossless(s: System, steps: seq<Step>, t: System)
    decreases |steps|
  {
    if steps == [] then s == t
    else
      && ServerOk(s.server)
      && Enabled(s, steps[0])
      && Lossless(s, steps[0])
      && LeadsLossless(Next(s, steps[0]), steps[1..], t)
  }

  lemma {:induction false} NothingLost(s: System, steps: seq<Step>, t: System)
    requires LeadsLossless(s, steps, t)
    requires s.lost == multiset{} && s.lostDefinitions == {} && s.destroyed == {}
    ensures t.lost == multiset{} && t.lostDefinitions == {} && t.destroyed == {}
    ensures Leads(s, steps, t)
    decreases |steps|
  {
    if steps != [] {
      assert Definitions([]) == {};
      NothingLost(Next(s, steps[0]), steps[1..], t);
    }
  }

  // However often objects were dropped and used again: a run that loses nothing never
  // misreads, and when it comes to rest the two sides agree on every handle and nothing
  // is left waiting.
  lemma LosslessRunsSettle(steps: seq<Step>, s: System)
    requires LeadsLossless(INITIAL, steps, s)
    ensures s.down != [] ==> ProcessMessage(s.client, s.down[0], true).Some?
    ensures s.down == [] && s.up == [] ==> s.client.pending == {} && s.server.counter == s.client.counter
  {
    NothingLost(INITIAL, steps, s);
    assert Reachable(s);
    ReachableInv(s);
    if s.down != [] {
      MisreadIffDefinitionLost(s, true);
    } else if s.up == [] {
      forall h ensures h !in s.client.pending {
        assert HandleOk(s, h);
      }
      forall h ensures h in s.server.counter <==> h in s.client.counter
               ensures h in s.server.counter ==> s.server.counter[h] == s.client.counter[h] {
        assert HandleOk(s, h);
      }
    }
  }

  // ---- a lost use is never made up for ----

  lemma LostStays(s: System, step: Step, h: Handle)
    requires Inv(s)
    requires Enabled(s, step)
    requires h in s.lost && h in s.client.counter
    ensures h in Next(s, step).lost && h in Next(s, step).client.counter
  {
    assert HandleOk(s, h);
    if step.Receive? && IsRead(s.client, s.down[0], step.registered) {
      ReadMessage(s, step.registered);
    }
  }

  // Once a use of a handle was lost, the client never frees the object again, whatever
  // happens afterwards.
  lemma {:induction false} LostIsNeverFreed(s: System, steps: seq<Step>, t: System, h: Handle)
    requires Inv(s)
    requires Leads(s, steps, t)
    requires h in s.lost && h in s.client.counter
    ensures h in t.client.counter
    decreases |steps|
  {
    if steps != [] {
      StepKeepsInv(s, steps[0]);
      LostStays(s, steps[0], h);
      LostIsNeverFreed(Next(s, steps[0]), steps[1..], t, h);
    }
  }

  // ---- what goes wrong ----

  lemma LeadsStep(s: System, step: Step, steps: seq<Step>, t: System)
    requires ServerOk(s.server)
    requires Enabled(s, step)
    requires Leads(Next(s, step), steps, t)
    ensures Leads(s, [step] + steps, t)
  {
    assert ([step] + steps)[1..] == steps;
  }

  lemma OneObject(s: Server, o: ObjectId, c: Client, ref: ObjectRef)
    requires ServerOk(s)
    ensures WriteObjects(s, [o]) == (WriteObject(s, o).0, [WriteObject(s, o).1])
    ensures ReadObjects(c, [ref]) == ReadObject(c, ref)
  {
    var (s1, r) := WriteObject(s, o);
    assert [o][1..] == [];
    assert WriteObjects(s1, []) == (s1, []);
    assert [r] + [] == [r];
    assert [ref][1..] == [];
    if ReadObject(c, ref).Some? {
      assert ReadObjects(ReadObject(c, ref).value, []) == ReadObject(c, ref);
    }
  }

  // A session that has written the object o a number of times under handle 1.
  function Writing(o: ObjectId, times: nat): Server {
    Server(2, map[1 := o], map[o := 1], map[1 := times])
  }

  const HOLDING := Client({1}, {}, map[1 := 1])
  const WAITING := Client({}, {1}, map[1 := 1])

  lemma FirstObject(o: ObjectId)
    ensures Next(INITIAL, Respond([o])) ==
            System(Writing(o, 1), NEW_CLIENT, [Response([Definition(1)])], [], multiset{}, {}, {})
    ensures ProcessMessage(NEW_CLIENT, Response([Definition(1)]), true) == Some(HOLDING)
  {
    OneObject(NEW_SESSION, o, NEW_CLIENT, Definition(1));
    var d := ReadObject(NEW_CLIENT, Definition(1)).value;
    assert d.live == {1} && d.counter == map[1 := 1];
  }

  lemma ChangedObject(o: ObjectId, s: System)
    requires s == System(Writing(o, 1), HOLDING, [], [], multiset{}, {}, {})
    ensures Leads(s, [Change(o), Receive(true), Drop(1), HandleRelease],
                  System(Writing(o, 2), WAITING, [], [], multiset{1}, {}, {}))
  {
    var s3 := Next(s, Change(o));
    assert s3 == System(Writing(o, 2), HOLDING, [Changed(1)], [], multiset{}, {}, {});
    var s4 := Next(s3, Receive(true));
    assert Definitions([]) == {};
    assert s4 == System(Writing(o, 2), HOLDING, [], [], multiset{1}, {}, {});
    var s5 := Next(s4, Drop(1));
    assert s5 == System(Writing(o, 2), WAITING, [], [Release(1, 1)], multiset{1}, {}, {});
    var s6 := Next(s5, HandleRelease);
    LeadsStep(s5, HandleRelease, [], s6);
    LeadsStep(s4, Drop(1), [HandleRelease], s6);
    LeadsStep(s3, Receive(true), [Drop(1), HandleRelease], s6);
    LeadsStep(s, Change(o), [Receive(true), Drop(1), HandleRelease], s6);
    assert [HandleRelease] == [HandleRelease] + [];
    assert [Drop(1), HandleRelease] == [Drop(1)] + [HandleRelease];
    assert [Receive(true), Drop(1), HandleRelease] == [Receive(true)] + [Drop(1), HandleRelease];
    assert [Change(o), Receive(true), Drop(1), HandleRelease] == [Change(o)] + [Receive(true), Drop(1), HandleRelease];
  }

  // One property change is enough: the server counts the handle it writes into the
  // event, the client does not, and the object is never freed.
  lemma PropertyChangeLeaks(o: ObjectId)
    ensures exists s :: Reachable(s) && s.down == [] && s.up == [] &&
              s.client == WAITING && s.server == Writing(o, 2)
  {
    var s1 := Next(INITIAL, Respond([o]));
    FirstObject(o);
    var s2 := Next(s1, Receive(true));
    ChangedObject(o, s2);
    var s6 := System(Writing(o, 2), WAITING, [], [], multiset{1}, {}, {});
    var rest := [Change(o), Receive(true), Drop(1), HandleRelease];
    LeadsStep(s1, Receive(true), rest, s6);
    LeadsStep(INITIAL, Respond([o]), [Receive(true)] + rest, s6);
    assert Reachable(s6);
  }

  // A cancelled request followed by another request for the same object: the client
  // misreads the second response.
  lemma CancelledRequestMisread(o: ObjectId)
    ensures exists s :: Reachable(s) && s.down == [Response([Reference(1)])] &&
              ProcessMessage(s.client, s.down[0], true).None?
  {
    var s0 := INITIAL;
    OneObject(s0.server, o, s0.client, Definition(1));
    var s1 := Next(s0, Respond([o]));
    var s2 := Next(s1, Receive(false));
    OneObject(s2.server, o, s2.client, Reference(1));
    var s3 := Next(s2, Respond([o]));
    LeadsStep(s2, Respond([o]), [], s3);
    LeadsStep(s1, Receive(false), [Respond([o])], s3);
    LeadsStep(s0, Respond([o]), [Receive(false)] + [Respond([o])], s3);
    assert Reachable(s3);
  }
}
