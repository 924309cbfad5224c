// Which object a handle stands for: the objects a session writes, and the ones the client
// takes them for.
//
// server/src/network/session.cpp, server/src/network/handlelist.hpp,
// client/src/network/connection.cpp: readObject

module HandleNames {
  import opened Protocol
  import opened ReleaseProtocol

  // ---- what the server writes ----

  predicate Stands(itemOf: map<Handle, ObjectId>, h: Handle, o: ObjectId) {
    h in itemOf && itemOf[h] == o
  }

  // One handle for each object, and it is the object's own.
  ghost predicate Name(itemOf: map<Handle, ObjectId>, refs: seq<ObjectRef>, os: seq<ObjectId>) {
    |refs| == |os| && forall i :: 0 <= i < |refs| ==> Stands(itemOf, refs[i].handle, os[i])
  }

  // Handles keep their objects, and new ones were not given out before.
  ghost predicate Extends(s: Server, t: Server) {
    && s.next <= t.next
    && (forall h :: h in s.itemOf ==> Stands(t.itemOf, h, s.itemOf[h]))
    && (forall h :: h in t.itemOf && h !in s.itemOf ==> s.next <= h < t.next)
  }

  lemma ObjectNamed(s: Server, o: ObjectId)
    requires ServerOk(s)
    ensures var (t, ref) := WriteObject(s, o);
      && ServerOk(t) && Extends(s, t)
      && Stands(t.itemOf, ref.handle, o)
      && (ref.Definition? <==> o !in s.handleOf)
  {
  }

  lemma NamesExtend(s: Server, t: Server, refs: seq<ObjectRef>, os: seq<ObjectId>)
    requires Extends(s, t)
    requires Name(s.itemOf, refs, os)
    ensures Name(t.itemOf, refs, os)
  {
  }

  // Every object is written under its own handle, and no handle changes its object.
  lemma {:induction false} WrittenHandlesName(s: Server, os: seq<ObjectId>)
    requires ServerOk(s)
    ensures var (t, refs) := WriteObjects(s, os);
      ServerOk(t) && Extends(s, t) && Name(t.itemOf, refs, os)
    decreases |os|
  {
    hide ServerOk, Extends;
    if os == [] {
      Unchanged(s);
    } else {
      var (s1, ref) := WriteObject(s, os[0]);
      var (t, rest) := WriteObjects(s1, os[1..]);
      ObjectNamed(s, os[0]);
      WrittenHandlesName(s1, os[1..]);
      ExtendsTwice(s, s1, t);
      NamesExtend(s1, t, [ref], [os[0]]);
      NamesCons(t.itemOf, ref, rest, os);
    }
  }

  lemma Unchanged(s: Server)
    ensures Extends(s, s)
  {
  }

  lemma ExtendsTwice(s: Server, s1: Server, t: Server)
    requires Extends(s, s1) && Extends(s1, t)
    ensures Extends(s, t)
  {
  }

  lemma NamesCons(itemOf: map<Handle, ObjectId>, ref: ObjectRef, rest: seq<ObjectRef>, os: seq<ObjectId>)
    requires os != []
    requires Name(itemOf, [ref], [os[0]]) && Name(itemOf, rest, os[1..])
    ensures Name(itemOf, [ref] + rest, os)
  {
    assert Stands(itemOf, [ref][0].handle, [os[0]][0]);
    forall i | 0 <= i < |[ref] + rest| ensures Stands(itemOf, ([ref] + rest)[i].handle, os[i]) {
      if i > 0 {
        assert Stands(itemOf, rest[i - 1].handle, os[1..][i - 1]);
      }
    }
  }

  // Looking up the handle of an object gives its own.
  lemma OwnHandle(s: Server, o: ObjectId)
    requires ServerOk(s)
    requires o in s.handleOf
    ensures var (t, h) := GetHandle(s, o);
      ServerOk(t) && t.itemOf == s.itemOf && t.handleOf == s.handleOf && t.next == s.next && Stands(s.itemOf, h, o)
  {
  }

  // An event is written under the handle of its source, and the objects in it under theirs.
  lemma EventNamesSource(s: System, o: ObjectId, os: seq<ObjectId>)
    requires ServerOk(s.server)
    requires o in s.server.handleOf
    ensures var t := Next(s, Fire(o, os));
      && ServerOk(t.server) && Extends(s.server, t.server)
      && |t.down| == |s.down| + 1 && t.down[..|s.down|] == s.down
      && var m := t.down[|s.down|];
      && m.Event?
      && Stands(s.server.itemOf, m.source, o)
      && Name(t.server.itemOf, m.objects, os)
  {
    hide ServerOk;
    OwnHandle(s.server, o);
    WrittenHandlesName(GetHandle(s.server, o).0, os);
  }

  lemma ChangeNamesSource(s: System, o: ObjectId)
    requires ServerOk(s.server)
    requires o in s.server.handleOf
    ensures var t := Next(s, Change(o));
      && t.server.itemOf == s.server.itemOf && t.server.next == s.server.next
      && exists h :: t.down == s.down + [Changed(h)] && Stands(s.server.itemOf, h, o)
  {
    OwnHandle(s.server, o);
    var h := GetHandle(s.server, o).1;
    assert Next(s, Change(o)).down == s.down + [Changed(h)];
  }

  // A destroyed object is announced under its own handle, and exactly it is forgotten.
  lemma DestroyForgetsExactly(s: System, o: ObjectId)
    requires ServerOk(s.server)
    requires o in s.server.handleOf
    ensures var t := Next(s, Destroy(o));
      && (forall u :: u in t.server.handleOf <==> u in s.server.handleOf && u != o)
      && (forall u :: u in t.server.handleOf ==> t.server.handleOf[u] == s.server.handleOf[u])
      && (forall h :: h in t.server.itemOf ==> Stands(s.server.itemOf, h, t.server.itemOf[h]))
      && t.server.next == s.server.next
      && exists h :: t.down == s.down + [Destroyed(h)] && Stands(s.server.itemOf, h, o)
  {
    OwnHandle(s.server, o);
    var h := GetHandle(s.server, o).1;
    assert Next(s, Destroy(o)).down == s.down + [Destroyed(h)];
  }

  // ---- what the client takes handles for ----

  // names: the object of every handle that was ever given out.
  // meant: for each message on its way, the objects the server wrote into it, the source of
  // an event first.
  // objects: what the client made the object of each handle it knows from, the definition
  // it read.
  datatype History = History(
    sys: System,
    names: map<Handle, ObjectId>,
    meant: seq<seq<ObjectId>>,
    objects: map<Handle, ObjectId>)

  const BEGINNING := History(INITIAL, map[], [], map[])

  // A definition makes a new object if the client has none for the handle.
  function Take(objects: map<Handle, ObjectId>, refs: seq<ObjectRef>, os: seq<ObjectId>): map<Handle, ObjectId>
    requires |refs| == |os|
    decreases |refs|
  {
    if refs == [] then objects
    else
      Take(if refs[0].Definition? && refs[0].handle !in objects then objects[refs[0].handle := os[0]] else objects,
           refs[1..], os[1..])
  }

  // The objects that the server wrote into a message as such, not as its source.
  function Written(m: Message, os: seq<ObjectId>): seq<ObjectId> {
    if m.Event? && os != [] then os[1..] else os
  }

  ghost predicate Means(names: map<Handle, ObjectId>, m: Message, os: seq<ObjectId>) {
    match m
    case Response(refs) => Name(names, refs, os)
    case Event(h, refs) => os != [] && Stands(names, h, os[0]) && Name(names, refs, os[1..])
    case Changed(h) => |os| == 1 && Stands(names, h, os[0])
    case Destroyed(h) => |os| == 1 && Stands(names, h, os[0])
    case Released(_) => os == []
  }

  ghost predicate AllMean(names: map<Handle, ObjectId>, ms: seq<Message>, meant: seq<seq<ObjectId>>) {
    |ms| == |meant| && forall i :: 0 <= i < |ms| ==> Means(names, ms[i], meant[i])
  }

  // What the server adds to the channel in a step.
  function Meant(s: System, step: Step): seq<seq<ObjectId>>
    requires ServerOk(s.server)
    requires Enabled(s, step)
  {
    match step
    case Respond(os) => [os]
    case Fire(o, os) => [[o] + os]
    case Change(o) => [[o]]
    case Destroy(o) => [[o]]
    case HandleRelease => if ReceiveRelease(s.server, s.up[0]).1.Some? then [[]] else []
    case Receive(_) => []
    case Drop(_) => []
  }

  function Received(h: History, registered: bool): map<Handle, ObjectId>
    requires h.sys.down != [] && h.meant != []
  {
    var m, os := h.sys.down[0], h.meant[0];
    if m.Released? then h.objects - {m.source}
    else if IsRead(h.sys.client, m, registered) && |Objects(m)| == |Written(m, os)| then
      Take(h.objects, Objects(m), Written(m, os))
    else h.objects
  }

  ghost predicate CanRecord(h: History, step: Step) {
    Inv(h.sys) && Enabled(h.sys, step) && |h.meant| == |h.sys.down|
  }

  ghost function Record(h: History, step: Step): History
    requires CanRecord(h, step)
  {
    var t := Next(h.sys, step);
    History(t,
            h.names + t.server.itemOf,
            if step.Receive? then h.meant[1..] else h.meant + Meant(h.sys, step),
            if step.Receive? then Received(h, step.registered) else h.objects)
  }

  // Messages say what was meant, and the client holds each object under the handle that the
  // server gave it.
  ghost predicate Named(h: History) {
    && Inv(h.sys)
    && (forall k :: k in h.names ==> k < h.sys.server.next)
    && (forall k :: k in h.sys.server.itemOf ==> Stands(h.names, k, h.sys.server.itemOf[k]))
    && AllMean(h.names, h.sys.down, h.meant)
    && h.objects.Keys == h.sys.client.counter.Keys
    && (forall k :: k in h.objects ==> Stands(h.names, k, h.objects[k]))
  }

  // ---- steps of the server ----

  // All handles that were given out keep their meaning.
  ghost predicate KeepNames(names: map<Handle, ObjectId>, more: map<Handle, ObjectId>) {
    forall k :: k in names ==> Stands(more, k, names[k])
  }

  lemma MeansMore(names: map<Handle, ObjectId>, more: map<Handle, ObjectId>, ms: seq<Message>, meant: seq<seq<ObjectId>>)
    requires KeepNames(names, more)
    requires AllMean(names, ms, meant)
    ensures AllMean(more, ms, meant)
  {
    forall i | 0 <= i < |ms| ensures Means(more, ms[i], meant[i]) {
      assert Means(names, ms[i], meant[i]);
    }
  }

  lemma OneMoreMeans(names: map<Handle, ObjectId>, ms: seq<Message>, meant: seq<seq<ObjectId>>, m: Message, os: seq<ObjectId>)
    requires AllMean(names, ms, meant)
    requires Means(names, m, os)
    ensures AllMean(names, ms + [m], meant + [os])
  {
    hide Means;
  }

  lemma ServerNames(h: History, t: Server)
    requires Named(h)
    requires Extends(h.sys.server, t)
    ensures var more := h.names + t.itemOf;
      && KeepNames(h.names, more)
      && (forall k :: k in more ==> k < t.next)
      && (forall k :: k in t.itemOf ==> Stands(more, k, t.itemOf[k]))
  {
    hide Inv, AllMean;
    forall k | k in h.names && k in t.itemOf ensures t.itemOf[k] == h.names[k] {
      if k in h.sys.server.itemOf {
        assert Stands(h.names, k, h.sys.server.itemOf[k]);
        assert Stands(t.itemOf, k, h.sys.server.itemOf[k]);
      }
    }
    forall k | k in t.itemOf ensures k < t.next {
      if k in h.sys.server.itemOf {
        assert Stands(h.names, k, h.sys.server.itemOf[k]);
      }
    }
  }

  // A step that writes one message, with what was meant by it.
  lemma SentKeepsNamed(h: History, t: System, m: Message, os: seq<ObjectId>)
    requires Named(h)
    requires Inv(t)
    requires Extends(h.sys.server, t.server)
    requires t.down == h.sys.down + [m] && t.client == h.sys.client
    requires Means(h.names + t.server.itemOf, m, os)
    ensures Named(History(t, h.names + t.server.itemOf, h.meant + [os], h.objects))
  {
    hide Inv, Means, Extends;
    var more := h.names + t.server.itemOf;
    ServerNames(h, t.server);
    MeansMore(h.names, more, h.sys.down, h.meant);
    OneMoreMeans(more, h.sys.down, h.meant, m, os);
  }

  // Fewer handles on the server change no name.
  lemma FewerKeepNames(h: History, t: Server)
    requires Named(h)
    requires forall k :: k in t.itemOf ==> Stands(h.sys.server.itemOf, k, t.itemOf[k])
    ensures h.names + t.itemOf == h.names
  {
    hide Inv, AllMean;
    forall k | k in t.itemOf ensures Stands(h.names, k, t.itemOf[k]) {
    }
  }

  lemma RemovedKeepsNamed(h: History, t: System, m: Message, os: seq<ObjectId>)
    requires Named(h)
    requires Inv(t)
    requires t.server.next == h.sys.server.next
    requires forall k :: k in t.server.itemOf ==> Stands(h.sys.server.itemOf, k, t.server.itemOf[k])
    requires t.down == h.sys.down + [m] && t.client == h.sys.client
    requires Means(h.names, m, os)
    ensures Named(History(t, h.names + t.server.itemOf, h.meant + [os], h.objects))
  {
    hide Inv, Means;
    FewerKeepNames(h, t.server);
    OneMoreMeans(h.names, h.sys.down, h.meant, m, os);
  }

  lemma RespondKeepsNamed(h: History, os: seq<ObjectId>)
    requires Named(h) && CanRecord(h, Respond(os))
    ensures Named(Record(h, Respond(os)))
  {
    var t := Next(h.sys, Respond(os));
    var (server, refs) := WriteObjects(h.sys.server, os);
    StepKeepsInv(h.sys, Respond(os));
    WrittenHandlesName(h.sys.server, os);
    NamesOf(h, t.server, refs, os);
    SentKeepsNamed(h, t, Response(refs), os);
  }

  lemma NamesOf(h: History, t: Server, refs: seq<ObjectRef>, os: seq<ObjectId>)
    requires Named(h)
    requires Extends(h.sys.server, t)
    requires Name(t.itemOf, refs, os)
    ensures Name(h.names + t.itemOf, refs, os)
  {
    hide Inv, AllMean, Extends;
    ServerNames(h, t);
    forall i | 0 <= i < |refs| ensures Stands(h.names + t.itemOf, refs[i].handle, os[i]) {
      assert Stands(t.itemOf, refs[i].handle, os[i]);
    }
  }

  lemma FireKeepsNamed(h: History, o: ObjectId, os: seq<ObjectId>)
    requires Named(h) && CanRecord(h, Fire(o, os))
    ensures Named(Record(h, Fire(o, os)))
  {
    var t := Next(h.sys, Fire(o, os));
    StepKeepsInv(h.sys, Fire(o, os));
    EventNamesSource(h.sys, o, os);
    var m := t.down[|h.sys.down|];
    NamesOf(h, t.server, m.objects, os);
    ServerNames(h, t.server);
    assert Stands(h.names, m.source, o);
    assert ([o] + os)[1..] == os;
    assert t.down == h.sys.down + [m];
    SentKeepsNamed(h, t, m, [o] + os);
  }

  lemma ChangeKeepsNamed(h: History, o: ObjectId)
    requires Named(h) && CanRecord(h, Change(o))
    ensures Named(Record(h, Change(o)))
  {
    hide HandleOk;
    var t := Next(h.sys, Change(o));
    StepKeepsInv(h.sys, Change(o));
    ChangeNamesSource(h.sys, o);
    var k :| t.down == h.sys.down + [Changed(k)] && Stands(h.sys.server.itemOf, k, o);
    RemovedKeepsNamed(h, t, Changed(k), [o]);
  }

  lemma DestroyKeepsNamed(h: History, o: ObjectId)
    requires Named(h) && CanRecord(h, Destroy(o))
    ensures Named(Record(h, Destroy(o)))
  {
    hide HandleOk;
    var t := Next(h.sys, Destroy(o));
    StepKeepsInv(h.sys, Destroy(o));
    DestroyForgetsExactly(h.sys, o);
    var k :| t.down == h.sys.down + [Destroyed(k)] && Stands(h.sys.server.itemOf, k, o);
    RemovedKeepsNamed(h, t, Destroyed(k), [o]);
  }

  lemma ReleaseKeepsNamed(h: History)
    requires Named(h) && CanRecord(h, HandleRelease)
    ensures Named(Record(h, HandleRelease))
  {
    hide HandleOk;
    var t := Next(h.sys, HandleRelease);
    StepKeepsInv(h.sys, HandleRelease);
    if ReceiveRelease(h.sys.server, h.sys.up[0]).1.Some? {
      RemovedKeepsNamed(h, t, Released(h.sys.up[0].handle), []);
    } else {
      FewerKeepNames(h, t.server);
      assert h.meant + [] == h.meant;
    }
  }

  // ---- steps of the client ----

  // Taking the objects of a message keeps what the client has, and adds the definitions.
  lemma {:induction false} TakeNames(names: map<Handle, ObjectId>, objects: map<Handle, ObjectId>,
                                     refs: seq<ObjectRef>, os: seq<ObjectId>)
    requires Name(names, refs, os)
    requires forall k :: k in objects ==> Stands(names, k, objects[k])
    ensures var after := Take(objects, refs, os);
      && after.Keys == objects.Keys + Definitions(refs)
      && (forall k :: k in after ==> Stands(names, k, after[k]))
    decreases |refs|
  {
    if refs != [] {
      assert Stands(names, refs[0].handle, os[0]);
      forall i | 0 <= i < |refs[1..]| ensures Stands(names, refs[1..][i].handle, os[1..][i]) {
        assert Stands(names, refs[i + 1].handle, os[i + 1]);
      }
      var next := if refs[0].Definition? && refs[0].handle !in objects then objects[refs[0].handle := os[0]] else objects;
      TakeNames(names, next, refs[1..], os[1..]);
      DefinitionsCons(refs);
    }
  }

  lemma MessageNamesObjects(names: map<Handle, ObjectId>, m: Message, os: seq<ObjectId>)
    requires Means(names, m, os)
    requires m.Response? || m.Event?
    ensures Name(names, Objects(m), Written(m, os))
  {
  }

  lemma RestMean(names: map<Handle, ObjectId>, ms: seq<Message>, meant: seq<seq<ObjectId>>)
    requires AllMean(names, ms, meant) && ms != []
    ensures AllMean(names, ms[1..], meant[1..]) && Means(names, ms[0], meant[0])
  {
    hide Means;
  }

  lemma ReadKeepsNamed(h: History, registered: bool)
    requires Named(h) && CanRecord(h, Receive(registered))
    requires IsRead(h.sys.client, h.sys.down[0], registered)
    ensures Named(Record(h, Receive(registered)))
  {
    hide HandleOk, Inv, Means, AllMean, ProcessMessage;
    var m, os := h.sys.down[0], h.meant[0];
    RestMean(h.names, h.sys.down, h.meant);
    MessageNamesObjects(h.names, m, os);
    TakeNames(h.names, h.objects, Objects(m), Written(m, os));
    StepKeepsInv(h.sys, Receive(registered));
    ReadMessage(h.sys, registered);
    SameServerNames(h);
  }

  lemma SameServerNames(h: History)
    requires Named(h)
    ensures h.names + h.sys.server.itemOf == h.names
  {
    hide Inv, AllMean;
    FewerKeepNames(h, h.sys.server);
  }

  lemma SkipKeepsNamed(h: History, registered: bool)
    requires Named(h) && CanRecord(h, Receive(registered))
    requires !IsRead(h.sys.client, h.sys.down[0], registered)
    ensures Named(Record(h, Receive(registered)))
  {
    hide HandleOk, Inv, Means, AllMean;
    RestMean(h.names, h.sys.down, h.meant);
    StepKeepsInv(h.sys, Receive(registered));
    SameServerNames(h);
  }

  lemma DropKeepsNamed(h: History, k: Handle)
    requires Named(h) && CanRecord(h, Drop(k))
    ensures Named(Record(h, Drop(k)))
  {
    hide Inv, AllMean;
    StepKeepsInv(h.sys, Drop(k));
    SameServerNames(h);
    assert h.meant + [] == h.meant;
  }

  lemma RecordKeepsNamed(h: History, step: Step)
    requires Named(h) && CanRecord(h, step)
    ensures Named(Record(h, step))
  {
    hide Named, Record, Inv;
    match step
    case Respond(os) => RespondKeepsNamed(h, os);
    case Fire(o, os) => FireKeepsNamed(h, o, os);
    case Change(o) => ChangeKeepsNamed(h, o);
    case Destroy(o) => DestroyKeepsNamed(h, o);
    case HandleRelease => ReleaseKeepsNamed(h);
    case Receive(registered) =>
      if IsRead(h.sys.client, h.sys.down[0], registered) {
        ReadKeepsNamed(h, registered);
      } else {
        SkipKeepsNamed(h, registered);
      }
    case Drop(k) => DropKeepsNamed(h, k);
  }

  // ---- whole runs ----

  ghost predicate Records(h: History, steps: seq<Step>, k: History)
    decreases |steps|
  {
    if steps == [] then h == k
    else CanRecord(h, steps[0]) && Records(Record(h, steps[0]), steps[1..], k)
  }

  lemma {:induction false} RunKeepsNamed(h: History, steps: seq<Step>, k: History)
    requires Named(h)
    requires Records(h, steps, k)
    ensures Named(k)
    decreases |steps|
  {
    hide Named, Record;
    if steps != [] {
      RecordKeepsNamed(h, steps[0]);
      RunKeepsNamed(Record(h, steps[0]), steps[1..], k);
    }
  }

  lemma BeginningNamed()
    ensures Named(BEGINNING)
  {
    InitialInv();
  }

  // Every run can be recorded.
  lemma {:induction false} RunIsRecorded(h: History, steps: seq<Step>, s: System) returns (k: History)
    requires Named(h)
    requires Leads(h.sys, steps, s)
    ensures Records(h, steps, k) && k.sys == s
    decreases |steps|
  {
    if steps == [] {
      k := h;
    } else {
      RecordKeepsNamed(h, steps[0]);
      k := RunIsRecorded(Record(h, steps[0]), steps[1..], s);
    }
  }

  // In every run, a message that the client reads names to it exactly the objects that the
  // server wrote: for each handle in it, the object the client then holds is the one that
  // was meant, whether it was defined in this message or in one long before.
  lemma ClientTakesWhatWasMeant(steps: seq<Step>, h: History, registered: bool)
    requires Records(BEGINNING, steps, h)
    requires CanRecord(h, Receive(registered))
    requires IsRead(h.sys.client, h.sys.down[0], registered)
    ensures var m, os, after := h.sys.down[0], h.meant[0], Record(h, Receive(registered)).objects;
      && Name(after, Objects(m), Written(m, os))
      && (m.Event? ==> os != [] && Stands(after, m.source, os[0]))
  {
    hide Inv, Records, HandleOk;
    BeginningNamed();
    RunKeepsNamed(BEGINNING, steps, h);
    ReadNames(h, registered);
  }

  lemma ReadNames(h: History, registered: bool)
    requires Named(h) && CanRecord(h, Receive(registered))
    requires IsRead(h.sys.client, h.sys.down[0], registered)
    ensures var m, os, after := h.sys.down[0], h.meant[0], Record(h, Receive(registered)).objects;
      && Name(after, Objects(m), Written(m, os))
      && (m.Event? ==> os != [] && Stands(after, m.source, os[0]))
  {
    hide HandleOk, Inv, AllMean, ProcessMessage;
    var m, os := h.sys.down[0], h.meant[0];
    var after := Record(h, Receive(registered));
    RestMean(h.names, h.sys.down, h.meant);
    MessageNamesObjects(h.names, m, os);
    RecordKeepsNamed(h, Receive(registered));
    AllKnown(h, registered);
    SameServerNames(h);
    forall i | 0 <= i < |Objects(m)| ensures Stands(after.objects, Objects(m)[i].handle, Written(m, os)[i]) {
      assert Stands(h.names, Objects(m)[i].handle, Written(m, os)[i]);
    }
  }

  // After a message was read the client has an object for each handle in it.
  lemma AllKnown(h: History, registered: bool)
    requires Named(h) && CanRecord(h, Receive(registered))
    requires IsRead(h.sys.client, h.sys.down[0], registered)
    ensures var m, after := h.sys.down[0], Record(h, Receive(registered));
      && Named(after)
      && (forall i :: 0 <= i < |Objects(m)| ==> Objects(m)[i].handle in after.objects)
      && (m.Event? ==> m.source in after.objects)
  {
    hide Named, Inv;
    RecordKeepsNamed(h, Receive(registered));
    ReadHandlesCounted(h, registered);
  }

  lemma ReadHandlesCounted(h: History, registered: bool)
    requires Named(h) && CanRecord(h, Receive(registered))
    requires IsRead(h.sys.client, h.sys.down[0], registered)
    requires Named(Record(h, Receive(registered)))
    ensures var m, after := h.sys.down[0], Record(h, Receive(registered));
      && (forall i :: 0 <= i < |Objects(m)| ==> Objects(m)[i].handle in after.objects)
      && (m.Event? ==> m.source in after.objects)
  {
    hide Inv, HandleOk, AllMean, ProcessMessage;
    var m := h.sys.down[0];
    ReadMessage(h.sys, registered);
    DefinitionsOccur(Objects(m));
    var d := ProcessMessage(h.sys.client, m, registered).value;
    forall i | 0 <= i < |Objects(m)| ensures Objects(m)[i].handle in d.counter {
      assert Handles(m)[Objects(m)[i].handle] > 0;
      assert Count(d, Objects(m)[i].handle) > 0;
    }
    if m.Event? {
      assert Handles(m)[m.source] > 0;
      assert Count(d, m.source) > 0;
    }
  }
}
