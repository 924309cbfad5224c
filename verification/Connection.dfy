// The client connection's object tables (client/src/network/connection.cpp).

module ClientConnection {
  import opened Protocol

  type RequestId = nat

  class Connection {
    var requestCallback: set<RequestId>   // requests whose response is still wanted
    var objects: set<Handle>              // objects that are referenced somewhere in the client
    var handleCounter: map<Handle, nat>
    var requestForRelease: set<Handle>    // objects kept until the server confirms their release
    var sent: seq<Release>                // release requests written to the socket

    ghost function State(): Client
      reads this
    {
      Client(objects, requestForRelease, handleCounter)
    }

    constructor ()
      ensures State() == NEW_CLIENT && sent == [] && requestCallback == {}
    {
      requestCallback := {};
      objects := {};
      handleCounter := map[];
      requestForRelease := {};
      sent := [];
    }

    method Send(requestId: RequestId)
      requires requestId !in requestCallback
      modifies this`requestCallback
      ensures requestCallback == old(requestCallback) + {requestId}
    {
      requestCallback := requestCallback + {requestId};
    }

    method CancelRequest(requestId: RequestId)
      modifies this`requestCallback
      ensures requestCallback == old(requestCallback) - {requestId}
    {
      if requestId in requestCallback {
        requestCallback := requestCallback - {requestId};
      }
    }

    // m_handleCounter[handle]++: a missing counter is inserted as zero first.
    method CountHandle(handle: Handle)
      modifies this`handleCounter
      ensures State() == Counted(old(State()), handle)
    {
      if handle !in handleCounter {
        handleCounter := handleCounter[handle := 0];
      }
      handleCounter := handleCounter[handle := handleCounter[handle] + 1];
    }

    // itemsRead: the object is new, so its interface items are read from the message.
    // ok is false if the message has neither class id nor items although they are needed.
    method ReadObject(ref: ObjectRef) returns (ok: bool, itemsRead: bool)
      modifies this`objects, this`handleCounter, this`requestForRelease
      ensures ok <==> Protocol.ReadObject(old(State()), ref).Some?
      ensures State() == if ok then Protocol.ReadObject(old(State()), ref).value else old(State())
      ensures ok && ClientOk(old(State())) ==> (itemsRead <==> ref.handle !in old(handleCounter))
    {
      var handle := ref.handle;
      if handle !in objects {
        if handle in requestForRelease {
          // not yet released, use it again
          requestForRelease := requestForRelease - {handle};
          CountHandle(handle);
        } else if ref.Definition? {
          handleCounter := handleCounter[handle := 1];
        } else {
          return false, false;
        }
        objects := objects + {handle};
        return true, handleCounter[handle] <= 1;
      } else {
        CountHandle(handle);
        return true, false;
      }
    }

    method ReadObjects(refs: seq<ObjectRef>) returns (ok: bool)
      modifies this`objects, this`handleCounter, this`requestForRelease
      ensures ok <==> Protocol.ReadObjects(old(State()), refs).Some?
      ensures ok ==> State() == Protocol.ReadObjects(old(State()), refs).value
    {
      for i := 0 to |refs|
        invariant Protocol.ReadObjects(State(), refs[i..]) == Protocol.ReadObjects(old(State()), refs)
      {
        assert refs[i..][0] == refs[i] && refs[i..][1..] == refs[i + 1..];
        var itemsRead;
        ok, itemsRead := ReadObject(refs[i]);
        if !ok {
          return;
        }
      }
      ok := true;
    }

    method ProcessMessage(message: Message, requestId: RequestId) returns (ok: bool)
      modifies this`requestCallback, this`objects, this`handleCounter, this`requestForRelease
      ensures var r := Protocol.ProcessMessage(old(State()), message, requestId in old(requestCallback));
        && (ok <==> r.Some?)
        && (ok ==> State() == r.value)
      ensures ok ==>
        requestCallback == if message.Response? then old(requestCallback) - {requestId} else old(requestCallback)
    {
      ok := true;
      match message {
        case Response(refs) =>
          if requestId in requestCallback {
            ok := ReadObjects(refs);
            requestCallback := requestCallback - {requestId};
          }
        case Event(handle, refs) =>
          if handle in objects {
            CountHandle(handle);
            ok := ReadObjects(refs);
          }
        case Changed(_) =>
        case Destroyed(_) =>
        case Released(handle) =>
          handleCounter := handleCounter - {handle};
          requestForRelease := requestForRelease - {handle};
      }
    }

    // The deleter of an object's shared pointer: the last reference went away.
    method ObjectDeleter(handle: Handle)
      requires handle in objects
      modifies this`objects, this`handleCounter, this`requestForRelease, this`sent
      ensures ClientOk(old(State())) ==>
        var r := DropObject(old(State()), handle);
        && State() == r.0
        && sent == old(sent) + [r.1]
        && handle !in old(requestForRelease)
    {
      objects := objects - {handle};
      requestForRelease := requestForRelease + {handle};
      if handle !in handleCounter {
        handleCounter := handleCounter[handle := 0];
      }
      sent := sent + [Release(handle, handleCounter[handle])];
    }
  }
}
