/** `ImageRouter` (and the older `imageRoutes` module): where uploads are stored, and the
    `/events` stream that fans every `progress` emission out to the connected clients. */
module ImageRouter {
  import opened Wrappers
  import opened Seqs
  import opened Paths

  /** The first write on every `/events` connection. */
  const ConnectedMessage := "data: Connected\n\n"

  /** The framing of one `progress` emission; `json` stands for `JSON.stringify(data)`. */
  function ProgressFrame(json: string): (r: string)
    ensures |r| == |json| + 24
    ensures r[..22] == "event: progress\ndata: " && r[22..|r| - 2] == json && r[|r| - 2..] == "\n\n"
  {
    "event: progress\ndata: " + json + "\n\n"
  }

  /** What a listener writes for a run of emissions, in emission order. */
  function Frames(payloads: seq<string>): (r: string)
    ensures r == "" <==> payloads == []
  {
    if payloads == [] then "" else ProgressFrame(payloads[0]) + Frames(payloads[1..])
  }

  /** Writing two runs of emissions is writing their concatenation. */
  lemma {:induction false} FramesAppend(a: seq<string>, b: seq<string>)
    ensures Frames(a + b) == Frames(a) + Frames(b)
  {
    if a == [] {
      assert a + b == b;
    } else {
      assert (a + b)[1..] == a[1..] + b;
      FramesAppend(a[1..], b);
    }
  }

  /** One more emission adds its frame to what every listener registered at `from` wrote. */
  lemma FramesSnocFrom(published: seq<string>, from: nat, json: string)
    requires from <= |published|
    ensures Frames((published + [json])[from..]) == Frames(published[from..]) + ProgressFrame(json)
  {
    assert (published + [json])[from..] == published[from..] + [json];
    FramesAppend(published[from..], [json]);
    assert Frames([json]) == ProgressFrame(json) + Frames([]);
  }

  /** Every frame adds its payload and the 24 characters of framing. */
  lemma {:induction false} FramesLength(payloads: seq<string>)
    ensures |Frames(payloads)| == 24 * |payloads| + SumLengths(payloads)
  {
    if payloads != [] {
      FramesLength(payloads[1..]);
    }
  }

  /** The one emitter shared by the upload handler and every `/events` connection, together with
      what has been written to each connection. A connection's index is its position in
      `streams`; `listeners` stands for the emitter's listener array: in registration order, the
      connection each `progress` listener writes to. Since each connection registers exactly one
      listener when it connects, `Valid` makes the k-th listener write to connection k. */
  class ProgressBus {
    var listeners: seq<nat>
    var streams: seq<string>
    /** Every payload emitted so far, in order. */
    ghost var published: seq<string>
    /** For each connection, how many payloads had been emitted when it registered. */
    ghost var subscribedAt: seq<nat>

    /** Each connection has exactly one listener, registered when it connected; it has
        received the connected message and then exactly the payloads emitted since. */
    ghost predicate Valid()
      reads this
    {
      |listeners| == |streams| == |subscribedAt| &&
      (forall k :: 0 <= k < |listeners| ==> listeners[k] == k) &&
      forall i :: 0 <= i < |streams| ==>
        subscribedAt[i] <= |published| &&
        streams[i] == ConnectedMessage + Frames(published[subscribedAt[i]..])
    }

    constructor ()
      ensures Valid()
      ensures listeners == [] && streams == [] && published == []
    {
      listeners, streams := [], [];
      published, subscribedAt := [], [];
    }

    /** A `GET /events`: write the connected message, then register a listener for this
        connection. Nothing already emitted is replayed and no other connection changes. */
    method Connect() returns (id: nat)
      requires Valid()
      modifies this`streams, this`listeners, this`subscribedAt
      ensures Valid()
      ensures id == |old(streams)|
      ensures streams == old(streams) + [ConnectedMessage]
      ensures listeners == old(listeners) + [id]
      ensures subscribedAt == old(subscribedAt) + [|published|]
    {
      id := |streams|;
      streams := streams + [ConnectedMessage];
      listeners := listeners + [id];
      subscribedAt := subscribedAt + [|published|];
      assert published[|published|..] == [];
    }

    /** `emitter.emit('progress', data)`: every registered listener, in registration order,
        writes the frame to its own connection. No listener is added or removed. */
    method Publish(json: string)
      requires Valid()
      modifies this`streams, this`published
      ensures Valid()
      ensures published == old(published) + [json]
      ensures |streams| == |old(streams)|
      ensures forall i :: 0 <= i < |streams| ==> streams[i] == old(streams)[i] + ProgressFrame(json)
    {
      var frame := ProgressFrame(json);
      for k := 0 to |listeners|
        invariant |streams| == |old(streams)| && published == old(published)
        invariant forall i :: 0 <= i < k ==> streams[i] == old(streams)[i] + frame
        invariant forall i :: k <= i < |streams| ==> streams[i] == old(streams)[i]
      {
        var c := listeners[k];
        streams := streams[c := streams[c] + frame];
      }
      published := published + [json];
      forall i | 0 <= i < |streams|
        ensures streams[i] == ConnectedMessage + Frames(published[subscribedAt[i]..])
      {
        FramesSnocFrom(old(published), subscribedAt[i], json);
        AppendAssoc(ConnectedMessage, Frames(old(published)[subscribedAt[i]..]), frame);
      }
    }

    /** What a connection has been sent after its connected message. */
    ghost function Received(i: nat): string
      requires Valid() && i < |streams|
      reads this
    {
      streams[i][|ConnectedMessage|..]
    }
  }

  /** A connection's stream starts with the connected message; after it come the frames of
      exactly the payloads emitted since it connected, in emission order, so a connection made
      after an emission never receives it. */
  lemma StreamContents(bus: ProgressBus, i: nat)
    requires bus.Valid() && i < |bus.streams|
    ensures bus.streams[i][..|ConnectedMessage|] == ConnectedMessage
    ensures bus.Received(i) == Frames(bus.published[bus.subscribedAt[i]..])
  {
  }

  /** Two connections receive the same frames from the later one's registration on: the
      earlier one's stream is the later one's with the frames in between inserted. */
  lemma {:induction false} SharedSuffix(bus: ProgressBus, i: nat, j: nat)
    requires bus.Valid() && i < |bus.streams| && j < |bus.streams|
    requires bus.subscribedAt[i] <= bus.subscribedAt[j]
    ensures bus.Received(i) ==
      Frames(bus.published[bus.subscribedAt[i]..bus.subscribedAt[j]]) + bus.Received(j)
  {
    var p, a, b := bus.published, bus.subscribedAt[i], bus.subscribedAt[j];
    assert p[a..] == p[a..b] + p[b..];
    FramesAppend(p[a..b], p[b..]);
  }

  // ----- upload storage -----

  const UploadsDirectory := "uploads/"

  /** The disk storage of `ImageRouter`: destination `uploads/`, file name the client's
      original name. */
  function StoredUploadPath(originalname: string): (r: string)
    ensures r == "uploads/" + originalname
  {
    PathJoin(UploadsDirectory, originalname)
  }

  /** Two uploads land on the same path exactly when their original names are equal, so a later
      upload with an existing name overwrites the earlier file. */
  lemma StoredUploadPathCollides(a: string, b: string)
    ensures StoredUploadPath(a) == StoredUploadPath(b) <==> a == b
  {
    if StoredUploadPath(a) == StoredUploadPath(b) {
      PathJoinInjective(UploadsDirectory, a, b);
    }
  }
}
