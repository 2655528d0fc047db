/** The wiring of `ImageRouter`'s routes to the controller: the upload route hands the request
    to `ImageController.uploadImage`, and the `/events` route registers on the very emitter the
    controller emits on, the one `EventEmitter` instance both constructors are given. */
module Routes {
  import opened Wrappers
  import opened Errors
  import opened Seqs
  import opened Helper
  import opened ImageRouter
  import opened Controller

  /** What the upload middleware's callback can be given. */
  datatype UploadError = MulterError(message: string) | OtherError(message: string)

  /** The callback of `imageRoutes`' `upload.single('image')`: whatever it is given goes to
      `next` unchanged; only a `MulterError` is logged. The forwarding itself is the property,
      so the contract names it outright. */
  function ForwardUploadError(err: Option<UploadError>): (r: (Option<UploadError>, bool))
    ensures r.0 == err
    ensures r.1 <==> err.Some? && err.value.MulterError?
  {
    (err, err.Some? && err.value.MulterError?)
  }

  /** `GET /events` on the controller's emitter: the new connection is written the connected
      message and registered at the current end of the controller's events. */
  method OpenEventStream(c: ImageController) returns (id: nat)
    requires c.Valid()
    modifies c.bus`streams, c.bus`listeners, c.bus`subscribedAt
    ensures c.Valid()
    ensures id == |old(c.bus.streams)| && c.bus.streams == old(c.bus.streams) + [ConnectedMessage]
    ensures c.bus.subscribedAt == old(c.bus.subscribedAt) + [|c.events|]
  {
    id := c.bus.Connect();
  }

  /** Every connection has been written the connected message and then the frames of exactly
      the controller's events emitted since it connected, in emission order. */
  lemma SubscribersSeeEmittedEvents(c: ImageController, i: nat)
    requires c.Valid() && i < |c.bus.streams|
    ensures c.bus.subscribedAt[i] <= |c.events|
    ensures c.bus.streams[i] == ConnectedMessage + Frames(Payloads(c.json, c.events[c.bus.subscribedAt[i]..]))
  {
    var a := c.bus.subscribedAt[i];
    assert Payloads(c.json, c.events)[a..] == Payloads(c.json, c.events[a..]);
  }

  /** A client that opens `/events` and then posts an upload is written, on its stream, the
      connected message followed by the frames of exactly that upload's events, in the order
      the tasks emitted them. */
  method ConnectThenUpload(c: ImageController, files: Option<RequestFiles>, outcomes: seq<UploadOutcome>)
    returns (id: nat, r: Result<(), Failure>)
    requires c.Valid() && |outcomes| == |GetImagesFromRequest(files)|
    modifies c`events, c`deleted, c.bus`streams, c.bus`published, c.bus`listeners, c.bus`subscribedAt
    ensures c.Valid()
    ensures r == UploadImageResult(c.cfg, files, outcomes)
    ensures id < |c.bus.streams|
    ensures c.bus.streams[id] == ConnectedMessage +
      Frames(Payloads(c.json, Flatten(EventLists(UploadTraces(c.cfg, GetImagesFromRequest(files), outcomes)))))
  {
    id := OpenEventStream(c);
    ghost var before := c.events;
    r := c.UploadImage(files, outcomes);
    SubscribersSeeEmittedEvents(c, id);
    assert c.events[|before|..] == Flatten(EventLists(UploadTraces(c.cfg, GetImagesFromRequest(files), outcomes)));
  }
}
