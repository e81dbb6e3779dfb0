/**
 * The frame processor of internal/processor/processor.go: retrieve the
 * frame's bytes from the object store, convert them, store the converted
 * blob under a name derived from the frame id, and describe the result.
 * Each step fails fast and hands its error back unchanged.
 *
 * The object store behind the `Storage` interface is an in-memory map from
 * (bucket, object name) to stored objects. Like the storage doubles the
 * processor is exercised with, it can be set to fail every retrieve or every
 * store with a given error; it also keeps a ghost log of the calls it saw.
 */
module Processor {
  import opened Wrappers
  import opened Errors
  import opened Api
  import opened Converter

  /** contentTypeBLOB: the content type of every converted blob. */
  const ContentTypeBlob: string := "application/octet-stream"

  /** ProcessorConfig */
  datatype ProcessorConfig = ProcessorConfig(destinationBucket: string)

  datatype ObjectKey = ObjectKey(bucket: string, objectName: string)

  datatype StoredObject = StoredObject(bytes: Bytes, contentType: string)

  datatype StorageCall = RetrieveCall(key: ObjectKey) | StoreCall(key: ObjectKey, obj: StoredObject)

  /** The value of an object store: its objects, the failures it reports, the calls it has seen. */
  datatype StoreState = StoreState(
    objects: map<ObjectKey, StoredObject>,
    retrieveFault: Option<Error>,
    storeFault: Option<Error>,
    calls: seq<StorageCall>)

  /** What a retrieve of `key` answers in state `s`. */
  function RetrieveResult(s: StoreState, key: ObjectKey): Result<Bytes, Error>
  {
    if s.retrieveFault.Some? then Failure(s.retrieveFault.value)
    else if key in s.objects then Success(s.objects[key].bytes)
    else Failure(NoSuchObject(key.bucket, key.objectName))
  }

  /** The state after a retrieve of `key`. */
  function AfterRetrieve(s: StoreState, key: ObjectKey): StoreState
  {
    s.(calls := s.calls + [RetrieveCall(key)])
  }

  /** The state after a store of `obj` under `key`; a failing store changes no object. */
  function AfterStore(s: StoreState, key: ObjectKey, obj: StoredObject): StoreState
  {
    var logged := s.(calls := s.calls + [StoreCall(key, obj)]);
    if s.storeFault.Some? then logged else logged.(objects := s.objects[key := obj])
  }

  /** The object store behind the Storage interface. */
  class Storage {
    var objects: map<ObjectKey, StoredObject>
    var retrieveFault: Option<Error>
    var storeFault: Option<Error>
    ghost var calls: seq<StorageCall>

    ghost function Model(): StoreState
      reads this
    {
      StoreState(objects, retrieveFault, storeFault, calls)
    }

    constructor (objects: map<ObjectKey, StoredObject>, retrieveFault: Option<Error>, storeFault: Option<Error>)
      ensures Model() == StoreState(objects, retrieveFault, storeFault, [])
    {
      this.objects := objects;
      this.retrieveFault := retrieveFault;
      this.storeFault := storeFault;
      calls := [];
    }

    method Retrieve(bucket: string, objectName: string) returns (r: Result<Bytes, Error>)
      modifies this
      ensures r == RetrieveResult(old(Model()), ObjectKey(bucket, objectName))
      ensures Model() == AfterRetrieve(old(Model()), ObjectKey(bucket, objectName))
    {
      var key := ObjectKey(bucket, objectName);
      calls := calls + [RetrieveCall(key)];
      if retrieveFault.Some? {
        return Failure(retrieveFault.value);
      }
      if key !in objects {
        return Failure(NoSuchObject(bucket, objectName));
      }
      return Success(objects[key].bytes);
    }

    method Store(bucket: string, objectName: string, objectBytes: Bytes, contentType: string) returns (err: Option<Error>)
      modifies this
      ensures err == old(storeFault)
      ensures Model() == AfterStore(old(Model()), ObjectKey(bucket, objectName), StoredObject(objectBytes, contentType))
    {
      var key := ObjectKey(bucket, objectName);
      var obj := StoredObject(objectBytes, contentType);
      calls := calls + [StoreCall(key, obj)];
      if storeFault.Some? {
        return storeFault;
      }
      objects := objects[key := obj];
      return None;
    }
  }

  /** processor: a converter and a storage, configured with a destination bucket. */
  datatype FrameProcessor = FrameProcessor(config: ProcessorConfig, converter: Converter, storage: Storage)

  /**
   * NewProcessor: the converter is checked before the storage; a processor
   * is built exactly when both are present, and it keeps what it was given.
   */
  function NewProcessor(config: ProcessorConfig, converter: Option<Converter>, storage: Storage?): (r: Result<FrameProcessor, Error>)
    ensures r.Failure? && r.error == NoConverterProvided <==> converter.None?
    ensures r.Failure? && r.error == NoStorageProvided <==> converter.Some? && storage == null
    ensures r.Success? <==> converter.Some? && storage != null
    ensures r.Success? ==> r.value.config == config && r.value.storage == storage
    ensures r.Success? ==> forall b :: r.value.converter(b) == converter.value(b)
  {
    if converter.None? then Failure(NoConverterProvided)
    else if storage == null then Failure(NoStorageProvided)
    else Success(FrameProcessor(config, converter.value, storage))
  }

  /**
   * getBlobObjectName: "converted_", the frame id, ".blob". The frame id can
   * be read back from the name, so the name depends on the frame id alone.
   */
  function BlobObjectName(frameId: string): (name: string)
    ensures |name| == |frameId| + 15
    ensures name[..10] == "converted_"
    ensures name[10..|name| - 5] == frameId
    ensures name[|name| - 5..] == ".blob"
  {
    "converted_" + frameId + ".blob"
  }

  /** Two frames get the same destination object name exactly when their ids are equal. */
  lemma BlobObjectNameInjective(a: string, b: string)
    ensures BlobObjectName(a) == BlobObjectName(b) <==> a == b
  {
    if BlobObjectName(a) == BlobObjectName(b) {
      var n := BlobObjectName(a);
      assert a == n[10..|n| - 5] == b;
    }
  }

  /** Where a frame's bytes are read from. */
  function SourceKey(frame: InputFrame): ObjectKey
  {
    ObjectKey(frame.frameLocation.bucket, frame.frameLocation.objectName)
  }

  /** Where a frame's converted blob is stored. */
  function DestinationKey(config: ProcessorConfig, frame: InputFrame): ObjectKey
  {
    ObjectKey(config.destinationBucket, BlobObjectName(frame.frameId))
  }

  datatype Processed = Processed(result: Result<ConvertedBlob, Error>, store: StoreState)

  /**
   * The outcome of processing `frame` against a store in state `s`: the
   * result Process returns and the store's state afterwards.
   */
  function ProcessSpec(config: ProcessorConfig, converter: Converter, s: StoreState, frame: InputFrame): (p: Processed)
    // processing never changes the failures the store is set to report
    ensures p.store.retrieveFault == s.retrieveFault && p.store.storeFault == s.storeFault
    // a failed processing changes no object
    ensures p.result.Failure? ==> p.store.objects == s.objects
    // a successful one copies the provenance and points at the destination object
    ensures p.result.Success? ==>
      && p.result.value.frameId == frame.frameId
      && p.result.value.frameLocation == frame.frameLocation
      && p.result.value.convertedLocation == Location(Unspecified, config.destinationBucket, BlobObjectName(frame.frameId))
    // and it changed exactly the destination object, to the converted bytes
    ensures p.result.Success? ==>
      && RetrieveResult(s, SourceKey(frame)).Success?
      && converter(RetrieveResult(s, SourceKey(frame)).value).Success?
      && p.store.objects == s.objects[DestinationKey(config, frame) :=
           StoredObject(converter(RetrieveResult(s, SourceKey(frame)).value).value, ContentTypeBlob)]
  {
    var src := SourceKey(frame);
    var retrieved := AfterRetrieve(s, src);
    match RetrieveResult(s, src)
    case Failure(e) => Processed(Failure(e), retrieved)
    case Success(frameBytes) =>
      match converter(frameBytes)
      case Failure(e) => Processed(Failure(e), retrieved)
      case Success(blobBytes) =>
        var dst := DestinationKey(config, frame);
        var stored := AfterStore(retrieved, dst, StoredObject(blobBytes, ContentTypeBlob));
        if s.storeFault.Some? then Processed(Failure(s.storeFault.value), stored)
        else
          var location := Location(frame.frameLocation.kind, frame.frameLocation.bucket, frame.frameLocation.objectName);
          Processed(Success(ConvertedBlob(frame.frameId, location, Location(Unspecified, dst.bucket, dst.objectName))), stored)
  }

  /** processor.Process */
  method Process(p: FrameProcessor, frame: InputFrame) returns (r: Result<ConvertedBlob, Error>)
    modifies p.storage
    ensures Processed(r, p.storage.Model()) == ProcessSpec(p.config, p.converter, old(p.storage.Model()), frame)
  {
    var frameBytes := p.storage.Retrieve(frame.frameLocation.bucket, frame.frameLocation.objectName);
    if frameBytes.Failure? {
      return Failure(frameBytes.error);
    }
    var blobBytes := p.converter(frameBytes.value);
    if blobBytes.Failure? {
      return Failure(blobBytes.error);
    }
    var objectName := BlobObjectName(frame.frameId);
    var err := p.storage.Store(p.config.destinationBucket, objectName, blobBytes.value, ContentTypeBlob);
    if err.Some? {
      return Failure(err.value);
    }
    var location := Location(frame.frameLocation.kind, frame.frameLocation.bucket, frame.frameLocation.objectName);
    return Success(ConvertedBlob(frame.frameId, location, Location(Unspecified, p.config.destinationBucket, objectName)));
  }

  /** A failed retrieve is returned as it is; nothing is converted and nothing is stored. */
  lemma RetrieveFailureStops(config: ProcessorConfig, converter: Converter, s: StoreState, frame: InputFrame)
    requires RetrieveResult(s, SourceKey(frame)).Failure?
    ensures ProcessSpec(config, converter, s, frame).result == Failure(RetrieveResult(s, SourceKey(frame)).error)
    ensures ProcessSpec(config, converter, s, frame).store.calls == s.calls + [RetrieveCall(SourceKey(frame))]
  {
  }

  /** A failed conversion is returned as it is; nothing is stored. */
  lemma ConvertFailureStops(config: ProcessorConfig, converter: Converter, s: StoreState, frame: InputFrame)
    requires RetrieveResult(s, SourceKey(frame)).Success?
    requires converter(RetrieveResult(s, SourceKey(frame)).value).Failure?
    ensures ProcessSpec(config, converter, s, frame).result == Failure(converter(RetrieveResult(s, SourceKey(frame)).value).error)
    ensures ProcessSpec(config, converter, s, frame).store.calls == s.calls + [RetrieveCall(SourceKey(frame))]
  {
  }

  /**
   * A failed store is returned as it is. When retrieve and convert succeed,
   * exactly one store is attempted: the converted bytes, with the blob
   * content type, under the destination bucket and the blob object name.
   */
  lemma StoreAttemptedOnce(config: ProcessorConfig, converter: Converter, s: StoreState, frame: InputFrame)
    requires RetrieveResult(s, SourceKey(frame)).Success?
    requires converter(RetrieveResult(s, SourceKey(frame)).value).Success?
    ensures ProcessSpec(config, converter, s, frame).store.calls ==
      s.calls + [RetrieveCall(SourceKey(frame)),
                 StoreCall(DestinationKey(config, frame),
                           StoredObject(converter(RetrieveResult(s, SourceKey(frame)).value).value, ContentTypeBlob))]
    ensures s.storeFault.Some? ==> ProcessSpec(config, converter, s, frame).result == Failure(s.storeFault.value)
    ensures s.storeFault.None? ==> ProcessSpec(config, converter, s, frame).result.Success?
  {
  }

  /**
   * Processing a frame again after it succeeded rewrites the same destination
   * object with the same bytes: the store ends as after the first run, and
   * the result is the same (provided the frame is not its own destination).
   */
  lemma ReprocessingIsIdempotent(config: ProcessorConfig, converter: Converter, s: StoreState, frame: InputFrame)
    requires ProcessSpec(config, converter, s, frame).result.Success?
    requires SourceKey(frame) != DestinationKey(config, frame)
    ensures var once := ProcessSpec(config, converter, s, frame);
            var twice := ProcessSpec(config, converter, once.store, frame);
            twice.result == once.result && twice.store.objects == once.store.objects
  {
    var once := ProcessSpec(config, converter, s, frame);
    var src, dst := SourceKey(frame), DestinationKey(config, frame);
    assert RetrieveResult(once.store, src) == RetrieveResult(s, src);
    var obj := StoredObject(converter(RetrieveResult(s, src).value).value, ContentTypeBlob);
    assert once.store.objects[dst := obj] == once.store.objects;
  }

  /** Frames with different ids never overwrite each other's converted blob. */
  lemma DistinctFramesDistinctDestinations(config: ProcessorConfig, f: InputFrame, g: InputFrame)
    requires f.frameId != g.frameId
    ensures DestinationKey(config, f) != DestinationKey(config, g)
  {
    BlobObjectNameInjective(f.frameId, g.frameId);
  }

  /**
   * With the default converter, processing stores exactly the retrieved
   * bytes at the destination, and fails only when the store fails.
   */
  lemma IdentityStoresRetrievedBytes(config: ProcessorConfig, s: StoreState, frame: InputFrame)
    requires RetrieveResult(s, SourceKey(frame)).Success?
    ensures var p := ProcessSpec(config, Identity, s, frame);
            && (p.result.Success? <==> s.storeFault.None?)
            && (p.result.Success? ==>
                  p.store.objects[DestinationKey(config, frame)] ==
                  StoredObject(s.objects[SourceKey(frame)].bytes, ContentTypeBlob))
  {
  }
}
