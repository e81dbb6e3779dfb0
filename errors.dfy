/**
 * The error values of the repository. Go compares errors by identity; here
 * each sentinel error is a constructor of its own, and an error coming from a
 * collaborator (network, queue, codec, converter) is carried as `External`.
 */
module Errors {

  datatype Error =
    // internal/pipeline/pipeline.go
    | NoReaderProvided
    | NoWriterProvided
    | NoSleeperProvided
    | NoProcessorProvided
    | NoReporterProvided
    // internal/processor/processor.go
    | NoConverterProvided
    | NoStorageProvided
    // the object store has nothing under this bucket and name
    | NoSuchObject(bucket: string, objectName: string)
    // any error returned by a collaborator
    | External(reason: string)
}
