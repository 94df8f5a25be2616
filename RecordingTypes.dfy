/**
 * The shapes of locally stored recordings and their sourcemaps. They carry
 * no behaviour of their own: the code that moves a recording between these
 * statuses is not part of this model.
 */
module RecordingTypes {

  import opened Wrappers

  /** `UnstructuredMetadata`: string keys, each mapped to an opaque serialized value. */
  type Metadata = map<string, string>

  datatype OriginalSourceEntry = OriginalSourceEntry(path: string, parentOffset: int)

  datatype SourceMapEntry = SourceMapEntry(
    id: string,
    path: string,
    baseURL: string,
    targetContentHash: Option<string>,
    targetURLHash: Option<string>,
    targetMapURLHash: string,
    originalSources: seq<OriginalSourceEntry>)

  datatype RecordingStatus =
    | OnDisk
    | Unknown
    | Uploaded
    | Crashed
    | StartedWrite
    | StartedUpload
    | CrashUploaded
    | Unusable

  /** `createTime` is a `Date`, kept as milliseconds since the epoch; `crashData` entries are opaque. */
  datatype RecordingEntry = RecordingEntry(
    id: string,
    createTime: int,
    runtime: string,
    metadata: Metadata,
    sourcemaps: seq<SourceMapEntry>,
    buildId: Option<string>,
    status: RecordingStatus,
    path: Option<string>,
    server: Option<string>,
    recordingId: Option<string>,
    crashData: Option<seq<string>>,
    unusableReason: Option<string>)
}
