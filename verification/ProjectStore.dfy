/** Documents in project files: a session document is serialised and saved, loaded and decoded. */
module ProjectStore {
  import opened SessionDocuments
  import opened EditValidity
  import opened Codecs
  import opened JournalFile
  import opened JournalDisk
  import opened DocumentCodec
  import opened SessionCodec
  import opened DocumentLayout
  import opened SessionSerializer
  import opened ProjectFile

  /** The file holds the document in the current schema. (Behind a quantifier, like the next predicate, so that
      proofs which only pass the fact on do not open the format.) */
  ghost predicate IsSnapshot(crc: Checksum, file: Option<seq<byte>>, d: SessionDocument) {
    IsSnapshotAs(crc, file, CURRENT_SCHEMA, d) == true
  }

  ghost predicate IsSnapshotAs(crc: Checksum, file: Option<seq<byte>>, schema: u32, d: SessionDocument) {
    (forall seal: bool {:trigger Encoded(crc, file, schema, d, seal)} :: Encoded(crc, file, schema, d, seal)) == true
  }

  ghost predicate Encoded(crc: Checksum, file: Option<seq<byte>>, schema: u32, d: SessionDocument, seal: bool) {
    PayloadOf(crc, file) == Some(DocumentBytes(schema, d))
  }

  /** What reading a payload gives. */
  ghost predicate Finds(payload: Option<ProjectPayload>, found: Option<SessionDocument>) {
    (forall seal: bool {:trigger Decoded(payload, found, seal)} :: Decoded(payload, found, seal)) == true
  }

  ghost predicate Decoded(payload: Option<ProjectPayload>, found: Option<SessionDocument>, seal: bool) {
    found == if payload.None? then None else Decode(payload.value)
  }

  /** A saved valid document is found again. */
  lemma SnapshotIsFound(crc: Checksum, target: Option<seq<byte>>, staging: Option<seq<byte>>, end: ReplaceEnd,
    d: SessionDocument, found: Option<SessionDocument>)
    requires IsSnapshot(crc, target, d) && Openable(d) && Finds(LoadedPayload(crc, target, staging, end), found)
    ensures found == Some(d)
  {
    OpenableIsEditable(d);
    CurrentIsRead(d);
    FoundIsDecoded(crc, target, staging, end, d, found);
  }

  lemma CurrentIsRead(d: SessionDocument)
    requires ValidDocument(d) == true
    ensures Decode(DocumentBytes(CURRENT_SCHEMA, d)) == Some(d)
  {
    var e := CurrentRead(d);
  }

  lemma FoundIsDecoded(crc: Checksum, target: Option<seq<byte>>, staging: Option<seq<byte>>, end: ReplaceEnd,
    d: SessionDocument, found: Option<SessionDocument>)
    requires IsSnapshot(crc, target, d) && Finds(LoadedPayload(crc, target, staging, end), found)
    ensures found == Decode(DocumentBytes(CURRENT_SCHEMA, d))
  {
    SnapshotIsLoaded(crc, target, staging, end, d);
    FoundMeans(LoadedPayload(crc, target, staging, end), found);
  }

  lemma SnapshotIsLoaded(crc: Checksum, target: Option<seq<byte>>, staging: Option<seq<byte>>, end: ReplaceEnd,
    d: SessionDocument)
    requires IsSnapshot(crc, target, d) == true
    ensures LoadedPayload(crc, target, staging, end) == Some(DocumentBytes(CURRENT_SCHEMA, d))
  {
    assert Encoded(crc, target, CURRENT_SCHEMA, d, true) == true;
  }

  lemma FoundMeans(payload: Option<ProjectPayload>, found: Option<SessionDocument>)
    requires Finds(payload, found) == true
    ensures found == if payload.None? then None else Decode(payload.value)
  {
    assert Decoded(payload, found, true) == true;
  }

  /** What serialising for a save gives: nothing for an invalid document. */
  ghost predicate SerializedAs(schema: u32, d: SessionDocument, payload: Option<ProjectPayload>) {
    (forall seal: bool {:trigger SerializedFacts(schema, d, payload, seal)} :: SerializedFacts(schema, d, payload,
      seal)) == true
  }

  ghost predicate SerializedFacts(schema: u32, d: SessionDocument, payload: Option<ProjectPayload>, seal: bool) {
    payload.Some? ==> ValidDocument(d) && payload.value == DocumentBytes(schema, d)
  }

  lemma SerializedIsOpenable(schema: u32, d: SessionDocument, payload: Option<ProjectPayload>)
    requires SerializedAs(schema, d, payload) == true && payload.Some? && Saveable(d)
    ensures Openable(d)
  {
    assert SerializedFacts(schema, d, payload, true) == true;
    ValidIsOpenable(d);
  }

  lemma SerializedIsSnapshot(crc: Checksum, file: Option<seq<byte>>, schema: u32, d: SessionDocument,
    payload: Option<ProjectPayload>)
    requires SerializedAs(schema, d, payload) == true && payload.Some? && PayloadOf(crc, file) == payload
    ensures IsSnapshotAs(crc, file, schema, d) == true
  {
    assert SerializedFacts(schema, d, payload, true) == true;
  }

  method SerializeSnapshot(d: SessionDocument, schema: u32) returns (payload: Option<ProjectPayload>)
    ensures SerializedAs(schema, d, payload) == true
  {
    var bytes := SerializeSessionDocument(d, schema);
    payload := ToPayload(bytes);
    if payload.Some? { WrittenIsSerialized(schema, d, payload.value); } else { NothingIsSerialized(schema, d); }
  }

  lemma WrittenIsSerialized(schema: u32, d: SessionDocument, bytes: ProjectPayload)
    requires Permitted(schema, d) == true && bytes == DocumentBytes(schema, d)
    ensures SerializedAs(schema, d, Some(bytes)) == true
  {
    PermittedIsValid(schema, d);
  }

  lemma PermittedIsValid(schema: u32, d: SessionDocument)
    requires Permitted(schema, d) == true
    ensures ValidDocument(d) == true
  {}

  lemma NothingIsSerialized(schema: u32, d: SessionDocument)
    ensures SerializedAs(schema, d, None) == true
  {}

  /** Nothing was serialised when there are no bytes. */
  method ToPayload(bytes: seq<byte>) returns (payload: Option<ProjectPayload>)
    ensures payload.Some? <==> bytes != [] && |bytes| <= U64_MAX
    ensures payload.Some? ==> payload.value == bytes
  {
    payload := if 0 < |bytes| <= U64_MAX then Some(bytes) else None;
  }

  lemma CurrentIsPermitted(d: SessionDocument)
    ensures ExportPermitted(CURRENT_SCHEMA, d)
  {}

  /** Saves a document. It is durable once it has replaced the project file, even when that is reported as
      failed. */
  method SaveDocument(files: ProjectFiles, d: SessionDocument, end: SaveEnd) returns (ok: bool, ghost replaced: bool)
    requires Saveable(d)
    modifies files
    ensures ok ==> replaced && end.Saved?
    ensures replaced ==> Openable(d) && IsSnapshot(files.crc, files.target, d)
    ensures !replaced ==> files.target == old(files.target)
  {
    var payload := SerializeSnapshot(d, CURRENT_SCHEMA);
    CurrentIsPermitted(d);
    if payload.None? {
      return false, false;
    }
    SerializedIsOpenable(CURRENT_SCHEMA, d, payload);
    ok := files.SaveProjectSnapshot(payload.value, end);
    replaced := end.Saved? || end.SwappedUnsynced?;
    if replaced {
      SerializedIsSnapshot(files.crc, files.target, CURRENT_SCHEMA, d, payload);
    }
  }

  lemma SnapshotIsReadable(crc: Checksum, file: Option<seq<byte>>, d: SessionDocument)
    requires IsSnapshot(crc, file, d) == true
    ensures PayloadOf(crc, file).Some?
  {
    assert Encoded(crc, file, CURRENT_SCHEMA, d, true) == true;
  }

  /** Loads and decodes what the project files hold. */
  method LoadDocument(files: ProjectFiles, end: ReplaceEnd, removed: bool) returns (document: Option<SessionDocument>)
    modifies files
    ensures Finds(LoadedPayload(files.crc, old(files.target), old(files.staging), end), document) == true
    ensures PayloadOf(files.crc, old(files.target)).Some? ==> files.target == old(files.target)
  {
    var payload := files.LoadProjectSnapshot(end, removed);
    if payload.None? {
      return None;
    }
    document := DeserializeSessionDocument(payload.value);
  }
}
