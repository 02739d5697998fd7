/** The observable store of one entity kind: the cached records, the loading
    flag and the last error, changed only by its actions. Each action sets
    the flag and clears the error on entry, talks to the backend, changes the
    records in at most one way, and releases the flag on every exit. A failed
    action leaves the records as they were and, except for the fetch, hands
    its error back to the caller. */
module Store {
  import opened Wrappers
  import opened Records
  import opened Paths
  import opened Gateway

  /** What a submission hands back: the stored row, or the error of the
      first step that failed. */
  function SubmitResult(kind: Kind, replies: SubmitReplies): (r: Result<Row, string>)
    ensures r.Success? <==> replies.upload.Pass? && replies.publicUrl.Some? && replies.insert.Success?
    ensures r.Success? ==> r.value == replies.insert.value
  {
    match replies.upload
    case Fail(msg) => Failure(UploadFailedPrefix + msg)
    case Pass =>
      match replies.publicUrl
      case None => Failure(NoUrlMessage(kind))
      case Some(url) =>
        match replies.insert
        case Failure(msg) => Failure(DatabaseErrorPrefix + msg)
        case Success(row) => Success(row)
  }

  /** The error of a failed submission names the step that failed: the
      storage message after "File upload failed: ", the kind's fixed message
      for a missing URL, the database message after "Database error: ". */
  lemma SubmitErrorMessages(kind: Kind, replies: SubmitReplies)
    ensures var r := SubmitResult(kind, replies);
      && (replies.upload.Fail? ==>
            r.Failure? && UploadFailedPrefix <= r.error && r.error[|UploadFailedPrefix|..] == replies.upload.error)
      && (replies.upload.Pass? && replies.publicUrl.None? ==> r == Failure(NoUrlMessage(kind)))
      && (replies.upload.Pass? && replies.publicUrl.Some? && replies.insert.Failure? ==>
            r.Failure? && DatabaseErrorPrefix <= r.error && r.error[|DatabaseErrorPrefix|..] == replies.insert.error)
  {
  }

  /** What a submission of `details` with its document stored at `path` is
      observed to do, step by step, while the store is loading. */
  ghost function SubmitTrace(kind: Kind, details: Details, path: string, replies: SubmitReplies): seq<Event> {
    var upload := Sent(UploadObject(Bucket, path), true);
    match replies.upload
    case Fail(_) => [upload, Notified(false)]
    case Pass =>
      var lookup := Sent(GetPublicUrl(Bucket, path), true);
      match replies.publicUrl
      case None => [upload, lookup, Notified(false)]
      case Some(url) =>
        var insert := Sent(InsertRow(Table(kind), Payload(details, url, PendingStatus)), true);
        match replies.insert
        case Failure(_) => [upload, lookup, insert, Sent(RemoveObjects(Bucket, [path]), true), Notified(false)]
        case Success(_) => [upload, lookup, insert, Notified(true)]
  }

  /** What any projection sees of a submission: the picks of its steps, in
      the order the steps are taken. */
  lemma SubmitTraceCollect<T>(kind: Kind, details: Details, path: string, replies: SubmitReplies,
                              pick: Event -> Option<T>)
    ensures var up := Picked(Sent(UploadObject(Bucket, path), true), pick);
      var lookup := Picked(Sent(GetPublicUrl(Bucket, path), true), pick);
      var failed := Picked(Notified(false), pick);
      Collect(SubmitTrace(kind, details, path, replies), pick) ==
        match replies.upload
        case Fail(_) => up + failed
        case Pass =>
          match replies.publicUrl
          case None => up + lookup + failed
          case Some(url) =>
            var insert := Picked(Sent(InsertRow(Table(kind), Payload(details, url, PendingStatus)), true), pick);
            match replies.insert
            case Failure(_) => up + lookup + insert + Picked(Sent(RemoveObjects(Bucket, [path]), true), pick) + failed
            case Success(_) => up + lookup + insert + Picked(Notified(true), pick)
  {
    var trace := SubmitTrace(kind, details, path, replies);
    var upload := [Sent(UploadObject(Bucket, path), true)];
    var lookup := [Sent(GetPublicUrl(Bucket, path), true)];
    match replies.upload
    case Fail(_) =>
      assert trace == upload + [Notified(false)];
      CollectConcat(upload, [Notified(false)], pick);
    case Pass =>
      match replies.publicUrl
      case None =>
        assert trace == upload + (lookup + [Notified(false)]);
        CollectConcat(lookup, [Notified(false)], pick);
        CollectConcat(upload, lookup + [Notified(false)], pick);
      case Some(url) =>
        var insert := [Sent(InsertRow(Table(kind), Payload(details, url, PendingStatus)), true)];
        var remove := [Sent(RemoveObjects(Bucket, [path]), true)];
        var tail := if replies.insert.Failure? then remove + [Notified(false)] else [Notified(true)];
        assert trace == upload + (lookup + (insert + tail));
        if replies.insert.Failure? {
          CollectConcat(remove, [Notified(false)], pick);
        }
        CollectConcat(insert, tail, pick);
        CollectConcat(lookup, insert + tail, pick);
        CollectConcat(upload, lookup + (insert + tail), pick);
  }

  /** A submission uploads once, to its derived path. */
  lemma SubmitUploadsOnce(kind: Kind, details: Details, path: string, replies: SubmitReplies)
    ensures Collect(SubmitTrace(kind, details, path, replies), UploadedPath) == [path]
  {
    SubmitTraceCollect(kind, details, path, replies, UploadedPath);
  }

  /** A submission asks for its upload to be removed again exactly when the
      insert was attempted and failed, once and for the uploaded path only:
      neither after a failed upload nor after a missing URL. */
  lemma SubmitCompensation(kind: Kind, details: Details, path: string, replies: SubmitReplies)
    ensures Collect(SubmitTrace(kind, details, path, replies), RemovedPaths) ==
      if replies.upload.Pass? && replies.publicUrl.Some? && replies.insert.Failure? then [[path]] else []
  {
    SubmitTraceCollect(kind, details, path, replies, RemovedPaths);
  }

  /** A submission inserts at most one row, only once the upload and the URL
      lookup succeeded; that row is pending and points at the public URL. */
  lemma SubmitInsertsPending(kind: Kind, details: Details, path: string, replies: SubmitReplies)
    ensures Collect(SubmitTrace(kind, details, path, replies), InsertedPayload) ==
      if replies.upload.Pass? && replies.publicUrl.Some?
      then [Payload(details, replies.publicUrl.value, PendingStatus)] else []
  {
    SubmitTraceCollect(kind, details, path, replies, InsertedPayload);
  }

  /** Every request of a submission goes out while the store is loading,
      and the submission shows exactly one toast, which reports success
      exactly when a row came back. */
  lemma SubmitNotifiesOnce(kind: Kind, details: Details, path: string, replies: SubmitReplies)
    ensures AllWhileLoading(SubmitTrace(kind, details, path, replies))
    ensures Collect(SubmitTrace(kind, details, path, replies), ToastKind) == [SubmitResult(kind, replies).Success?]
  {
    SubmitTraceCollect(kind, details, path, replies, ToastKind);
  }

  class RecordStore {
    const kind: Kind
    var records: seq<Row>
    var loading: bool
    var error: Option<string>
    /** What the backend and the user have seen, in order. */
    ghost var log: seq<Event>

    constructor (kind: Kind)
      ensures this.kind == kind
      ensures records == [] && !loading && error == None && log == []
    {
      this.kind := kind;
      records := [];
      loading := false;
      error := None;
      log := [];
    }

    // -------------------------------------------------------------------
    // Getters

    /** Records awaiting a decision, newest first as cached. */
    function Pending(): (r: seq<Row>)
      reads this
      ensures forall x :: x in r <==> x in records && x.status == PendingStatus
    {
      WithStatus(records, PendingStatus)
    }

    /** Approved land or completed transfers. */
    function Settled(): (r: seq<Row>)
      reads this
      ensures forall x :: x in r <==> x in records && x.status == SettledStatus(kind)
    {
      WithStatus(records, SettledStatus(kind))
    }

    /** Number of cached records; no getter selects more than that. */
    function Count(): (n: nat)
      reads this
      ensures |Pending()| + |Settled()| <= n
    {
      DisjointFiltersBound(records, PendingStatus, SettledStatus(kind));
      |records|
    }

    // -------------------------------------------------------------------
    // Actions

    /** Load every record, newest first. A failure is recorded and shown but
        not passed on; the cached records then stay as they were. */
    method Fetch(reply: Result<Option<seq<Row>>, string>)
      modifies this
      ensures !loading
      ensures reply.Success? ==>
        && records == (if reply.value.Some? then reply.value.value else [])
        && error == None
        && log == old(log) + [Sent(SelectRows(Table(kind), OrderColumn, false), true)]
      ensures reply.Failure? ==>
        && records == old(records)
        && error == Some(reply.error)
        && log == old(log) + [Sent(SelectRows(Table(kind), OrderColumn, false), true), Notified(false)]
    {
      loading := true;
      error := None;
      log := log + [Sent(SelectRows(Table(kind), OrderColumn, false), loading)];
      match reply {
        case Failure(msg) =>
          error := Some(msg);
          log := log + [Notified(false)];
        case Success(data) =>
          records := if data.Some? then data.value else [];
      }
      loading := false;
    }

    /** Submit a new record: upload its document under a fresh path, look up
        the document's public URL, insert the row as pending with that URL,
        and put the stored row first. When the insert fails, the uploaded
        document is removed again (the removal's own outcome is ignored);
        when the URL cannot be obtained, nothing is removed. */
    method Add(details: Details, fileName: string, ts: nat, replies: SubmitReplies)
      returns (r: Result<Row, string>)
      requires Fits(kind, details)
      modifies this
      ensures !loading
      ensures r == SubmitResult(kind, replies)
      ensures r.Success? ==> records == [r.value] + old(records) && error == None
      ensures r.Failure? ==> records == old(records) && error == Some(r.error)
      ensures log == old(log) + SubmitTrace(kind, details, StoragePath(kind, ts, fileName), replies)
    {
      loading := true;
      error := None;
      var filePath := StoragePath(kind, ts, fileName);
      log := log + [Sent(UploadObject(Bucket, filePath), loading)];
      match replies.upload {
        case Fail(uploadError) =>
          r := Failure(UploadFailedPrefix + uploadError);
        case Pass =>
          log := log + [Sent(GetPublicUrl(Bucket, filePath), loading)];
          match replies.publicUrl {
            case None =>
              r := Failure(NoUrlMessage(kind));
            case Some(url) =>
              log := log + [Sent(InsertRow(Table(kind), Payload(details, url, PendingStatus)), loading)];
              match replies.insert {
                case Failure(dbError) =>
                  log := log + [Sent(RemoveObjects(Bucket, [filePath]), loading)];
                  r := Failure(DatabaseErrorPrefix + dbError);
                case Success(data) =>
                  records := [data] + records;
                  log := log + [Notified(true)];
                  r := Success(data);
              }
          }
      }
      if r.Failure? {
        error := Some(r.error);
        log := log + [Notified(false)];
      }
      loading := false;
    }

    /** Change a record's status on the server, then put the row the server
        returned in place of the first cached record with that id (nothing
        is replaced when none is cached). */
    method UpdateStatus(id: int, status: string, reply: Result<Row, string>)
      returns (r: Result<Row, string>)
      modifies this
      ensures !loading
      ensures r == reply
      ensures error == (if reply.Failure? then Some(reply.error) else None)
      ensures log == old(log) + [Sent(UpdateRow(Table(kind), id, status), true), Notified(reply.Success?)]
      ensures |records| == |old(records)|
      ensures reply.Failure? ==> records == old(records)
      ensures reply.Success? ==>
        forall j :: 0 <= j < |records| ==>
          records[j] == if FirstMatch(old(records), id, j) then reply.value else old(records)[j]
    {
      loading := true;
      error := None;
      log := log + [Sent(UpdateRow(Table(kind), id, status), loading)];
      match reply {
        case Failure(msg) =>
          error := Some(msg);
          log := log + [Notified(false)];
        case Success(data) =>
          var index := FindIndex(records, id);
          if index != -1 {
            records := records[index := data];
          }
          log := log + [Notified(true)];
      }
      r := reply;
      loading := false;
    }

    /** Delete a record on the server, then drop every cached record with
        that id, keeping the others in order. */
    method Delete(id: int, reply: Outcome<string>) returns (r: Outcome<string>)
      modifies this
      ensures !loading
      ensures r == reply
      ensures error == (if reply.Fail? then Some(reply.error) else None)
      ensures records == (if reply.Pass? then WithoutId(old(records), id) else old(records))
      ensures log == old(log) + [Sent(DeleteRow(Table(kind), id), true), Notified(reply.Pass?)]
    {
      loading := true;
      error := None;
      log := log + [Sent(DeleteRow(Table(kind), id), loading)];
      match reply {
        case Fail(msg) =>
          error := Some(msg);
          log := log + [Notified(false)];
        case Pass =>
          records := WithoutId(records, id);
          log := log + [Notified(true)];
      }
      r := reply;
      loading := false;
    }

    /** Forget the last error. */
    method ClearError()
      modifies this`error
      ensures error == None
    {
      error := None;
    }
  }
}
