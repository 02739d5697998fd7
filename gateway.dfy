/** The remote backend (object storage plus relational tables) as seen by
    the stores: the requests they send, and what a caller observes of an
    action (requests and notifications, in order). Replies are chosen by
    the caller of each action. */
module Gateway {
  import opened Wrappers
  import opened Records

  datatype Op =
    | SelectRows(table: string, orderBy: string, ascending: bool)
    | UploadObject(bucket: string, path: string)
    | GetPublicUrl(bucket: string, path: string)
    | InsertRow(table: string, payload: Payload)
    | RemoveObjects(bucket: string, paths: seq<string>)
    | UpdateRow(table: string, id: int, status: string)
    | DeleteRow(table: string, id: int)

  /** `Sent` records a request together with the store's loading flag at the
      moment it was issued; `Notified` is one toast, success or error. */
  datatype Event = Sent(op: Op, whileLoading: bool) | Notified(success: bool)

  /** The replies the backend gives to the three requests of a submission:
      the upload, the public-URL lookup (absent when no URL data comes back)
      and the insert, which returns the stored row. */
  datatype SubmitReplies = SubmitReplies(
    upload: Outcome<string>,
    publicUrl: Option<string>,
    insert: Result<Row, string>)

  /** What `pick` selects from one event: nothing or one value. */
  function Picked<T>(e: Event, pick: Event -> Option<T>): seq<T> {
    match pick(e) case Some(x) => [x] case None => []
  }

  /** What `pick` selects from each event of a trace, in order. */
  function Collect<T>(trace: seq<Event>, pick: Event -> Option<T>): seq<T> {
    if trace == [] then []
    else Picked(trace[0], pick) + Collect(trace[1..], pick)
  }

  /** Collecting is done piece by piece. */
  lemma {:induction false} CollectConcat<T>(a: seq<Event>, b: seq<Event>, pick: Event -> Option<T>)
    ensures Collect(a + b, pick) == Collect(a, pick) + Collect(b, pick)
  {
    if a == [] {
      assert a + b == b;
    } else {
      assert (a + b)[1..] == a[1..] + b;
      CollectConcat(a[1..], b, pick);
    }
  }

  /** The path of an upload request. */
  function UploadedPath(e: Event): Option<string> {
    if e.Sent? && e.op.UploadObject? then Some(e.op.path) else None
  }

  /** The path list of a `remove` request. */
  function RemovedPaths(e: Event): Option<seq<string>> {
    if e.Sent? && e.op.RemoveObjects? then Some(e.op.paths) else None
  }

  /** The payload of an insert request. */
  function InsertedPayload(e: Event): Option<Payload> {
    if e.Sent? && e.op.InsertRow? then Some(e.op.payload) else None
  }

  /** Whether a toast reported success. */
  function ToastKind(e: Event): Option<bool> {
    if e.Notified? then Some(e.success) else None
  }

  /** Every request in the trace was issued while the store was loading. */
  predicate AllWhileLoading(trace: seq<Event>) {
    forall i :: 0 <= i < |trace| && trace[i].Sent? ==> trace[i].whileLoading
  }
}
