/** Worked examples against a land and a transfer store, written as clients
    that can only rely on the contracts of the store and of its lemmas. */
module Scenarios {
  import opened Wrappers
  import opened Records
  import opened Paths
  import opened Gateway
  import opened Store

  /** A deed uploaded at `ts` is stored as a PDF under the land folder. */
  lemma DeedPath(ts: nat)
    ensures StoragePath(Land, ts, "deed.pdf") == "land-documents/" + Decimal(ts) + ".pdf"
  {
    assert "deed" + "." + "pdf" == "deed.pdf";
    ExtensionAfterDot("deed", "pdf");
  }

  /** A deed is submitted and stored, then its parcel is approved. */
  method SubmitThenApprove(ts: nat, url: string) {
    var store := new RecordStore(Land);
    var details := LandDetails("P-100", 5.2, "freehold");
    var stored := Row(1, details, url, PendingStatus);
    var r := store.Add(details, "deed.pdf", ts, SubmitReplies(Pass, Some(url), Success(stored)));
    assert r == Success(stored);
    assert store.records == [stored] && store.error == None && !store.loading;

    var approved := Row(1, details, url, "approved");
    var u := store.UpdateStatus(1, "approved", Success(approved));
    assert FirstMatch([stored], 1, 0);
    assert store.records == [approved];
    assert store.Settled() == [approved] && store.Pending() == [];
  }

  /** The insert is refused: the uploaded deed is removed again and the
      cache stays empty, with the database's reason in the error slot. */
  method SubmitRefused(ts: nat, url: string) {
    var store := new RecordStore(Land);
    var details := LandDetails("P-100", 5.2, "freehold");
    var replies := SubmitReplies(Pass, Some(url), Failure("duplicate parcel_id"));
    var r := store.Add(details, "deed.pdf", ts, replies);
    assert store.records == [] && !store.loading;
    assert DatabaseErrorPrefix + "duplicate parcel_id" == "Database error: duplicate parcel_id";
    assert store.error == Some("Database error: duplicate parcel_id");
    ghost var trace := SubmitTrace(Land, details, StoragePath(Land, ts, "deed.pdf"), replies);
    assert store.log == [] + trace == trace;
    SubmitCompensation(Land, details, StoragePath(Land, ts, "deed.pdf"), replies);
    assert Collect(store.log, RemovedPaths) == [[StoragePath(Land, ts, "deed.pdf")]];
  }

  /** Deleting a transfer twice: the second deletion changes nothing. */
  method DeleteTwice(a: Row, b: Row) {
    var store := new RecordStore(Transfer);
    store.Fetch(Success(Some([a, b])));
    var d1 := store.Delete(a.id, Pass);
    var once := store.records;
    var d2 := store.Delete(a.id, Pass);
    WithoutIdIdempotent([a, b], a.id);
    assert store.records == once;
    assert forall x :: x in store.records ==> x.id != a.id;
  }
}
