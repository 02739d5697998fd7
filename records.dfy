/** The records the two stores cache (land parcels and ownership transfers),
    the constants that tell the two entity kinds apart, and the pure
    sequence operations the stores' getters and actions are built from. */
module Records {

  /** Which of the two stores: `useLandStore` or `useTransferStore`. */
  datatype Kind = Land | Transfer

  /** The domain fields a caller supplies for a new record. */
  datatype Details =
    | LandDetails(parcelId: string, size: real, ownershipType: string)
    | TransferDetails(recipientName: string, parcelId: string)

  /** A row as returned by the relational store: its server-assigned id,
      its domain fields, the document URL and the status label. */
  datatype Row = Row(id: int, details: Details, document: string, status: string)

  /** The row sent on insert: no id (the server assigns it). The document URL
      stands for the `supporting_documents` column of a land row and the
      `contract_document` column of a transfer row. */
  datatype Payload = Payload(details: Details, document: string, status: string)

  /** The fields of the new-record argument have the shape of its store's kind. */
  predicate Fits(kind: Kind, details: Details) {
    details.LandDetails? <==> kind == Land
  }

  /** Name of the relational table. */
  function Table(kind: Kind): string {
    match kind
    case Land => "land"
    case Transfer => "transfers"
  }

  /** Bucket of the object store that holds all uploaded documents. */
  const Bucket: string := "documents"

  /** Column the fetch orders by, newest first. */
  const OrderColumn: string := "created_at"

  /** Folder of the bucket that a kind's documents are uploaded to. */
  function PathPrefix(kind: Kind): string {
    match kind
    case Land => "land-documents/"
    case Transfer => "transfer-contracts/"
  }

  /** Status every submitted record starts in. */
  const PendingStatus: string := "pending"

  /** Status of the second getter: approved land, completed transfers. */
  function SettledStatus(kind: Kind): string {
    match kind
    case Land => "approved"
    case Transfer => "completed"
  }

  /** Error raised when no public URL can be obtained for an upload. */
  function NoUrlMessage(kind: Kind): string {
    match kind
    case Land => "Could not get public URL for the document."
    case Transfer => "Could not get public URL for the contract."
  }

  const UploadFailedPrefix: string := "File upload failed: "
  const DatabaseErrorPrefix: string := "Database error: "

  // ---------------------------------------------------------------------
  // Order-preserving filters (Array.prototype.filter)

  /** The records whose status is `status`, in their original order. */
  function WithStatus(rs: seq<Row>, status: string): (r: seq<Row>)
    ensures |r| <= |rs|
    ensures forall x :: x in r <==> x in rs && x.status == status
  {
    if rs == [] then []
    else (if rs[0].status == status then [rs[0]] else []) + WithStatus(rs[1..], status)
  }

  /** The records whose id is not `id`, in their original order. */
  function WithoutId(rs: seq<Row>, id: int): (r: seq<Row>)
    ensures |r| <= |rs|
    ensures forall x :: x in r <==> x in rs && x.id != id
  {
    if rs == [] then []
    else (if rs[0].id != id then [rs[0]] else []) + WithoutId(rs[1..], id)
  }

  /** Filtering commutes with concatenation: survivors keep their order. */
  lemma {:induction false} WithStatusConcat(a: seq<Row>, b: seq<Row>, status: string)
    ensures WithStatus(a + b, status) == WithStatus(a, status) + WithStatus(b, status)
  {
    if a != [] {
      assert (a + b)[1..] == a[1..] + b;
      WithStatusConcat(a[1..], b, status);
    } else {
      assert a + b == b;
    }
  }

  lemma {:induction false} WithoutIdConcat(a: seq<Row>, b: seq<Row>, id: int)
    ensures WithoutId(a + b, id) == WithoutId(a, id) + WithoutId(b, id)
  {
    if a != [] {
      assert (a + b)[1..] == a[1..] + b;
      WithoutIdConcat(a[1..], b, id);
    } else {
      assert a + b == b;
    }
  }

  /** Two getters filtering on different labels never select more records
      than there are: a record has one status. */
  lemma {:induction false} DisjointFiltersBound(rs: seq<Row>, s1: string, s2: string)
    requires s1 != s2
    ensures |WithStatus(rs, s1)| + |WithStatus(rs, s2)| <= |rs|
  {
    if rs != [] {
      DisjointFiltersBound(rs[1..], s1, s2);
    }
  }

  /** Removing an id that no record carries leaves the sequence as it is. */
  lemma {:induction false} WithoutIdAbsent(rs: seq<Row>, id: int)
    requires forall j :: 0 <= j < |rs| ==> rs[j].id != id
    ensures WithoutId(rs, id) == rs
  {
    if rs != [] {
      WithoutIdAbsent(rs[1..], id);
      assert [rs[0]] + rs[1..] == rs;
    }
  }

  /** Deleting the same id twice removes nothing more the second time. */
  lemma WithoutIdIdempotent(rs: seq<Row>, id: int)
    ensures WithoutId(WithoutId(rs, id), id) == WithoutId(rs, id)
  {
    var once := WithoutId(rs, id);
    forall j | 0 <= j < |once| ensures once[j].id != id {
      assert once[j] in once;
    }
    WithoutIdAbsent(once, id);
  }

  // ---------------------------------------------------------------------
  // Lookup by id (Array.prototype.findIndex)

  /** `j` is the first position holding a record with this id. */
  predicate FirstMatch(rs: seq<Row>, id: int, j: int) {
    0 <= j < |rs| && rs[j].id == id && forall k :: 0 <= k < j ==> rs[k].id != id
  }

  /** The first index whose record has this id, or -1 when none has. */
  function FindIndex(rs: seq<Row>, id: int): (i: int)
    ensures -1 <= i < |rs|
    ensures i == -1 <==> forall j :: 0 <= j < |rs| ==> rs[j].id != id
    ensures forall j :: FirstMatch(rs, id, j) <==> i != -1 && j == i
  {
    if rs == [] then -1
    else if rs[0].id == id then 0
    else
      var k := FindIndex(rs[1..], id);
      assert forall j :: FirstMatch(rs, id, j) <==> 0 < j && FirstMatch(rs[1..], id, j - 1);
      if k == -1 then -1 else k + 1
  }
}
