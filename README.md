# Land and transfer stores: a Dafny model

The application keeps two client-side stores: one for land registrations and one for ownership transfers. Each store holds three things:

- a cached sequence of records;
- a `loading` flag;
- an `error` slot.

Each store also has five actions: fetch, add, update status, delete and clear error. The add action is a two-phase submission:

1. upload the supporting document to the object store;
2. look up the document's public URL;
3. insert a `pending` row that points at that URL;
4. if the insert fails, remove the uploaded document again.

The two stores are the same code with different constants. So the model is one class, `Store.RecordStore`, whose `kind` (`Land` or `Transfer`) selects:

- the table (`land` / `transfers`);
- the upload folder (`land-documents/` / `transfer-contracts/`);
- the label of the second getter (`approved` / `completed`);
- the message raised when no public URL comes back.

The text of `src/stores/transferStore.ts` follows `src/stores/landStore.ts` closely: up to line 76 the line numbers are the same; from landStore.ts:77 on, transferStore's are one lower (its insert payload has one field fewer). The table below cites one of the two files per member.

The backend (Supabase storage and tables) is not modelled as code. Each action takes the backend's replies as parameters, so the caller chooses every outcome. A ghost `log` records what the backend and the user observe, in order:

- each request, as `Sent(op, whileLoading)`, carrying the store's `loading` flag at the moment it was issued;
- each toast, as `Notified(success)`.

Because the actions' contracts give the exact log, they also show:

- the order of the calls;
- that compensation happens only where the code does it;
- that every request goes out while `loading` is set.

An action's returned `Failure` stands for the error it rethrows.

Modules:

- `Wrappers`: `Option`, `Result` and `Outcome`.
- `Records`: the entity kinds and their constants, the row types, and the pure operations the store uses. These are the order-preserving filters behind `filter`, plus `findIndex`.
- `Paths`: the storage path. It is `prefix + Date.now() + "." + name.split('.').pop()`. The timestamp and the file name are inputs.
- `Gateway`: the requests, the trace events and projections of a trace.
- `Store`: the store class, and the pure description of a submission (`SubmitResult`, `SubmitTrace`) with its lemmas.
- `Scenarios`: worked examples that use only the contracts: the path of a deed, a stored and then approved deed, a refused insert, and a repeated delete.

Four behaviours of the code that a reader might not expect are kept as they are:

- A successful fetch shows no toast.
- A status update for an id that no cached record has changes nothing locally (the server's row is then dropped).
- A missing public URL leaves the uploaded object in place.
- Two uploads of the same kind, in the same millisecond and with the same extension get the same storage path: `StoragePathsDistinct` separates paths only by kind or by millisecond, and `StoragePathIgnoresStem` shows that the rest of the file name is not part of the path.

## Model

| member | source | states |
|---|---|---|
| `Store.RecordStore.constructor` | src/stores/landStore.ts:9-11 | a new store is empty, not loading and has no error |
| `Store.RecordStore.Count` | src/stores/landStore.ts:14-16 | the record count bounds the pending and settled getters together |
| `Store.RecordStore.Pending` | src/stores/landStore.ts:15 | holds exactly the cached records whose status is `pending` |
| `Store.RecordStore.Settled` | src/stores/transferStore.ts:16 | holds exactly the cached records with the kind's settled label (`completed` for transfers, `approved` for land) |
| `Records.WithStatus` | src/stores/landStore.ts:15-16 | the status filter keeps a record iff it has that status, and never grows the sequence |
| `Records.WithStatusConcat` | src/stores/transferStore.ts:15-16 | the status filter preserves order: it distributes over concatenation |
| `Records.DisjointFiltersBound` | src/stores/transferStore.ts:14-16 | filters on two different labels together select at most the record count |
| `Store.RecordStore.Fetch` | src/stores/landStore.ts:19-40 | a success replaces the records with the data, or `[]` when the data is null, and clears the error. A failure keeps the records, stores the message, shows one error toast and is not passed on. Either way there is one ordered `select` sent while loading, and loading is released |
| `Store.RecordStore.Add` | src/stores/landStore.ts:42-100 | the result and log are those of `SubmitResult` and `SubmitTrace` for the derived path. On success the returned row is prepended to the unchanged old records and the error is clear. On failure the records are unchanged and the error slot holds the returned message. Loading is released |
| `Store.SubmitResult` | src/stores/landStore.ts:52-92 | a submission succeeds iff the upload passes, a URL comes back and the insert returns a row, and then yields exactly that row. |
| `Store.SubmitErrorMessages` | src/stores/landStore.ts:56-85 | a failed upload gives 'File upload failed: ' followed by the storage message. A missing URL gives the kind's fixed message. A failed insert gives 'Database error: ' followed by the database message |
| `Store.SubmitTraceCollect` | src/stores/landStore.ts:52-92 | whatever a projection picks from a submission's trace is the picks of its steps in the order the code takes them: upload, lookup, insert, then removal and the error toast on a failed insert, or the success toast |
| `Store.SubmitUploadsOnce` | src/stores/transferStore.ts:49-58 | every submission uploads once, to the derived storage path |
| `Store.SubmitCompensation` | src/stores/landStore.ts:82-85 | `remove([filePath])` for the uploaded path is requested exactly once when the insert fails, and never otherwise: not after a failed upload, not after a missing URL |
| `Store.SubmitInsertsPending` | src/stores/transferStore.ts:69-79 | exactly one row is inserted iff the upload and URL lookup succeeded. It has status `pending` and the public URL as its document |
| `Store.SubmitNotifiesOnce` | src/stores/transferStore.ts:88-95 | every request of a submission is sent while loading. Each submission shows exactly one toast, and it reports success iff a row came back |
| `Paths.ExtensionIsLastSegment` | src/stores/landStore.ts:49 | the extension contains no dot and ends the name. It is the whole name when there is no dot; otherwise a dot stands right before it |
| `Paths.ExtensionAfterDot` | src/stores/transferStore.ts:49 | whatever precedes the last dot, `split('.').pop()` yields the text after it |
| `Paths.Decimal` | src/stores/landStore.ts:50 | the rendered timestamp is a non-empty string of digits with no leading zero |
| `Paths.DecimalRoundTrip` | src/stores/landStore.ts:50 | reading the rendered timestamp back gives the timestamp |
| `Paths.DecimalInjective` | src/stores/transferStore.ts:50 | distinct timestamps render differently |
| `Scenarios.DeedPath` | src/stores/landStore.ts:49-50 | a deed named `deed.pdf` uploaded at `ts` is stored at `land-documents/<ts>.pdf` |
| `Paths.StoragePathKeepsExtension` | src/stores/landStore.ts:49-50 | the storage path ends in the uploaded file's extension |
| `Paths.StoragePathIgnoresStem` | src/stores/landStore.ts:49-50 | two files of the same kind, millisecond and extension get the same path whatever the rest of their names |
| `Paths.StoragePathsDistinct` | src/stores/transferStore.ts:50 | two uploads of different kinds or different milliseconds get different storage paths |
| `Store.RecordStore.UpdateStatus` | src/stores/landStore.ts:102-133 | sends one update while loading. On success only the first record with a matching id is replaced, by the server's row. Length and all other entries are kept, and nothing changes when no id matches. On failure the records are unchanged and the error is stored and returned. Exactly one toast is shown and loading is released |
| `Records.FindIndex` | src/stores/transferStore.ts:118 | returns -1 iff no record has the id; otherwise the first index holding it, which is the only position the update may replace |
| `Store.RecordStore.Delete` | src/stores/transferStore.ts:134-158 | sends one delete while loading. On success the records become the order-preserving filter `id != target`; on failure they are unchanged and the error is stored and returned. Exactly one toast is shown and loading is released |
| `Records.WithoutId` | src/stores/landStore.ts:150 | keeps a record iff its id differs from the target. No record with that id survives |
| `Records.WithoutIdConcat` | src/stores/transferStore.ts:149 | the survivors of a delete keep their order |
| `Records.WithoutIdAbsent` | src/stores/landStore.ts:150 | deleting an id no cached record has leaves the sequence as it is |
| `Records.WithoutIdIdempotent` | src/stores/transferStore.ts:149 | deleting the same id again leaves the sequence the same |
| `Store.RecordStore.ClearError` | src/stores/landStore.ts:161-163 | empties the error slot and touches nothing else |

## Left out

- Asynchrony and interleaving. Each action is one sequential step, so concurrent submissions and an abandoned await are not modelled.
- Supabase client construction and environment variables (`src/lib/supabaseClient.ts`), app start-up (`src/main.ts`), and the vue-query composables (`src/composables/`). These are configuration and plumbing outside the stores.
- The backend itself. Every reply is a parameter. A request that rejects instead of returning an error object is not modelled, and neither is a `fetchError` without a message.
- `Store.RecordStore.Add`: the reply of `remove` is ignored, as in the code. A `remove` call that itself throws (which would surface instead of the database error) is not modelled.
- The fallback messages for thrown values that are not `Error`s ('Failed to fetch land records', and so on). In the model every failure carries a message.
- Toast wording. Only one notification per outcome and its success or failure are recorded.
- Vue reactivity. `ref` and `computed` become a plain field and pure functions.
- File bytes and the `File` object. Only the file name is used. `Date.now()` is a natural-number parameter.
- Server-side ordering by `created_at` and server-side defaults. The rows the backend returns are taken as they come.
- Row fields that the stores only pass through (for example `created_at`). Land `size` is a `real`.
