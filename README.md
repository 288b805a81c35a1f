# refine-firebase: a Dafny model of the Firebase adapters

This project models the two adapters of refine-firebase, which connect a web framework's
auth-provider and data-provider contracts to the Firebase SDK.

- The **database adapter** (`FirestoreDatabase`) turns list requests into Firestore queries.
  It strips file fields from payloads, uploads their files to storage, assembles the records it
  returns, and filters documents by id.
- The **auth adapter** (`FirebaseAuth`) maps the outcome of every vendor call to the result record
  the framework expects. It holds a little client state: the tenant id and the persistence mode.

Every Firebase SDK call is a parameter of the model.

- Document-store calls are the arrow-typed fields of `Firestore`: `getDocs`, `getDoc`, `addDoc`, `updateDoc`.
- Storage uploads are the fields of `Storage`: the download URL of a path, and the clock reading of that upload.
- Auth calls are outcome values (`SignInOutcome`, `Call`) or a function from a request to its outcome.
- A call that throws inside one of the adapter's swallowing `catch` blocks makes the operation yield
  nothing (`None`).
- The overridable `requestPayloadFactory` and `responsePayloadFactory` hooks are the `Hooks` parameter.
  `IDENTITY_HOOKS` is their default, which returns the fields unchanged.

Files:

- `Values.dfy`: `Option`, document values, JavaScript truthiness, file descriptors.
- `FirestoreQuery.dfy`: the operator table and the clause composition.
- `FirestoreFiles.dfy`: `transform` and `uploadFiles`.
- `FirestoreDatabase.dfy`: the data-provider operations.
- `FirebaseAuth.dfy`: the auth handlers and the held client.

Facts about the code that the model follows:

- an upload descriptor is `{src, title, fileName, uploadedAt}`; the code sets no `uploaded` flag and no `url` field;
- the storage path is `resource/docId/fieldName/name`;
- the code stamps no `createdAt`, `updatedAt`, `createdBy` or `updatedBy` field;
- `updateData` does no file handling and deletes nothing from storage, and neither does `deleteData`;
- `getOne` of a missing document yields `{id}`;
- `getList` builds `{id, ...data}`, so a stored `id` field wins, while `getOne` builds `{...data, id}`,
  so the document id wins.

## Model

| member | source | states |
|---|---|---|
| FirestoreQuery.GetFilterOperator | src/FirestoreDatabase.ts:247-271 | total; each of lt, lte, gt, gte, eq, ne, nin has its own token (`<`, `<=`, `>`, `>=`, `==`, `!=`, `not-in`), in both directions; exactly the other operators, `in` among them, give `in` |
| FirestoreQuery.WhereClauses | src/FirestoreDatabase.ts:31-34 | one where-clause per filter, in input order, carrying the field, the translated operator and the value |
| FirestoreQuery.OrderClauses | src/FirestoreDatabase.ts:35 | one orderBy-clause per sorter, in input order |
| FirestoreQuery.GetFilterQuery | src/FirestoreDatabase.ts:29-47 | the bare collection reference exactly when there are neither filters nor sorters; otherwise all where-clauses in filter order followed by all orderBy-clauses in sorter order |
| FirestoreQuery.FiltersPrecedeSorters | src/FirestoreDatabase.ts:37-38 | in a composed query every clause after an orderBy-clause is an orderBy-clause |
| FirestoreFiles.Stripped | src/FirestoreDatabase.ts:49-64 | without file fields the variables unchanged; with them exactly the fields not named, values unchanged |
| FirestoreFiles.StrippedIdempotent | src/FirestoreDatabase.ts:50-59 | stripping twice equals stripping once |
| FirestoreFiles.Transform | src/FirestoreDatabase.ts:49-64 | the field-by-field copy loop computes `Stripped` |
| FirestoreFiles.TitleOf | src/FirestoreDatabase.ts:92 | the file's title when it is non-empty, else the file's name |
| FirestoreFiles.SelectedFields | src/FirestoreDatabase.ts:69-78 | a field is uploaded exactly when file fields are declared, it is named among them and its value is truthy |
| FirestoreFiles.FieldUploads | src/FirestoreDatabase.ts:82-97 | succeeds exactly when every file's upload succeeds; then one descriptor per file, in order, with the download URL of its path, its title, its path and its clock reading |
| FirestoreFiles.UploadedFields | src/FirestoreDatabase.ts:66-101 | rejects exactly when the upload of some file of some selected field fails; on success the keys are exactly the truthy fields named in the file fields |
| FirestoreFiles.NoFilesNoUploads | src/FirestoreDatabase.ts:66-101 | without declared file fields the result is `{}` |
| FirestoreFiles.UploadedDescriptors | src/FirestoreDatabase.ts:82-98 | per field, as many descriptors as files in the same order; `fileName` is `resource/docId/fieldName/name`, `title` the given title or else the name, `src` the URL of that path |
| FirestoreFiles.CollectFileFields | src/FirestoreDatabase.ts:67-78 | the first loop collects exactly the selected fields |
| FirestoreFiles.UploadField | src/FirestoreDatabase.ts:82-98 | the per-file loop computes `FieldUploads`, stopping at the first failed upload |
| FirestoreFiles.UploadFiles | src/FirestoreDatabase.ts:66-102 | the two loops together compute `UploadedFields` |
| FirestoreDatabase.Assemble | src/FirestoreDatabase.ts:114-124 | `{id, ...payload, ...uploads}`: the union of the keys; an upload overrides a payload field; a payload field overrides `id`; `id` is the document id when neither part has one |
| FirestoreDatabase.CreateData | src/FirestoreDatabase.ts:104-129 | no record exactly when the insert throws, or file fields are declared and an upload or the write of the uploads throws; a created record's keys are `id`, the payload's keys and the selected file fields; an uploaded field overrides a payload field of the same name, and every other payload field keeps its value; `id` is the new document's id unless the payload or an upload carries one |
| FirestoreDatabase.CreateDataWithoutFiles | src/FirestoreDatabase.ts:120-125 | without file fields the record is `{id: docId, ...payload}` of the unchanged variables |
| FirestoreDatabase.CreateDataStoresNoFileField | src/FirestoreDatabase.ts:107-108 | the first write of the document holds no declared file field (default hooks) |
| FirestoreDatabase.CreateDataWithFiles | src/FirestoreDatabase.ts:110-119 | with file fields (default hooks): non-file fields keep their values, truthy file fields hold exactly the descriptor list `uploadFiles` computed for them, falsy file fields are absent, and `id` is the new document's id unless the variables carry one |
| FirestoreDatabase.CreateManyData | src/FirestoreDatabase.ts:132-140 | always resolves, wrapping the possibly absent result of `createData` |
| FirestoreDatabase.ListData | src/FirestoreDatabase.ts:162-181 | a list exactly when the composed query's read succeeds; then one record per snapshot document, in snapshot order, each `{id, ...data}` through the response hook |
| FirestoreDatabase.ListDataIgnoresPagination | src/FirestoreDatabase.ts:162-177 | the result of `getList` does not depend on the pagination |
| FirestoreDatabase.ListRecordStoredIdWins | src/FirestoreDatabase.ts:172-175 | a listed record has the document's keys plus `id`; `id` is the stored `id` field when there is one, else the document id; every other stored field keeps its value |
| FirestoreDatabase.GetList | src/FirestoreDatabase.ts:162-182 | runs the composed query and returns one record per snapshot document, in snapshot order |
| FirestoreDatabase.Kept | src/FirestoreDatabase.ts:191-198 | keeps only snapshot documents whose id is requested, never more than the snapshot holds |
| FirestoreDatabase.KeptConcat | src/FirestoreDatabase.ts:191-198 | filtering distributes over concatenation, so snapshot order is preserved |
| FirestoreDatabase.KeptMembers | src/FirestoreDatabase.ts:192 | a document is kept exactly when it is in the snapshot and its id is among the requested ids |
| FirestoreDatabase.KeptAll | src/FirestoreDatabase.ts:191-198 | when every id is requested, every document is kept |
| FirestoreDatabase.ManyData | src/FirestoreDatabase.ts:184-202 | a list exactly when the collection read succeeds; then exactly the records of the `Kept` documents (the requested ones, in snapshot order), so no more records than documents, each from a requested snapshot document |
| FirestoreDatabase.GetMany | src/FirestoreDatabase.ts:184-203 | reads the whole collection and computes the records of exactly the requested documents, in snapshot order |
| FirestoreDatabase.GetOne | src/FirestoreDatabase.ts:205-220 | a record exactly when resource and id are non-empty and the read succeeds |
| FirestoreDatabase.GetOneRecord | src/FirestoreDatabase.ts:205-220 | a record exactly when resource and id are non-empty and the read succeeds; its `id` is always the requested id; its keys are the stored keys plus `id` and no other; other stored fields are unchanged; a missing document gives `{id}` |
| FirestoreDatabase.UpdateData | src/FirestoreDatabase.ts:222-233 | returns the variables unchanged; nothing exactly when resource and id are given and the write throws |
| FirestoreDatabase.UpdateManyData | src/FirestoreDatabase.ts:234-244 | one write of the same payload per id, in id order |
| FirestoreDatabase.DeleteData | src/FirestoreDatabase.ts:142-150 | deletes exactly the document at resource and id |
| FirestoreDatabase.DeleteManyData | src/FirestoreDatabase.ts:152-160 | one delete per id, in id order |
| FirebaseAuth.Sent | src/FirebaseAuth.ts:187-198 | awaited calls in a `try` are sent in order; the sent calls are a prefix of the plan, and every one before the last returned |
| FirebaseAuth.NoRaiseSendsAll | src/FirebaseAuth.ts:187-211 | no error exactly when every planned call returns, and then every planned call is sent |
| FirebaseAuth.RaiseStopsSending | src/FirebaseAuth.ts:212-220 | when a call raises, it is the last one sent and its message is the one reported |
| FirebaseAuth.PersistenceFor | src/FirebaseAuth.ts:38 | local persistence exactly when `remember`, session persistence otherwise |
| FirebaseAuth.SignInResult | src/FirebaseAuth.ts:32-73 | success with redirect `/` exactly when a client is held and a non-empty token comes back; a missing or empty token gives the invalid-credentials name; a thrown error gives its message as name; every failure has message `Login Error`; no client gives `Authentication provider not found` |
| FirebaseAuth.SignInVariantsAgree | src/FirebaseAuth.ts:90-128 | the phone sign-in result equals the password sign-in result except on a missing token, where only the name differs (`Invalid OTP`) |
| FirebaseAuth.LogOut | src/FirebaseAuth.ts:130-136 | sends one sign-out; then always `{success, redirectTo: "/login"}`; nothing only when the sign-out raises |
| FirebaseAuth.Register | src/FirebaseAuth.ts:138-162 | the plan is: create the user, send the verification, then update the display name only when a user was created and the name is non-empty; a `Register Error` exactly when a planned call raises, carrying the first raised message; otherwise redirect `/` with a created user; nothing when no user was created |
| FirebaseAuth.ResetPassword | src/FirebaseAuth.ts:164-183 | an empty email sends nothing and yields nothing; otherwise one reset request, then redirect `/login` or `Password Reset Error` with the raised message |
| FirebaseAuth.UpdatePlan | src/FirebaseAuth.ts:190-198 | the password is updated only when given; the email only when given and different from the user's; the display name only when given and different; nothing else; at most three requests, in the order password, email, display name |
| FirebaseAuth.CheckAuth | src/FirebaseAuth.ts:223-239 | authenticated exactly when a user is present; otherwise redirect `/login`, logout, and name `User not found` |
| FirebaseAuth.OnError | src/FirebaseAuth.ts:241-247 | always redirect `/login` with logout and the error passed through unchanged |
| FirebaseAuth.EmailIdentity | src/FirebaseAuth.ts:262-267 | id is the email, name the display name, avatar the photo URL, each `""` when absent or empty |
| FirebaseAuth.PhoneIdentity | src/FirebaseAuth.ts:291-296 | as the email identity, except that the id is the phone number or `""` |
| FirebaseAuth.UserIdentity | src/FirebaseAuth.ts:258-285 | the cached user's identity when one is cached, else the first event's user's identity; rejected exactly when neither exists |
| FirebaseAuth.FirebaseAuth.constructor | src/FirebaseAuth.ts:9-14 | the held client's initial settings |
| FirebaseAuth.FirebaseAuth.LogIn | src/FirebaseAuth.ts:32-73 | with a client: the tenant is set only when one is supplied, the persistence from `remember`, the result as `SignInResult`; without a client nothing changes |
| FirebaseAuth.FirebaseAuth.PhoneOtpLogIn | src/FirebaseAuth.ts:90-128 | sets persistence as the password sign-in does and leaves the tenant alone; the result as `SignInResult` with `Invalid OTP` |
| FirebaseAuth.FirebaseAuth.RequestOtp | src/FirebaseAuth.ts:75-88 | the confirmation handle exactly when a client is held and the request succeeds, else null |
| FirebaseAuth.FirebaseAuth.UpdateUserData | src/FirebaseAuth.ts:185-221 | nothing without a client or current user; otherwise the planned updates are sent until one raises; the result is an `Update User Data` failure exactly when one raises, with the first raised message; on success redirect `/login` exactly when a password was supplied, else `/` |
| FirebaseAuth.FirebaseAuth.Permissions | src/FirebaseAuth.ts:249-256 | the token's claims when a user is signed in, else null |

## Left out

- Firebase SDK calls (sign-in, `addDoc`, `getDocs`, `uploadBytes`, `getDownloadURL`, `updateDoc`, `deleteDoc`, …): network I/O into a library that is not part of this model; they are parameters (`Firestore`, `Storage`, outcome values).
- The document store itself: no state is kept between operations, so a create followed by a read is not related.
- `onAuthStateChanged` subscription and unsubscription in `getUserIdentity`, `getPhoneUserIdentity` and `getFirebaseUser`: callback plumbing; the model takes the first event's user as a parameter, and an event that never fires is not modelled.
- CheckAuth: the error observer that `getFirebaseUser` passes to `onAuthStateChanged` (src/FirebaseAuth.ts:354) rejects, and then `handleCheckAuth` rejects as well; the model only covers an event with or without a user.
- `Promise.all` in `uploadFiles` and the unawaited loops of `deleteManyData` and `updateManyData`: concurrency; the model runs them in sequence. `UpdateManyData` and `DeleteManyData` return the calls they issue, and the outcomes of those calls are not modelled.
- `Date.now()` for `uploadedAt`: nondeterministic; it is `Storage.clock`, read per storage path.
- `RecaptchaVerifier` and its DOM container: UI code; a failure to build it is part of the `requestOtp` outcome.
- `requestPayloadFactory` and `responsePayloadFactory`: their class is not part of this model; they are the abstract `Hooks` parameter.
- `getAuthProvider`, `getPhoneOTPAuthProvider`, `getAuthObject`, `getCollectionRef`, `getDocRef`, `useDeviceLanguage` and the constructors' `bind` calls: wiring only.
- The type-only files `src/index.ts`, `src/interfaces/index.ts`, `src/interfaces/ILogin.ts` and `src/interfaces/IFile.ts`. `ILoginArgs`, `IRegisterArgs` and `FirebaseFile` are mirrored as datatypes.
- The swallowed `Promise.reject(error)` calls: their only effect is that the operation yields nothing (`None`).
- The order of object keys: records are dictionaries, and JavaScript's insertion order is not modelled.
- Floating-point numbers: numbers are integers, so `NaN` is not among the falsy values.
- `getList`'s `current` and `limit`: they are computed and never used, so only their absence of effect is stated.
- Values spread from the vendor's user object into an identity: modelled as carrying the `User` value along.
- ItemsOf: a truthy file-field value that is not a list of files yields no descriptors. The code would iterate its `length` (a string's characters, say).
- FirebaseAuth.FirebaseAuth.LogIn: a `setPersistence` call that throws is folded into the `Threw` outcome, and the model still records the requested mode.
- FirebaseAuth.FirebaseAuth.PhoneOtpLogIn: a `setPersistence` call that throws is folded into the `Threw` outcome, and the model still records the requested mode.
- FirebaseAuth.FirebaseAuth.Permissions: a throwing `getIdTokenResult` rejects in the code; the model only covers a missing token result.
