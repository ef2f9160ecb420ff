# Two-factor authentication with MessageBird Verify — a Dafny model

This project models the decision logic of a Laravel two-factor-authentication
package. There are two parts:

- **The per-user association record** (the `TwoFactorAuthenticable` trait). The
  twofactor_auths table has one record per user, because `user_id` is its
  primary key. A record holds the id of the user's current MessageBird
  verification session. A configured enablement mode decides how a new id is
  written:
  - `per_user` (the default when nothing is configured) updates the existing
    record and never inserts one.
  - `always` checks whether the record exists and then creates or updates it.
    This happens inside one transaction.
  - Any other mode writes nothing.
- **The MessageBird Verify provider** (`MessageBirdVerify`). `sendSMSToken`
  starts a session for the user's mobile number and stores the session's id.
  `verify` submits a token for the stored session. It turns the service's one
  generic `RequestException` into TokenInvalid, TokenExpired or
  TokenAlreadyProcessed by matching its exact message; any other failure is
  thrown again unchanged. `unregister` deletes the remote session and then
  clears the stored id. `enabled` reports whether the user has a record, and
  `register` does nothing.

Files:

- `wrappers.dfy`: `Option` (PHP's null) and `Result` (a value or the exception raised instead).
- `messagebird_client.dfy`: the remote service. It is a class whose answers
  come from three oracle functions, each given every call made so far. The
  class keeps a real log of the calls, so contracts can say which remote calls
  happened, with which arguments and in which order.
- `two_factor_auth.dfy`: the table as a `map` from user id to the record's
  nullable id column. Pure functions give each table operation and the mode
  dispatch. The `AssociationStore` class changes the map in place, and each of
  its methods is proved to do what the matching function says.
- `messagebird_verify.dfy`: the provider. `Classify` and `VerifyOutcome` are
  the pure decision logic of `verify`. The `MessageBirdVerify` class calls the
  client and the store in the order the source does.

Errors are values. `ProviderError` holds the three token exceptions, a client
exception passed on unchanged (`Remote`), the missing-mobile exception
(`NoMobileNumber`) and store failures (`Store`). A store failure is either
`MissingRecord`, when the user has no record to update or read, or
`DuplicateRecord`, when an insert would repeat the primary key.

Details of the PHP code the model keeps:

- A mobile number counts as absent when it is null or the empty string, and
  also when it is `"0"`. PHP treats `"0"` as false in `!$user->mobile`.
- Only a `RequestException` is classified. Any other exception the client
  throws passes through unchanged, even if its message is one of the four.
- `per_user` writes and `getTwoFactorAuthId` fail when the user has no record,
  because the relation is null there.
- With an unrecognised mode, `unregister` still deletes the remote session, but
  the stored id is not cleared. This is because `setTwoFactorAuthId` writes
  nothing in that mode.
- The status constant `Verify::STATUS_VERIFIED` is modelled as the string
  `"verified"`.

## Model

| member | source | states |
|---|---|---|
| `TwoFactorAuth.Mode` | src/TwoFactorAuthenticable.php:29 | the enablement mode is the configured value, and `per_user` when the setting is not configured |
| `TwoFactorAuth.UpdateRecord` | src/TwoFactorAuthenticable.php:32 | succeeds exactly when the user has a record; the table then keeps the same keys, the user's id is the new one and other users are untouched; otherwise MissingRecord |
| `TwoFactorAuth.CreateRecord` | src/TwoFactorAuthenticable.php:57 | succeeds exactly when the user has no record (user_id is the primary key); adds that one key with the new id and touches no other user; otherwise DuplicateRecord |
| `TwoFactorAuth.UpsertRecord` | src/TwoFactorAuthenticable.php:52-61 | the check-then-create-or-update never fails; afterwards the user has exactly one record holding the new id, the key set grows by at most that user, and others are untouched |
| `TwoFactorAuth.AssignHandle` | src/TwoFactorAuthenticable.php:27-37 | per_user (also the unconfigured default): succeeds iff a record exists and never adds a key; always: always succeeds and leaves the user's key present; any other mode: the table is unchanged; on success the user holds the new id and other users are untouched |
| `TwoFactorAuth.StoredAfterAssign` | src/TwoFactorAuthenticable.php:44-47 | after a successful write in per_user or always mode, reading back gives the id just written, and reading any other user gives what it gave before |
| `TwoFactorAuth.AssignIdempotent` | src/TwoFactorAuthenticable.php:56-60 | writing the same id twice leaves the table as writing it once: one record, no duplicate |
| `TwoFactorAuth.AssignEachOutcome` | src/TwoFactorAuthenticable.php:27-37 | any sequence of serialized writes for one user ends with the last written id (per_user with a record, or always); per_user without a record fails with MissingRecord; any other mode leaves the table unchanged |
| `TwoFactorAuth.InsertsAtMostOnce` | src/TwoFactorAuthenticable.php:54-60 | among any sequence of serialized writes for one user, exactly one brings a record into existence when the mode is always and there was none, and none otherwise |
| `TwoFactorAuth.AssociationStore.Exists` | src/TwoFactorAuthenticable.php:56 | reports whether the user has a record |
| `TwoFactorAuth.AssociationStore.Create` | src/TwoFactorAuthenticable.php:57 | the table becomes what CreateRecord says, or the error is returned and the table is unchanged |
| `TwoFactorAuth.AssociationStore.Update` | src/TwoFactorAuthenticable.php:59 | the table becomes what UpdateRecord says, or the error is returned and the table is unchanged |
| `TwoFactorAuth.AssociationStore.UpsertTwoFactorAuthId` | src/TwoFactorAuthenticable.php:52-61 | the table becomes what UpsertRecord says, the call succeeds and the user's record holds the new id |
| `TwoFactorAuth.AssociationStore.SetTwoFactorAuthId` | src/TwoFactorAuthenticable.php:27-37 | the table becomes what AssignHandle says for the given mode, or its error is returned and the table is unchanged |
| `TwoFactorAuth.AssociationStore.GetTwoFactorAuthId` | src/TwoFactorAuthenticable.php:44-47 | returns the stored (possibly null) id when the user has a record, and MissingRecord otherwise |
| `MessageBirdClient.Client.Create` | src/Providers/MessageBirdVerify.php:131-134 | logs exactly one create call with the recipient and the options, and returns the oracle's answer |
| `MessageBirdClient.Client.Verify` | src/Providers/MessageBirdVerify.php:88 | logs exactly one verify call with the id and the token, and returns the oracle's answer |
| `MessageBirdClient.Client.Delete` | src/Providers/MessageBirdVerify.php:66 | logs exactly one delete call with the id, and returns the oracle's answer |
| `Providers.Classify` | src/Providers/MessageBirdVerify.php:89-106 | a RequestException is TokenInvalid iff its message is one of the two invalid-token messages, TokenExpired iff it is the expired message, and TokenAlreadyProcessed iff it is the already-processed message; these kinds never overlap and keep the message; every other failure is returned unchanged |
| `Providers.VerifyOutcome` | src/Providers/MessageBirdVerify.php:87-113 | without a failure, the result is true iff the status is "verified" and false for any other status; a failure always becomes the classified error and is never swallowed |
| `Providers.ClassifyAgreesWithTable` | src/Providers/MessageBirdVerify.php:92-105 | the comparison chain classifies every failure exactly as a lookup in the four-row message table does, and leaves unmatched and non-request failures unchanged |
| `Providers.HasMobile` | src/Providers/MessageBirdVerify.php:124 | a mobile number is present only when it is a non-empty string; every string of two or more characters counts, and of the one-character strings only "0" does not (null, `""` and `"0"` are false in PHP) |
| `Providers.MessageBirdVerify.constructor` | src/Providers/MessageBirdVerify.php:31-34 | keeps the given client |
| `Providers.MessageBirdVerify.Enabled` | src/Providers/MessageBirdVerify.php:42-45 | true iff the user has a record; changes nothing |
| `Providers.MessageBirdVerify.Register` | src/Providers/MessageBirdVerify.php:53-56 | neither the store nor the client changes |
| `Providers.MessageBirdVerify.Unregister` | src/Providers/MessageBirdVerify.php:64-70 | with no record: fails before any remote call; otherwise exactly one delete call with the id stored before the call; if the delete throws, that failure is returned and the stored id is kept; if not, the id is cleared as setTwoFactorAuthId(null) says and the delete's result is returned (in per_user and always mode the record then holds null, all else unchanged) |
| `Providers.MessageBirdVerify.Verify` | src/Providers/MessageBirdVerify.php:79-113 | with no record: fails with no remote call; otherwise exactly one verify call with the stored id and the token, and the result is VerifyOutcome of the answer; the store is never written |
| `Providers.MessageBirdVerify.SendSMSToken` | src/Providers/MessageBirdVerify.php:122-137 | without a mobile number: NoMobileNumber, no remote call and nothing stored; otherwise exactly one create call to that number with the options; a failed create stores nothing; a created session's id is written as AssignHandle says, or the store's error is returned with nothing stored |

## Left out

- The HTTP transport of the MessageBird client and its authentication. The service is an oracle whose answers may depend on all earlier calls.
- The remote session's own lifecycle (pending, verified, expired, processed). The remote side owns it; the oracle stands for it.
- `DB::transaction` as a concurrency mechanism. The upsert is one atomic step. Concurrent requests are modelled as a serialized sequence of writes (`AssignEach`, `Inserts`).
- Storage failures such as an unavailable database. Only the missing-record and duplicate-key failures of the code paths are modelled.
- `config(...)` lookups. The enablement mode is a parameter: `None` means not configured. A configured value that is not a string behaves like an unrecognised one. The provider options are an opaque map passed through to create.
- Eloquent relation plumbing (`hasOne`, `belongsTo`, the lazily cached model name, and the caching of a loaded relation). The store is keyed by user id and always current.
- PHP type errors. `unregister` passes null to the string-typed `setTwoFactorAuthId`, and `getTwoFactorAuthId` is declared to return a string even when the id column is null. The model keeps the id optional and follows the evident intent, which is to store and read null.
- The wording of the missing-mobile exception. The error carries the user id it names.
- `Providers.MessageBirdVerify.Enabled`: the source returns the related record itself, which PHP treats as true or false; the model returns that boolean.
