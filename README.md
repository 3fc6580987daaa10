# Account, identity and stream logic of the TogetherStream backend, and the iOS device-token encoder

This project models, in Dafny, the user controller of the TogetherStream
backend (`backend/user/user.controller.js`): how users are saved and
registered, how an external (Facebook) account is linked to a user, how two
user ids are merged, how a user's stream is fetched or created, how a fresh
user id is generated, and how an external authentication is processed. It
also models the encoder the iOS client uses to turn its push-notification
device token into a string (`AppDelegate.swift`, line 49).

The backend works on three tables:

- `users`: a map from a user id to its device token, which may be NULL;
- `external_auth`: rows holding the external account id, the provider, the
  sealed access and refresh tokens (cipher, iv, tag) and the owning `user_id`;
- `streams`: rows holding a serial id, `user_id`, `csync_path`,
  `stream_name` and `description`.

Every promise or callback chain runs as one sequence of statements on one
client. The model has two layers:

- `Effects` and `Queries` give each operation as a function. A read-only
  query maps the tables to a result. A state-changing operation maps the
  tables before to the tables after and to how its promise ends:
  `Ok(value)`, `Err` (rejected) or `NeverSettles`.
- `Store.Database` is a class with one field per table. Its methods issue
  the statements one at a time and are proved to have exactly the effect the
  functions describe. `Store.Request` holds `req.user`. The push onto
  `req.user.externalAccounts` (line 201) changes that field.

Database errors are an explicit input. Each run takes `failing`, the set of
statements the database rejects. A rejected statement changes nothing. The
model assumes that an UPDATE issued without a callback (lines 36, 66, 338)
fails without effect on the rest of the run; what the driver really does
with such an error (an unhandled rejection or an unlistened `'error'` event
may end the process) depends on pg and Node versions that the source does
not fix. A
rejection followed by a resolve (lines 40-42, 70-73) is a rejection, since
the first settlement wins. `processExternalAuthentication` rejects only when
its first lookup fails. Every later inner promise is chained with `.then`
and no rejection handler, so a failure there leaves the outer promise
unsettled. The model proves this (`Effects.ProcessRejectsOnlyOnLookupError`
and the other `Process…` lemmas).

`Math.random()` is an oracle: `Effects.Draw` is a real in [0, 1), and one
attempt of `generateId` is ten draws (`Effects.Attempt`). `securityHelper.decrypt`
with its configured key is a function parameter of
`Queries.GetExternalAccountAccessToken`.

The device token encoder is the left fold
`reduce("", { $0 + String(format: "%02X", $1) })`. The model proves that the
output has two upper-case hexadecimal digits per byte, high nibble first, that
the encoding distributes over concatenation, and that a decoder recovers the
bytes.

## Model

| member | source | states |
|---|---|---|
| `DeviceToken.Digit` | iOS/Stormtrooper/Stormtrooper/AppDelegate.swift:49 | the digit `%X` prints for a value below 16 is an upper-case hexadecimal digit |
| `DeviceToken.Format02X` | iOS/Stormtrooper/Stormtrooper/AppDelegate.swift:49 | `String(format: "%02X", b)` is exactly two characters, both upper-case hexadecimal digits |
| `DeviceToken.Reduce` | iOS/Stormtrooper/Stormtrooper/AppDelegate.swift:49 | the fold `reduce(acc, {$0 + String(format: "%02X", $1)})` keeps the accumulator as a prefix and adds two characters per byte |
| `DeviceToken.Encode` | iOS/Stormtrooper/Stormtrooper/AppDelegate.swift:49 | the fold seeded with `""` gives a string twice as long as the token, empty for the empty token; its other properties are the `Encode…` lemmas |
| `DeviceToken.ReduceFrom` | iOS/Stormtrooper/Stormtrooper/AppDelegate.swift:49 | the fold started from any accumulator yields that accumulator followed by the encoding of the bytes |
| `DeviceToken.EncodeCons` | iOS/Stormtrooper/Stormtrooper/AppDelegate.swift:49 | a byte contributes its `%02X` field in front of the encoding of the bytes after it |
| `DeviceToken.EncodeAppend` | iOS/Stormtrooper/Stormtrooper/AppDelegate.swift:49 | encoding a concatenation is the concatenation of the encodings |
| `DeviceToken.EncodeAt` | iOS/Stormtrooper/Stormtrooper/AppDelegate.swift:49 | byte i is written at 2i and 2i+1 as the digit of b / 16 then the digit of b % 16, so bytes below 16 get a leading '0' |
| `DeviceToken.EncodeAlphabet` | iOS/Stormtrooper/Stormtrooper/AppDelegate.swift:49 | every output character is in 0-9 or A-F |
| `DeviceToken.DecodeEncode` | iOS/Stormtrooper/Stormtrooper/AppDelegate.swift:49 | a hex decoder recovers the original bytes from the encoding |
| `DeviceToken.EncodeInjective` | iOS/Stormtrooper/Stormtrooper/AppDelegate.swift:49 | two tokens with the same encoding are equal |
| `Tables.OwnedBy` | backend/user/user.controller.js:106 | the rows `WHERE user_id=$1` selects: each row of the user as often as in the table, no row of another user |
| `Tables.OwnedByMembers` | backend/user/user.controller.js:106 | a row is selected if and only if it is in the table and belongs to the user |
| `Tables.Project` | backend/user/user.controller.js:106 | `SELECT id, provider, access_token, at_iv, at_tag` keeps one entry per row, in order, with the row's id, provider and access-token cipher, iv and tag as the fields getExternalAccountAccessToken reads |
| `Queries.GetUserById` | backend/user/user.controller.js:85-118 | read-only; null if and only if the users select succeeds and no row has the id; otherwise `{id, deviceToken}` of that row with the projected external_auth rows of the id; rejects exactly when either select fails |
| `Queries.GetUserByIdAccounts` | backend/user/user.controller.js:106-111 | the listed accounts are exactly the external_auth rows of the id, each as `{id, provider, access_token, at_iv, at_tag}`, without refresh token |
| `Queries.GetUserAccountByExternalAccount` | backend/user/user.controller.js:125-162 | a user is returned only if it exists and owns the first row recording (id, provider); null exactly when there is no such row or its owner has no users row; rejects exactly when a select that runs fails |
| `Queries.GetExternalAccountAccessToken` | backend/user/user.controller.js:284-293 | null if and only if no listed account has the provider; otherwise decrypt applied to the access-token fields of the first such account in list order |
| `Effects.SaveUser` | backend/user/user.controller.js:27-47 | afterwards a row with the id exists unless the INSERT is rejected; an existing row takes the new device token, a new row has none; no other user row and no other table changes; resolves with the argument unless the INSERT is rejected |
| `Effects.SaveExternalAccount` | backend/user/user.controller.js:55-78 | upsert keyed by (user_id, provider): if rows with the key exist, each takes the new id and tokens and every other row stays as it was; otherwise exactly one row is appended; users and streams unchanged |
| `Effects.UpdateByKey` | backend/user/user.controller.js:66 | the UPDATE keeps every row's (user_id, provider) key; rows with the key take the submitted id and both tokens; every other row is unchanged |
| `Effects.SaveExternalAccountLinks` | backend/user/user.controller.js:64-68 | after a save whose INSERT runs, a row with the key exists; if the UPDATE also ran, every such row carries the submitted id and tokens |
| `Effects.SaveExternalAccountKeepsKeysUnique` | backend/user/user.controller.js:64-68 | if there was at most one row per (user_id, provider) before, the same holds after |
| `Effects.Repoint` | backend/user/user.controller.js:338 | the UPDATE gives every row of `from` the owner `to`, changes no other field, leaves rows of other owners unchanged, and (for distinct ids) leaves no row owned by `from` |
| `Effects.MergeIds` | backend/user/user.controller.js:331-353 | every row of id2 now belongs to id1, every other row is unchanged, the users row id2 is deleted, streams unchanged; resolves with getUserByID(id1) on the new state, rejects if the DELETE fails |
| `Effects.MergeIdsLeavesNothingOfId2` | backend/user/user.controller.js:338-339 | after merging distinct ids, id2 has no users row and no external accounts, and id1 owns every account either of them owned |
| `Effects.MergeIdsCanDuplicateKey` | backend/user/user.controller.js:338 | unlike saveExternalAccount, a merge can leave one user with two rows for the same provider |
| `Effects.GetOrCreateStream` | backend/user/user.controller.js:230-276 | if the user owns a stream, the first one with its description and no table changes; otherwise one appended row with the next serial id, resolved without description; stream ids stay below the sequence value, so a created stream's id differs from every existing stream's id |
| `Effects.GetOrCreateStreamIdempotent` | backend/user/user.controller.js:241-269 | after a successful call, a second call inserts nothing and returns the same stream (same id, owner, path and name) |
| `Effects.CharFor` | backend/user/user.controller.js:303-306 | `possible.charAt(Math.floor(Math.random() * 62))` is a character of the 62-letter alphabet |
| `Effects.IdFrom` | backend/user/user.controller.js:302-307 | an attempt builds one alphabet character per draw |
| `Effects.GenerateId` | backend/user/user.controller.js:299-323 | a returned id is the id of the first attempt whose id has no users row (every earlier attempt's id is taken), ten alphanumeric characters; rejection only when a select fails; with no failures, it runs on exactly when every drawn id is taken |
| `Effects.ProcessExternalAuthentication` | backend/user/user.controller.js:170-223 | the decision table on "linked?" and "logged in?"; never touches streams, keeps `req.user` present exactly when it was and with the same id, and on rejection changes nothing; its cases are the `Process…` lemmas below |
| `Effects.ProcessRejectsOnlyOnLookupError` | backend/user/user.controller.js:170-222 | the promise rejects exactly when the link lookup fails, and then nothing has changed |
| `Effects.ProcessLinkedToSessionUser` | backend/user/user.controller.js:174-181 | linked to the logged-in user: resolves with `req.user` and no table changes |
| `Effects.ProcessLinkedToOtherUser` | backend/user/user.controller.js:182-185 | linked to another user: the tables become those of mergeIds(owner, req.user.id), and the promise never settles |
| `Effects.ProcessLinkedLoggedOut` | backend/user/user.controller.js:187-193 | linked and nobody logged in: resolves with getUserByID(owner), or never settles if that read fails; no table changes |
| `Effects.ProcessNewForSessionUser` | backend/user/user.controller.js:195-204 | not linked, logged in: the account is saved under `req.user.id`; on success `req.user` gets the account appended and is the result; otherwise the promise never settles |
| `Effects.ProcessNewAccount` | backend/user/user.controller.js:205-216 | not linked, nobody logged in: never rejects; on success the user id is new, ten alphanumeric characters, and added to users with no device token; `external_auth` afterwards is exactly what `saveExternalAccount` under the new id makes of it, so a row with key (new id, provider) exists, every such row carries the account's id and tokens when the UPDATE runs, and every row with another key is unchanged; the result lists only the submitted account |
| `Store.BuildId` | backend/user/user.controller.js:302-307 | the for-loop that appends ten characters builds exactly the id of the attempt |
| `Store.Database.SaveUser` | backend/user/user.controller.js:27-47 | the UPDATE then the INSERT have exactly the effect and outcome of `Effects.SaveUser` |
| `Store.Database.RegisterUser` | backend/user/user.controller.js:18-20 | registerUser is saveUser |
| `Store.Database.SaveExternalAccount` | backend/user/user.controller.js:55-78 | the UPDATE then the INSERT have exactly the effect and outcome of `Effects.SaveExternalAccount` |
| `Store.Database.MergeIds` | backend/user/user.controller.js:331-353 | the repoint, the delete and the read-back have exactly the effect and outcome of `Effects.MergeIds` |
| `Store.Database.GetOrCreateStream` | backend/user/user.controller.js:230-276 | the select and the insert have exactly the effect and outcome of `Effects.GetOrCreateStream` for `req.user` and `req.body` |
| `Store.Database.GenerateId` | backend/user/user.controller.js:299-323 | the retry loop changes nothing and returns what `Effects.GenerateId` gives; a returned id has no users row |
| `Store.Database.ProcessExternalAuthentication` | backend/user/user.controller.js:170-223 | the tables, `req.user` and the outcome afterwards are those `Effects.ProcessExternalAuthentication` gives for the tables and `req.user` before |

## Left out

- Connection-pool plumbing: `pool.connect`, `done()`, and the connect-error branches that only log and never settle (lines 30-33, 60-63, 88-91, 128-131, 237-240, 334-337). Every operation runs on one connected client.
- Promises, callbacks and concurrency. Each operation is one sequential run. The races the source warns about (lines 35 and 65) are outside a sequential model.
- SQL text. Only each statement's effect is modelled. The missing space between `$9` and `WHERE` in the INSERT at lines 67-68 is not modelled.
- Effects.ProcessNewAccount: the account counts as linked to the new user only in the sense of a row with key (new id, provider). An earlier row may already record the same account under a user id with no users row, and `getUserAccountByExternalAccount` would then still return null. Such a row can arise without any database failure: the merge branch (line 184) deletes `req.user`'s row while the session keeps its id, and a later save under that id (line 199) writes a row owned by a deleted user. The model keeps this behaviour and does not repair it.
- Row order. `result.rows[0]` (lines 144, 250) is taken to be the first matching row in table order, and the `externalAccounts` list of getUserByID (line 106) is taken in table order, which getExternalAccountAccessToken's "first in list order" inherits. The source's queries have no ORDER BY, so a real database may return another order.
- Failure model. A failing statement kind fails on every execution within one run. Error values are not carried; `Err` has no payload. A callback that throws after it has already rejected (line 110 reads `result.rows` of a failed query) is just that rejection.
- Effects.GenerateId: the retry at line 315 runs without bound. The model takes a finite list of attempts and reports `NeverSettles` once all of them hit taken ids, which stands for a retry still running.
- `securityHelper.decrypt`, the AES-GCM handling and `appVars.accessTokenKey` (lines 288-289). These are a foreign module and configuration, so they enter as the `decrypt` parameter. Cipher, iv and tag values are opaque text. `decrypt` is assumed to return a string and never to throw. For an account pushed at line 201 or 212, which carries no `access_token`, `at_iv` or `at_tag`, the source's decrypt would most likely throw; the model instead applies `decrypt` to three absent fields.
- Effects.GetOrCreateStream: a rejected stream INSERT leaves `nextStreamId` unchanged, so the next successful insert gets that value. A Postgres serial can consume a value on a failed INSERT, so real stream ids may skip values.
- The stream INSERT's `rowCount < 1` rejection (lines 260-262). It cannot happen once the insert succeeds, so it is not a separate branch.
- Request body fields of getOrCreateStream (lines 232-234) are strings. An absent field, which the source stores as NULL, is not modelled.
- Store.Database.GetOrCreateStream: requires a logged-in user. Without one, the source throws a TypeError inside the pool callback (line 241).
- A logged-in `req.user` is assumed to carry an `externalAccounts` list (line 201).
- Object identity: the source resolves with the very object held in `req.user` (lines 180, 202). The model returns an equal value.
- The `external_account: null` property of the object passed to registerUser (line 208) is not carried into the result.
- The rest of `AppDelegate.swift`: UIKit appearance, AVAudioSession, notification authorisation and presentation, the Facebook SDK, `UserDefaults` persistence (line 50) and the stream-invite presentation. These are GUI and host-SDK wrappers.
