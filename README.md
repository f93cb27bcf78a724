# Referral tracking handlers of a restaurant loyalty backend, in Dafny

This project models the referral-tracking core of an Express application. The application
stores its data in Supabase. Its handlers register clients and staff users, record
referrals (`referidos`), conversions (`conversiones`), rewards (`premios`) and per-client
validations (`validaciones`), summarise a client's referrals, and redeem a referral code
(`/usarCodigo`).

The store is an object of class `Store.Db`. It has one sequence of rows per table and a
counter `nextId` that gives every insert a fresh id. The handlers use these operations
on it:

- insert with a fresh id (`Db.InsertCliente`, `Db.InsertReferido`, ...);
- filtered select, first match (`Queries.FirstWithCode`);
- filtered select, all matches (`Queries.OwnedIds`);
- filtered count (`Queries.CountOwned`, `Queries.CountReferencing`);
- upsert by the assumed key `cliente_id` (`Store.Upsert`, `Db.UpsertValidacion`).

No handler reads `validaciones`. `Store.Lookup` is how the model observes the result of
the upsert, to state what it leaves in the table.

Each handler is a method of module `App` that takes the store as a parameter. Its answer
is a `Response`: `Ok(payload)`, `BadRequest(reason)` or `NotFound`. HTTP status codes and
JSON messages are not modelled. A store call that returns an error is a boolean
parameter of the handler (`storeError`, `lookupError`, ...). When it is set, that call
writes nothing and the handler answers `BadRequest(StoreError)`.

The model follows the code as written, including where it departs from the intended
design:

- `/registrarConversion` checks `estado` case-insensitively but stores it exactly as sent.
  `Estados.AcceptedButNotCanonical` shows an accepted value that is not one of the three
  canonical spellings.
- `/registrarReferido` writes the owner into `cliente_owner_id`. `/usarCodigo` writes it
  into `cliente_id`. The summary filters on `cliente_owner_id`, so
  `Queries.RedemptionInvisibleToSummary` and the last `ensures` of `App.UsarCodigo` prove
  that a redemption changes no client's summary.
- The conversion written by `/usarCodigo` has the code owner as its `cliente_id`.
- `/usarCodigo` is not atomic. If the conversion insert fails after the referral insert
  succeeded, the handler answers 400 and the referral stays.
- `total_conversiones` counts conversions in every state.
- No tenant checks, no self-referral flag, no state transitions and no reward evaluation
  exist in the code, so none are modelled.

Lower-casing is modelled on the ASCII letters only (`Estados.Lower`). For this gate that
gives the same verdict as JavaScript's `toLowerCase`. The three permitted states use
only ASCII lower-case letters. Outside `A`–`Z`, the only characters whose lower case
contains an ASCII letter are U+0130 (it becomes `i` followed by the non-ASCII U+0307) and
the Kelvin sign (it becomes `k`, which none of the states contain). So a string is
accepted under full Unicode lower-casing exactly when it is accepted under ASCII
lower-casing.

Files: `rows.dfy` (rows, `Option`, `Response`), `estados.dfy` (the estado gate),
`queries.dfy` (selects, counts, the summary and how writes change it), `store.dfy` (the
upsert and the store class), `app.dfy` (the handlers).

## Model

| member | source | states |
|---|---|---|
| `App.RegistrarCliente` | app.js:56-71 | on success, exactly one `clientes` row is appended with a fresh id, the caller's fields and the given code; the answer is that id and code; on a store error nothing changes |
| `App.RegistrarUsuario` | app.js:40-53 | on success, exactly one `usuarios` row is appended with a fresh id and the caller's fields, and its id is answered; otherwise nothing changes |
| `App.RegistrarReferido` | app.js:74-87 | on success, exactly one referral is appended with `cliente_owner_id` set to the given client and `cliente_id` null, and its id is answered; afterwards that client's `total_referidos` is one higher and every other client's is the same |
| `App.RegistrarConversion` | app.js:90-108 | when the lower-cased `estado` is not permitted, the answer is BadRequest and no table changes; otherwise exactly one conversion with the caller's fields and the unnormalised `estado` is appended and answered; only the owner of its referral sees `total_conversiones` grow, by one |
| `App.RegistrarPremio` | app.js:111-124 | on success, exactly one `premios` row is appended with a fresh id and the caller's fields, and its id is answered; otherwise nothing changes |
| `App.ValidarCliente` | app.js:127-140 | on success, `validaciones` becomes the upsert of the new row and the row is answered; a lookup then finds exactly that row for the client, and every other client's lookup is unchanged; on a store error nothing changes |
| `App.Resumen` | app.js:143-177 | a failing count or select gives BadRequest; with no referrals the answer is `{c, 0, 0}` whatever the conversion table and its query would do; otherwise the answer is `Summarize` of the tables, or BadRequest when the conversion count fails; reads only |
| `App.ConsumoSolicitado` | app.js:181 | an absent `registrar_consumo` means true; a supplied one means its truthiness |
| `App.UsarCodigo` | app.js:180-231 | an unknown code gives NotFound and no write; for a known code, with the first matching client as owner, exactly one referral (owner in `cliente_id`, the owner's `restaurante_id`, the code) is inserted, then a `confirmado` conversion tied to that referral's id exactly when `registrar_consumo` (default true) holds; a failed conversion insert keeps the referral; no client's summary changes |
| `Estados.EstadoPermitido` | app.js:93-94 | the gate: the lower-cased `estado` is one of the three permitted states; specified by `EstadoPermitidoIff` |
| `Estados.Lower` | app.js:94 | `toLowerCase` on ASCII letters; keeps the length; specified further by `LowerIdempotent` and `EstadoPermitidoIgnoresCase` |
| `Estados.EstadoPermitidoIff` | app.js:93-94 | `estado` is accepted exactly when it equals `pendiente`, `confirmado` or `rechazado` up to the case of its letters |
| `Estados.EstadoPermitidoIgnoresCase` | app.js:94 | a string and its lower-cased form get the same verdict |
| `Estados.LowerIdempotent` | app.js:94 | lower-casing twice is lower-casing once |
| `Estados.EstadoPermitidoExamples` | app.js:93-94 | `pendiente`, `Confirmado` and `RECHAZADO` are accepted; `confirmed` and the empty string are refused |
| `Estados.AcceptedButNotCanonical` | app.js:94-100 | `CONFIRMADO` is accepted although it is not one of the canonical spellings that would be stored |
| `Queries.FirstWithCode` | app.js:183-192 | the selected client is None exactly when no client has the code; otherwise it is a row with the code and no earlier row has it |
| `Queries.FirstWithCodeSnoc` | app.js:58-63 | after a client is registered, the code lookup still finds the earlier holder of the same code; the new client is found by its code exactly when no earlier client holds it |
| `Queries.OwnedIds` | app.js:153-160 | the selected ids are as many as the counted referrals, and an id is among them exactly when it is the id of a referral owned by the client |
| `Queries.CountOwned` | app.js:146-149 | the filtered count of referrals by `cliente_owner_id`; never more than the table's rows; specified by `CountOwnedIsCardinality` |
| `Queries.CountOwnedIsCardinality` | app.js:146-149 | the count equals the number of referral rows whose `cliente_owner_id` is the client |
| `Queries.CountOwnedSnoc` | app.js:146-149 | appending a referral raises its owner's count by one and nobody else's |
| `Queries.OwnedIdsSnoc` | app.js:153-160 | appending a referral adds its id to its owner's id list only |
| `Queries.CountReferencing` | app.js:163-166 | the filtered count of conversions by `referido_id` in a list of ids; never more than the table's rows; specified by `CountReferencingIsCardinality` |
| `Queries.CountReferencingIsCardinality` | app.js:163-166 | the count equals the number of conversion rows whose `referido_id` is among the ids |
| `Queries.CountReferencingSnoc` | app.js:163-166 | appending a conversion raises the count by one exactly when its `referido_id` is among the ids |
| `Queries.CountReferencingNoIds` | app.js:160-162 | with no ids the count is 0, so skipping the query when there are no ids does not change the result |
| `Queries.Summarize` | app.js:143-177 | the summary carries the client id plus the number of rows the client owns and the number of conversions, in any state, tied to one of those rows; both are 0 when the client owns no referral |
| `Queries.SummarizeAfterReferido` | app.js:77-80 | a new referral raises its owner's `total_referidos` by one and leaves every other client's summary unchanged |
| `Queries.SummarizeAfterConversion` | app.js:98-101 | a new conversion leaves every `total_referidos` unchanged and raises `total_conversiones` by one exactly for the client owning its referral |
| `Queries.RedemptionInvisibleToSummary` | app.js:197-222 | a referral without `cliente_owner_id` under a fresh id, plus a conversion tied to it, leave every client's summary unchanged |
| `Store.Upsert` | app.js:130-133 | after the upsert, keys are still unique; the new row is present and is the only row with its key; every other client's row is kept; nothing else is added; the length grows only when the key was new |
| `Store.Lookup` | app.js:130-133 | the row found has the key and is in the table; nothing is found exactly when no row has the key |
| `Store.LookupFindsRow` | app.js:130-133 | with unique keys, the lookup finds the one row stored for a client |
| `Store.UpsertThenLookup` | app.js:130-133 | after an upsert, a lookup finds the new row for its client and the old answer for every other client |
| `Store.UpsertIdempotent` | app.js:130-133 | upserting the same row twice equals upserting it once |
| `Store.UpsertLastWriteWins` | app.js:130-133 | two upserts for the same client equal the second upsert alone |
| `Store.Db.InsertCliente` | app.js:60-63 | appends one client row with id `nextId`, advances `nextId`, leaves all other tables unchanged |
| `Store.Db.InsertUsuario` | app.js:43-46 | appends one user row with a fresh id, leaves all other tables unchanged |
| `Store.Db.InsertReferido` | app.js:77-80 | appends one referral row with a fresh id, leaves all other tables unchanged |
| `Store.Db.InsertConversion` | app.js:98-101 | appends one conversion row with a fresh id, leaves all other tables unchanged |
| `Store.Db.InsertPremio` | app.js:114-117 | appends one reward row with a fresh id, leaves all other tables unchanged |
| `Store.Db.UpsertValidacion` | app.js:130-133 | replaces `validaciones` by its upsert with the row, leaves everything else unchanged and keeps the store invariant (fresh `nextId`, unique keys) |

## Left out

- Express routing, status codes, JSON messages, `dotenv` and `app.listen` (app.js:1-18, app.js:234-237): transport and process start-up only. Payloads that the code answers as the one-element array `data` returned by `.select('*')` (`conversion: data` at app.js:106, `validacion: data` at app.js:138) are given as the row itself.
- App.ValidarCliente / Store.Upsert: the upsert at app.js:132 names no conflict column, so it is keyed by the primary key of `validaciones`. The model assumes that key is `cliente_id`; the schema is not part of the code. If the key were a generated id, each call would insert another row or fail, and "one row per client, last write wins" would not hold.
- `/registrarRestaurante` (app.js:21-37): a bcrypt hash, a foreign cryptographic call, followed by an insert into `restaurantes`.
- `api/index.js`, `api/registrarRestaurante.js` and `api/loginRestaurante.js`: method checks, required-field checks, a bcrypt comparison with its 404/401 answers, and inserts that pass the body through (the two registration inserts store the password unhashed). None of them touch the referral tables.
- Referral code generation with `Math.random().toString(36).substring(7)` (app.js:58): randomness and float-to-string conversion. The code is a parameter of `App.RegistrarCliente`. As in the source, nothing checks that it is unique.
- The current date `new Date().toISOString().slice(0, 10)` (app.js:214): a clock reading. It is the parameter `hoy` of `App.UsarCodigo`.
- Supabase itself and its error messages. A failing store call is a boolean parameter, and the model assumes that a failing call writes nothing.
- Row ids come from one store-wide counter. The real tables may use per-table sequences or uuids. The proofs only need an id to be fresh in its own table.
- `.limit(1)` without an ordering (app.js:187): the model takes the first matching row in table order.
- Request bodies and the path parameter are typed: ids are naturals and text fields are strings. `/clientes/:id/resumen` takes its id from the path as a string (app.js:144) and answers that string as `cliente_id` (app.js:173); `App.Resumen` takes and answers an `Id`. A missing or wrongly typed field is not modelled. A non-string `estado` would make `toLowerCase` throw before any response (app.js:94). `registrar_consumo` is `Option<bool>`: absent, or present with the given truthiness.
- Concurrency between requests: the model runs handlers one at a time. The count and the id select of the summary therefore read the same table.
- Estados.Lower: lower-cases only the ASCII letters, not full Unicode. The section above explains why the gate's verdict is the same.
