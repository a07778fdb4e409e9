# ID-mapper transaction engines and bearer-token admission, in Dafny

This project models four parts of the OpenG2P FastAPI common libraries and proves properties of them.

- **The link engine** of the G2P Connect ID-mapper client (`service/link.py`).
  It builds a link transaction from a batch of mappings and stores the initial status under `queue_link_name + txn_id`.
  It then dispatches the request and applies the outcome rule to the in-memory status.
  In wait mode it polls the store until the status there is terminal.
- **The resolve engine** (`service/resolve.py`).
  It builds a resolve transaction with the id-else-address choice and records the live status object in the process-local transaction table.
  It schedules the dispatch.
  Its synchronous wrapper registers a continuation and sleeps until that continuation has filled in the transaction id.
- **The bearer-token admission** of `JwtBearerAuth` (`dependencies.py`):
  - the layered settings fallback and token extraction;
  - the issuer and audience checks;
  - the key-set (JWKS) URL choice and the key-set cache;
  - the claim check and the credentials.
- **The message schemas** of the link and update protocols: reason-code encodings and record defaults.

Each file is one module:

| file | module | models |
|---|---|---|
| `common.dfy` | `Common` | the status model: a live `TxnStatus` object, its stored snapshot `TxnRecord`, ref records, "change all statuses" |
| `link_models.dfy` | `LinkModels` | link reason codes and records |
| `update_models.dfy` | `UpdateModels` | update reason codes and records |
| `resolve_models.dfy` | `ResolveModels` | resolve records (fields as the engine uses them) |
| `link_service.dfy` | `LinkService` | the link engine; the store is the `store` map of `MapperLinkService` |
| `resolve_service.dfy` | `ResolveService` | the resolve engine; the table is the `transactionQueue` map of `MapperResolveService` |
| `auth.dfy` | `Auth` | the admission as a function `Admit` of a claim rule (the code's or the corrected one), and the imperative `Authenticate` that follows the code and writes the `JwksCache` object |

### How the environment is modelled

- **Dispatch outcome.** The HTTP exchange of a dispatch is an `HttpOutcome` parameter: an ACK or negative ACK, a non-2xx status, a read timeout, or another error.
- **Random values.** Fresh uuids are a `FreshIds` parameter. Its reference ids are assumed pairwise distinct and its transaction id non-empty.
- **Timestamps** are an opaque parameter.
- **Link polling.** What another process writes into the store while the link engine polls is the `writes` parameter: `writes[k]` is written just before read k.
- **Resolve callbacks.** Whether the callback handler invokes the queued transaction's continuation during sleep i of the resolve wrapper is `deliveries[i]`.
- **JWT and key sets.** The JWT library and the key-set HTTP fetch are the total functions of `Auth.Oracles`. A failed call is `None`.
- **Background tasks.** A scheduled task is not run by the entry point. It is returned in `scheduled`, and `StartLinkProcess` / `StartResolveProcess` run it as an ordinary call.

### Where the code differs from its documented intent

The model follows the code in each case below.

- **The link dispatch never writes the store.** It changes only the in-memory status object (link.py:123-175).
  So in wait mode the poll sees only what another writer puts into the store, such as the callback handler, which is not part of this model.
  Without one, every wait ends in G2P-MAP-100, even after an ACK (`LinkService.WaitWithoutWriterGivesUp`).
- **Empty batches.** An empty link batch is stored as `rcvd`, and the object returned to the caller is set to `succ` afterwards.
  The resolve engine never records an empty batch in its table, so no continuation can run for it: its synchronous wrapper always raises G2P-MAP-101.
- **The resolve wrapper returns nothing on success.** It does not return the completed status, although its signature announces one.
- **The resolve wrapper's blank status.** It passes `ref={}` where the status model's field is `refs`. The model takes the blank status to have empty refs.
- **Claim settings.** The claim check reads the top-level `claim_name` / `claim_values` settings, not the per-route ones that the route settings class declares.
- **Key-set URL settings.** The per-route `jwks_urls` and `id_token_verify_at_hash` settings are read, but the route settings class does not declare them. They are modelled as optional per-route fields.
- **A resolve item with neither an id nor an address** is still sent. There is no rejection for it.
- **The transaction table is never evicted.**
- **The list-claim test is inverted** (dependencies.py:155-156). See "## Findings".
  `Admit(AsWritten, …)` and `Authenticate` apply the check as written, with the input that shows it in `Auth.AdmissionRefusesRoleHolder`.
  `Admit(Corrected, …)` is the corrected admission beside it. `Auth.AdmitRulesDiffer` proves that the two fetch and cache alike, and that their outcomes differ only by one admitting where the other refuses with "Claim(s) don't match".

### Assumptions about modules that are not part of this model

`models/common.py`, `models/message.py`, `models/resolve.py` and `models/credentials.py` are not part of this model. From their uses, the model assumes that:

- `change_all_status(s)` sets the aggregate status and every ref's status to `s` and keeps everything else (`Common.TxnStatus.ChangeAllStatus`);
- a ref record copies the mapping's fields;
- the resolve item's `id` / `fa` default to absent;
- a mapping's `id` / `fa` may be absent. A link item requires both as strings, so the link build fails with a validation error when either is absent.

## Model

| member | source | states |
|---|---|---|
| Common.RefsForKeyedByOwnId | openg2p-common-g2pconnect-id-mapper/src/openg2p_common_g2pconnect_id_mapper/service/link.py:190-196 | every ref the builder loop records has status `rcvd` and is keyed by its own reference id; a key is present iff some mapping drew it |
| Common.RefsForOnePerMapping | openg2p-common-g2pconnect-id-mapper/src/openg2p_common_g2pconnect_id_mapper/service/link.py:190-196 | with pairwise-distinct fresh ids there is exactly one ref per mapping and the ref under id j copies mapping j |
| Common.ChangeAll | openg2p-common-g2pconnect-id-mapper/src/openg2p_common_g2pconnect_id_mapper/service/link.py:141-143 | (assumption about the status model) "change all statuses" sets the aggregate and every ref to the new status and keeps the transaction id, the reference ids and all other ref fields |
| Common.TxnStatus.ChangeAllStatus | openg2p-common-g2pconnect-id-mapper/src/openg2p_common_g2pconnect_id_mapper/service/link.py:141-149 | the in-place form: the object's record becomes `ChangeAll` of its old record; the continuation is untouched |
| Common.TxnStatus.FromRecord | openg2p-common-g2pconnect-id-mapper/src/openg2p_common_g2pconnect_id_mapper/service/link.py:62-66 | a status read back from the store is a fresh object holding exactly the stored record |
| Common.Code | openg2p-common-g2pconnect-id-mapper/src/openg2p_common_g2pconnect_id_mapper/service/link.py:77 | the linking give-up error carries code G2P-MAP-100 and the resolving one G2P-MAP-101; a validation error carries no code |
| LinkModels.LinkCodeValue | openg2p-common-g2pconnect-id-mapper/src/openg2p_common_g2pconnect_id_mapper/models/link.py:10-19 | every link reason-code string lies in the `rjct.` namespace |
| LinkModels.LinkCodeFromValue | openg2p-common-g2pconnect-id-mapper/src/openg2p_common_g2pconnect_id_mapper/models/link.py:10-19 | decoding a string gives a code whose string it is, and fails only for strings no code has |
| LinkModels.LinkCodeRoundTrip | openg2p-common-g2pconnect-id-mapper/src/openg2p_common_g2pconnect_id_mapper/models/link.py:10-19 | decoding the string of a code gives back that code |
| LinkModels.LinkCodeValueInjective | openg2p-common-g2pconnect-id-mapper/src/openg2p_common_g2pconnect_id_mapper/models/link.py:10-19 | the nine codes have pairwise-distinct strings |
| LinkModels.LinkRecordDefaults | openg2p-common-g2pconnect-id-mapper/src/openg2p_common_g2pconnect_id_mapper/models/link.py:22-50 | name and phone number of a link item default to absent; a callback item's reason code defaults to absent and its message to empty; a callback's correlation id defaults to empty |
| UpdateModels.UpdateCodeValue | openg2p-common-g2pconnect-id-mapper/src/openg2p_common_g2pconnect_id_mapper/models/update.py:11-15 | every update reason-code string lies in the `rjct.` namespace |
| UpdateModels.UpdateCodeFromValue | openg2p-common-g2pconnect-id-mapper/src/openg2p_common_g2pconnect_id_mapper/models/update.py:11-15 | decoding a string gives a code whose string it is, and fails only for strings no code has |
| UpdateModels.UpdateCodeRoundTrip | openg2p-common-g2pconnect-id-mapper/src/openg2p_common_g2pconnect_id_mapper/models/update.py:11-15 | decoding the string of a code gives back that code |
| UpdateModels.UpdateCodeValueInjective | openg2p-common-g2pconnect-id-mapper/src/openg2p_common_g2pconnect_id_mapper/models/update.py:11-15 | the four codes have pairwise-distinct strings |
| UpdateModels.SharedCodesAgree | openg2p-common-g2pconnect-id-mapper/src/openg2p_common_g2pconnect_id_mapper/models/update.py:12-15 | the three codes shared with the link enumeration have the same strings; the beneficiary-name code is not a link code |
| UpdateModels.UpdateRecordDefaults | openg2p-common-g2pconnect-id-mapper/src/openg2p_common_g2pconnect_id_mapper/models/update.py:18-58 | update items default name, phone and additional info to absent and locale to "eng"; callback items default id and reason message to empty, reason code and additional info to absent, locale to "eng"; a callback's correlation id defaults to empty |
| LinkService.LinkItemsAt | openg2p-common-g2pconnect-id-mapper/src/openg2p_common_g2pconnect_id_mapper/service/link.py:197-204 | the link items follow the input order: item j carries mapping j's id and address under reference id j |
| LinkService.BuildLinkBatch | openg2p-common-g2pconnect-id-mapper/src/openg2p_common_g2pconnect_id_mapper/service/link.py:190-204 | the builder loop yields the refs map and link items of the whole batch, or the validation error when some mapping lacks an id or an address |
| LinkService.ChooseTxnId | openg2p-common-g2pconnect-id-mapper/src/openg2p_common_g2pconnect_id_mapper/service/link.py:188-189 | a supplied non-empty transaction id is kept; an absent or empty one is replaced by the fresh id |
| LinkService.NewLinkRequest | openg2p-common-g2pconnect-id-mapper/src/openg2p_common_g2pconnect_id_mapper/service/link.py:177-234 | a failed build is a validation error; a build that succeeds starts at `rcvd` under the chosen transaction id, and has an outbound "link" request exactly when the batch is non-empty, with the fresh message id, the sender settings, total count = batch size and the status's transaction id |
| LinkService.NewLinkRequestFails | openg2p-common-g2pconnect-id-mapper/src/openg2p_common_g2pconnect_id_mapper/service/link.py:197-204 | the build fails, with a validation error, exactly when some mapping lacks its id or its address |
| LinkService.NewLinkRequestStatus | openg2p-common-g2pconnect-id-mapper/src/openg2p_common_g2pconnect_id_mapper/service/link.py:188-209 | the initial status has the chosen transaction id, aggregate `rcvd`, and one `rcvd` ref per mapping keyed by its own reference id |
| LinkService.NewLinkRequestMessage | openg2p-common-g2pconnect-id-mapper/src/openg2p_common_g2pconnect_id_mapper/service/link.py:211-232 | the request is absent iff the batch is empty; otherwise it is a "link" request with total count = batch size, the status's transaction id, and item j carrying mapping j's id/address and ref j's reference id |
| LinkService.LinkDispatchRule | openg2p-common-g2pconnect-id-mapper/src/openg2p_common_g2pconnect_id_mapper/service/link.py:135-149 | ACK gives `pdng`; a read timeout, and only it, leaves the status; a negative ACK and every other failure give `rjct` |
| LinkService.AfterLinkDispatch | openg2p-common-g2pconnect-id-mapper/src/openg2p_common_g2pconnect_id_mapper/service/link.py:135-149 | after a dispatch the transaction id and ref keys are kept; a timeout changes nothing; otherwise every status equals the rule's status |
| LinkService.StartLinkProcess | openg2p-common-g2pconnect-id-mapper/src/openg2p_common_g2pconnect_id_mapper/service/link.py:123-149 | the background dispatch changes only the status object, to `AfterLinkDispatch` of its old record (never the store) |
| LinkService.StartLinkProcessSync | openg2p-common-g2pconnect-id-mapper/src/openg2p_common_g2pconnect_id_mapper/service/link.py:151-175 | the blocking dispatch applies the same outcome rule to the same single object |
| LinkService.Observed | openg2p-common-g2pconnect-id-mapper/src/openg2p_common_g2pconnect_id_mapper/service/link.py:60-66 | read k returns the record written just before it when there is one; with no write up to read k it returns the initial record; otherwise it returns the latest write at or before read k |
| LinkService.PollFrom | openg2p-common-g2pconnect-id-mapper/src/openg2p_common_g2pconnect_id_mapper/service/link.py:60-77 | the wait loop either returns a terminal record or gives up with G2P-MAP-100 |
| LinkService.PollFromFirstTerminal | openg2p-common-g2pconnect-id-mapper/src/openg2p_common_g2pconnect_id_mapper/service/link.py:60-77 | from any read on, the loop gives up only if no read within the budget is terminal, and otherwise returns the first terminal read |
| LinkService.PollFirstTerminal | openg2p-common-g2pconnect-id-mapper/src/openg2p_common_g2pconnect_id_mapper/service/link.py:60-77 | the wait gives up with G2P-MAP-100 exactly when none of the first `max_retries` reads is terminal; otherwise it returns the first terminal record read |
| LinkService.ObservedWithoutWriter | openg2p-common-g2pconnect-id-mapper/src/openg2p_common_g2pconnect_id_mapper/service/link.py:58-66 | when no other writer writes the key, every read returns the initially stored record |
| LinkService.PollWithoutWriterGivesUp | openg2p-common-g2pconnect-id-mapper/src/openg2p_common_g2pconnect_id_mapper/service/link.py:58-77 | since the dispatch does not write the store, a wait that no other writer serves ends in G2P-MAP-100 whatever the dispatch outcome |
| LinkService.MapperLinkService.GetNewLinkRequest | openg2p-common-g2pconnect-id-mapper/src/openg2p_common_g2pconnect_id_mapper/service/link.py:177-234 | the builder returns a fresh status object holding the initial record and the outbound request, or the validation error |
| LinkService.MapperLinkService.WaitForTerminal | openg2p-common-g2pconnect-id-mapper/src/openg2p_common_g2pconnect_id_mapper/service/link.py:60-77 | the loop reads at most `max_retries` times, returns the poll result, and changes no store key but the transaction's own |
| LinkService.MapperLinkService.LinkRequest | openg2p-common-g2pconnect-id-mapper/src/openg2p_common_g2pconnect_id_mapper/service/link.py:33-77 | the initial record is stored first; an empty batch returns `succ` without dispatch; no-wait schedules the dispatch and returns the `rcvd` object; wait mode returns exactly what the poll reads or G2P-MAP-100 |
| LinkService.MapperLinkService.LinkRequestSync | openg2p-common-g2pconnect-id-mapper/src/openg2p_common_g2pconnect_id_mapper/service/link.py:79-121 | as the cooperative form, except the dispatch runs before the wait flag is read, so the no-wait result already carries the outcome rule's status |
| LinkService.WaitWithoutWriterGivesUp | openg2p-common-g2pconnect-id-mapper/src/openg2p_common_g2pconnect_id_mapper/service/link.py:58-121 | both entry points, waiting on a non-empty batch that no other writer serves, raise G2P-MAP-100 even after an ACK |
| ResolveService.ResolveItemFor | openg2p-common-g2pconnect-id-mapper/src/openg2p_common_g2pconnect_id_mapper/service/resolve.py:52-63 | a resolve item carries the id when non-empty, else the address when non-empty, else neither |
| ResolveService.ResolveItemsAt | openg2p-common-g2pconnect-id-mapper/src/openg2p_common_g2pconnect_id_mapper/service/resolve.py:45-63 | the resolve items follow the input order, one per mapping, none dropped |
| ResolveService.BuildResolveBatch | openg2p-common-g2pconnect-id-mapper/src/openg2p_common_g2pconnect_id_mapper/service/resolve.py:45-63 | the builder loop yields one `rcvd` ref and one resolve item per mapping |
| ResolveService.ResolveHttpRequestFor | openg2p-common-g2pconnect-id-mapper/src/openg2p_common_g2pconnect_id_mapper/service/resolve.py:77-96 | the request is a "resolve" request under the fresh message and transaction ids and the sender settings, whose total count and item count equal the batch size and whose item j is built from mapping j under ref j's id |
| ResolveService.ResolveHttpRequestShape | openg2p-common-g2pconnect-id-mapper/src/openg2p_common_g2pconnect_id_mapper/service/resolve.py:77-96 | the request is a "resolve" request with total count = batch size, the fresh transaction id, and item j under ref j's reference id with the id/address choice |
| ResolveService.ResolveDispatchRule | openg2p-common-g2pconnect-id-mapper/src/openg2p_common_g2pconnect_id_mapper/service/resolve.py:98-116 | ACK gives `pdng`; anything else, timeouts included, gives `rjct` |
| ResolveService.ResolveRuleVersusLinkRule | openg2p-common-g2pconnect-id-mapper/src/openg2p_common_g2pconnect_id_mapper/service/resolve.py:107-116 | the resolve and link outcome rules differ only on a read timeout, which resolve rejects and link ignores |
| ResolveService.StartResolveProcess | openg2p-common-g2pconnect-id-mapper/src/openg2p_common_g2pconnect_id_mapper/service/resolve.py:98-116 | the dispatch task changes only the status object, through "change all statuses" |
| ResolveService.WaitForCallback | openg2p-common-g2pconnect-id-mapper/src/openg2p_common_g2pconnect_id_mapper/service/resolve.py:130-134 | the continuation copies status, transaction id and continuation into the waiter; its refs stay its own |
| ResolveService.DeliveredWithinMeans | openg2p-common-g2pconnect-id-mapper/src/openg2p_common_g2pconnect_id_mapper/service/resolve.py:138-141 | a delivery within the first n sleeps means some sleep i < n saw the continuation run |
| ResolveService.SyncResolveOutcome | openg2p-common-g2pconnect-id-mapper/src/openg2p_common_g2pconnect_id_mapper/service/resolve.py:121-146 | the wrapper returns nothing iff the batch is non-empty and the continuation ran within the budget; otherwise it raises G2P-MAP-101 |
| ResolveService.MapperResolveService.constructor | openg2p-common-g2pconnect-id-mapper/src/openg2p_common_g2pconnect_id_mapper/service/resolve.py:28-31 | a new service starts with an empty transaction table |
| ResolveService.MapperResolveService.ResolveRequest | openg2p-common-g2pconnect-id-mapper/src/openg2p_common_g2pconnect_id_mapper/service/resolve.py:33-119 | the status has the fresh id, one `rcvd` ref per mapping and the callback; an empty batch returns `succ`, is not recorded and schedules nothing; otherwise the table gains exactly this object and the request is scheduled |
| ResolveService.MapperResolveService.ResolveRequestSync | openg2p-common-g2pconnect-id-mapper/src/openg2p_common_g2pconnect_id_mapper/service/resolve.py:121-146 | the loop ends as `SyncResolveOutcome` says, after the first delivering sleep or the whole budget; only a non-empty batch adds a table entry |
| ResolveService.DispatchSeenThroughTable | openg2p-common-g2pconnect-id-mapper/src/openg2p_common_g2pconnect_id_mapper/service/resolve.py:65-118 | the table entry and the returned status are one object, so the dispatch outcome is seen through the table |
| Auth.EffectiveList | openg2p-fastapi-auth/src/openg2p_fastapi_auth/dependencies.py:35-43 | a non-empty per-route list is used; a missing or empty one falls back to the default list |
| Auth.VerifyAtHash | openg2p-fastapi-auth/src/openg2p_fastapi_auth/dependencies.py:132-135 | the route's `at_hash` flag wins when present; otherwise the global default when present; with neither the flag is on |
| Auth.RemovePrefix | openg2p-fastapi-auth/src/openg2p_fastapi_auth/dependencies.py:49-50 | one leading prefix is removed if present, otherwise the string is unchanged |
| Auth.ExtractToken | openg2p-fastapi-auth/src/openg2p_fastapi_auth/dependencies.py:45-53 | the raw token is a truthy Authorization header, else a truthy X-Access-Token cookie, else there is none; the token is the raw value with "Bearer " removed, absent exactly when the raw value is just "Bearer "; a token is never empty |
| Auth.ExtractFromHeader | openg2p-fastapi-auth/src/openg2p_fastapi_auth/dependencies.py:45-53 | "Bearer t" in the header yields t, whatever the cookie holds |
| Auth.BareBearerHidesCookie | openg2p-fastapi-auth/src/openg2p_fastapi_auth/dependencies.py:45-53 | a header of just "Bearer " is chosen over the cookie and yields no token |
| Auth.ExtractFromCookie | openg2p-fastapi-auth/src/openg2p_fastapi_auth/dependencies.py:45-53 | with no usable header, "Bearer t" in the access-token cookie yields t |
| Auth.NoHeaderNoCookie | openg2p-fastapi-auth/src/openg2p_fastapi_auth/dependencies.py:45-53 | with neither a usable header nor a usable cookie there is no token |
| Auth.AllPresentIsSubset | openg2p-fastapi-auth/src/openg2p_fastapi_auth/dependencies.py:80 | the element-wise "every configured value is present" test equals the set-inclusion test the audience check uses |
| Auth.AudienceAccepted | openg2p-fastapi-auth/src/openg2p_fastapi_auth/dependencies.py:75-84 | with an empty audience list any `aud` passes; otherwise `aud` must be present and truthy, an array must contain every configured audience and a string must be one of them |
| Auth.IndexOf | openg2p-fastapi-auth/src/openg2p_fastapi_auth/dependencies.py:90 | the issuer's index is its first occurrence in the issuer list |
| Auth.RStripSlash | openg2p-fastapi-auth/src/openg2p_fastapi_auth/dependencies.py:94 | stripping gives a prefix that does not end in "/", and only "/" characters were removed |
| Auth.JwksUrl | openg2p-fastapi-auth/src/openg2p_fastapi_auth/dependencies.py:90-95 | the key-set URL is the URL at the issuer's index when that is in range, else the stripped issuer plus "/.well-known/jwks.json" |
| Auth.ClaimCheckAsWritten | openg2p-fastapi-auth/src/openg2p_fastapi_auth/dependencies.py:145-156 | as written: a missing or falsy claim is Forbidden; a string claim passes iff the values are exactly [claim]; a list claim passes iff NOT every configured value is present |
| Auth.ClaimCheckAsWrittenRefusesHolder | openg2p-fastapi-auth/src/openg2p_fastapi_auth/dependencies.py:155-156 | a token whose role list holds the one configured role is refused as written and admitted by the corrected check |
| Auth.ClaimCheck | openg2p-fastapi-auth/src/openg2p_fastapi_auth/dependencies.py:145-156 | corrected check: as written, except that a list claim passes iff every configured value is present |
| Auth.ClaimChecksAgreeOffLists | openg2p-fastapi-auth/src/openg2p_fastapi_auth/dependencies.py:145-156 | the two checks coincide whenever the claim is absent, falsy, a string, or the values are unset |
| Auth.ClaimChecksDiffer | openg2p-fastapi-auth/src/openg2p_fastapi_auth/dependencies.py:145-156 | the two checks differ only with a claim name and values configured, and then one passes where the other refuses with "Claim(s) don't match" |
| Auth.MergeClaims | openg2p-fastapi-auth/src/openg2p_fastapi_auth/dependencies.py:138-139 | ID-token claims override the payload's, other payload claims are kept, no key is lost or invented |
| Auth.AfterJwks | openg2p-fastapi-auth/src/openg2p_fastapi_auth/dependencies.py:107-158 | a token that does not verify under the key set is refused as invalid; an ID-token refusal means an ID-token cookie whose decode failed; an admission carries "credentials" = the raw token; no server error arises here |
| Auth.Admit | openg2p-fastapi-auth/src/openg2p_fastapi_auth/dependencies.py:21-160 | under either claim rule: no check is made iff authentication is off or the route is not enabled; without a fetch the cache is unchanged; a server error is G2P-AUT-500 and leaves the cache alone |
| Auth.WithKeySet | openg2p-fastapi-auth/src/openg2p_fastapi_auth/dependencies.py:86-105 | the fetch happens exactly when the issuer's cached key set is missing or falsy, and is of the given URL; a failed fetch leaves the cache and is the only source of G2P-AUT-500 |
| Auth.AdmitNeedsToken | openg2p-fastapi-auth/src/openg2p_fastapi_auth/dependencies.py:45-53 | a protected route without a usable token is refused as unauthorized, with no lookup or fetch |
| Auth.AdmitUnknownIssuer | openg2p-fastapi-auth/src/openg2p_fastapi_auth/dependencies.py:70-73 | an issuer outside the effective list is refused before any key-set lookup or fetch |
| Auth.AdmitUnknownAudience | openg2p-fastapi-auth/src/openg2p_fastapi_auth/dependencies.py:75-84 | with a non-empty audience list, a missing/falsy `aud`, an array lacking a configured audience or a string outside the list is refused without fetch |
| Auth.AdmitJwksLookup | openg2p-fastapi-auth/src/openg2p_fastapi_auth/dependencies.py:86-105 | a truthy cached key set is used with no fetch; otherwise the issuer's URL is fetched, failure is G2P-AUT-500 with the cache unchanged, success is cached under the issuer before verification |
| Auth.CredentialsOf | openg2p-fastapi-auth/src/openg2p_fastapi_auth/dependencies.py:139-158 | the credentials hold every payload and ID-token key plus "credentials"; ID-token claims win over payload claims, and "credentials" is the raw token |
| Auth.AfterJwksAccepts | openg2p-fastapi-auth/src/openg2p_fastapi_auth/dependencies.py:107-158 | once a key set is at hand, an admission means the token verified under it, the ID-token claims are what the ID-token decode returned (none without the cookie), the rule's claim check passed on the merged claims, and the credentials are those claims plus "credentials" |
| Auth.AdmitAccepts | openg2p-fastapi-auth/src/openg2p_fastapi_auth/dependencies.py:21-160 | an admitted request passed every check with the key set taken from the cache when truthy, else fetched from the issuer's URL; the ID-token claims are those decoded from the cookie; its credentials are the payload overridden by them plus "credentials" = the raw token |
| Auth.AfterJwksRulesDiffer | openg2p-fastapi-auth/src/openg2p_fastapi_auth/dependencies.py:145-156 | past the key set, the code's admission and the corrected one are equal or differ only by one admitting where the other refuses with "Claim(s) don't match" |
| Auth.AdmitRulesDiffer | openg2p-fastapi-auth/src/openg2p_fastapi_auth/dependencies.py:21-160 | the code's admission and the corrected one fetch the same URL and leave the same cache, and their outcomes differ only on the list-claim test |
| Auth.AdmissionRefusesRoleHolder | openg2p-fastapi-auth/src/openg2p_fastapi_auth/dependencies.py:155-156 | a verified token whose "roles" claim is ["admin"], with "admin" the one configured value, is refused by the code's admission and admitted by the corrected one |
| Auth.DefaultConfigAdmitsNone | openg2p-fastapi-auth/src/openg2p_fastapi_auth/config.py:21-28 | with the shipped settings only "get_profile" and "logout" are checked, and with no issuer configured no request is admitted |
| Auth.Authenticate | openg2p-fastapi-auth/src/openg2p_fastapi_auth/dependencies.py:21-160 | the step-by-step admission, with the claim check as written, returns `Admit(AsWritten, …)`'s result and leaves the cache exactly as it says |

## Left out

- **I/O:**
  - Redis connections, pools and their closing;
  - the HTTP client;
  - logging;
  - the JSON/pydantic dump-and-validate round trip, which is taken as the identity.
- **Scheduling and sleeping:**
  - `asyncio.create_task`, `asyncio.sleep` and `time.sleep` are not modelled; a sleep is one loop step;
  - the interleaving of a background task with the caller is not modelled, and the concurrency guarantees of the store are not checked;
  - the resolve wrapper's own dispatch task is not run inside `ResolveRequestSync`; only the continuation's effect, through `deliveries`, is modelled.
- **Opaque values:**
  - the constant signature string is a configuration value;
  - uuids and timestamps are parameters.
- **The JWT library:** signature verification, expiry, `at_hash` and the JSON decoding of the key-set response are oracles.
- **Claim and audience values:**
  - JSON objects are not modelled;
  - lists are modelled as lists of strings only;
  - any other scalar claim contributes only its truthiness.
- **Credentials:** the final `AuthCredentials` validation (`models/credentials.py`) is not part of this model. An admitted payload is returned as is.
- **Request lookups:** header and cookie lookups are exact-key map lookups. The case-insensitivity of HTTP header names is not modelled.
- **Settings loading** (environment variables, `.env`) is not modelled. Only the shipped defaults of `config.py` are lifted, as `Auth.DefaultConfig`.
- **The callback handlers** that write terminal statuses into the store and call `callable_on_complete` are not part of this model. They appear only as `writes` and `deliveries`.
- **Preconditions on the fresh ids:**
  - `ResolveService.MapperResolveService.ResolveRequestSync` requires that the fresh transaction id is not already in the table, as a fresh uuid is not;
  - both engines require pairwise-distinct reference ids.

## Findings

| source | as written | input that shows it | evidently intended | confidence | as-written member | corrected member |
|---|---|---|---|---|---|---|
| openg2p-fastapi-auth/src/openg2p_fastapi_auth/dependencies.py:155-156 | a list claim is refused exactly when every configured claim value is in it | claim name "roles", configured values ["admin"], token claim roles = ["admin"]: refused as "Claim(s) don't match"; roles = ["guest"]: admitted | refuse when some configured value is missing, as the audience check does for an audience array | not executed | Auth.ClaimCheckAsWritten, Auth.ClaimCheckAsWrittenRefusesHolder, Auth.AdmissionRefusesRoleHolder | Auth.ClaimCheck, Auth.AdmitRulesDiffer |
