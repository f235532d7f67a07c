# AIVF CCS, modelled and proved

AIVF CCS decides allow, deny or escalate for a tool call that an agent wants to make, signs a
22-field receipt for the decision, stores it, lets it be consumed at most once, and lets a
separate service check it again. This project models those parts in Dafny and proves what they
promise. `dafny verify dfyconfig.toml` checks all of it.

| file | what it models |
|---|---|
| `Text.dfy`, `Utf8.dfy` | code-point order, decimal and hexadecimal text, UTF-8 |
| `Json.dfy`, `Grammar.dfy` | JSON values, the compact printer, a parser that inverts it; the grammar of RFC 8259 apart from both |
| `Sorting.dfy`, `Canonical.dfy` | sorting by key, Python's canonical text |
| `JsCanonical.dfy` | the JavaScript normalization under that language's property order |
| `Binding.dfy`, `Receipts.dfy` | digests, commands, the action string, receipts, their payload, the checks of `validate` |
| `Storage.dfy`, `Manager.dfy` | the three tables and their transactions; the receipt manager as an object |
| `Lifecycle.dfy`, `LifecycleSafety.dfy` | any number of managers on one database as a step system, its invariants and the results over whole runs |
| `Aggregation.dfy`, `Verifier.dfy` | rule results, dimensions, verdict; the verifier with its exception path |
| `PublicVerifier.dfy` | the second, separately written verifier |
| `Protocol.dfy`, `Server.dfy`, `Remote.dfy`, `EndToEnd.dfy` | the line protocol, the server's loop, the client's event callbacks, and governed calls from end to end as a step system |
| `Deployment.dfy` | the last two step systems as one: governed calls whose receipts are numbered, signed and saved by the managers' own steps |
| `Limiter.dfy` | the sliding-window limiter |
| `Seed.dfy` | the race for the signing seed |

How the parts outside the model appear:

- SHA-256 is any function from bytes to 64 hexadecimal digits. No statement assumes that it has
  no collisions: where one matters the statement names the two byte strings.
- Ed25519 (section 5.1 of RFC 8032) is ideal in `Lifecycle.dfy`: a public key accepts only byte
  strings that were signed under it. Elsewhere it is any pair of functions, and
  `Receipts.Matching` says when they belong together.
- SQLite transactions take one write lock with BEGIN IMMEDIATE; reads outside them see committed
  rows. In `Lifecycle.dfy` every lock, read, write and commit is a step of its own, and a process
  may raise or crash between any two.
- Nonces are values not drawn before. Clocks, random bytes and rules are parameters: a rule is
  any function that returns a result or raises.
- json.loads and JSON.parse are any decoders that invert the printer as far as
  `Protocol.InvertsPrint` and `Protocol.KeepsTexts` say; `Protocol.PlainLoadsInverts` and
  `Protocol.ParseKeepsTexts` show that such decoders exist.

What the proofs brought out, where the code does not do what a reader might expect:

- `validate` without a store never looks at what `consume` recorded: a receipt that has just
  been consumed validates again (`Manager.ValidateAfterConsume`). `Storage.ReplayDecides` and
  `PublicVerifier.CoreAccepts` are the exact conditions.
- The core lets a finalized receipt authorize; the public verifier does not.
  `PublicVerifier.VerifiersDifferOn` says exactly when they differ, `PublicVerifier.FinalizedDivides`
  makes such receipts and `PublicVerifier.AllowAuthorizes` shows that there are some.
- The public verifier compares times with the expiry rounded to a double. Beyond 2^53 it can
  authorize where the core has stopped (`PublicVerifier.LargeExpiryDivides`);
  `PublicVerifier.VerifiersAgree` says exactly when that matters.
- JavaScript's `normalize` returns an object with an own `constructor` key unsorted, so that two
  equal values can hash differently; `JsCanonical.NormalizesAlikeIff` says exactly when.
- `load_or_create_seed` ignores how much os.write wrote: after a short write its caller goes on
  with a seed that nobody can ever load (`Seed.ShortWriteStrands` is an input,
  `Seed.WriteDecides` the exact condition over whole runs).
- A governed call with falsy parameters has an empty object verified instead
  (`Remote.VerifiedParams`).
- The two implementations report different reasons for some results
  (`Aggregation.ReasonsAgreeIff`), though never different verdicts.

## Model

| member | source | states |
|---|---|---|
| `Json.RoundTrip` | aivf-ccs-verifier/src/aivf_ccs_verifier/canonical.py:5-7 | Parsing the printed text of any JSON value returns that value: string escapes of section 7 of RFC 8259, decimal integers, nested arrays and objects. |
| `Grammar.PrintIsText` | aivf-ccs-verifier/src/aivf_ccs_verifier/canonical.py:5-7 | What the printer writes for a value is a text of that value under the grammar of RFC 8259, which is stated apart from printer and parser: literal names, numbers without leading zeros, strings with their escapes, arrays, objects. |
| `Grammar.EscapeIsShortest` | aivf-ccs-verifier/src/aivf_ccs_verifier/canonical.py:5-7 | Among all texts of a character the printer writes a shortest one, with lower-case digits: ensure_ascii=False escapes nothing that need not be. |
| `Json.PrintIsInjective` | aivf-ccs-verifier/src/aivf_ccs_verifier/canonical.py:5-7 | Two values with one printed text are one value. |
| `Json.CutObjectIsRejected` | aivf-ccs-verifier/src/aivf_ccs_verifier/server.py:17 | No proper prefix of a printed object parses; that a decoder behaves so is the assumption Protocol.InvertsPrint, which this lemma shows can be met. |
| `Json.PrintIsOneLine` | aivf-ccs-verifier/src/aivf_ccs_verifier/server.py:31 | Printed JSON holds no raw line feed, whatever its strings contain. |
| `Sorting.SortAscends` | aivf-ccs-verifier/src/aivf_ccs_verifier/canonical.py:7 | Sorting members with distinct keys gives an ascending list, under any strict total order on keys. |
| `Sorting.AscendingIsUnique` | aivf-ccs-verifier/src/aivf_ccs_verifier/canonical.py:7 | An ascending list is determined by its elements, so the order in which keys were inserted leaves no trace. |
| `Canonical.EqualIffSameOrder` | aivf-ccs-verifier/src/aivf_ccs_verifier/canonical.py:5-7 | Two values print from the same sorted tree exactly when they are the same up to key order, at every depth. |
| `Canonical.CanonicalIffEqual` | aivf-ccs-verifier/src/aivf_ccs_verifier/canonical.py:5-7 | The canonical texts of two values coincide exactly when the values are the same up to key order: deterministic and injective. |
| `Canonical.CanonicalReadsBack` | aivf-ccs-verifier/src/aivf_ccs_verifier/canonical.py:5-7 | A canonical text is an RFC 8259 text of the value itself with the keys of every object, at every depth, in dictionary order by code point, and parses to that. |
| `Canonical.CanonicalIsInOrder` | aivf-ccs-verifier/src/aivf_ccs_verifier/canonical.py:5-7 | The canonical text of v is the compact text of w, for a w whose keys are in order throughout, exactly when w equals v: sort_keys described without the sorting. |
| `Text.LessIsPrecedes` | aivf-ccs-verifier/src/aivf_ccs_verifier/canonical.py:7 | The order on keys is dictionary order: a proper prefix comes first, and else the smaller code point at the first difference decides. |
| `Canonical.OrderedIsFixed` | aivf-ccs-verifier/src/aivf_ccs_verifier/canonical.py:7 | Canonicalizing what was canonicalized changes nothing. |
| `Canonical.RecordBinds` | aivf-ccs-verifier/src/aivf_ccs_verifier/receipt.py:46 | Two dictionaries built from one list of keys are equal exactly when they agree value by value. |
| `Utf8.EncodeIsInjective` | aivf-ccs-verifier/src/aivf_ccs_verifier/canonical.py:9-10 | Distinct texts have distinct UTF-8 bytes. |
| `Utf8.EncodeIsCode` | aivf-ccs-verifier/src/aivf_ccs_verifier/canonical.py:9-10 | The bytes of a text are, character by character, those of the table of RFC 3629: ranges of lead and continuation bytes, and the code point's bits most significant first. |
| `Text.DecimalReadsBack` | aivf-ccs-verifier/src/aivf_ccs_verifier/canonical.py:7 | The decimal numeral of a number denotes that number. |
| `Text.HexReadsBack` | aivf-ccs-verifier/src/aivf_ccs_verifier/receipt.py:53 | bytes.fromhex gives back exactly the bytes that bytes.hex wrote, high digit first. |
| `Text.LowerHexWritesBack` | aivf-ccs-verifier/src/aivf_ccs_verifier/receipt.py:143 | A lower-case hexadecimal text of length 2n decodes to n bytes, and is what bytes.hex writes of them. |
| `Binding.BytesIffEqual` | aivf-ccs-verifier/src/aivf_ccs_verifier/canonical.py:9-10 | Canonical bytes coincide exactly for values that are the same up to key order. |
| `Binding.DigestBinds` | aivf-ccs-verifier/src/aivf_ccs_verifier/canonical.py:12-17 | Two values share a digest (and a sha256: URI) exactly when they are the same, or their canonical bytes are a collision, which the statement exhibits. |
| `Binding.RequestHashBinds` | aivf-ccs-verifier/src/aivf_ccs_verifier/receipt.py:70-76 | Two commands share a request hash exactly when they agree on agent_id, tool, params, timestamp and trace_id, or their wire forms collide. |
| `Binding.ActionBinds` | aivf-ccs-verifier/src/aivf_ccs_verifier/receipt.py:89 | The action string determines tool and parameter hash, colons in the tool name included. |
| `Receipts.PayloadBinds` | aivf-ccs-verifier/src/aivf_ccs_verifier/receipt.py:45-46 | Two receipts have the same signing payload exactly when they agree on all 21 signed fields. |
| `Receipts.NameIsInjective` | aivf-ccs-verifier/src/aivf_ccs_verifier/receipt.py:9-14 | The 22 field names are distinct. |
| `Receipts.PayloadIgnoresSignature` | aivf-ccs-verifier/src/aivf_ccs_verifier/receipt.py:52-53 | Writing the signature into a receipt does not change what is signed. |
| `Receipts.SignedCarriesSignature` | aivf-ccs-verifier/src/aivf_ccs_verifier/receipt.py:52-56 | The signature field of a signed receipt is the hexadecimal text of the key's 64 bytes over the receipt's own payload, and decodes to those bytes. |
| `Receipts.CheckIsOfSignature` | aivf-ccs-verifier/src/aivf_ccs_verifier/receipt.py:141-147 | Of a signed receipt, the signature check asks the public key about exactly the bytes the private key made over the receipt's own payload. |
| `Receipts.AdmissionMatches` | aivf-ccs-verifier/src/aivf_ccs_verifier/receipt.py:77-100 | An admission carries the parameter hash, action and request hash of the command it was made for, as validate recomputes them. |
| `Receipts.AdmissionFields` | aivf-ccs-verifier/src/aivf_ccs_verifier/receipt.py:77-100 | An admission names the manager's issuer, the drawn nonce, the taken number, the decided verdict and status admission. |
| `Receipts.AdmissionRecords` | aivf-ccs-verifier/src/aivf_ccs_verifier/receipt.py:77-100 | An admission records the call's trace id and tool, and the decision's summary, dimensions and reason. |
| `Receipts.AdmissionStamps` | aivf-ccs-verifier/src/aivf_ccs_verifier/receipt.py:77-100 | It is stamped with the time twice, expires after the time to live, names audience and key, and has no response hash yet. |
| `Receipts.AdmissionFieldBinds` | aivf-ccs-verifier/src/aivf_ccs_verifier/receipt.py:68-100 | Two admissions agree on a field exactly when they were made from the same input to it: runtime_context_hash from the same context, config_hash from the same configuration, and so on, or the named byte strings collide. |
| `Receipts.AdmissionBinds` | aivf-ccs-verifier/src/aivf_ccs_verifier/receipt.py:45-100 | Two admissions have one signing payload exactly when call, context, configuration, decision, time, nonce, number and verifier are the same, or the named byte strings collide. |
| `Receipts.FinalizeBinds` | aivf-ccs-verifier/src/aivf_ccs_verifier/receipt.py:103-107 | Two finalized receipts have one signing payload exactly when they come from receipts with the same 19 core fields and from the same response, or the responses' canonical bytes collide. |
| `Receipts.BeforeAccepts` | aivf-ccs-verifier/src/aivf_ccs_verifier/receipt.py:138-153 | The guards before the replay look-up accept exactly the receipts with all 22 fields, a signature that decodes and verifies, the expected audience, time left when freshness is asked for, and a status other than consumed and unavailable. |
| `Receipts.GuardsAccept` | aivf-ccs-verifier/src/aivf_ccs_verifier/receipt.py:141-153 | Bad encoding, bad signature and audience mismatch are each reported exactly when theirs is the first guard to fail. |
| `Receipts.AfterAccepts` | aivf-ccs-verifier/src/aivf_ccs_verifier/receipt.py:156-172 | The guards after the look-up accept exactly the receipts that say allow, when that is required, and whose parameter hash, action and request hash are the expected command's, when one is expected. |
| `Receipts.CoreKeepsCommand` | aivf-ccs-verifier/src/aivf_ccs_verifier/receipt.py:103-128 | What finalize, mark_unavailable and consume make of a receipt is still issued for the same command. |
| `Receipts.AcceptedCommand` | aivf-ccs-verifier/src/aivf_ccs_verifier/receipt.py:158-172 | A receipt issued for c passes the command checks for d exactly when d is the same call or collides with it, its parameters are the same or collide, and the tools are spelt alike. |
| `Storage.ValidatedBindsCommand` | aivf-ccs-verifier/src/aivf_ccs_verifier/receipt.py:130-173 | When a receipt issued for c validates against d, then c and d agree on the five wire fields and the parameters, or the named byte strings are a collision. |
| `Storage.ReplayDecides` | aivf-ccs-verifier/src/aivf_ccs_verifier/receipt.py:154-155 | With a store validate accepts exactly what it accepts without one, save for the consumed keys; without one consumption is never seen. |
| `Storage.ConsumeAccepts` | aivf-ccs-verifier/src/aivf_ccs_verifier/receipt.py:114-153 | The validation inside consume accepts exactly the complete, verified, unexpired and unspent allow receipts of the manager's audience whose key is not consumed as far as there is a store. |
| `Storage.SpentIsRefused` | aivf-ccs-verifier/src/aivf_ccs_verifier/receipt.py:109-153 | A retired or consumed copy never validates, under any options, at any time and with any key. |
| `Storage.SQLiteStore.constructor` | aivf-ccs-verifier/src/aivf_ccs_verifier/storage.py:22-51 | A new store has number 0 and empty tables. |
| `Storage.SQLiteStore.NextSequence` | aivf-ccs-verifier/src/aivf_ccs_verifier/storage.py:53-60 | The counter grows by one and its new value is returned; when the transaction raises, nothing changes. |
| `Storage.SQLiteStore.SaveReceipt` | aivf-ccs-verifier/src/aivf_ccs_verifier/storage.py:62-72 | The row for (issuer, nonce, status) becomes the receipt and nothing else changes; otherwise nothing changes. |
| `Storage.SQLiteStore.IsConsumed` | aivf-ccs-verifier/src/aivf_ccs_verifier/storage.py:74-79 | True exactly for consumed (issuer, nonce) pairs. |
| `Storage.SQLiteStore.MarkConsumed` | aivf-ccs-verifier/src/aivf_ccs_verifier/storage.py:81-94 | Success means the key was not consumed before and is now, nothing else having changed; a consumed key always raises, a failure changes nothing. |
| `Manager.ReceiptManager.constructor` | aivf-ccs-verifier/src/aivf_ccs_verifier/receipt.py:20-43 | A manager starts with no numbers taken, nothing consumed and nothing signed. |
| `Manager.ReceiptManager.Sign` | aivf-ccs-verifier/src/aivf_ccs_verifier/receipt.py:52-56 | A result carries the signature over its own 21 fields and, with a store, is the saved row; the payload counts as signed even when saving then raises. |
| `Manager.ReceiptManager.NextSequence` | aivf-ccs-verifier/src/aivf_ccs_verifier/receipt.py:58-62 | The counter of the store, or of the manager without one, grows by one and is returned. |
| `Manager.ReceiptManager.CreateAdmission` | aivf-ccs-verifier/src/aivf_ccs_verifier/receipt.py:64-101 | A result is the signed admission under the next number, and with a store its row is saved; a failure takes at most the number. |
| `Manager.ReceiptManager.Finalize` | aivf-ccs-verifier/src/aivf_ccs_verifier/receipt.py:103-107 | The result has the hash of this response, status finalized and otherwise the receipt's own fields, and is signed anew and saved; the original is not revoked. |
| `Manager.ReceiptManager.MarkUnavailable` | aivf-ccs-verifier/src/aivf_ccs_verifier/receipt.py:109-112 | The result is the receipt with status unavailable and nothing else changed, signed anew and saved. |
| `Manager.ReceiptManager.HasAllFields` | aivf-ccs-verifier/src/aivf_ccs_verifier/receipt.py:138-140 | The field loop passes exactly on receipts with all 22 fields. |
| `Manager.ReceiptManager.ValidateReceipt` | aivf-ccs-verifier/src/aivf_ccs_verifier/receipt.py:130-173 | The guards in the code's order: the result is that of the specification, which looks replay up only when there is a store. |
| `Manager.ReceiptManager.MarkOnce` | aivf-ccs-verifier/src/aivf_ccs_verifier/receipt.py:116-125 | The key is recorded, in the table or in memory, and was not before; otherwise nothing changes. |
| `Manager.ReceiptManager.Consume` | aivf-ccs-verifier/src/aivf_ccs_verifier/receipt.py:114-128 | Success needs a verified, unexpired, unspent allow receipt of this audience whose key was not consumed, and leaves the key consumed and a re-signed copy, status consumed and nothing else changed, saved; a failure changes nothing or, when only the last save failed, leaves the key consumed. Without a store success is exactly that. |
| `Manager.ValidateAfterConsume` | aivf-ccs-verifier/src/aivf_ccs_verifier/receipt.py:114-128 | Without a store a receipt that consume has just accepted validates again with the same options and at the same time; and that consume accepts exactly the unconsumed receipts which validate accepts. |
| `LifecycleSafety.InvAlways` | aivf-ccs-verifier/src/aivf_ccs_verifier/storage.py:53-94 | All invariants hold in every state of every run: lock exclusion, numbering, marking, nonce freshness, lineage. |
| `LifecycleSafety.LockKept` | aivf-ccs-verifier/src/aivf_ccs_verifier/storage.py:55-59 | Every step keeps: at most one process is inside a write transaction, and what it has read is still what is committed. |
| `LifecycleSafety.NumberKept` | aivf-ccs-verifier/src/aivf_ccs_verifier/storage.py:53-60 | Every step keeps the accounting of committed, used, burnt and held numbers. |
| `LifecycleSafety.MarkKept` | aivf-ccs-verifier/src/aivf_ccs_verifier/receipt.py:114-128 | Every step keeps: successes belong to committed marks, one claimant per mark, and a cleared look-up preceded every mark of its key. |
| `LifecycleSafety.NonceKept` | aivf-ccs-verifier/src/aivf_ccs_verifier/receipt.py:92 | Every step keeps: a drafted nonce is carried by one process and by no issued receipt. |
| `LifecycleSafety.LineageKept` | aivf-ccs-verifier/src/aivf_ccs_verifier/receipt.py:103-128 | Every step keeps: every signed, saved or in-flight receipt descends from the one admission of its key. |
| `LifecycleSafety.ConsumedAtMostOnce` | aivf-ccs-verifier/src/aivf_ccs_verifier/receipt.py:114-128 | Over any number of managers, copies, interleavings and crashes, at most one step of a run returns from a consume of one (issuer, nonce). |
| `LifecycleSafety.ConsumedStaysConsumed` | aivf-ccs-verifier/src/aivf_ccs_verifier/storage.py:74-94 | After mark_consumed has committed a key, no later commit for it happens, and every later look-up, by any process and for any copy, rejects. |
| `LifecycleSafety.SuccessFollowsCommit` | aivf-ccs-verifier/src/aivf_ccs_verifier/receipt.py:117-128 | The commit is the linearization point: every success has a committed key, and every acceptance by validate read the table before any commit of its key. |
| `LifecycleSafety.NumbersAccountedFor` | aivf-ccs-verifier/src/aivf_ccs_verifier/storage.py:53-60 | Numbers are committed as 1, 2, 3, ... without gap or repeat, and each is used once, burnt, or held by the one process that took it. |
| `LifecycleSafety.FailureBurns` | aivf-ccs-verifier/src/aivf_ccs_verifier/storage.py:53-60 | A failure before COMMIT burns nothing; one after it burns exactly that number, for good. |
| `LifecycleSafety.RowIsConsistent` | aivf-ccs-verifier/src/aivf_ccs_verifier/receipt.py:114-128 | In every reachable state a row's number lies in 1..meta.sequence, and a consumed row has its consumed entry and verdict allow. |
| `LifecycleSafety.RowsAreConsistent` | aivf-ccs-verifier/src/aivf_ccs_verifier/receipt.py:103-128 | In every reachable state rows of one (issuer, nonce) agree on the 19 fields other than response_hash, receipt_status and signature, and rows with one number have one key. |
| `LifecycleSafety.VerifiedWasSigned` | aivf-ccs-verifier/src/aivf_ccs_verifier/receipt.py:146-147 | A receipt whose signature is accepted agrees on all 21 fields with one in the record of signings under that key. |
| `LifecycleSafety.AcceptedWasSigned` | aivf-ccs-verifier/src/aivf_ccs_verifier/receipt.py:146-147 | Whatever gets past the signature check agrees on all 21 signed fields with a dictionary that an earlier step of the run signed under the same key. |
| `LifecycleSafety.CopyHasLineage` | aivf-ccs-verifier/src/aivf_ccs_verifier/receipt.py:103-112 | A copy that keeps the 19 core fields of an issued receipt has the same origin. |
| `LifecycleSafety.AcceptedWasIssuedFor` | aivf-ccs-verifier/src/aivf_ccs_verifier/receipt.py:64-173 | In every run, a receipt accepted for an expected command goes back to an earlier signing of an admission, for a command that is the same call with the same parameters or collides with it, tools spelt alike; the receipt still has that admission's 19 core fields. |
| `LifecycleSafety.UninterruptedConsume` | aivf-ccs-verifier/src/aivf_ccs_verifier/receipt.py:114-128 | Run without interference, the steps of a consume are the call: the key marked, the copy saved, one success. |
| `Aggregation.Group` | aivf-ccs-verifier/src/aivf_ccs_verifier/verifier.py:40-42 | The one-pass dictionary of lists holds, for every dimension, what filtering by that dimension gives. |
| `Aggregation.GroupedDimensions` | aivf-ccs-verifier/src/aivf_ccs_verifier/verifier.py:44-52 | The verifier's loops compute the same seven statuses as the guardrail's per-dimension filters. |
| `Aggregation.DimensionMeans` | aivf-ccs-sdk/src/guardrail.js:27-30 | A dimension is fail exactly when it has a failing result, and unknown exactly when it has none failing and an unknown one or no result at all. |
| `Aggregation.VerdictMeans` | aivf-ccs-sdk/src/guardrail.js:31-32 | Deny exactly when one of the seven dimensions has a failing result; allow exactly when each has a result and none is a failure or unknown. |
| `Aggregation.OrderIsIrrelevant` | aivf-ccs-verifier/src/aivf_ccs_verifier/verifier.py:40-56 | Reordering the results changes neither dimensions nor verdict. |
| `Aggregation.MoreResultsNeverHelp` | aivf-ccs-verifier/src/aivf_ccs_verifier/verifier.py:40-56 | Deny survives any further results; once every dimension has one, nothing appended moves the verdict toward allow. |
| `Aggregation.AllowIsReachable` | aivf-ccs-verifier/src/aivf_ccs_verifier/verifier.py:40-56 | Some continuation reaches allow exactly when nothing so far failed or was unknown. |
| `Aggregation.ReasonsAgreeIff` | aivf-ccs-sdk/src/guardrail.js:33 | The two reported reasons agree exactly when the first failure has a reason, when no failure has one and the verdict is not escalate, or when on escalation the first reason is literally JavaScript's wording. |
| `Aggregation.ReasonsCanDiffer` | aivf-ccs-verifier/src/aivf_ccs_verifier/verifier.py:57-59 | A list of results for which the two implementations report different reasons. |
| `Verifier.AllowMeans` | aivf-ccs-verifier/src/aivf_ccs_verifier/verifier.py:26-56 | The decision is allow exactly when no rule raised, every dimension has a result and none failed or was unknown; it is always one of the three verdicts. |
| `Verifier.VerdictIs` | aivf-ccs-verifier/src/aivf_ccs_verifier/verifier.py:26-56 | Deny exactly when some rule raises or reports a failure in one of the seven dimensions; allow exactly when none raises, every dimension has a report and none is a failure or unknown. |
| `Verifier.DimensionsAre` | aivf-ccs-verifier/src/aivf_ccs_verifier/verifier.py:31-52 | When a rule raises, security is fail and the other six unknown; else a dimension is fail exactly when a rule reports so, and unknown exactly when none does and one reports unknown or none reports at all. |
| `Verifier.ReasonIs` | aivf-ccs-verifier/src/aivf_ccs_verifier/verifier.py:31-59 | The reason is the first exception's, else that of the first failure that gives one, else a fixed sentence on escalation and none otherwise. |
| `Verifier.SummaryAppends` | aivf-ccs-verifier/src/aivf_ccs_verifier/verifier.py:60 | The rule summary grows at its end by name=status for each result, with a bar in between. |
| `Verifier.VerifierService.Judge` | aivf-ccs-verifier/src/aivf_ccs_verifier/verifier.py:27-60 | The rule loop with its exception path, the grouping, the reason and the summary are the specified decision; its verdict is deny exactly when a rule raises or fails a dimension, and allow exactly when all are clean. |
| `Verifier.VerifierService.Verify` | aivf-ccs-verifier/src/aivf_ccs_verifier/verifier.py:26-62 | The verdict is deny exactly when a rule raises or fails a dimension, and allow exactly when all are clean; none leaves without its signed admission, saved when there is a store; when create_admission raises there is no result and at most a number is taken. |
| `PublicVerifier.ProfileChecks` | public-verifier/app/verifier.py:71-120 | For anything json.loads can return: it raises exactly for an unhashable verdict, status or dimension value, and otherwise all checks pass exactly on receipts of the 22-field profile. |
| `PublicVerifier.ConformsMeans` | public-verifier/app/verifier.py:71-120 | The profile is the 22 fields and no other, each of its kind, a digest URI for instance being sha256: and 64 lower-case hexadecimal digits, with the action spelling tool and parameter hash; everything else is refused. |
| `PublicVerifier.VerifyReceipt` | public-verifier/app/verifier.py:123-187 | profile_valid is conformance, signature_valid adds the verified signature, authentic is both, whatever the time; fresh adds now <= float(expires_at), and authorizing_now admission and allow; it raises exactly where profile_checks does and where float() overflows on an authentic receipt. |
| `PublicVerifier.CoreAccepts` | public-verifier/app/verifier.py:140-152 | On the profile, the core's fresh authorizing validate accepts exactly the authentic, unexpired allow receipts of status admission or finalized whose key is not consumed. |
| `PublicVerifier.VerifiersAgree` | public-verifier/app/verifier.py:140-152 | On the profile, authorizing_now holds exactly when the store-less core accepts and the status is admission, with the one exception, exactly, of authentic allow admissions that float rounding makes fresh or stale; within 2^53 there are none. |
| `PublicVerifier.VerifiersDifferOn` | aivf-ccs-verifier/src/aivf_ccs_verifier/receipt.py:152-157 | Rounding apart, and without the status condition, the two disagree on exactly the live finalized receipts. |
| `PublicVerifier.FinalizedDivides` | aivf-ccs-verifier/src/aivf_ccs_verifier/receipt.py:103-107 | They do disagree: whatever authorizes, once finalized and signed, is still accepted by the core and no longer authorizes for the public verifier. |
| `PublicVerifier.AllowAuthorizes` | public-verifier/app/verifier.py:140-152 | Every allow admission issued for a presentable command authorizes until it expires, so that such receipts exist. |
| `PublicVerifier.LargeExpiryDivides` | public-verifier/app/verifier.py:141-145 | An expiry of 2^53 + 3 rounds up: one second later the public verifier still authorizes and the core has stopped. |
| `PublicVerifier.AuthorizationOnlyExpires` | public-verifier/app/verifier.py:141-152 | authorizing_now never turns true as time passes, and is lost exactly after the expiry as a double. |
| `PublicVerifier.AdmissionConforms` | aivf-ccs-verifier/src/aivf_ccs_verifier/receipt.py:77-100 | An admission the verifier issues, on the normal or the exception path, passes the profile exactly when trace_id has 16 characters or more, tool, issuer, audience and key_id are non-empty texts and the nonce has 16. |
| `PublicVerifier.DecidedDimensionsConform` | aivf-ccs-verifier/src/aivf_ccs_verifier/verifier.py:32-52 | The dimensions of every decision are the seven keys with known statuses, and its verdict is a known one. |
| `PublicVerifier.TransformConforms` | aivf-ccs-verifier/src/aivf_ccs_verifier/receipt.py:103-128 | Finalizing, retiring or consuming a conforming receipt gives a conforming one. |
| `PublicVerifier.DescendantIsAuthentic` | aivf-ccs-verifier/src/aivf_ccs_verifier/receipt.py:103-128 | Whatever finalize, mark_unavailable and consume make of an authentic receipt, in any order and number, is authentic. |
| `PublicVerifier.IssuedIsAuthentic` | public-verifier/app/verifier.py:123-140 | Completeness: every admission issued for a presentable command, and every descendant of it, is reported authentic. |
| `Protocol.RequestReadsBack` | aivf-ccs-verifier/src/aivf_ccs_verifier/server.py:17-18 | Command(**req["command"]) on the client's request object is the command that was sent, no default being used. |
| `Protocol.DecodeMeans` | aivf-ccs-verifier/src/aivf_ccs_verifier/server.py:17-18 | A command comes out exactly of an object whose command is an object with known keys only and with agent_id, tool and params; each field is the one sent or its default. |
| `Protocol.CutRequestDecodes` | aivf-ccs-verifier/src/aivf_ccs_verifier/server.py:13-18 | However much of a request line arrives, the server decodes the command that was sent or fails, and fails exactly when the line is cut. |
| `Protocol.FramingIsExact` | aivf-ccs-verifier/src/aivf_ccs_verifier/server.py:31 | The lines of what the server wrote are the printed bodies, one each, in order. |
| `Protocol.LinesOfCut` | aivf-ccs-verifier/src/aivf_ccs_verifier/server.py:13-15 | A stream cut inside its one line is read as at most that one piece. |
| `Protocol.PlainLoadsInverts` | aivf-ccs-verifier/src/aivf_ccs_verifier/server.py:17 | The assumption on json.loads is met by a decoder: the parser that inverts the printer. |
| `Protocol.ParseKeepsTexts` | aivf-ccs-sdk/src/remote.js:47 | The assumption on JSON.parse is met as well. |
| `Protocol.OkBodyVerdict` | aivf-ccs-verifier/src/aivf_ccs_verifier/server.py:20-28 | The body of a result says the decision's verdict. |
| `Protocol.DenyBodyVerdict` | aivf-ccs-verifier/src/aivf_ccs_verifier/server.py:30 | The body of an exception says deny. |
| `Protocol.OkBodySays` | aivf-ccs-verifier/src/aivf_ccs_verifier/server.py:20-28 | The body of a result says ok, the dimensions, the reason, the error code, and retryable exactly on escalation. |
| `Protocol.OkBodyCarries` | aivf-ccs-verifier/src/aivf_ccs_verifier/server.py:20-28 | The body of a result carries its receipt, all 22 fields under their names. |
| `Protocol.ReceiptIsRead` | aivf-ccs-sdk/src/remote.js:47-48 | Whoever decodes such a body to an equal value has the receipt: the payload that was signed and the signature over it. |
| `Protocol.DenyBodySays` | aivf-ccs-verifier/src/aivf_ccs_verifier/server.py:30 | The body of an exception says not ok, not retryable and code -32000, and holds no receipt. |
| `Server.VerifierServer.Decision` | aivf-ccs-verifier/src/aivf_ccs_verifier/server.py:19-30 | A result leaves as its body with the admission signed under the next number and, with a store, saved by then; a raising create_admission leaves as a deny, which happens only with a store and takes at most a number. |
| `Server.VerifierServer.Respond` | aivf-ccs-verifier/src/aivf_ccs_verifier/server.py:16-30 | Every line is answered: with the decision on the command it decodes to, its receipt accounted for, or with a deny; an undecodable line changes no table. |
| `Server.VerifierServer.Handle` | aivf-ccs-verifier/src/aivf_ccs_verifier/server.py:10-35 | The output frames one body per readable line, the i-th answering the i-th line on its own, so that a bad line disturbs no other; an overlong line ends the connection; and the final tables are the account of all turns, each receipt handed out having taken the next number and, with a store, been saved. |
| `Server.HandedOutIsSaved` | aivf-ccs-verifier/src/aivf_ccs_verifier/server.py:19-28 | The receipts handed out on one connection carry distinct, growing numbers, and with a store each is in the evidence table before its body is written. |
| `Remote.VerifiedParams` | aivf-ccs-sdk/src/remote.js:4-14 | The verified parameters are the ones the tool gets exactly when those are truthy; falsy ones are verified as an empty object. |
| `Remote.GovernedSpeaksFor` | aivf-ccs-sdk/src/remote.js:4-14 | The command of a governed call carries the tool, the caller's agent by either spelling, parameters, context and cost; a default stands in exactly where the caller's value is falsy. |
| `Remote.RemoteCall.constructor` | aivf-ccs-sdk/src/remote.js:27 | A call starts unresolved with an empty buffer. |
| `Remote.RemoteCall.Fail` | aivf-ccs-sdk/src/remote.js:28-35 | Resolves with a denial unless already done. |
| `Remote.RemoteCall.OnData` | aivf-ccs-sdk/src/remote.js:41-54 | Appends the chunk; resolves with the first line exactly when there is one and nothing resolved before. |
| `Remote.RemoteCall.OnTimeout` | aivf-ccs-sdk/src/remote.js:55 | Denies unless already resolved. |
| `Remote.RemoteCall.OnError` | aivf-ccs-sdk/src/remote.js:56 | Denies unless already resolved. |
| `Remote.RemoteCall.OnClose` | aivf-ccs-sdk/src/remote.js:57 | Denies unless already resolved. |
| `Remote.GovernedTool.constructor` | aivf-ccs-sdk/src/remote.js:62-63 | A governed tool whose body has not been entered. |
| `Remote.GovernedTool.Run` | aivf-ccs-sdk/src/remote.js:65-88 | The body is entered exactly when the call is allowed, once and with the caller's own parameters; otherwise the verification is thrown. |
| `Remote.ResolvesOnce` | aivf-ccs-sdk/src/remote.js:27-57 | After any events the call has resolved exactly when a whole line arrived or the connection ended, and never twice. |
| `Remote.ResolutionIsFinal` | aivf-ccs-sdk/src/remote.js:27-57 | No later event changes a resolution. |
| `Remote.AnsweredByFirstLine` | aivf-ccs-sdk/src/remote.js:41-53 | For every chunking of a stream with a line and every later event, the one resolution is the first line's. |
| `Remote.DeniedWithoutLine` | aivf-ccs-sdk/src/remote.js:55-57 | When the connection ends before a whole line, the one resolution is a denial, whatever comes later. |
| `Remote.ResolvesOneWay` | aivf-ccs-sdk/src/remote.js:41-57 | Every sequence of events that resolves does so in one of those two ways. |
| `Remote.AllowedIffFirstBody` | aivf-ccs-sdk/src/remote.js:47-48 | For every chunking of what the server writes and every later event, the call is allowed exactly when the first body's verdict is allow. |
| `EndToEnd.ToolRunsOnlyOnSavedAllow` | aivf-ccs-sdk/src/remote.js:62-77 | Fail-closed and persist-before-execute: whenever a step of a run enters a governed tool body, a signed allow admission for that tool and those parameters was already among the saved receipts; the rules allowed the command it covers, which carries this caller's agent, context and cost. |
| `EndToEnd.AllowIsHandedOut` | aivf-ccs-verifier/src/aivf_ccs_verifier/server.py:20-31 | In every state of every run, an allow that the server has written carries, field by field, the receipt saved for that very call. |
| `EndToEnd.InvAlways` | aivf-ccs-verifier/src/aivf_ccs_verifier/server.py:10-35 | In every state of every run, what the server wrote and the client resolved is backed by a saved receipt whenever it says allow. |
| `EndToEnd.ReadKept` | aivf-ccs-verifier/src/aivf_ccs_verifier/server.py:13-18 | The server decides only on the command that was sent. |
| `EndToEnd.WrittenKept` | aivf-ccs-verifier/src/aivf_ccs_verifier/server.py:20-31 | The server writes an allow only for a receipt it has saved, and with that receipt in the body. |
| `EndToEnd.ReceiveKept` | aivf-ccs-sdk/src/remote.js:41-48 | No chunk of the answer makes the client allow what is not backed. |
| `EndToEnd.EntersByRunTool` | aivf-ccs-sdk/src/remote.js:70-77 | A tool body is entered only on an allowed resolution. |
| `EndToEnd.EntryIsAuthorized` | aivf-ccs-sdk/src/remote.js:62-77 | From any state that satisfies the invariant, a step that enters a tool body finds a signed allow admission for that very call among the receipts saved. |
| `EndToEnd.WholeAnswerRuns` | aivf-ccs-sdk/src/remote.js:41-77 | When all of the answer arrives, the tool may run exactly when the decision was allow. |
| `EndToEnd.AllowedCallRuns` | aivf-ccs-sdk/src/remote.js:16-77 | For every governed call and allow decision, opening, delivering, reading, persisting, writing, receiving and running the tool form a run, so that tool bodies are reached. |
| `EndToEnd.VerifyPersists` | aivf-ccs-verifier/src/aivf_ccs_verifier/verifier.py:61-62 | What VerifierService.Verify guarantees is what the server's persist step does: decision, signed admission, saved row. |
| `Deployment.SaveIsPersist` | aivf-ccs-verifier/src/aivf_ccs_verifier/receipt.py:77-101 | When the lifecycle saves the admission that a connection waits for, the row is a signed admission for that connection's command under the rules' decision: the protocol's persist step. |
| `Deployment.StepSimulates` | aivf-ccs-verifier/src/aivf_ccs_verifier/verifier.py:61-62 | Every step of the joint system, other managers' included, keeps the coupling and is a step of the protocol or leaves it alone. |
| `Deployment.Simulates` | aivf-ccs-verifier/src/aivf_ccs_verifier/verifier.py:61-62 | Every state of every joint run satisfies the coupling and the protocol's invariant. |
| `Deployment.SavedWasCommitted` | aivf-ccs-verifier/src/aivf_ccs_verifier/storage.py:62-72 | What the protocol counts as saved was, at that step or an earlier one, a committed row of the evidence table. |
| `Deployment.ToolRunsOnlyOnCommittedRow` | aivf-ccs-sdk/src/remote.js:62-77 | Fail-closed over the lifecycle's own steps and under any interference: when a tool body is entered, the evidence table has held a signed allow admission for that call: tool, parameters, agent, context and cost. |
| `Deployment.AllowedCallRuns` | aivf-ccs-verifier/src/aivf_ccs_verifier/receipt.py:64-101 | For every governed call that the rules allow, number, signature, row, answer and tool call form a run from the empty database. |
| `Limiter.SlidingWindowLimiter.constructor` | examples/public-portal/app.py:20-22 | An empty limiter. |
| `Limiter.SlidingWindowLimiter.Allow` | examples/public-portal/app.py:24-35 | The pruned deque decides as the full history does: allowed exactly when fewer than limit accepts of the key lie in (now - window, now]; only an accept joins the history; the hint is computed from the oldest entry in the window; other keys keep deque and history; a limit below 1 on an empty window raises. |
| `Limiter.SlidingWindowLimiter.Prune` | examples/public-portal/app.py:28-30 | After the loop the deque is exactly the window, and other keys are untouched. |
| `Limiter.SlidingWindowLimiter.PopLeft` | examples/public-portal/app.py:30 | One pop keeps the deque a suffix of the full history. |
| `Limiter.SlidingWindowLimiter.Append` | examples/public-portal/app.py:34 | An admitted call joins deque and history. |
| `Limiter.OneWindow` | examples/public-portal/app.py:27-35 | Any half-open interval no longer than the window holds at most limit accepts. |
| `Limiter.Bounded` | examples/public-portal/app.py:24-35 | Any half-open interval of length k * window, open on either side, holds at most k * limit accepts, for every k. |
| `Limiter.RetryIsExact` | examples/public-portal/app.py:32 | On refusal 1 <= retry_after <= window + 1, and the oldest kept entry expires in at least retry_after - 1 and less than retry_after seconds. |
| `Limiter.RefusedUntilExpiry` | examples/public-portal/app.py:28-33 | Every call before that expiry is refused, whatever has been accepted meanwhile. |
| `Limiter.AdmittedAfterHint` | examples/public-portal/app.py:28-35 | A call at now + retry_after or later is accepted when none was accepted in between. |
| `Limiter.KeysAreSeparate` | examples/public-portal/app.py:165 | Buckets without a colon never share a key, whatever the address header holds. |
| `Seed.SeedFile.constructor` | aivf-ccs-verifier/src/aivf_ccs_verifier/key_manager.py:5-6 | The file as it is found. |
| `Seed.SeedFile.LoadOrCreate` | aivf-ccs-verifier/src/aivf_ccs_verifier/key_manager.py:5-24 | An existing file is never changed and loads exactly when it holds 32 bytes; otherwise what is written is a prefix of the seed that may be returned. |
| `Seed.SeedsAgree` | aivf-ccs-verifier/src/aivf_ccs_verifier/key_manager.py:5-24 | Over any number of racing and failing processes, all calls that return give the same 32 bytes, and at most one seed is minted. |
| `Seed.HalfWrittenStays` | aivf-ccs-verifier/src/aivf_ccs_verifier/key_manager.py:8-14 | Once no call is about to write, the file never changes; if it is short and the call that cut it has gone, no call returns again and none mints a second seed. |
| `Seed.SettledCall` | aivf-ccs-verifier/src/aivf_ccs_verifier/key_manager.py:8-12 | A later undisturbed call returns exactly when the file holds 32 bytes, and returns them. |
| `Seed.CreatorReturns` | aivf-ccs-verifier/src/aivf_ccs_verifier/key_manager.py:15-24 | The creator returns its seed however little was written; another call can then load that seed exactly when all 32 bytes were. |
| `Seed.WriteDecides` | aivf-ccs-verifier/src/aivf_ccs_verifier/key_manager.py:8-24 | A write decides for the rest of the run: the file stays what was written, an idle process can load the seed exactly when all 32 bytes were, and after a short write nothing but the creator's own seed is ever returned, once. |
| `Seed.ShortWriteStrands` | aivf-ccs-verifier/src/aivf_ccs_verifier/key_manager.py:15-24 | A concrete input: a write of nothing, after which the creator returns its seed and no other call can load it. |
| `JsCanonical.NormalizedIsValue` | aivf-ccs-sdk/src/canonical.js:3-10 | Normalizing gives objects in JavaScript's property order, keys distinct. |
| `JsCanonical.NormalizedIsInOrder` | aivf-ccs-sdk/src/canonical.js:3-10 | At every depth, down to an object that the guard skips, index keys come first by number and the others in dictionary order by code unit. |
| `JsCanonical.IndexMeans` | aivf-ccs-sdk/src/canonical.js:6 | The keys that come first by number are the decimal numerals without leading zero of the integers up to 2^32 - 2. |
| `JsCanonical.UnitsAreUtf16` | aivf-ccs-sdk/src/canonical.js:6 | The code units of a character are itself or its surrogate pair, as in section 2.1 of RFC 2781. |
| `JsCanonical.UnitLessMeans` | aivf-ccs-sdk/src/canonical.js:6 | Sorting keys compares their code units in dictionary order. |
| `JsCanonical.NormalizeIsIdempotent` | aivf-ccs-sdk/src/canonical.js:3-10 | Normalizing twice changes nothing more, for every value. |
| `JsCanonical.NormalizeKeepsValue` | aivf-ccs-sdk/src/canonical.js:3-10 | Normalizing keeps the value up to key order. |
| `JsCanonical.SameNormalIsEqual` | aivf-ccs-sdk/src/canonical.js:3-10 | Values that normalize to one tree are the same up to key order, objects with a constructor key included. |
| `JsCanonical.NormalizesAlikeIff` | aivf-ccs-sdk/src/canonical.js:3-10 | A value normalizes like everything equal to it exactly when every object that the guard skips is rigid, having one possible property order at every level; a value without a constructor key is such a value. |
| `JsCanonical.CanonicalJsonIffEqual` | aivf-ccs-sdk/src/canonical.js:12-14 | For such a value the canonical texts coincide exactly with the values that are the same up to key order. |
| `JsCanonical.RigidIsAlone` | aivf-ccs-sdk/src/canonical.js:5 | A rigid value has no differently ordered twin. |
| `JsCanonical.UnsteadyHasRival` | aivf-ccs-sdk/src/canonical.js:5 | Every other value has an equal one that normalizes differently. |
| `JsCanonical.ConstructorKeyDefeatsSorting` | aivf-ccs-sdk/src/canonical.js:5 | Two orders of the keys constructor and a that normalize to different trees. |
| `JsCanonical.FromEntriesAscends` | aivf-ccs-sdk/src/canonical.js:6 | fromEntries over sorted keys lists index keys by number and then the others by code unit. |
| `JsCanonical.KeyOrdersDiffer` | aivf-ccs-sdk/src/canonical.js:6 | A pair of keys that JavaScript and Python sort in opposite orders. |

## Left out

- Floats: numbers in JSON values are integers, so the float spellings of the two languages, NaN and infinities do not occur, and nothing is claimed about Python and JavaScript producing the same bytes. Times are integers in receipts and reals in the limiter; the one conversion of a receipt's time to a double, in the public verifier, is a function that is exact within 2^53.
- Lone surrogates: characters are Unicode scalar values, so texts that the UTF-8 encoder would refuse do not occur.
- Json.RoundTrip: covers the parser for the printer's own language; white space between tokens, escapes beyond those the printer writes, and repeated keys are left to the decoder assumptions.
- Grammar.PrintIsText: the grammar is RFC 8259's for integers and without white space around tokens.
- Binding.DigestBinds: covers JSON values; the branches of sha256_hex and sha256Hex that hash raw bytes are not modelled.
- SQLite itself, power loss, the write-ahead log, and the created_at and consumed_at columns.
- LifecycleSafety.AcceptedWasSigned: is about the ideal signature of the step system; that Ed25519 is unforgeable is not claimed.
- LifecycleSafety.RowsAreConsistent: finalize and mark_unavailable sign whatever dictionary they are given, so the step system hands them receipts that were issued earlier, or copies of such.
- Storage.SQLiteStore.SaveReceipt: the code puts the sequence through int(), so a dictionary whose sequence is True or a numeric text is stored as well; the model stores integers only.
- Manager.ReceiptManager.Consume: without a store the code also consumes issuers and nonces that are hashable without being texts; the model refuses them.
- Manager.ReceiptManager.ValidateReceipt: the code calls the clock inside; the model is given the time. A non-text issuer or nonce at the replay look-up counts as a type error, though SQLite would compare some of those.
- Rules: the regular expressions and address checks behind SSRF, RCE and credential detection, and the single-branch rules, are any function that returns or raises.
- PublicVerifier.VerifyReceipt: the texts of the checks, the headline, the fingerprint and the displayed fields are left out, and the public key is one that load_public_key_hex accepts.
- Server.VerifierServer.Handle: is given all that the peer ever sends and works through it; the line limit counts characters where the stream reader counts bytes. The health endpoint, start-up and the error_code mapping, which is any function of the decision, are left out.
- Remote.RemoteCall.OnData: streams are sequences of characters, so a UTF-8 sequence split between two chunks is not modelled; neither are the socket options.
- Json.CutObjectIsRejected: is proved of the model's parser; json.loads enters only as a decoder that is assumed to do the same.
- EndToEnd.ToolRunsOnlyOnSavedAllow: assumes that a store is configured and that the peer is this server. Parameters are JSON values: in the code the caller's object is serialized when the call connects and handed to the tool later, so a change in between separates the verified parameters from the executed ones, and so do undefined, functions and NaN, which JSON.stringify drops or turns to null. The tool's name is a text given by the options or the function.
- Remote.VerifiedParams: is about JSON values that nobody changes between verification and execution, as in the line above.
- Deployment.ToolRunsOnlyOnCommittedRow: each connection has a process of its own, which interleaves more than the server's single thread does; signatures made for a call are the server's, those of other managers are any text.
- Limiter.SlidingWindowLimiter.Allow: a call is atomic, the time it reads does not decrease from call to call, and one limiter has one window, which is how the portal calls it; limits may vary from call to call.
- Seed.SeedsAgree: reading the file is one step, and directory creation, chmod and power loss are left out.
- JsCanonical.NormalizesAlikeIff: is about JSON data; prototypes other than Object's, buffers and undefined are not modelled.
- The in-process JavaScript receipt manager and govern, the HTTP servers and pages, command lines, container files, the demo agent and the LLM client.
