# Herold: a verified model of its protocol core

This project models, in Dafny 4.11, the parts of the herold mail server whose correctness spans many
steps, and proves what they promise for every input and every run.

* The ACME client (RFC 8555, `internal/acme`). `AcmeMachine` says what an order call does next and
  where each answer of the server, the store, a plugin or the clock takes it; `AcmeTrace` says the same
  without any phases, from the events alone, and proves the two equal. `AcmeDrive`,
  `AcmeBounds`, `AcmeCleanup` and `AcmeDns` prove what holds of every run of one call, `AcmeSystem`
  what holds of any number of interleaved calls with crashes, `AcmeResume` and `AcmeSolo` what resuming
  recovers and what a call changes; `AcmeRuns` builds the runs in which a promise fails, `AcmeRecovery`
  the interleavings, and says exactly when a stored row can still change. `AcmeClient` is
  the program itself, method by method, over mutable store and challenger objects; each of its methods
  is proved to take exactly the machine's steps, so a call of `Order` or `ResumeOrder` is one run from a
  fresh start, to which the theorems about such runs apply. `AcmeRenewal` adds the renewal pass. `Nonces`
  is the nonce cache under concurrency and the retry loop; `Base64Url`, `CanonicalJson` and `Jws` are
  the encodings.
* The CI runner orchestrator (`cmd/herold-runner-orchestrator`). `Pool` specifies one tick and proves
  the theorems about histories of ticks; `Orchestrator` is the controller, proved to produce histories.
* The IMAP-import orphan repair (`internal/admin`). `OrphanSpec` and `OrphanProofs` treat an error-free
  run as a function; `OrphanRepair` is the paging program over a store that may fail.
* `Strings` and `Clocks` hold what several of these share.
* The mailbox rights codec (RFC 4314, `internal/aclcodec`) in `AclCodec`, and listener binding
  (`internal/admin/server.go`) in `Listeners`.

What the program cannot control is arbitrary: server replies, plugin results, store failures (before or
after they took effect), cancellations, the clock (which never runs backwards), map iteration order and
the scheduling of goroutines. `dafny verify dfyconfig.toml` checks everything.

## What the code does that its documentation does not say

* `EnsureCert` is documented to leave a certificate alone when at least the threshold remains; the code
  asks for more than the threshold. The model follows the code.
* Resuming does not copy the certificate URL of the fetched order. An order that is valid by then is
  marked invalid, unless the row already carried the URL; then a certificate is saved with a key the CA
  never saw (`AcmeResume.ValidOrderIsLost`, `AcmeResume.ValidOrderSavesUnsentKey`). In general the saved key was
  sent exactly when the order was ready at the moment it was generated
  (`AcmeDrive.SavedKeyWasSentIffReady`).
* Renewal and resumption pass an empty DNS plugin name, so a dns-01 certificate is renewed only if its
  authorisations are valid already (`AcmeResume.RenewedOnlyIfValid`). Both outcomes occur
  (`AcmeRuns.ValidIsRenewed`, `AcmeRuns.PendingIsMarkedInvalid`).
* A finished row can be overwritten by another resume that fetched the order earlier
  (`AcmeRecovery.StaleResumeOverwrites`), or by one that starts later from a copy listed earlier
  (`AcmeRecovery.StaleListingOverwrites`): the second even marks an issued order invalid. One process
  lists and resumes rows in a single loop, so both take two loops or two processes on one store. A row
  stays as it is exactly when nothing of either kind is left (`AcmeRecovery.SettledIff`).
* The pending row is written first so that a crash mid-flight is recoverable. A crash before its order
  URL is written leaves a row that resuming never advances (`AcmeRecovery.CrashLosesOrder`,
  `AcmeSystem.StuckWithoutUrl`); the recoverable rows are exactly those with a URL
  (`AcmeRecovery.RecoverableIff`).
* Two dns-01 authorisations for one host (a name and its wildcard) share an entry of the records map, and
  then one of the two records is never cleaned up (`AcmeRuns.WildcardRecordLost`; the exact condition is
  in `AcmeDns.EachRecordCleanedOnceIff`).
* A VM that is off or too old and cannot be deleted loses its runner registration while it is still
  there (`Pool.RunnerDropped` says when, `Pool.RunnerOfPresentVmDropped` that it happens).
* The dry run of the orphan repair can differ from the real run when two accounts share a label or a label
  is itself a target (`OrphanProofs.SharedLabelCountsOnce`, `OrphanProofs.OtherLabelCountsMore`; exactly
  when, in `OrphanProofs.DryRunPredictsIff`), and an orphan in a label that is its own target is found
  again by every run (`OrphanProofs.OwnLabelFoundAgain`; exactly when, in
  `OrphanProofs.SecondRunFindsNoneIff`).
* A failed probe of the running jobs counts as work, so as not to reap blind; a failed probe of the queue
  does not, and then a VM can be idle-reaped while jobs wait for it (`Pool.ReapsBlindIff`).

## Model

| member | source | states |
|---|---|---|
| `Nonces.Conservation` | internal/acme/directory.go:62-77 | over every interleaving of any number of posts, a nonce is signed, in hand or cached at most as often as the server handed it out |
| `Nonces.EveryNonceAccounted` | internal/acme/directory.go:62-77 | exactly: every nonce handed out is signed, in hand, cached, or was displaced in the cache by a later one or held by a request that could not be signed; none is lost otherwise |
| `Nonces.NoNonceReused` | internal/acme/directory.go:110-134 | if the server never hands out a nonce twice, no nonce is signed into two requests, and the cached one has not been used |
| `Nonces.RepeatedNonceIsReused` | internal/acme/directory.go:199-209 | the proviso is needed: a server that hands a nonce out twice sees it signed twice |
| `Nonces.NonceCache.Take` | internal/acme/directory.go:62-68 | take empties the cache and returns what it held |
| `Nonces.NonceCache.Put` | internal/acme/directory.go:70-77 | put overwrites the cache; an empty value changes nothing |
| `Nonces.Poster.FetchNonce` | internal/acme/directory.go:110-134 | the post ends up holding a nonce it alone took, from the cache or from newNonce, or fails |
| `Nonces.Poster.Send` | internal/acme/directory.go:178-192 | the nonce in hand is signed into exactly one request |
| `Nonces.Poster.Receive` | internal/acme/directory.go:192-228 | a transport error or badNonce leads to another attempt while one is left, anything else ends the post; the reply nonce goes to the cache |
| `Nonces.Poster.Attempt` | internal/acme/directory.go:173-229 | one turn of the loop takes the post from needing a nonce to its next attempt or its end, other posts running in between |
| `Nonces.Poster.Post` | internal/acme/directory.go:150-234 | a call run to its end in one to three attempts; all but the last ended in a transport error or badNonce; every step is a step of the interleaving machine |
| `AcmeDrive.FinalizeDiscipline` | internal/acme/order.go:165-206 | when finalize is posted it never was before, the latest report said ready, every authorisation of an order that began pending was reported valid, the CSR is that of the only key generated, and it goes to the finalize URL of newOrder, or the last one that an order fetch before the key named |
| `AcmeDrive.FinalizeAtMostOnce` | internal/acme/order.go:193-206 | no drive posts finalize twice |
| `AcmeDrive.SavedCertificate` | internal/acme/order.go:246-282 | a certificate is saved only when the latest report said valid, with a chain downloaded from the last URL that finalize or a poll named, or the one the row carried, under the first host, with the only key generated, whose CSR is the one posted if any was |
| `AcmeDrive.SavedKeyWasSentIffReady` | internal/acme/order.go:187-206 | the saved key was sent to the CA if and only if the order was ready when the key was generated |
| `AcmeDrive.OrderFetchedFrom` | internal/acme/order.go:123-222 | an order is fetched, whether resumed, confirmed or polled, from the Location that answered newOrder, or from the URL the row began with |
| `AcmeTrace.DueAsTold` | internal/acme/order.go:76-450 | in every run, the next request, write, challenge, wait or cleanup, with all its arguments, is the one that a reading of the events so far calls for; and an ended call has issued the certificate it saved, or failed |
| `AcmeTrace.OrderInserts` | internal/acme/order.go:93-110 | the row an Order call inserts is pending, for the lower-cased hosts and the challenge type asked for, without any URL |
| `AcmeTrace.AckedIsInPlace` | internal/acme/order.go:313-328 | whenever a challenge is acknowledged, the challenger of its type holds the answer: the key authorisation under the token or the lower-cased host, or the plugin's record id |
| `AcmeBounds.DrivePostBound` | internal/acme/order.go:161-289 | from the start of a drive with A authorisations and poll limit P, at most A(P+2)+P+3 posts follow |
| `AcmeBounds.DriveTerminates` | internal/acme/order.go:161-289 | a drive takes a bounded number of steps, whatever the server answers |
| `AcmeBounds.DriveNeverStuck` | internal/acme/order.go:161-289 | until a drive has ended there is always something due |
| `AcmeBounds.CallBounded` | internal/acme/order.go:76-289 | every call of Order or resumeOrder, from its very start, with A authorisations listed and poll limit P, makes at most A(P+2)+P+4 posts and A(2P+4)+3P+15 steps, whatever is answered, and has something due until it ends |
| `AcmeCleanup.NothingLeftBehind` | internal/acme/order.go:416-450 | on every exit the http-01 tokens and tls-alpn-01 certificates are those from before, less what the drive presented |
| `AcmeCleanup.RecordsLeftBehind` | internal/acme/challenge_dns01.go:112-173 | on every exit the presented dns-01 records are forgotten and all others as before, except one whose propagation wait was cancelled |
| `AcmeDns.EachRecordCleanedOnceIff` | internal/acme/challenge_dns01.go:156-173 | the ids passed to dns.cleanup are exactly those of the records whose Provision returned nil, once each and in order, if and only if no two of these share a lower-cased host and any that shares one with a record whose propagation wait was cancelled has the same id; in every case the calls made are stated |
| `AcmeDns.DistinctHostsCleanedOnce` | internal/acme/challenge_dns01.go:112-173 | if all records of a drive are for different lower-cased hosts, each gets exactly one dns.cleanup with its own id, whatever ids the plugin returned |
| `AcmeRuns.WildcardRecordLost` | internal/acme/challenge_dns01.go:139-173 | a run of an order for a name and its wildcard that creates two records and cleans up only the second |
| `AcmeSystem.ActKeeps` | internal/acme/order.go:76-289 | every call, every listing, every step of every call and every crash keeps the invariant of store, calls and listed copies |
| `AcmeSystem.StoreIsConsistent` | internal/acme/order.go:93-131 | in every reachable state a certificate with an order names a row whose first host is its own, and every row status is pending, invalid, or one the server reported for it |
| `AcmeSystem.UrlSetOnce` | internal/acme/order.go:123-153 | rows are never removed, hosts never change, and an order URL once set stays, across crashes and resumptions |
| `AcmeSystem.SettledForever` | internal/acme/client.go:262-290 | a row that is finished or without order URL never changes again, once no call is left that would write it otherwise and no listed copy of it with an order URL waits to be resumed |
| `AcmeSystem.StuckWithoutUrl` | internal/acme/order.go:136-139 | a row without order URL that no call holds stays as it is through every later state, whatever is listed, resumed or crashes |
| `AcmeRecovery.SettledIff` | internal/acme/client.go:262-290 | a stored row stays as it is in every state still to come if and only if it is settled, in any state that satisfies the invariant |
| `AcmeRecovery.StaleListingOverwrites` | internal/acme/client.go:268-276 | from any row in flight: a row listed by one loop and then carried through to valid by another, with no call left holding it, is written back without its certificate URL and marked invalid |
| `AcmeRecovery.StaleResumeOverwrites` | internal/acme/order.go:136-153 | from any row in flight: of two overlapping resumes, the one that fetched earlier writes an old status over the row the other finished, no copy of it being listed any more |
| `AcmeRecovery.CrashLosesOrder` | internal/acme/order.go:93-126 | a crash between the insertion of the row and the writing of its order URL leaves a pending row without URL that no call holds |
| `AcmeRecovery.RecoverableIff` | internal/acme/order.go:93-153 | an order in flight that no call holds can still be carried through to its certificate if and only if its order URL was recorded |
| `AcmeResume.ValidOrderIsLost` | internal/acme/order.go:143-155 | a resumed order first reported valid never yields a certificate unless the row already carried its URL |
| `AcmeResume.ValidOrderSavesUnsentKey` | internal/acme/order.go:187-188 | with the URL in the row it can yield one, saved with a key that was never sent |
| `AcmeResume.NoPluginNoChallenge` | internal/acme/client.go:229-240 | a dns-01 call without a plugin name presents and acknowledges nothing and leaves the challengers as they were, in every run |
| `AcmeResume.RenewedOnlyIfValid` | internal/acme/client.go:229-240 | a dns-01 call without a plugin name saves a certificate only if every authorisation it looked at was reported valid, and, if the order began pending, every listed one was |
| `AcmeRuns.ValidIsRenewed` | internal/acme/order.go:294-301 | a run without a plugin name, its authorisation valid already, that saves a certificate |
| `AcmeRuns.PendingIsMarkedInvalid` | internal/acme/order.go:294-323 | a run without a plugin name, its authorisation pending, that ends with its row marked invalid |
| `AcmeSolo.OrderChanges` | internal/acme/order.go:76-131 | an Order call leaves the store sound and changes no existing row and no certificate but that of its first host |
| `AcmeSolo.ResumeChanges` | internal/acme/order.go:136-156 | a resume leaves the store sound and changes no other row and no certificate but that of its first host |
| `AcmeClient.OrderStore.InsertOrder` | internal/storesqlite/metadata_phase2.go:672-705 | a stored row is the given one under an id never used before; it may report failure after taking effect |
| `AcmeClient.OrderStore.UpdateOrder` | internal/storesqlite/metadata_phase2.go:707-734 | an update changes one existing row, or nothing; it may report failure after taking effect |
| `AcmeClient.OrderStore.UpsertCert` | internal/storesqlite/metadata_phase2.go:798-819 | the certificate replaces the one for its host, or nothing changes |
| `AcmeClient.OrderStore.GetCert` | internal/storesqlite/metadata_phase2.go:845-851 | looked up by lower-cased host; an absent certificate is told apart from a failed lookup |
| `AcmeClient.OrderStore.GetOrder` | internal/storesqlite/metadata_phase2.go:769-775 | an absent order is told apart from a failed lookup |
| `AcmeClient.OrderStore.ListCertsExpiringBefore` | internal/storesqlite/metadata_phase2.go:853-872 | exactly the certificates that expire strictly before the cutoff, each once, earliest expiry first |
| `AcmeClient.OrderStore.ListOrdersByStatus` | internal/storesqlite/metadata_phase2.go:777-796 | exactly the orders with the status, each once |
| `AcmeClient.HTTPChallenger.Provision` | internal/acme/challenge_http.go:33-40 | the token answers with its key authorisation, replacing an earlier one; no token, no entry |
| `AcmeClient.HTTPChallenger.Cleanup` | internal/acme/challenge_http.go:44-48 | the token and no other is removed |
| `AcmeClient.TLSALPNChallenger.Provision` | internal/acme/challenge_tlsalpn.go:48-60 | refused exactly for an empty host or a certificate that could not be built; otherwise the lower-cased host is entered, replacing an earlier entry |
| `AcmeClient.TLSALPNChallenger.Cleanup` | internal/acme/challenge_tlsalpn.go:64-68 | the lower-cased host and no other is removed |
| `AcmeClient.DNS01Challenger.Provision` | internal/acme/challenge_dns01.go:112-151 | refused exactly for an empty plugin, domain or id or a failed call; otherwise the id is recorded under the lower-cased domain, even if the call is then cancelled |
| `AcmeClient.DNS01Challenger.Cleanup` | internal/acme/challenge_dns01.go:156-173 | dns.cleanup is called with the recorded id and the record forgotten; without plugin or record nothing happens |
| `AcmeClient.ChallengeCleanup.Add` | internal/acme/order.go:425-444 | one teardown more, after the others |
| `AcmeClient.Client.ProvisionChallenge` | internal/acme/order.go:319-323 | a teardown is owed exactly when the challenge was presented |
| `AcmeClient.Client.Dispatch` | internal/acme/order.go:360-371 | the challenger of the type is called, and no other changes |
| `AcmeClient.Client.MarkOrderInvalid` | internal/acme/order.go:399-414 | the row is written as invalid, if the store lets it |
| `AcmeClient.Client.PickChallenge` | internal/acme/order.go:302-312 | the first challenge of the wanted type, or none |
| `AcmeClient.Client.ProcessAuthorization` | internal/acme/order.go:294-328 | every path through one authorisation is a run of the machine; a teardown is recorded for what was presented |
| `AcmeClient.Client.PollAuthz` | internal/acme/order.go:329-357 | polling ends valid, or marks the order due for invalid, within the poll limit |
| `AcmeClient.Client.Authorize` | internal/acme/order.go:166-172 | all authorisations in order, or the first failure |
| `AcmeClient.Client.ConfirmOrder` | internal/acme/order.go:173-185 | the row takes the status and finalize URL of the re-fetched order |
| `AcmeClient.Client.FinalizeOrder` | internal/acme/order.go:187-206 | a new key is made, and its CSR posted exactly when the row says ready |
| `AcmeClient.Client.PollOrder` | internal/acme/order.go:208-244 | polling leaves the row valid, or the call ended, within the poll limit |
| `AcmeClient.Client.FetchCert` | internal/acme/order.go:246-277 | the certificate to save is made of the downloaded chain, the key and the first host |
| `AcmeClient.Client.Collect` | internal/acme/order.go:246-288 | download, save and final write, each failure on its own path |
| `AcmeClient.Client.DriveSteps` | internal/acme/order.go:165-288 | steps 3 to 7 reach the point where the deferred cleanup is due |
| `AcmeClient.Client.RunCleanup` | internal/acme/order.go:446-450 | every teardown is run, in order, and the call is done |
| `AcmeClient.Client.DriveOrder` | internal/acme/order.go:161-289 | a drive ends with all its teardowns run |
| `AcmeClient.Client.PlaceOrder` | internal/acme/order.go:93-130 | a pending row is persisted first, then the order placed and its URL persisted |
| `AcmeClient.Client.Order` | internal/acme/order.go:76-131 | all a call does is one run of the machine, ended, from the store and challengers it found; with A authorisations and poll limit P it sends at most 3(A(P+2)+P+4) signed HTTP requests; a type without challenger is refused at once, nothing sent |
| `AcmeClient.Client.ResumeOrder` | internal/acme/order.go:136-156 | the same for a resumed row, with the same bound on requests; one without order URL is refused at once |
| `AcmeRenewal.Renewer.EnsureCert` | internal/acme/client.go:133-162 | a certificate is left alone, and nothing sent to the server, exactly when more than thirty days remain; else Register is called and then Order, with these hosts, type and plugin, unless the store or the server refuses; Order fails at once for a type without challenger; no other certificate and no existing row changes |
| `AcmeRenewal.Renewer.RegisterAndOrder` | internal/acme/client.go:153-161 | one registration, and after it one call of Order with what was asked for, unless the server refused it |
| `AcmeRenewal.Renewer.Origin` | internal/acme/client.go:224-239 | a certificate is renewed for all hosts of the order it came from and over the same challenge; for its own name over http-01 only if it came from none or the order could not be looked up |
| `AcmeRenewal.Renewer.Renew` | internal/acme/client.go:240-245 | for a selected certificate Order is called, with the hosts and challenge of its order and no plugin, or the store or the server refused: it is never judged fresh nor found without a challenge type; calls for a type without challenger are counted apart |
| `AcmeRenewal.Renewer.RenewExpiring` | internal/acme/client.go:217-249 | exactly the certificates that expire within thirty days are selected; the orders run, the calls for a type without challenger and the refusals add up to their number; Order was called with what each certificate was first obtained for, in order, and with nothing else; no existing row changes |
| `AcmeRenewal.Renewer.Resume` | internal/acme/order.go:136-142 | a row without order URL, or of a type without challenger, is refused at once with nothing sent and nothing written; any other is resumed, and no other row changes |
| `AcmeRenewal.Renewer.ResumeBucket` | internal/acme/client.go:268-287 | resumeOrder is called for every row with the status, as it was listed; it takes up exactly those with an order URL and a challenger, refuses the others at once, and only rows taken up change |
| `AcmeRenewal.Renewer.ResumeInFlightOrders` | internal/acme/client.go:262-290 | unless something refuses, every row in flight with an order URL and a challenger is taken up and every other one refused at once; no other row changes, in particular none that was valid, invalid or otherwise finished |
| `AcmeRenewal.Renewer.RunRenewalPass` | internal/acme/client.go:217-256 | a pass that nothing refuses calls Order for every selected certificate, runs it for each if every type has a challenger, takes up every row in flight with an order URL and a challenger and refuses the other ones at once; no pass touches any other row or leaves the store unsound |
| `AcmeTypes.FindsFirst` | internal/acme/order.go:303-309 | the first challenge of the wanted type, and none exactly when no challenge is of that type |
| `AcmeTypes.StatusTokens` | internal/acme/order.go:534-548 | which token of the server is which status, both ways; any other is unknown |
| `AcmeTypes.ChallengeTokens` | internal/acme/order.go:551-561 | which challenge type has which token |
| `Base64Url.RawURLEncodeBytes` | internal/acme/order.go:512-531 | for every byte string, the 32-bit shift register yields the unpadded base64url encoding |
| `Base64Url.AlphabetIs` | internal/acme/order.go:513 | the letters are those of section 5 of RFC 4648 |
| `Base64Url.GroupIs` | internal/acme/order.go:520-525 | three bytes become the four base-64 digits of the number they stand for |
| `Base64Url.PushByte` | internal/acme/order.go:520-525 | one byte through the wrapping register writes exactly the sextets it completes and loses no pending bit |
| `Base64Url.EncodedLength` | internal/acme/order.go:517 | the length is (8n+5)/6, rounded down |
| `Base64Url.RoundTrip` | internal/acme/order.go:512-531 | a decoder recovers the bytes |
| `Base64Url.Injective` | internal/acme/order.go:512-531 | equal encodings come from equal bytes |
| `CanonicalJson.GatherKeys` | internal/acme/jws.go:87-90 | every key once, in an arbitrary order |
| `CanonicalJson.Sink` | internal/acme/jws.go:94-96 | the inner loop of swaps extends the ordered part by one and keeps the keys |
| `CanonicalJson.SortKeys` | internal/acme/jws.go:91-97 | the in-place insertion sort leaves a strictly increasing enumeration of the same keys |
| `CanonicalJson.CanonicalJSON` | internal/acme/jws.go:86-117 | the text is the members in strictly increasing order of their keys |
| `CanonicalJson.IncreasingUnique` | internal/acme/jws.go:91-97 | only one order of the keys is increasing |
| `CanonicalJson.QuoteRoundTrip` | internal/acme/jws.go:103-112 | a quoted string reads back as it was |
| `CanonicalJson.PlainQuoted` | internal/acme/jws.go:103-112 | a string of characters that need no escape is only put between quotes |
| `CanonicalJson.EscapeForms` | internal/acme/jws.go:103-112 | how each of the other characters is escaped |
| `CanonicalJson.DocumentRoundTrip` | internal/acme/jws.go:98-117 | a canonical text reads back as its map |
| `CanonicalJson.CanonicalUnique` | internal/acme/jws.go:84-117 | two maps have the same canonical text if and only if they are equal, whatever order their keys came in |
| `Jws.Pad` | internal/acme/jws.go:41-45 | a coordinate becomes 32 bytes that stand for the same number |
| `Jws.JoinSignature` | internal/acme/jws.go:60-66 | 64 bytes, whose halves stand for r and s |
| `Jws.BytesFit` | internal/acme/jws.go:39-45 | a number needs at most k bytes if and only if it is below 256 to the k |
| `Jws.ThumbprintInput` | internal/acme/jws.go:72-82 | what is hashed into a thumbprint determines the public key |
| `Jws.CanonicalKey` | internal/acme/jws.go:38-81 | a text is the canonical form of a key if and only if it is the one of section 3.2 of RFC 7638: crv, kty, x and y in this order, with the 32 big-endian bytes of each coordinate, encoded |
| `Orchestrator.FilterWaiting` | cmd/herold-runner-orchestrator/forgejo.go:109-116 | the filter over the aliased slice yields the queued and waiting jobs, in order |
| `Orchestrator.WaitingExactly` | cmd/herold-runner-orchestrator/forgejo.go:109-116 | each queued or waiting job as often as it was fetched, and no other |
| `Orchestrator.Controller.QueuedJobsByArch` | cmd/herold-runner-orchestrator/reconcile.go:232-246 | the counts are those of the queued and waiting jobs fetched for each architecture; one failed probe loses them all |
| `Orchestrator.Controller.ReapExpired` | cmd/herold-runner-orchestrator/reconcile.go:73-94 | deletion is requested of exactly the off and overaged VMs; the live names are those of all others, whether deletes succeed or not |
| `Orchestrator.Controller.FindWork` | cmd/herold-runner-orchestrator/reconcile.go:105-121 | there is work if and only if something is queued, or the runs probe failed or found some |
| `Orchestrator.Controller.ReapIfIdle` | cmd/herold-runner-orchestrator/reconcile.go:135-153 | a VM new to the clocks is stamped; deletion is requested of exactly one past the limit, which is forgotten if that succeeded |
| `Orchestrator.Controller.ForgetUnseen` | cmd/herold-runner-orchestrator/reconcile.go:155-161 | exactly the clocks of unseen VMs are dropped |
| `Orchestrator.Controller.ReapIdle` | cmd/herold-runner-orchestrator/reconcile.go:128-162 | deletion is requested of exactly the live VMs past the limit; the clocks left are exactly those of live VMs not successfully idle-deleted, with their old stamp or the present |
| `Orchestrator.Controller.KeepClocks` | cmd/herold-runner-orchestrator/reconcile.go:122-162 | work clears every clock and requests no deletion |
| `Orchestrator.Controller.Reap` | cmd/herold-runner-orchestrator/reconcile.go:73-162 | both reapers together: what was requested, what succeeded, which clocks run and which names are live |
| `Orchestrator.Controller.GroupByArch` | cmd/herold-runner-orchestrator/reconcile.go:67-71 | each architecture has as many VMs as were listed for it |
| `Orchestrator.Controller.DropGhosts` | cmd/herold-runner-orchestrator/reconcile.go:164-194 | exactly the own-prefixed runners whose name is not live are deregistered, in order |
| `Orchestrator.Controller.SpawnFor` | cmd/herold-runner-orchestrator/reconcile.go:198-225 | at most min(queued - live, cap - live) VMs, whatever fails, and exactly so many if nothing does |
| `Orchestrator.Controller.SpawnAll` | cmd/herold-runner-orchestrator/reconcile.go:196-225 | the same for each architecture separately |
| `Orchestrator.Controller.Pass` | cmd/herold-runner-orchestrator/reconcile.go:67-226 | a pass over listed VMs is a reconciliation step, recorded as the services were asked and answered |
| `Orchestrator.Controller.Tick` | cmd/herold-runner-orchestrator/reconcile.go:51-226 | every tick, whatever calls fail, is a reconciliation step from the pool and clocks it found: its record is what the services were asked and answered |
| `Orchestrator.Controller.Run` | cmd/herold-runner-orchestrator/reconcile.go:31-45 | any number of ticks is a history in the sense of the lemmas below |
| `Pool.IdleReapJustified` | cmd/herold-runner-orchestrator/reconcile.go:96-154 | a VM is idle-reaped only if a tick more than the limit before recorded it and every tick since that got past the listing saw it live, no job running, and no job queued or could not see the queue |
| `Pool.ReapsBlindIff` | cmd/herold-runner-orchestrator/reconcile.go:105-121 | while jobs are waiting, a VM that is due can be idle-reaped if and only if the probe of the queue failed |
| `Pool.ReapedOnlyIf` | cmd/herold-runner-orchestrator/reconcile.go:73-154 | over every history, deletion of a VM is requested only if it is off, or older than the lifetime, or was seen idle longer ago than the limit and by every listing tick since |
| `Pool.OldVmGone` | cmd/herold-runner-orchestrator/reconcile.go:73-94 | deletion of a listed VM that is off or older than the lifetime is always requested, and if it succeeds no later tick lists the VM |
| `Pool.ClocksKept` | cmd/herold-runner-orchestrator/reconcile.go:55-127 | a tick that could not list the VMs does nothing and keeps the clocks; one that sees work stops them all |
| `Pool.TickBounded` | cmd/herold-runner-orchestrator/reconcile.go:198-225 | a tick takes no pool above the larger of its cap and what it was |
| `Pool.PoolBounded` | cmd/herold-runner-orchestrator/reconcile.go:198-225 | over any run no pool exceeds the larger of its cap and its starting size |
| `Pool.LimitsKept` | cmd/herold-runner-orchestrator/reconcile.go:198-258 | neither the arm64 nor the amd64 pool exceeds its own limit, unless it was larger at the start, and no other architecture gains a VM |
| `Pool.SpawnsExactly` | cmd/herold-runner-orchestrator/reconcile.go:198-225 | without failures, a tick brings up for each architecture as many VMs as jobs are queued for it beyond those listed, up to its own limit |
| `Pool.QueueCovered` | cmd/herold-runner-orchestrator/reconcile.go:198-225 | if nothing is deleted and no spawn fails, the pool then covers the queue up to the cap |
| `Pool.ReapsOrSpawns` | cmd/herold-runner-orchestrator/reconcile.go:105-162 | no tick both idle-reaps and spawns |
| `Pool.RunnerDropped` | cmd/herold-runner-orchestrator/reconcile.go:181-194 | the runner of a listed VM is deregistered if and only if the VM had expired or was idle-deleted; of one still there, if and only if it had expired |
| `Pool.RunnerOfPresentVmDropped` | cmd/herold-runner-orchestrator/reconcile.go:73-194 | a tick in which an expired VM whose deletion was refused is still there and loses its runner, for every such VM |
| `Pool.OnlyOwnRunnersDropped` | cmd/herold-runner-orchestrator/reconcile.go:182-188 | nothing but runners named herold-runner-... is deregistered, and none of a VM that was listed running within its lifetime and not deleted |
| `Pool.GhostsDropped` | cmd/herold-runner-orchestrator/reconcile.go:181-194 | every such runner without such a VM is deregistered |
| `Pool.IdlePoolDrains` | cmd/herold-runner-orchestrator/reconcile.go:128-162 | if all ticks over a span longer than the limit list, see no work and delete successfully, no VM listed at its start is left |
| `OrphanRepair.FindWith` | internal/admin/imapimport_repair_orphans.go:179-183 | the first mailbox with the attribute |
| `OrphanRepair.FindNamed` | internal/admin/imapimport_repair_orphans.go:184-188 | the first mailbox with the name, letter case aside |
| `OrphanRepair.ResolveOrCreate` | internal/admin/imapimport_repair_orphans.go:174-206 | memberships are untouched; without faults it finds or makes the mailbox of the role |
| `OrphanRepair.CheckOrphan` | internal/admin/imapimport_repair_orphans.go:124-143 | only a message whose sole membership is the label and that is not tracked is taken for an orphan; without faults exactly those |
| `OrphanRepair.RepairOne` | internal/admin/imapimport_repair_orphans.go:123-168 | at most one membership is added, to an orphan, outside the label; a dry run changes nothing; reported as junk only if the recorded verdict is spam, and then always if nothing fails |
| `OrphanRepair.PageAt` | internal/admin/imapimport_repair_orphans.go:75-83 | the page after the first k members is the next thousand of them |
| `OrphanRepair.NextPage` | internal/admin/imapimport_repair_orphans.go:77-83 | a page shorter than a thousand is the last |
| `OrphanRepair.ScanPage` | internal/admin/imapimport_repair_orphans.go:84-102 | a page adds its members to those looked at, each once and in UID order, whatever fails |
| `OrphanRepair.ScanLabel` | internal/admin/imapimport_repair_orphans.go:75-106 | the paging loop ends, and whatever fails the members looked at are the first k of the label, each once and in UID order; all of them unless a listing failed, for any size |
| `OrphanRepair.RepairOrphans` | internal/admin/imapimport_repair_orphans.go:59-109 | whatever fails, as many members are looked at as are counted and as many errors counted as members could not be dealt with, orphans = junk + inbox, orphans + errors <= members, memberships are only added, to orphans, one each, at most one mailbox is made for a role and none forgotten, and a dry run writes nothing; without faults the run is the specified one |
| `OrphanRepair.MailStore.InsertMailbox` | internal/storesqlite/metadata.go:906-960 | a mailbox with the next id, or another process was first, or nothing; a role is made once |
| `OrphanRepair.MailStore.AddMessage` | internal/storesqlite/metadata.go:2661-2721 | one membership under the next UID, or none if there already |
| `OrphanRepair.MailStore.ListMessages` | internal/storesqlite/metadata.go:4035-4079 | up to a thousand members above a UID, in UID order |
| `OrphanRepair.MailStore.ListMailboxes` | internal/storesqlite/metadata.go:1016-1035 | all mailboxes in name order, or nothing if the listing failed |
| `OrphanProofs.DryRunPredictsIff` | internal/admin/imapimport_repair_orphans.go:59-168 | for every store and account list whose labels exist, the dry run writes nothing, and returns the summary of the real run if and only if no orphan that an account files is an orphan of a later account as well or is filed into a later account's label |
| `OrphanProofs.SecondRunFindsNoneIff` | internal/admin/imapimport_repair_orphans.go:59-168 | a second run never changes anything, and finds no orphan if and only if no orphan had its own label for its target before the first |
| `OrphanProofs.DryRunPredicts` | internal/admin/imapimport_repair_orphans.go:150-152 | the dry run returns the summary of the real run and writes nothing if no two accounts share a label and no label is a target |
| `OrphanProofs.SecondRunFindsNone` | internal/admin/imapimport_repair_orphans.go:59-109 | a second run finds no orphan and changes nothing if no label is a target |
| `OrphanProofs.OwnLabelFoundAgain` | internal/admin/imapimport_repair_orphans.go:160-167 | a sound store whose label is the INBOX: its orphan is reported as filed, nothing changes, and so every further run finds it again |
| `OrphanProofs.OtherLabelCountsMore` | internal/admin/imapimport_repair_orphans.go:160-167 | a store and two accounts, the second with the INBOX as its label: the real run counts two members, the dry run one |
| `OrphanProofs.SharedLabelCountsOnce` | internal/admin/imapimport_repair_orphans.go:132-152 | a store and two accounts with one label: the dry run counts its orphan twice, the real run once |
| `OrphanProofs.OrphanIff` | internal/admin/imapimport_repair_orphans.go:124-143 | in a sound store an orphan is a message the account does not track and whose one and only mailbox is the label |
| `OrphanProofs.FiledWhere` | internal/admin/imapimport_repair_orphans.go:145-167 | after a run every orphan is in the mailbox that serves as Junk if its recorded verdict is spam in any letter case, and otherwise in the one that serves as INBOX, and in no other but the label |
| `OrphanProofs.RoleMailbox` | internal/admin/imapimport_repair_orphans.go:174-206 | a role is served by the first mailbox with the attribute, else by the first with the name in any letter case, else by a new one with both |
| `OrphanProofs.AccountCounts` | internal/admin/imapimport_repair_orphans.go:75-106 | scanning an account, in earnest or not, counts all its members, as junk exactly its orphans whose recorded verdict is spam, and as inbox its other orphans |
| `OrphanProofs.JunkCount` | internal/admin/imapimport_repair_orphans.go:59-109 | the junk count of a dry run is the number of orphans whose recorded verdict is spam, and that of a real run too where the two agree |
| `Strings.EqualFoldIff` | internal/admin/imapimport_repair_orphans.go:146-185 | two strings are equal but for case if and only if they are so letter by letter, two letters outside ASCII counting as s and k |
| `AclCodec.Encode` | internal/aclcodec/aclcodec.go:52-60 | the letters of the known rights in the mask, in table order |
| `AclCodec.Decode` | internal/aclcodec/aclcodec.go:68-85 | the rights of the letters, or an error for an unknown one |
| `AclCodec.AcceptedIff` | internal/aclcodec/aclcodec.go:68-85 | a string is accepted if and only if all its letters are in the table |
| `AclCodec.DecodedHas` | internal/aclcodec/aclcodec.go:70-83 | an accepted string grants exactly the rights whose letters occur in it |
| `AclCodec.Canonicalises` | internal/aclcodec/aclcodec.go:46-85 | decoding and encoding puts the letters of a string in table order, once each |
| `AclCodec.LetterBits` | internal/aclcodec/aclcodec.go:29-44 | each letter with its bit, and the order of all eleven |
| `AclCodec.DecodeEncoded` | internal/aclcodec/aclcodec.go:52-85 | decoding an encoding yields the known bits of the mask |
| `AclCodec.NeverTierWord` | internal/aclcodec/aclcodec.go:29-44 | no encoding is a tier word |
| `AclCodec.GrantRoundTrip` | internal/aclcodec/aclcodec.go:147-157 | an encoded mask read as a grant level yields exactly its known bits |
| `AclCodec.TierWordsAlone` | internal/aclcodec/aclcodec.go:147-157 | a level means what its letters say if and only if it is not a tier word |
| `AclCodec.TierLetters` | internal/aclcodec/aclcodec.go:99-119 | which rights read, write and admin stand for, and that no other word is a tier |
| `AclCodec.Adjunction` | internal/aclcodec/aclcodec.go:99-136 | the tier of a mask is at most t if and only if its known bits lie within those of t |
| `AclCodec.CombinedTier` | internal/aclcodec/aclcodec.go:121-157 | the tier of several grants together is the highest of theirs |
| `AclCodec.CombinedWithin` | internal/aclcodec/aclcodec.go:99-157 | grants together lie within a tier if and only if each does |
| `AclCodec.TierRoundTrip` | internal/aclcodec/aclcodec.go:99-136 | collapsing an expanded tier gives it back |
| `Listeners.Addresses` | internal/sysconfig/sysconfig.go:4567-4582 | the configured address itself, or both loopback addresses with its port when its host is localhost in any letter case; none exactly for an address that cannot be split |
| `Listeners.ServedAs` | internal/admin/server.go:2294-2343 | which protocol is served how, and that any other is not served |
| `Listeners.HttpLast` | internal/admin/server.go:2153-2187 | the binding order has every configured listener once, http ones last |
| `Listeners.Network.CloseAll` | internal/admin/server.go:2135-2139 | exactly the given sockets are closed |
| `Listeners.BoundListenerSet.Add` | internal/admin/server.go:2165-2171 | sockets, serve functions and one address of a listener join the set in step |
| `Listeners.Binder.BindOneAddress` | internal/admin/server.go:2250-2344 | a new socket bound to the given address and the serve function for it, wrapped as configured; or nothing left open, because the bind was refused or the protocol is unknown |
| `Listeners.Binder.BindOne` | internal/admin/server.go:2200-2239 | for each address, in order, a socket bound to it and its serve function, or nothing left open |
| `Listeners.Binder.BindInto` | internal/admin/server.go:2160-2171 | one listener more in the set, or all that was opened closed |
| `Listeners.Binder.BindMail` | internal/admin/server.go:2155-2172 | the listeners other than http, in order; the http ones put aside |
| `Listeners.Binder.BindHttp` | internal/admin/server.go:2173-2186 | the http listeners after them |
| `Listeners.Binder.BindListeners` | internal/admin/server.go:2141-2188 | the set holds all sockets opened and no other, each bound to the address configured for its place, with serve functions and addresses in binding order; or every socket opened is closed, because a bind was refused, a protocol unknown or an address malformed |
| `Listeners.Paired` | internal/admin/server.go:2165-2168 | each socket has a serve function that serves on it |
| `Listeners.ServedUnderName` | internal/admin/server.go:2165-2168 | every socket of a listener is served under the listener's name, as its protocol asks |
| `Listeners.OneAddressEach` | internal/admin/server.go:2169-2171 | each listener has one address, that of its first socket |

## Left out

- Nonces.Poster.Post: request bodies, JWS signing and JSON decoding are not modelled; a response is whether it arrived, its nonce and how its status is read.
- AcmeClient.Client.BuildCSR: key generation and the CSR are an arbitrary key and byte string; CSR contents and X.509 parsing are not modelled.
- AcmeClient.Client.Order: account and signer are taken as present, and hostnames as not empty (the source indexes the first one); `Register` is an arbitrary success or failure.
- AcmeClient.TLSALPNChallenger.Provision: the challenge certificate stands as the key authorisation it carries.
- AcmeRenewal.Renewer.RunRenewalPass: runs alone against the store, while AcmeSystem covers interleaved calls and listings; publication to the TLS store and the endless outer loop are not modelled.
- AcmeClient.OrderStore.GetCert: lower-casing of host names, here and everywhere, is that of ASCII.
- CanonicalJson.CanonicalJSON: strings are code points; invalid UTF-8, which the JSON encoder replaces, is not modelled.
- Jws.ThumbprintInput: SHA-256 itself is not modelled, only what goes into it.
- Orchestrator.Controller.Tick: the listing is taken as complete, VM ids as never reused and names as unique, and the 60-second tick timeout shows only as failing calls.
- Orchestrator.Controller.SpawnOne: snapshot lookup, registration token and cloud-init are an arbitrary success or failure before the VM is created.
- Pool.PoolBounded: assumes that nobody else creates runner VMs.
- OrphanRepair.MailStore.AddMessage: modification sequences, state-change records and the Trash handling of the store are not modelled.
- OrphanProofs.DryRunPredictsIff: takes the labels to be mailboxes that exist, as their ids are assigned when they are made; messages and accounts that others add during a run are not modelled.
- Listeners.Binder.BindListeners: publication of addresses through the start options, the port report file and the serve loops are not modelled; host and port splitting is an arbitrary function.
- AcmeClient.OrderStore.ListOrdersByStatus: the order by update time is not modelled, since rows carry no timestamps; the resume pass is proved for every order of the list.
- The names of statuses and challenge types in the database and on the command line: they are read before and written after what is modelled here.
- HTTP and TLS sides of the challengers: they answer validation requests from the maps modelled here and change nothing, so no property of an order depends on them.
- Account registration: it creates or finds the account key before any order and touches neither order rows nor certificates; here it succeeds or fails.
- The administrative command tree: it parses arguments and calls the operations modelled here.
- The SMTP, IMAP, JMAP and web parts of the server are not part of this model.
