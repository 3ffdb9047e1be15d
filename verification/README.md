# wolfSSL backend of ESP-TLS: a verified model

This project models the ESP-TLS backend of the wolfSSL component (`port/esp_tls_wolfssl.c`) and the driving code
of its examples, and proves what the backend keeps over whole runs: ownership of CTX and SSL handles
over any number of connections, the protocol of the one PSK lock, where a connection's trust comes
from, the global CA store, and the loops that send, receive, wait and clean up.

`dafny verify dfyconfig.toml` verifies the project.

## How it is built

* `Platform`: wolfSSL, the heap, the FreeRTOS mutex and the sockets are an adversary. Every call gets an
  answer from an arbitrary oracle (any code, any failed allocation) and is recorded in a trace. An object
  is named by the call that made it, so names are never reused. Writes of the shared PSK buffers and
  deliveries by the PSK callback are recorded as events too.
* `Ledger`: what a trace says is alive, held and stored, and `Lawful`, the contract of every single
  call: live operand of the right kind, no CTX freed under a live SSL, no use of a mutex that does not
  exist, no release of a free one but by the PSK callback, no write of the PSK buffers without having just taken the lock.
* `Certificates`, `Program`, `Config`, `Trust`: the PEM search and the CA buffer; the configuration
  functions as straight-line programs that stop at the first failure, with an ownership discipline
  proved sound for all answers; what a successful configuration has told wolfSSL.
* `Lifecycle`, `Ownership`, `Moves`, `Worlds`, `Runs`, `PskLock`, `PskWrites`, `PskRuns`, `Driving`: the operations
  as functions of the answers, their effect on one connection, and theorems over all runs.
* `Outcomes`, `Errors`: when a configuration and a create succeed, which calls a success consists of, and
  which error is reported otherwise, over the arguments and the answers alone.
* `Setup`, `Backend`, `System`: the same operations as the C code has them, on classes whose fields
  and arrays are updated in place, each method proved equal to its function. `System.Framework.Execute`
  carries every theorem about runs over to the objects, as `System.Serve` shows. `Backend.State.Valid`, kept by every method,
  says that the held flag mirrors the mutex, that the PSK buffers hold the credentials last written,
  zero-filled, and that the store is a block ending in NUL or empty with length 0.
* `Transfer`, `Backoff`, `NativeClient`, `TimeSync`: reading and writing with the request and response
  loops of the HTTPS example, the SNTP backoff and the goto ladder of the native client, and the
  stored time over reboots.

Hypotheses. Backend calls are serialised on one task, so taking the mutex succeeds exactly when it is
free and a timeout means that it was taken. No memory object is longer than 2^31 - 1 bytes, as on the
32-bit targets. wolfSSL never accepts more bytes than it was offered nor fills more than it was given.
While the PSK callback copies, wolfSSL's two buffers are distinct from each other and from the
backend's own. SNTP_RECV_TIMEOUT is positive, and twice each of the two timeouts fits an int.

## What turned out not to hold

* The held flag of the PSK lock belongs to nobody: the cleanup of any connection gives the lock back
  (`PskRuns.ForeignCredentials`), and a create that fails after the PSK write has already replaced the pair
  of a connection that still waits. Exactly when a create writes is `PskWrites.CreateWritesWhen`; a
  connection is handed its own credentials if and only if no create since wrote another pair last
  (`PskRuns.OwnCredentialsExactly`), in particular as long as the lock is not given back.
* A PSK callback gives back a mutex that is free exactly when it already starts with it free
  (`PskRuns.CallbackGivesBack`, `Ledger.GivenBackWhenTaken`), that is with the held flag false: after an
  earlier callback or cleanup, of any connection, with no PSK setup since.
* Create on an open connection loses the old handles; `Moves.CreateLeaksIff` is exact.
* With OCSP built in, CTX options are still set after the SSL was made (`Trust.SettledUnlessOcsp`).
* The error translation is faithful except for two magnitudes, 26880 and 26752, that ESP-TLS uses for
  its own call-again codes (`Transfer.ConversionFaithful`); wolfSSL's codes are far smaller. A failed write
  whose error code is 0 is reported as 0 bytes written, and the example tries again (`Transfer.FatalExactly`);
  a failed read whose error code is 0 is taken for an orderly close (`Transfer.ReadsExactly`).
* The native client calls wolfSSL_Cleanup also when wolfSSL_Init failed; `NativeClient.ClientRound` and
  `NativeClient.Client` are exact.
* A fetch that fails at the commit may still have replaced the stored time; `TimeSync.RoundTripExactly` allows for it.

## Model

| member | source | states |
|---|---|---|
| Certificates.BufHasPemHeader | port/esp_tls_wolfssl.c:106-118 | The bounded search answers true exactly when the buffer is not NULL and the header occurs at some offset of it; it reads only inside the buffer, and its unsigned 32-bit index sum never wraps for lengths below 2^32 - 1 |
| Certificates.AppendAbsentByte | port/esp_tls_wolfssl.c:106-118 | Appending a byte that the header does not contain never changes the outcome of the search |
| Certificates.PresentCa | port/esp_tls_wolfssl.c:135-175 | The range shown to wolfSSL lies inside the memory object, and a PEM range is followed by a NUL inside it |
| Certificates.ShownBytes | port/esp_tls_wolfssl.c:135-175 | wolfSSL sees the caller's bytes: all of them, or all but the final NUL of a terminated PEM; the format follows the header alone |
| Certificates.TerminatorInvariance | port/esp_tls_wolfssl.c:153-173 | A PEM CA buffer and the same buffer with one NUL appended show wolfSSL identical bytes, format and memory behind them; only the unterminated one needs the temporary copy |
| Certificates.DerIsNotTrimmed | port/esp_tls_wolfssl.c:171-173 | A DER buffer is shown byte for byte, trailing NULs included; appending a NUL changes what is shown |
| Ledger.NoUseAfterFree | port/esp_tls_wolfssl.c:559-578 | In a lawful trace no call works on an object that an earlier call freed |
| Ledger.FreedAtMostOnce | port/esp_tls_wolfssl.c:559-578 | In a lawful trace no object is freed twice |
| Ledger.SslFreedBeforeItsCtx | port/esp_tls_wolfssl.c:570-578 | When a CTX is freed, every SSL ever made from it was freed by an earlier call, found by the lemma |
| Ledger.TakenNeedsLock | port/esp_tls_wolfssl.c:284-294 | A held PSK lock implies that the mutex was created at boot |
| Ledger.RegisteredNeedsLock | port/esp_tls_wolfssl.c:284-306 | A registered PSK callback implies that the mutex was created and that a non-empty key is stored |
| Ledger.GivenBackWhenTaken | port/esp_tls_wolfssl.c:54-56 | In a lawful trace a release finds the mutex free if and only if it is that of a PSK callback that already started with it free |
| Ledger.CredsChangeUnderFreshLock | port/esp_tls_wolfssl.c:290-305 | The stored identity and key change only in a call right after one that took the lock from free, with the lock still held |
| Ledger.ReleaseBetweenStores | port/esp_tls_wolfssl.c:290-305 | Between two writes of the shared PSK buffers the lock was given back |
| Ledger.CredentialsRoundTrip | port/esp_tls_wolfssl.c:301-305 | If the lock was not given back between a write of credentials and a later callback, the callback hands out exactly that identity and key |
| Program.ExecSuccess | port/esp_tls_wolfssl.c:237-458 | A configuration that reports success has made all its calls, in order, each once, and every one of them succeeded |
| Program.ExecIsAPrefix | port/esp_tls_wolfssl.c:237-458 | Whatever the outcome, the calls made are a prefix of the planned ones, all before the last successful, plus at most one free of a temporary block: nothing out of order, twice, or after a failed call |
| Program.ExecSound | port/esp_tls_wolfssl.c:120-458 | For all answers of the outside world, a program with correct ownership ends with every call lawful, no temporary block left, and owning on success exactly what was predicted; each of the early exits is one branch of this statement |
| Config.ClientOwning | port/esp_tls_wolfssl.c:237-406 | set_client_config, for every build and configuration, has correct ownership: a CTX and an SSL on success, temporary copies freed, the PSK buffers written only under a lock just taken |
| Config.ServerOwning | port/esp_tls_wolfssl.c:408-458 | The same for set_server_config |
| Trust.ClientTrust | port/esp_tls_wolfssl.c:252-341 | A successful client configuration has exactly one source of trust, chosen by the precedence global store, CA buffer, PSK, explicit no-verify; source and identity pair were complete on the CTX when the SSL was made; certificate and key come as a pair |
| Trust.SettledUnlessOcsp | port/esp_tls_wolfssl.c:337-402 | The CTX settings at creation of the SSL equal their final values if and only if OCSP is not built in: the OCSP options reach the CTX only after the SSL exists |
| Trust.ServerTrustSettled | port/esp_tls_wolfssl.c:408-458 | The server path: CA buffer with a required client certificate or no verification, one source, identity pair mandatory, all on the CTX before the SSL is made, nothing after |
| Trust.OneSourceSettled | port/esp_tls_wolfssl.c:260-319 | The settings that establish any one source name one source and only one |
| Trust.OthersUnset | port/esp_tls_wolfssl.c:237-458 | A configuration changes no setting of any CTX that existed before it |
| Ownership.TeardownSound | port/esp_tls_wolfssl.c:559-578 | Cleanup frees exactly the connection's CTX and SSL, lawfully, and leaves both pointers NULL, whatever state it is called in |
| Ownership.TeardownOrder | port/esp_tls_wolfssl.c:559-578 | The calls of a cleanup are: give the lock back, shut the SSL down, free it, free the CTX; in this order, each made exactly if there is something to give back, shut down or free |
| Ownership.TeardownFreesLock | port/esp_tls_wolfssl.c:564-569 | After any cleanup, by whichever connection, the PSK lock is free; credentials, init count and CTX settings are untouched |
| Ownership.ConfigureSound | port/esp_tls_wolfssl.c:237-458 | Whatever its outcome, a configuration destroys no older object, and every object it made is one the connection now points to |
| Moves.DeleteMoves | port/esp_tls_wolfssl.c:552-578 | Delete leaves both pointers NULL, frees exactly the connection's objects and no other's, and leaves the lock free |
| Moves.SecondDeleteFreesNothing | port/esp_tls_wolfssl.c:552-578 | A second delete changes nothing at all |
| Moves.CreateMoves | port/esp_tls_wolfssl.c:196-235 | Create, on every path: on success both pointers name new live objects, on failure both are NULL and the lock is free; other connections' objects stay |
| Moves.CreateLeaksIff | port/esp_tls_wolfssl.c:196-247 | Create leaks nothing if and only if the connection had no CTX, the role is invalid, or wolfSSL_Init fails: on an open connection it overwrites the pointers and the old objects are lost |
| Moves.HandshakeMoves | port/esp_tls_wolfssl.c:460-513 | A handshake call keeps objects, credentials, init count and settings, and moves the state to done on 1, to failed on -1, not at all on 0 |
| Moves.CallbackMoves | port/esp_tls_wolfssl.c:756-773 | A PSK callback, wherever it may be called, is lawful: the mutex it gives back exists and what it hands out is what is stored |
| Moves.SessionMoves | port/esp_tls_wolfssl.c:663-697 | A server session is a create followed by accepts that keep what was created; read and write are set on success; conn_state becomes failed exactly when the result is -1, and is never set to done |
| Worlds.RunSound | port/esp_tls_wolfssl.c:196-705 | Every run of create, handshake, server session, delete and store calls over any number of connections, from any sound state, for all answers, stays sound: all calls lawful, every connection with both its objects or neither, no two sharing a CTX, no temporary block left; no discipline of the caller is needed |
| Worlds.EveryRunIsSafe | port/esp_tls_wolfssl.c:196-705 | From boot: no object is used or freed after it was freed, and every connection has both objects, alive, or neither |
| Worlds.RunConserves | port/esp_tls_wolfssl.c:196-705 | Over every run that creates only on connections that are not open, the live objects are exactly those stored in connection fields and in the store |
| Worlds.DeletingAllLeavesNothing | port/esp_tls_wolfssl.c:552-578 | After any such run from boot, deleting every connection and freeing the store leaves nothing alive |
| Worlds.SetStoreSound | port/esp_tls_wolfssl.c:620-642 | Replacing the store frees the old block once, leaves at most one block alive, and touches nothing else |
| Worlds.SetStoreOutcome | port/esp_tls_wolfssl.c:620-642 | Without a buffer nothing happens and the error is INVALID_ARG; otherwise the old block is freed first, then one block of the bytes and a NUL is asked for, and the set succeeds if and only if it is had, else the store is empty and the error is NO_MEM |
| Worlds.FreeStoreSound | port/esp_tls_wolfssl.c:649-656 | Freeing the store makes one call, the free of its block, and touches nothing else; on an empty store it makes no call |
| Runs.InitialisedWhileOpen | port/esp_tls_wolfssl.c:204-209 | In every state reachable from boot wolfSSL_Init has succeeded at least as often, net of cleanups, as there are open connections |
| Runs.RunInit | port/esp_tls_wolfssl.c:579-587 | The init count never decreases over any run: no delete and no failed create takes the library away from the others |
| Runs.CreateKeeps | port/esp_tls_wolfssl.c:196-235 | Create counts one initialisation exactly when wolfSSL_Init succeeds and leaves the settings of every older CTX alone |
| Runs.EveryOpenConnectionSettled | port/esp_tls_wolfssl.c:196-458 | In every state reachable from boot each open connection's CTX names exactly one source of trust and had all its settings when the SSL was made, OCSP options excepted where built in |
| Runs.StoreHoldsLastSet | port/esp_tls_wolfssl.c:620-642 | After any run the store holds exactly the bytes last set, embedded NULs included, or is empty if that set got no memory, also when it was replacing older contents |
| Runs.StoreEmptyAfterFree | port/esp_tls_wolfssl.c:649-656 | After a free and any run that leaves the store alone, the store is empty |
| Runs.StoreEquivalence | port/esp_tls_wolfssl.c:260-277 | After a successful set of a buffer and any run that leaves the store alone, configuring with use_global_ca_store is call for call, to the resulting state, the same as configuring with that buffer as cacert_buf |
| PskLock.PskSetup | port/esp_tls_wolfssl.c:290-310 | The four calls of a PSK setup time out exactly when the lock was taken; otherwise they end with the lock held and exactly these credentials stored, and on success with the callback registered |
| PskLock.ClientPskEffect | port/esp_tls_wolfssl.c:237-406 | A whole client configuration times out only on a taken lock; success with PSK as chosen source leaves lock held, callback registered, its credentials stored; success with another source leaves lock and credentials alone |
| PskWrites.ClientWritten | port/esp_tls_wolfssl.c:237-406 | After a client configuration, whatever it returns, the stored pair is the chosen one if no bundle was asked for, a CTX was had, PSK is the chosen source, the mutex exists and was free; otherwise it is unchanged |
| PskWrites.CreateWritesWhen | port/esp_tls_wolfssl.c:196-306 | When a create writes, spelled out over the state before the call and the first two answers: a client without bundle, PSK as chosen source with sizes in order, mutex created and free, Init and CTX had; and the pair it writes is the configured one |
| PskWrites.CreateWritten | port/esp_tls_wolfssl.c:196-235 | After one create, successful or failed anywhere later, the stored pair is the one it wrote if it wrote one, and otherwise the one before |
| PskWrites.CreateTimesOut | port/esp_tls_wolfssl.c:196-293 | A create times out if and only if the library and a CTX can be had, a client without bundle reaches the PSK branch with a hint and a key that is not empty, the mutex exists, and it is taken; sizes do not matter |
| PskWrites.StepWritten | port/esp_tls_wolfssl.c:196-705 | Handshake, server session, delete and store calls never change the stored pair; a create changes it exactly when it writes |
| PskWrites.RunWritten | port/esp_tls_wolfssl.c:196-705 | After any run the stored pair is the last one written in it, or the one before the run |
| PskRuns.CreatePsk | port/esp_tls_wolfssl.c:196-235 | Create and the lock: it times out if and only if it gets to asking for a lock that is taken, any failure leaves the lock free, success with PSK leaves it held with the configured credentials, success without PSK leaves it as it was; the stored pair is the one this create wrote, on failures too, or else the one before |
| PskRuns.NextAttemptGetsTheLock | port/esp_tls_wolfssl.c:290-293 | After a failed create on any connection, timeouts included, the next attempt on any connection does not time out on the lock |
| PskRuns.CallbackHandsOut | port/esp_tls_wolfssl.c:756-773 | The callback declines, touching nothing, exactly when a buffer is too small; otherwise it hands out the stored identity and key, returns the key length and gives the lock back |
| PskRuns.LastWrittenIsHandedOut | port/esp_tls_wolfssl.c:279-306 | Any callback, for any connection that may run it, after any run and any earlier callbacks of the same handshake, declines for size or hands out exactly the pair written last |
| PskRuns.NoWriteWithoutRelease | port/esp_tls_wolfssl.c:290-305 | From a held lock on, a run in which it is not given back writes no pair |
| PskRuns.LastConfiguredIsHandedOut | port/esp_tls_wolfssl.c:279-306 | Over any run since connection c was configured with PSK, a callback for c or any other connection declines for size or hands out exactly the pair last written since, or c's own if none was; and none was if the lock was not given back |
| PskRuns.OwnCredentialsExactly | port/esp_tls_wolfssl.c:279-306 | The PSK round trip with its exact condition: a callback for c that does not decline hands out what c was configured with if and only if no create since wrote another pair last |
| PskRuns.CallbackGivesBack | port/esp_tls_wolfssl.c:768-772 | A callback that does not decline ends by giving the mutex back, and finds it taken if and only if it was taken when the callback started |
| PskRuns.SecondCallbackGivesFreeMutex | port/esp_tls_wolfssl.c:768-772 | One input on which a free mutex is given back: the callback runs twice in one handshake without declining |
| PskRuns.ForeignDeleteGivesFreeMutex | port/esp_tls_wolfssl.c:564-569 | Another, from boot and for all credentials: the delete of an unrelated connection has given the mutex back, and then the first and only callback does so again |
| PskRuns.ForeignCredentials | port/esp_tls_wolfssl.c:564-569 | The condition does fail: for all credentials, from boot, deleting an unrelated connection gives back the lock of a waiting one, a third sets up PSK, and the waiting connection's handshake hands out the third one's credentials |
| Driving.HandshakeAnswered | port/esp_tls_wolfssl.c:460-513 | A handshake returns 1 if and only if its last call is a connect on the connection's SSL that answered 1; otherwise its last two calls are a connect with another answer and a get_error, both on that SSL, and it returns 0 if the code was 2 or 3 and -1 for any other; the state becomes done on 1, failed on -1, and stays on 0 |
| Driving.HandshakesMoveState | port/esp_tls_wolfssl.c:460-513 | Over any sequence of handshake calls each result is what wolfSSL answered that call, in the sense of `Driving.HandshakeAnswered`; pending results leave the connection as it was; the state is what the last result that is not pending says |
| Driving.AcceptStopsAtFirst | port/esp_tls_wolfssl.c:687-696 | The accept loop stops at exactly the first attempt that is not pending and reports success or failure as that attempt was |
| Driving.AcceptEndsThere | port/esp_tls_wolfssl.c:687-696 | Conversely, the first attempt that is not pending ends the loop however long it would have gone on |
| Driving.SessionAnswered | port/esp_tls_wolfssl.c:663-697 | A server session whose create failed returns -1. Otherwise its further calls are accepts and get_errors by turns on the new SSL; it returns 0 if and only if some attempt answers 1 after pending ones only, -1 if and only if some attempt neither succeeds nor asks for 2 or 3 after pending ones only, and is still waiting if and only if every attempt is pending; conn_state changes exactly on -1 |
| Driving.AlpnInOrder | port/esp_tls_wolfssl.c:369-378 | The ALPN protocols are offered in list order, each once, up to and including the first refusal; registration succeeds exactly when all are accepted (preference order of section 3.1 of RFC 7301) |
| Driving.ClientChecksName | port/esp_tls_wolfssl.c:343-367 | Unless told to skip it, a successful client configuration made the SSL accept a name to check, which is the configured common name or else the host up to its first NUL, and the same name as SNI |
| Outcomes.ClientSucceedsIff | port/esp_tls_wolfssl.c:237-406 | set_client_config succeeds if and only if every call it made succeeded, no bundle was asked for, a source of trust is chosen, with the mutex and sizes in order where that is PSK, certificate and key are both there or both not, and ALPN is built in if a list is given |
| Outcomes.ServerSucceedsIff | port/esp_tls_wolfssl.c:408-458 | set_server_config succeeds if and only if every call it made succeeded and certificate and key are both there |
| Outcomes.CreateSucceedsIff | port/esp_tls_wolfssl.c:196-235 | Create calls wolfSSL_Init first, and succeeds if and only if every call it made succeeded, the role is valid, and the configuration is one of those |
| Outcomes.ClientCalls | port/esp_tls_wolfssl.c:237-406 | A successful client configuration asked for a client CTX of the version built in, and after making the SSL made exactly these calls on its own two objects, in order: the name, checked and sent, unless skipped; the ALPN protocols in list order; the OCSP options if built in; the socket |
| Outcomes.ServerCalls | port/esp_tls_wolfssl.c:408-458 | A successful server configuration asked for a server CTX of the version built in, and after making the SSL only attached the socket |
| Outcomes.ClientOffersAlpn | port/esp_tls_wolfssl.c:369-383 | A successful client configuration with an ALPN list offered exactly that list, in order, to its SSL, and nothing else |
| Outcomes.ClientLoadsIdentity | port/esp_tls_wolfssl.c:120-146 | Certificate and key of a successfully configured client are loaded whole, the certificate as PEM if and only if -----BEGIN CERTIFICATE----- occurs in it, the key if and only if -----BEGIN with a space occurs in it |
| Outcomes.ServerLoadsIdentity | port/esp_tls_wolfssl.c:120-146 | The same for a server, which must have both |
| Outcomes.SuitesFitBuild | port/esp_tls_wolfssl.c:707-746 | A PSK setup asks for a DHE suite exactly if AES-GCM and DH are built in, for an ECDHE suite exactly if AES-GCM and ECC are and DH is not, and for the TLS 1.3 suite besides exactly if one of these is asked for and TLS 1.3 is built in |
| Errors.ClientErrors | port/esp_tls_wolfssl.c:237-406 | The error of a client configuration is that of the first call that failed, after which at most a temporary block was freed; if none failed, it is the first thing wrong with the configuration in the order of the source, or success |
| Errors.ServerErrors | port/esp_tls_wolfssl.c:408-458 | The same for a server, where only a missing file can be wrong |
| Errors.CreateErrors | port/esp_tls_wolfssl.c:196-235 | The error of a create, over all its calls from wolfSSL_Init to the last of the teardown, is that of the first call that failed; if none failed, it is what is wrong with the arguments, or success |
| Config.UpToNul | port/esp_tls_wolfssl.c:348 | strndup: the longest prefix of the first hostlen bytes without a NUL |
| Setup.CopyTerminated | port/esp_tls_wolfssl.c:160-167 | Into a block of the size asked of malloc, the bytes and one NUL, all writes in bounds |
| Setup.LoadTerminatedCopy | port/esp_tls_wolfssl.c:159-187 | Allocate, copy, load, free: the calls of the CA program for an unterminated PEM, the copy freed whatever wolfSSL answers |
| Setup.LoadCaBuffer | port/esp_tls_wolfssl.c:147-187 | The CA branch makes exactly the calls of the CA program, with the NUL wolfSSL needs present behind every PEM range |
| Setup.LoadVerifyBuffer | port/esp_tls_wolfssl.c:120-192 | The loader, for all three kinds of file, makes exactly the calls of its program, the format decided by the bounded search |
| Setup.LoadOrFail | port/esp_tls_wolfssl.c:265-275 | Any failure of the loader is reported as one error; the calls are the same |
| Setup.SetIdentity | port/esp_tls_wolfssl.c:321-335 | Certificate then key, both or neither; one without the other is refused without a call |
| Setup.LoadAndSetVerify | port/esp_tls_wolfssl.c:271-277 | The peer is required to verify only after the CA was accepted |
| Setup.CheckAndSendName | port/esp_tls_wolfssl.c:350-366 | Domain check and SNI from one temporary string that is freed on every path |
| Setup.SetHostName | port/esp_tls_wolfssl.c:343-367 | Common name, else the host, unless skipped |
| Setup.SetAlpn | port/esp_tls_wolfssl.c:369-383 | The ALPN loop makes the calls of the protocol program; a list without ALPN support is refused |
| Setup.SetOcsp | port/esp_tls_wolfssl.c:385-402 | The three OCSP calls in order, each failure with its code |
| Setup.SetClientPost | port/esp_tls_wolfssl.c:343-405 | Everything after the SSL is made: name, ALPN, OCSP, socket, stopping at the first failure |
| Backend.StrLen | port/esp_tls_wolfssl.c:763 | strlen on a buffer that holds a NUL finds the first one and reads no further |
| Backend.State.constructor | port/esp_tls_wolfssl.c:748-754 | At boot flag, buffers and store mirror the trace: lock free, buffers zero, store empty, mutex pointer as created |
| Backend.State.StoreCredentials | port/esp_tls_wolfssl.c:301-305 | Whatever longer credentials came before, the buffers afterwards hold exactly these and zeros, all writes in bounds |
| Backend.State.TakeConnLock | port/esp_tls_wolfssl.c:290-294 | The held flag is set exactly when the mutex was taken from free |
| Backend.State.GiveConnLock | port/esp_tls_wolfssl.c:565-568 | Flag and mutex are released together |
| Backend.State.SetPsk | port/esp_tls_wolfssl.c:279-310 | The PSK branch, lock first and sizes after, does exactly what its program says |
| Backend.State.CopyOut | port/esp_tls_wolfssl.c:768-769 | The two copies: identity with its NUL and key, the rest of wolfSSL's buffers unchanged |
| Backend.State.PskClientCb | port/esp_tls_wolfssl.c:756-773 | Every write is inside wolfSSL's buffers: identity with NUL and key as last stored, the rest unchanged, or nothing at all; flag and mutex agree afterwards |
| Backend.State.SetTrust | port/esp_tls_wolfssl.c:260-319 | The trust branches make the calls of the trust program |
| Backend.State.SetClientConfig | port/esp_tls_wolfssl.c:237-406 | set_client_config does exactly what its program does, in place |
| Backend.State.SetServerConfig | port/esp_tls_wolfssl.c:408-458 | set_server_config does exactly what its program does, in place |
| Backend.State.Cleanup | port/esp_tls_wolfssl.c:559-578 | Cleanup in place is the teardown of the specification and ends with the held flag false |
| Backend.State.CreateSslHandle | port/esp_tls_wolfssl.c:196-235 | Create in place is the create of the specification; on failure the held flag is false |
| Backend.State.ConnDelete | port/esp_tls_wolfssl.c:552-557 | Delete in place; a NULL handle is left alone |
| Backend.State.ConnectWith | port/esp_tls_wolfssl.c:463 | wolfSSL_connect with any number of PSK callbacks during it |
| Backend.State.Handshake | port/esp_tls_wolfssl.c:460-513 | Handshake in place is the handshake of the specification, state and result included |
| Backend.State.AcceptUntilDone | port/esp_tls_wolfssl.c:687-696 | The accept loop is the loop of the specification |
| Backend.State.ServerSessionCreate | port/esp_tls_wolfssl.c:663-697 | Server session in place, with the refusal of NULL arguments |
| Backend.State.FreeGlobalCaStore | port/esp_tls_wolfssl.c:649-656 | The store becomes empty with length 0, its block freed once |
| Backend.State.SetGlobalCaStore | port/esp_tls_wolfssl.c:620-642 | Set in place: contents, block and error as specified, the block exactly as long as was asked of malloc, a NUL behind the bytes, and NULL refused with the store kept |
| Backend.State.GetGlobalCaStore | port/esp_tls_wolfssl.c:644-647 | Get returns the stored bytes and one NUL, or NULL exactly when the store is empty |
| System.Framework.Dispatch | port/esp_tls_wolfssl.c:776-793 | One call of the framework into the objects is one step of the model of runs |
| System.Serve | port/esp_tls_wolfssl.c:776-793 | From boot through any calls the objects themselves are sound, no object is used or freed after it was freed, every open connection is settled, and under the caller's discipline the live objects are exactly the stored ones |
| System.PskRoundTrip | port/esp_tls_wolfssl.c:756-773 | Of the objects: after a connection is configured with PSK and any calls, a callback that does not decline leaves in wolfSSL's two buffers that connection's hint, NUL and key if and only if no create since wrote another pair last |
| System.Framework.Execute | port/esp_tls_wolfssl.c:776-793 | Any sequence of calls leaves the objects in the state the run predicts, so every theorem about runs holds of them |
| Transfer.ConversionFaithful | port/esp_tls_wolfssl.c:92-102 | The translated code is never positive, is zero only for zero, keeps the magnitude of every other code, and is one of the two call-again codes exactly for WANT_READ and WANT_WRITE or for the two magnitudes 26880 and 26752 |
| Transfer.Link.Write | port/esp_tls_wolfssl.c:537-550 | A positive result is the number of offered bytes accepted, from the front; any other result accepts nothing |
| Transfer.Link.Read | port/esp_tls_wolfssl.c:515-535 | A positive result is the number of arrived bytes now in the buffer; close-notify is 0 |
| Transfer.SendRequest | examples/https_request/main/https_request_example_main.c:140-152 | For every sequence of results the bytes accepted are exactly the prefix of the request of length written_bytes, and leaving the loop normally means all of it |
| Transfer.FatalExactly | port/esp_tls_wolfssl.c:92-102 | The write loop gives up on an answer exactly if the write failed and wolfSSL's error code is none of 0, WANT_READ, WANT_WRITE and the two magnitudes ESP-TLS uses itself, and then with that code made negative; a failed write with error code 0 is tried again |
| Transfer.SendingEnds | examples/https_request/main/https_request_example_main.c:140-152 | The loop gives up at exactly the first answer that is fatal in that sense, with its code, and otherwise ends only with the last byte accepted |
| Transfer.SendingNothing | examples/https_request/main/https_request_example_main.c:140-152 | An empty request takes one attempt, which fails only on a fatal code |
| Transfer.ReadResponse | examples/https_request/main/https_request_example_main.c:154-177 | The read loop prints what the specification of reading says |
| Transfer.ReadsExactly | port/esp_tls_wolfssl.c:515-535 | What the read loop makes of a result, by the library's result and error code alone: bytes if some arrived; closed if none arrived or a failed read has code ZERO_RETURN or 0; again for WANT_READ, WANT_WRITE and the two magnitudes ESP-TLS uses itself; otherwise failed, with the code made negative |
| Transfer.ReadingIsLossless | examples/https_request/main/https_request_example_main.c:154-177 | The output is every chunk that arrived before the first result that closes or fails in that sense, in order, each followed by a newline; call-again results print nothing and never end the loop |
| Transfer.PutChars | examples/https_request/main/https_request_example_main.c:173-175 | The character loop appends exactly the bytes of the buffer |
| Backoff.GetTime | examples/wolfssl_client/main/wolfssl_client_demo.c:83-113 | The function returns if and only if a reading of these rounds is past the threshold, on the first such reading, with one pause for each full round of SNTP_RECV_TIMEOUT / 100 readings before it; if none is, all readings of all rounds were made; the pauses are the specified ones and no shift overflows |
| Backoff.Poll | examples/wolfssl_client/main/wolfssl_client_demo.c:94-97 | One round reads the clock until the first reading past the threshold, at most SNTP_RECV_TIMEOUT / 100 times, and ends with the last reading |
| Backoff.NextPause | examples/wolfssl_client/main/wolfssl_client_demo.c:99-104 | The pause and the next shift count, both shifts defined |
| Backoff.CapExists | examples/wolfssl_client/main/wolfssl_client_demo.c:102-104 | For every pair of timeouts some number K of doublings fits below the maximum and no more |
| Backoff.CapUnique | examples/wolfssl_client/main/wolfssl_client_demo.c:102-104 | There is only one such K |
| Backoff.WaitClosedForm | examples/wolfssl_client/main/wolfssl_client_demo.c:99-107 | The pause after the n-th failed round is SNTP_RECV_TIMEOUT * 2^min(n, K) |
| Backoff.WaitBounds | examples/wolfssl_client/main/wolfssl_client_demo.c:99-107 | Pauses never get shorter; all stay below the maximum if the first does, and stay constant if it does not |
| Backoff.TotalClosedForm | examples/wolfssl_client/main/wolfssl_client_demo.c:99-107 | The total paused after n rounds is geometric up to K and linear after it |
| NativeClient.ClientRound | examples/wolfssl_client/main/wolfssl_client_demo.c:143-248 | A round makes the calls of the ladder: each rung (library, CTX, socket, trust, connect, SSL, set_fd and handshake, write, reads) is climbed exactly when the one before it succeeded, and left again on the way back. However far it gets, nothing it acquired is left, everything was released youngest first, shutdown follows only a successful handshake and follows every one, and Init and Cleanup balance if and only if Init succeeded |
| NativeClient.TrustBeforeHandshake | examples/wolfssl_client/main/wolfssl_client_demo.c:174-206 | Every handshake of a round is on the SSL made from the CTX of the round, and comes after trust was set on that CTX: with verification the CA was accepted and directly after it the peer required to verify, without it verification was switched off |
| NativeClient.Client | examples/wolfssl_client/main/wolfssl_client_demo.c:134-257 | Any number of rounds of the endless loop makes the calls of that many rounds, one after the other, and ends with the live objects it began with and every session shut down; the library has been cleaned up exactly once too often for each round whose Init failed |
| NativeClient.TrustServer | examples/wolfssl_client/main/wolfssl_client_demo.c:174-185 | With verification the CA is accepted before the peer is required to verify, without it verification is switched off; on refusal nothing is set |
| NativeClient.Prepare | examples/wolfssl_client/main/wolfssl_client_demo.c:174-194 | Trust is set and only then the socket connected; a refused CA ends the preparation before anything is set or connected |
| NativeClient.Talk | examples/wolfssl_client/main/wolfssl_client_demo.c:206-242 | set_fd on the socket, handshake, and exactly if that succeeded the exchange and a shutdown; the SSL is freed whatever the handshake, write and reads did |
| NativeClient.UseSocket | examples/wolfssl_client/main/wolfssl_client_demo.c:174-244 | Trust, connect and SSL in this order, each exactly if the one before succeeded; the socket is closed whatever they did, and after the SSL |
| NativeClient.UseCtx | examples/wolfssl_client/main/wolfssl_client_demo.c:166-246 | The socket and all above it, then the CTX is freed whatever happened to the socket, after it was closed |
| TimeSync.Device.ObtainTime | examples/https_request/main/time_sync.c:41-53 | Succeeds if and only if one of the first ten waits does, waits no further after that one, and fails after exactly ten |
| TimeSync.Device.FetchAndStore | examples/https_request/main/time_sync.c:55-98 | On every path the handle opened is closed once, SNTP is stopped, and clock and flash are as specified |
| TimeSync.Device.Update | examples/https_request/main/time_sync.c:100-132 | On every path, also when it fetches while its own handle is open, every handle opened is closed once and SNTP is stopped; clock, flash and error are as specified |
| TimeSync.FetchOutcome | examples/https_request/main/time_sync.c:41-98 | A fetch reports success if and only if one of the first ten waits, the open, the set and the commit succeed, and then clock and flash hold the time fetched; it fails for want of SNTP exactly if no wait succeeds, and then changes nothing |
| TimeSync.UpdateOutcome | examples/https_request/main/time_sync.c:100-132 | An update reports success if and only if NVS opens and reads and a time is stored or a fetch succeeds; after a success clock and flash agree; it never replaces a stored time |
| TimeSync.StoredTimeStays | examples/https_request/main/time_sync.c:55-132 | Once a time is stored, reboots, updates, waiting and fetches that fail before setting the value never change it |
| TimeSync.StoredTimeRoundTrip | examples/https_request/main/time_sync.c:55-132 | After a successful fetch at time t and any such history, an update succeeds exactly when NVS opens and reads, and then sets the clock to t |
| TimeSync.Device.Live | examples/https_request/main/time_sync.c:41-132 | Any history of fetches, updates, reboots and waiting leaves flash and clock of the device as the model of histories says, with no handle open and SNTP stopped |
| TimeSync.FlashHoldsLastWritten | examples/https_request/main/time_sync.c:55-132 | After any history the flash holds the last time written in it, or what it held before |
| TimeSync.RoundTripExactly | examples/https_request/main/time_sync.c:55-132 | After a successful fetch at time t and any history, an update that succeeds sets the clock to t if and only if no other time was written last since |

## Left out

- wolfSSL itself: TLS, cryptography and certificate parsing are not part of this model; a call is an operation with a result.
- The ESP-TLS framework (`esp_tls_conn_*`, the custom-stack wrappers, esp_tls_errors.h) is not in this repository; its calls are direct calls into the backend, and its two call-again codes are those of ESP-IDF.
- Preemption inside a backend call: the C code gives no atomicity there, so calls are serialised.
- Logging, the error handle, the verify-result flags and their messages (`port/esp_tls_wolfssl.c:475-507`).
- get_bytes_avail, get_ssl_context, net_init, init_global_ca_store, get_ciphersuites_list, stack registration, `port/esp_wolfssl_mem.c` and `port/esp_wolfssl_seed.c`: forwards and constants with no property of their own.
- `port/user_settings.h`, Kconfig and CMake, but for the switches that change control flow (fields of `Config.Build`).
- Read and write are modelled on a link of their own in `Transfer`, not as steps of the runs over connections: they touch no state of the backend.
- The role of a connection and its configuration are one value (`Lifecycle.Peer`); the time a mutex wait takes is not modelled.
- Driving.AcceptStopsAtFirst: the accept loop has no bound in the source; it is followed for any finite number of rounds.
- Backoff.GetTime: the wait has no bound in the source; it is followed for any finite number of failed rounds.
- Transfer.SendRequest: the loop is followed as long as there are answers; the same for Transfer.ReadResponse.
- NativeClient.Client: the endless loop is followed for any number of rounds, and a response for any number of reads; the name lookup, delays, countdown and the bytes written and read are left out.
- NativeClient.TrustServer: the example presents its embedded CA text with the NUL inside the range; the model does not say what follows the range.
- TimeSync.Device.Update: NVS reports a missing value only if none is stored, and the clock is in whole seconds; the microseconds are not set by the code.
- Session tickets, Wi-Fi and the other request variants of the HTTPS example.
