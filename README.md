# SORACOM Krypton provisioning client for Azure IoT Hub, in Dafny

This project models the provisioning client `SoracomKryptonAzureIoTProvisioning`.
The client obtains an X.509 device certificate and private key for Azure IoT Hub
through the SORACOM Krypton API:

- **Construct.** The client checks that its target path exists and derives the
  two fixed credential paths `certificate.pem` and `privatekey.pem` under it.
- **Register.** It makes one POST to the register endpoint. The reply must carry
  a truthy `operationId`.
- **Poll.** It makes at most `RETRY_LIMIT` (10) GETs to that operation's status
  URL. It sleeps one second after every reply whose status is not `assigned`.
  It stops at the first `assigned` reply, or at the first call that raises.
- **Persist.** It writes the `certificate` and `privateKey` fields of the
  assigned reply, unchanged, to the two paths. It then returns the hub host
  name, the device id and the two paths.

Files:

- `krypton_provisioning.dfy`, module `KryptonProvisioning`. It holds the
  constants, the datatypes, the reference behaviour `ProvisionRun` and two
  classes. `Environment` holds the filesystem (a map from paths to contents
  plus a set of directories) and the trace of network calls and sleeps.
  `SoracomKryptonAzureIoTProvisioning` is the client: `Create` does the
  existence check, and `Provision` is the register/poll/persist method. It
  loops over the poll replies and updates the filesystem map and the trace.
  Its contract says that its result, its calls and sleeps, and the filesystem
  it leaves are exactly those of `ProvisionRun`.
- `provisioning_properties.dfy`, module `ProvisioningProperties`. It proves
  what the client promises, as lemmas about `ProvisionRun`.

The outside world is abstracted:

- The register reply is an input. It either raised (transport or JSON failure)
  or decoded to a body that may hold an operation id.
- The status replies are an input sequence. `polls[j]` answers the (j+1)-th
  status call. Each reply either raised or decoded to a record of optional
  `status`, `host`, `deviceId`, `certificate` and `privateKey` fields.
- Every POST, GET and sleep is appended to `Environment.trace`. Each event
  records its URL and timeout, or its length in seconds. The sleep counter and
  the poll counter are counts over this trace.

The model follows the exceptions and values the code actually produces:

- The code raises `ValueError` for a missing path and `RuntimeError` for every
  protocol failure. The model's `Error` is
  `ValueError | RuntimeError(origin, message) | TypeError`, where `origin`
  tags the register call, a missing operation id, a status call, or retry
  exhaustion.
- The exhaustion message formats `RETRY_LIMIT` into it, not a count of
  attempts made. The two are equal exactly when the budget runs out.
- An assigned reply that lacks `certificate` or `privateKey` is not rejected.
  The file is opened for writing, which truncates it, and then
  `write(None)` raises a `TypeError`. So a failed run can leave an empty
  credential file. The model includes this case (`Error.TypeError`,
  `MissingCredentialTruncates`).
- `host` and `deviceId` are passed through as they come, possibly absent. The
  result therefore holds `Option<string>` values, not guaranteed non-empty
  strings.

## Model

| member | source | states |
|---|---|---|
| `KryptonProvisioning.SoracomKryptonAzureIoTProvisioning.Create` | soracom_krypton_azure_provisioning.py:51-57 | construction fails with `ValueError("The path does not exist.")` exactly when the target path is empty or is neither an existing directory nor an existing file; otherwise the certificate path is `join(target, "certificate.pem")` and the key path is `join(target, "privatekey.pem")`; no network call or write happens |
| `KryptonProvisioning.SoracomKryptonAzureIoTProvisioning.constructor` | soracom_krypton_azure_provisioning.py:54-57 | for an existing target path, sets the two credential paths, which are constants of the object that nothing can reassign |
| `KryptonProvisioning.SoracomKryptonAzureIoTProvisioning.SaveCredentialToFile` | soracom_krypton_azure_provisioning.py:59-61 | the named file afterwards holds exactly the given content, or is empty when the content is absent; this case reports failure; no other file changes |
| `KryptonProvisioning.SoracomKryptonAzureIoTProvisioning.Provision` | soracom_krypton_azure_provisioning.py:63-125 | the loop keeps `retry_count <= RETRY_LIMIT`, every reply before `retry_count` pending, and the trace equal to the POST followed by one GET+sleep round per pending reply; the result, the appended trace and the final filesystem equal `ProvisionRun`'s |
| `KryptonProvisioning.Environment.Write` | soracom_krypton_azure_provisioning.py:60-61 | opening for writing truncates the file, and writing stores the content; an absent content makes the write fail and leaves the file empty |
| `KryptonProvisioning.Environment.HttpPost` | soracom_krypton_azure_provisioning.py:81-82 | a POST appends exactly one event to the trace, with its URL and timeout |
| `KryptonProvisioning.Environment.HttpGet` | soracom_krypton_azure_provisioning.py:96-97 | a GET appends exactly one event to the trace, with its URL and timeout |
| `KryptonProvisioning.Environment.SleepFor` | soracom_krypton_azure_provisioning.py:107 | a sleep appends exactly one sleep event to the trace |
| `KryptonProvisioning.FirstNonPending` | soracom_krypton_azure_provisioning.py:94-104 | the index where the poll loop stops: every earlier reply is pending (decoded and not assigned), and the reply there raised or is assigned, or the index is `RETRY_LIMIT` |
| `KryptonProvisioning.FirstNonPendingIs` | soracom_krypton_azure_provisioning.py:94-104 | a pending prefix of length k, followed by a raising or assigned reply or by the limit, makes the loop stop at exactly k |
| `ProvisioningProperties.PollLoopTrace` | soracom_krypton_azure_provisioning.py:80-107 | every run starts with the single register POST; GETs are made only after a truthy operation id, all to `registrations/<id>` with the 5-second timeout; at most `RETRY_LIMIT` GETs are made; the GET answered by reply j is followed by a one-second sleep exactly when that reply was pending; nothing else happens |
| `ProvisioningProperties.PollCallsBounded` | soracom_krypton_azure_provisioning.py:94-107 | at most `RETRY_LIMIT` status calls, and no more sleeps than status calls |
| `ProvisioningProperties.RegisterFailureIsTerminal` | soracom_krypton_azure_provisioning.py:80-86 | a raising register call gives a `RuntimeError` with the register message and cause, after one POST and no status call or sleep, with the filesystem unchanged |
| `ProvisioningProperties.MissingOperationIdIsTerminal` | soracom_krypton_azure_provisioning.py:83-89 | an absent or empty operation id gives `RuntimeError("Credential issue failed.")`, after one POST and no status call, with the filesystem unchanged |
| `ProvisioningProperties.FirstAssignedWins` | soracom_krypton_azure_provisioning.py:94-118 | if reply n < `RETRY_LIMIT` is the first reply that is not pending (every earlier reply decoded and not assigned) and it is assigned (n = 9 included), exactly n+1 status calls and n sleeps are made, the last call is the GET, and reply n's payload decides the result and the files |
| `ProvisioningProperties.PollFailureAborts` | soracom_krypton_azure_provisioning.py:95-101 | a raising status call after n pending replies gives a `RuntimeError` with the status message and cause, after exactly n+1 calls and n sleeps; the failed call costs no sleep; no file is written |
| `ProvisioningProperties.RetryExhaustion` | soracom_krypton_azure_provisioning.py:94-111 | 10 pending replies give `RuntimeError("Credential retreival failed after 10 retries")` after exactly 10 status calls and 10 sleeps, with no file written |
| `ProvisioningProperties.SucceedsIff` | soracom_krypton_azure_provisioning.py:80-125 | provisioning succeeds if and only if the operation id is truthy and some reply n < `RETRY_LIMIT` is the first reply that is not pending, is assigned, and carries both credentials |
| `ProvisioningProperties.ProtocolFailureWritesNothing` | soracom_krypton_azure_provisioning.py:80-111 | `provision` raises only `RuntimeError`, or the `TypeError` of a missing credential; after any `RuntimeError` the filesystem is exactly as before |
| `ProvisioningProperties.VerbatimPersistence` | soracom_krypton_azure_provisioning.py:113-125 | on success the certificate path holds exactly the `certificate` field and the key path exactly the `privateKey` field of the last reply read, which is assigned; earlier contents are overwritten; no other path changes and no other file appears; the result carries that reply's `host`, `deviceId` and the two paths |
| `ProvisioningProperties.MissingCredentialTruncates` | soracom_krypton_azure_provisioning.py:113-118 | an assigned reply without a certificate leaves the certificate file empty and the key file untouched; one with a certificate but no key leaves the certificate written and the key file empty; both raise `TypeError` |
| `ProvisioningProperties.ReprovisionOverwrites` | soracom_krypton_azure_provisioning.py:59-61 | a second successful provisioning into the same paths leaves its own credentials in both files, whatever the first run wrote |
| `ProvisioningProperties.LaterRepliesIgnored` | soracom_krypton_azure_provisioning.py:94-104 | a run depends only on the replies to the calls it made; replies after the one that stopped the loop are never read |
| `ProvisioningProperties.RetriesExhaustedMessageText` | soracom_krypton_azure_provisioning.py:110-111 | the exhaustion message, built by formatting `RETRY_LIMIT` in decimal, reads `Credential retreival failed after 10 retries` |
| `ProvisioningProperties.CredentialPathsFixed` | soracom_krypton_azure_provisioning.py:54-57 | both credential paths are the target path, an optional `/` separator (the same for both) and the fixed file name, and the two paths never coincide |

## Left out

- `send_data_to_azure.py`: it only passes the provisioning result to the Azure IoT SDK (connect, send one message, disconnect). It has no logic of its own.
- Real HTTP and JSON decoding: each call is an abstract outcome given as an input. A decoded register body that is not a JSON object makes `.get` raise inside the `try`, so it counts as `RegisterRaised`.
- A decoded status body that is not a JSON object would make `.get('status')` raise an uncaught `AttributeError`. Status replies are assumed to decode to objects.
- Non-string operation ids (numbers, booleans, lists) are not modelled. Only an absent, empty or non-empty string id is.
- `urljoin` is modelled as `endpoint + "/" + path`. That is its result for this endpoint, which has no path component, and for an id made only of URL-safe characters other than `/`, `?` and `#` that is not `.` or `..`. How `urljoin` resolves other ids (dot segments, `/`, `?`, `#`, and the tab, CR and LF characters that URL splitting deletes) is not modelled.
- `os.path.join` is modelled as POSIX joining, and `os.path.exists` as a non-empty path that is in the directory set or the file map. Windows paths, symbolic links and permissions are not modelled.
- The wall clock: `time.sleep(1)` becomes a trace event. The 5-second timeout of each request is recorded on each call; a timeout shows up as a raising reply.
- Filesystem failures: `open` failing (target not a directory, no permission), a crash mid-write, and a truncated file after a crash are not modelled. A write of a string always succeeds.
- Provision: requires at least `RETRY_LIMIT` poll replies, meaning that the network answers every status call the loop can make. This is an input convention, not a restriction of the client.
- Concurrent `provision` calls into the same directory race on the two files. This is not a sequential property and is outside the model.
- The exception messages embed `str(error)` of the underlying exception. Here that text is the `cause` string of the raising reply.
- No X.509 or PEM validation: the code performs none, and the model performs none either.
