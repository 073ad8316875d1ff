/**
 What the provisioning client promises, proved about ProvisionRun, the reference
 behaviour that SoracomKryptonAzureIoTProvisioning.Provision is proved to follow.

 Polls and sleeps are counted on the event trace of a run; the status replies
 are indexed from 0, so polls[j] answers the (j+1)-th status call.
 */
module ProvisioningProperties {
  import opened KryptonProvisioning

  // ---------------------------------------------------------------------------
  // Counting events on a trace
  // ---------------------------------------------------------------------------

  /** Number of status GETs on a trace. */
  function PollCount(trace: seq<Event>): nat
  {
    if trace == [] then 0
    else PollCount(trace[..|trace| - 1]) + (if trace[|trace| - 1].Get? then 1 else 0)
  }

  /** Number of sleeps on a trace. */
  function SleepCount(trace: seq<Event>): nat
  {
    if trace == [] then 0
    else SleepCount(trace[..|trace| - 1]) + (if trace[|trace| - 1].Sleep? then 1 else 0)
  }

  lemma {:induction false} CountsAppend(a: seq<Event>, b: seq<Event>)
    ensures PollCount(a + b) == PollCount(a) + PollCount(b)
    ensures SleepCount(a + b) == SleepCount(a) + SleepCount(b)
    decreases |b|
  {
    if b != [] {
      var b', last := b[..|b| - 1], b[|b| - 1];
      assert (a + b)[..|a + b| - 1] == a + b';
      assert (a + b)[|a + b| - 1] == last;
      CountsAppend(a, b');
      assert PollCount(a + b) == PollCount(a + b') + (if last.Get? then 1 else 0);
      assert PollCount(b) == PollCount(b') + (if last.Get? then 1 else 0);
      assert SleepCount(a + b) == SleepCount(a + b') + (if last.Sleep? then 1 else 0);
      assert SleepCount(b) == SleepCount(b') + (if last.Sleep? then 1 else 0);
    } else {
      assert a + b == a;
    }
  }

  /** The pending rounds of the poll loop alternate a GET of the status URL and a sleep. */
  lemma {:induction false} PollRoundsShape(url: string, rounds: nat)
    ensures |PollRounds(url, rounds)| == 2 * rounds
    ensures forall i :: 0 <= i < 2 * rounds ==>
      PollRounds(url, rounds)[i] ==
        if i % 2 == 0 then Get(url, REQUESTS_TIMEOUT_SEC) else Sleep(POLL_INTERVAL_SEC)
    ensures PollCount(PollRounds(url, rounds)) == rounds
    ensures SleepCount(PollRounds(url, rounds)) == rounds
  {
    if rounds > 0 {
      var get, sleep := Get(url, REQUESTS_TIMEOUT_SEC), Sleep(POLL_INTERVAL_SEC);
      PollRoundsShape(url, rounds - 1);
      CountsAppend(PollRounds(url, rounds - 1), [get, sleep]);
      assert [get, sleep][..1] == [get];
      assert [get][..0] == [];
      assert PollCount([get]) == 1 && SleepCount([get]) == 0;
      assert PollCount([get, sleep]) == 1 && SleepCount([get, sleep]) == 1;
    }
  }

  /** Counts and positions on the two trace shapes of a run that reached the poll loop:
      `rounds` pending rounds after the register POST, then possibly the GET that ended it. */
  lemma PolledTraceShape(url: string, rounds: nat)
    ensures var t := [Post(RegisterUrl(), REQUESTS_TIMEOUT_SEC)] + PollRounds(url, rounds);
      && PollCount(t) == rounds && SleepCount(t) == rounds && |t| == 1 + 2 * rounds
      && (forall j :: 0 <= j < rounds ==> t[1 + 2 * j] == Get(url, REQUESTS_TIMEOUT_SEC))
      && (forall j :: 0 <= j < rounds ==> t[2 + 2 * j] == Sleep(POLL_INTERVAL_SEC))
    ensures var t := [Post(RegisterUrl(), REQUESTS_TIMEOUT_SEC)] + PollRounds(url, rounds)
                     + [Get(url, REQUESTS_TIMEOUT_SEC)];
      && PollCount(t) == rounds + 1 && SleepCount(t) == rounds && |t| == 2 + 2 * rounds
      && (forall j :: 0 <= j <= rounds ==> t[1 + 2 * j] == Get(url, REQUESTS_TIMEOUT_SEC))
      && (forall j :: 0 <= j < rounds ==> t[2 + 2 * j] == Sleep(POLL_INTERVAL_SEC))
  {
    var post := [Post(RegisterUrl(), REQUESTS_TIMEOUT_SEC)];
    var get := Get(url, REQUESTS_TIMEOUT_SEC);
    var rs := PollRounds(url, rounds);
    PollRoundsShape(url, rounds);
    CountsAppend(post, rs);
    CountsAppend(post + rs, [get]);
    assert post[..0] == [];
    assert [get][..0] == [];
    forall j | 0 <= j < rounds
      ensures (post + rs)[1 + 2 * j] == get && (post + rs)[2 + 2 * j] == Sleep(POLL_INTERVAL_SEC)
      ensures (post + rs + [get])[1 + 2 * j] == get
      ensures (post + rs + [get])[2 + 2 * j] == Sleep(POLL_INTERVAL_SEC)
    {
      assert rs[2 * j] == get && rs[2 * j + 1] == Sleep(POLL_INTERVAL_SEC);
    }
  }

  // ---------------------------------------------------------------------------
  // Shapes of replies
  // ---------------------------------------------------------------------------

  /** Reply n is the first that is not pending, and it carries the status "assigned". */
  predicate AssignedFirstAt(polls: seq<PollReply>, n: nat)
  {
    && n < RETRY_LIMIT <= |polls|
    && (forall j :: 0 <= j < n ==> Pending(polls[j]))
    && polls[n].PollDecoded? && IsAssigned(polls[n].info)
  }

  predicate HasCredentials(info: RegistrationInfo)
  {
    info.certificate.Some? && info.privateKey.Some?
  }

  // ---------------------------------------------------------------------------
  // The trace of every run
  // ---------------------------------------------------------------------------

  /** Every run starts with the one register POST; a status GET is made only after a
      truthy operation id and always to that id's status URL; there are at most
      RETRY_LIMIT of them; and the GET answered by reply j is followed by a one-second
      sleep exactly when that reply was pending. Nothing else is on the trace. */
  lemma PollLoopTrace(certificatePath: Path, privateKeyPath: Path, register: RegisterReply,
                      polls: seq<PollReply>, files: map<Path, string>)
    requires RETRY_LIMIT <= |polls|
    ensures var run := ProvisionRun(certificatePath, privateKeyPath, register, polls, files);
      var polled := PollCount(run.trace);
      && run.trace[0] == Post(RegisterUrl(), REQUESTS_TIMEOUT_SEC)
      && polled <= RETRY_LIMIT
      && SleepCount(run.trace) <= polled <= SleepCount(run.trace) + 1
      && |run.trace| == 1 + polled + SleepCount(run.trace)
      && (polled > 0 ==> register.RegisterDecoded? && Truthy(register.operationId))
      && (forall j :: 0 <= j < polled ==>
            run.trace[1 + 2 * j] == Get(PollUrl(register.operationId.value), REQUESTS_TIMEOUT_SEC))
      && (forall j :: 0 <= j < polled ==> (2 + 2 * j < |run.trace| <==> Pending(polls[j])))
      && (forall j :: 0 <= j < polled && 2 + 2 * j < |run.trace| ==>
            run.trace[2 + 2 * j] == Sleep(POLL_INTERVAL_SEC))
  {
    var run := ProvisionRun(certificatePath, privateKeyPath, register, polls, files);
    var post := [Post(RegisterUrl(), REQUESTS_TIMEOUT_SEC)];
    if register.RegisterDecoded? && Truthy(register.operationId) {
      var url := PollUrl(register.operationId.value);
      var n := FirstNonPending(polls, 0);
      PolledTraceShape(url, n);
      if n == RETRY_LIMIT {
        assert run.trace == post + PollRounds(url, n);
      } else {
        assert run.trace == post + PollRounds(url, n) + [Get(url, REQUESTS_TIMEOUT_SEC)];
      }
    } else {
      assert run.trace == post;
      assert post[..0] == [];
    }
  }

  /** The number of status calls never exceeds RETRY_LIMIT, and there is never more than
      one sleep per status call. */
  lemma PollCallsBounded(certificatePath: Path, privateKeyPath: Path, register: RegisterReply,
                         polls: seq<PollReply>, files: map<Path, string>)
    requires RETRY_LIMIT <= |polls|
    ensures var run := ProvisionRun(certificatePath, privateKeyPath, register, polls, files);
      PollCount(run.trace) <= RETRY_LIMIT && SleepCount(run.trace) <= PollCount(run.trace)
  {
    PollLoopTrace(certificatePath, privateKeyPath, register, polls, files);
  }

  // ---------------------------------------------------------------------------
  // The five outcomes
  // ---------------------------------------------------------------------------

  /** A raising register call fails with a RuntimeError at once: no status call, no sleep,
      no file written. */
  lemma RegisterFailureIsTerminal(certificatePath: Path, privateKeyPath: Path, cause: string,
                                  polls: seq<PollReply>, files: map<Path, string>)
    requires RETRY_LIMIT <= |polls|
    ensures var run := ProvisionRun(certificatePath, privateKeyPath, RegisterRaised(cause), polls, files);
      && run.result == Err(RuntimeError(RegisterCall, REGISTER_FAILED_MESSAGE + cause))
      && run.trace == [Post(RegisterUrl(), REQUESTS_TIMEOUT_SEC)]
      && PollCount(run.trace) == 0
      && run.files == files
  {
  }

  /** A decoded register reply whose operation id is absent or empty fails with
      "Credential issue failed.": no status call, no sleep, no file written. */
  lemma MissingOperationIdIsTerminal(certificatePath: Path, privateKeyPath: Path,
                                     id: Option<string>, polls: seq<PollReply>,
                                     files: map<Path, string>)
    requires RETRY_LIMIT <= |polls|
    requires id == None || id == Some("")
    ensures var run := ProvisionRun(certificatePath, privateKeyPath, RegisterDecoded(id), polls, files);
      && run.result == Err(RuntimeError(NoOperationId, CREDENTIAL_ISSUE_FAILED_MESSAGE))
      && run.trace == [Post(RegisterUrl(), REQUESTS_TIMEOUT_SEC)]
      && PollCount(run.trace) == 0
      && run.files == files
  {
  }

  /** If reply n is the first assigned one, exactly n + 1 status calls and n sleeps are made,
      and the payload of reply n is the one persisted; this includes n = RETRY_LIMIT - 1. */
  lemma FirstAssignedWins(certificatePath: Path, privateKeyPath: Path, id: string,
                          polls: seq<PollReply>, files: map<Path, string>, n: nat)
    requires id != ""
    requires AssignedFirstAt(polls, n)
    ensures var run := ProvisionRun(certificatePath, privateKeyPath, RegisterDecoded(Some(id)), polls, files);
      && PollCount(run.trace) == n + 1
      && SleepCount(run.trace) == n
      && run.trace[|run.trace| - 1] == Get(PollUrl(id), REQUESTS_TIMEOUT_SEC)
      && (run.result, run.files) == Persist(certificatePath, privateKeyPath, polls[n].info, files)
  {
    FirstNonPendingIs(polls, n);
    PolledTraceShape(PollUrl(id), n);
  }

  /** A raising status call ends provisioning with a RuntimeError at once: the failed call
      costs no retry and no sleep, no later call is made, and no file is written. */
  lemma PollFailureAborts(certificatePath: Path, privateKeyPath: Path, id: string,
                          polls: seq<PollReply>, files: map<Path, string>, n: nat, cause: string)
    requires id != ""
    requires n < RETRY_LIMIT <= |polls|
    requires forall j :: 0 <= j < n ==> Pending(polls[j])
    requires polls[n] == PollRaised(cause)
    ensures var run := ProvisionRun(certificatePath, privateKeyPath, RegisterDecoded(Some(id)), polls, files);
      && run.result == Err(RuntimeError(StatusCall, STATUS_FAILED_MESSAGE + cause))
      && PollCount(run.trace) == n + 1
      && SleepCount(run.trace) == n
      && run.files == files
  {
    FirstNonPendingIs(polls, n);
    PolledTraceShape(PollUrl(id), n);
  }

  /** RETRY_LIMIT pending replies exhaust the budget: a RuntimeError after exactly
      RETRY_LIMIT status calls and RETRY_LIMIT sleeps, with no file written. */
  lemma RetryExhaustion(certificatePath: Path, privateKeyPath: Path, id: string,
                        polls: seq<PollReply>, files: map<Path, string>)
    requires id != ""
    requires RETRY_LIMIT <= |polls|
    requires forall j :: 0 <= j < RETRY_LIMIT ==> Pending(polls[j])
    ensures var run := ProvisionRun(certificatePath, privateKeyPath, RegisterDecoded(Some(id)), polls, files);
      && run.result == Err(RuntimeError(RetryLimit, RETRIES_EXHAUSTED_MESSAGE))
      && PollCount(run.trace) == RETRY_LIMIT
      && SleepCount(run.trace) == RETRY_LIMIT
      && run.files == files
  {
    FirstNonPendingIs(polls, RETRY_LIMIT);
    PolledTraceShape(PollUrl(id), RETRY_LIMIT);
  }

  /** Provisioning succeeds exactly when the register reply holds a truthy operation id and
      some reply is the first assigned one and carries both credentials. */
  lemma SucceedsIff(certificatePath: Path, privateKeyPath: Path, register: RegisterReply,
                    polls: seq<PollReply>, files: map<Path, string>)
    requires RETRY_LIMIT <= |polls|
    ensures ProvisionRun(certificatePath, privateKeyPath, register, polls, files).result.Ok?
        <==> && register.RegisterDecoded? && Truthy(register.operationId)
             && exists n: nat :: AssignedFirstAt(polls, n) && HasCredentials(polls[n].info)
  {
  }

  /** The only errors Provision raises are RuntimeErrors and the TypeError of a missing
      credential, and after a RuntimeError the filesystem is exactly as before. */
  lemma ProtocolFailureWritesNothing(certificatePath: Path, privateKeyPath: Path,
                                     register: RegisterReply, polls: seq<PollReply>,
                                     files: map<Path, string>)
    requires RETRY_LIMIT <= |polls|
    ensures var run := ProvisionRun(certificatePath, privateKeyPath, register, polls, files);
      && (run.result.Err? ==> run.result.error.RuntimeError? || run.result.error.TypeError?)
      && (run.result.Err? && run.result.error.RuntimeError? ==> run.files == files)
  {
  }

  // ---------------------------------------------------------------------------
  // Persistence
  // ---------------------------------------------------------------------------

  /** On success the certificate path holds exactly the certificate and the key path exactly
      the private key of the assigned reply (the last one read), whatever they held before;
      no other path changes; the result carries that reply's host and device id and the two
      paths. */
  lemma VerbatimPersistence(certificatePath: Path, privateKeyPath: Path, register: RegisterReply,
                            polls: seq<PollReply>, files: map<Path, string>)
    requires RETRY_LIMIT <= |polls|
    requires certificatePath != privateKeyPath
    ensures var run := ProvisionRun(certificatePath, privateKeyPath, register, polls, files);
      run.result.Ok? ==>
        && 0 < PollCount(run.trace) <= |polls|
        && var reply := polls[PollCount(run.trace) - 1];
        && reply.PollDecoded? && IsAssigned(reply.info) && HasCredentials(reply.info)
        && run.files.Keys == files.Keys + {certificatePath, privateKeyPath}
        && run.files[certificatePath] == reply.info.certificate.value
        && run.files[privateKeyPath] == reply.info.privateKey.value
        && (forall p :: p in files && p != certificatePath && p != privateKeyPath ==>
              run.files[p] == files[p])
        && run.result.value == ProvisionResult(reply.info.host, reply.info.deviceId,
                                               certificatePath, privateKeyPath)
  {
    var run := ProvisionRun(certificatePath, privateKeyPath, register, polls, files);
    if run.result.Ok? {
      var n := FirstNonPending(polls, 0);
      FirstAssignedWins(certificatePath, privateKeyPath, register.operationId.value, polls, files, n);
    }
  }

  /** An assigned reply that lacks a credential raises a TypeError. The file being written is
      left empty: the certificate file if the certificate is missing (the key file is then
      untouched), otherwise the key file, after the certificate was written in full. */
  lemma MissingCredentialTruncates(certificatePath: Path, privateKeyPath: Path,
                                   register: RegisterReply, polls: seq<PollReply>,
                                   files: map<Path, string>)
    requires RETRY_LIMIT <= |polls|
    ensures var run := ProvisionRun(certificatePath, privateKeyPath, register, polls, files);
      run.result.Err? && run.result.error.TypeError? ==>
        && 0 < PollCount(run.trace) <= |polls|
        && var reply := polls[PollCount(run.trace) - 1];
        && reply.PollDecoded? && IsAssigned(reply.info) && !HasCredentials(reply.info)
        && run.result.error == TypeError(WRITE_NONE_MESSAGE)
        && (reply.info.certificate.None? ==> run.files == files[certificatePath := ""])
        && (reply.info.certificate.Some? ==>
              run.files == files[certificatePath := reply.info.certificate.value][privateKeyPath := ""])
  {
    var run := ProvisionRun(certificatePath, privateKeyPath, register, polls, files);
    if run.result.Err? && run.result.error.TypeError? {
      var n := FirstNonPending(polls, 0);
      FirstAssignedWins(certificatePath, privateKeyPath, register.operationId.value, polls, files, n);
    }
  }

  /** Two successful runs one after the other over the same paths leave the second run's
      credentials in both files, whatever the first run wrote. */
  lemma ReprovisionOverwrites(certificatePath: Path, privateKeyPath: Path,
                              register1: RegisterReply, polls1: seq<PollReply>,
                              register2: RegisterReply, polls2: seq<PollReply>,
                              files: map<Path, string>)
    requires RETRY_LIMIT <= |polls1| && RETRY_LIMIT <= |polls2|
    requires certificatePath != privateKeyPath
    ensures var first := ProvisionRun(certificatePath, privateKeyPath, register1, polls1, files);
      var second := ProvisionRun(certificatePath, privateKeyPath, register2, polls2, first.files);
      var again := ProvisionRun(certificatePath, privateKeyPath, register2, polls2, files);
      second.result.Ok? ==>
        && again.result == second.result
        && second.files[certificatePath] == again.files[certificatePath]
        && second.files[privateKeyPath] == again.files[privateKeyPath]
  {
  }

  /** A run depends only on the replies to the calls it made: replies after the one that
      ended the loop are never read. */
  lemma LaterRepliesIgnored(certificatePath: Path, privateKeyPath: Path, register: RegisterReply,
                            polls: seq<PollReply>, others: seq<PollReply>, files: map<Path, string>)
    requires RETRY_LIMIT <= |polls| && RETRY_LIMIT <= |others|
    requires forall j :: 0 <= j < RETRY_LIMIT &&
                         j < PollCount(ProvisionRun(certificatePath, privateKeyPath,
                                                    register, polls, files).trace)
                         ==> others[j] == polls[j]
    ensures ProvisionRun(certificatePath, privateKeyPath, register, others, files)
         == ProvisionRun(certificatePath, privateKeyPath, register, polls, files)
  {
    if register.RegisterDecoded? && Truthy(register.operationId) {
      var n := FirstNonPending(polls, 0);
      PolledTraceShape(PollUrl(register.operationId.value), n);
      FirstNonPendingIs(others, n);
    }
  }

  /** The exhaustion message names the retry limit as the program formats it. */
  lemma RetriesExhaustedMessageText()
    ensures RETRIES_EXHAUSTED_MESSAGE == "Credential retreival failed after 10 retries"
  {
    assert Decimal(10) == "10" by {
      assert Decimal(1) == "1";
    }
  }

  // ---------------------------------------------------------------------------
  // Construction
  // ---------------------------------------------------------------------------

  /** The two credential paths are the fixed file names placed under the target path, with
      a separator unless the target is empty or already ends in one, and they never coincide. */
  lemma CredentialPathsFixed(targetPath: Path)
    ensures exists sep :: && (sep == "" || sep == "/")
                          && CertificatePath(targetPath) == targetPath + sep + CERTIFICATE_FILE_NAME
                          && PrivateKeyPath(targetPath) == targetPath + sep + PRIVATE_KEY_FILE_NAME
    ensures CertificatePath(targetPath) != PrivateKeyPath(targetPath)
  {
    var sep := if targetPath == [] || targetPath[|targetPath| - 1] == '/' then "" else "/";
    assert CertificatePath(targetPath) == targetPath + sep + CERTIFICATE_FILE_NAME;
    assert PrivateKeyPath(targetPath) == targetPath + sep + PRIVATE_KEY_FILE_NAME;
  }
}
