/**
 A model of the SORACOM Krypton provisioning client for Azure IoT Hub.

 The client is constructed over a target directory, from which it derives two
 fixed credential paths. Its one operation, Provision, registers with the
 Krypton endpoint (one POST), polls the registration status (at most
 RETRY_LIMIT GETs, one second of sleep after each reply that is not yet
 "assigned"), and on success writes the issued certificate and private key to
 the two paths.

 The network, the filesystem and the clock are an Environment: the filesystem
 is a map from paths to contents plus a set of directories, and every network
 call and every sleep is appended to an event trace. The replies of the
 register call and of the status calls are inputs of Provision.

 ProvisionRun is the reference behaviour of one Provision call as a function of
 its inputs; the method is proved against it, and ProvisioningProperties proves
 what the client promises about it.
 */
module KryptonProvisioning {

  // ---------------------------------------------------------------------------
  // Constants
  // ---------------------------------------------------------------------------

  /** Number of status calls before provisioning gives up. */
  const RETRY_LIMIT: nat := 10
  /** Timeout passed to every HTTP request, in seconds. */
  const REQUESTS_TIMEOUT_SEC: nat := 5
  /** Length of the sleep after a reply that is not yet assigned, in seconds. */
  const POLL_INTERVAL_SEC: nat := 1

  const ENDPOINT: string := "https://krypton.soracom.io:8036"
  const REGISTER_PATH: string := "v1/provisioning/azure/iot/register"
  const REGISTRATIONS_PATH: string := "v1/provisioning/azure/iot/registrations/"
  const ASSIGNED: string := "assigned"

  const CERTIFICATE_FILE_NAME: string := "certificate.pem"
  const PRIVATE_KEY_FILE_NAME: string := "privatekey.pem"

  const PATH_DOES_NOT_EXIST_MESSAGE: string := "The path does not exist."
  const REGISTER_FAILED_MESSAGE: string := "Failed to invoke registerAzureIotDevice API. Error: "
  const CREDENTIAL_ISSUE_FAILED_MESSAGE: string := "Credential issue failed."
  const STATUS_FAILED_MESSAGE: string := "Failed to invoke getAzureIotDeviceRegistrationStatus API. Error: "
  /** The retry-exhaustion message, with RETRY_LIMIT formatted into it (the misspelling is the program's). */
  const RETRIES_EXHAUSTED_MESSAGE: string :=
    "Credential retreival failed after " + Decimal(RETRY_LIMIT) + " retries"
  /** What Python's file write says when it is handed None instead of a string. */
  const WRITE_NONE_MESSAGE: string := "write() argument must be str, not None"

  /** The decimal digits of n, as Python's str formatting writes them. */
  function Decimal(n: nat): (s: string)
    ensures |s| > 0 && forall i :: 0 <= i < |s| ==> '0' <= s[i] <= '9'
  {
    var digit := ['0' + (n % 10) as char];
    if n < 10 then digit else Decimal(n / 10) + digit
  }

  // ---------------------------------------------------------------------------
  // Data model
  // ---------------------------------------------------------------------------

  type Path = string

  datatype Option<T> = None | Some(value: T)

  /** Where a RuntimeError raised by Provision comes from. */
  datatype Origin =
    | RegisterCall      // the register POST or the decoding of its reply raised
    | NoOperationId     // the register reply carried no usable operation id
    | StatusCall        // a status GET or the decoding of its reply raised
    | RetryLimit        // RETRY_LIMIT replies came back without "assigned"

  /** The exceptions the client raises. */
  datatype Error =
    | ValueError(message: string)                    // construction over a missing path
    | RuntimeError(origin: Origin, message: string)  // every protocol failure of Provision
    | TypeError(message: string)                     // a credential field missing from an assigned reply

  datatype Result<T> = Ok(value: T) | Err(error: Error)

  /** The outcome of the register POST: it raised, or its JSON body decoded and may hold an id. */
  datatype RegisterReply =
    | RegisterRaised(cause: string)
    | RegisterDecoded(operationId: Option<string>)

  /** The fields the client reads from a decoded status reply; each may be absent. */
  datatype RegistrationInfo = RegistrationInfo(
    status: Option<string>,
    host: Option<string>,
    deviceId: Option<string>,
    certificate: Option<string>,
    privateKey: Option<string>)

  /** The outcome of one status GET: it raised, or its JSON body decoded. */
  datatype PollReply =
    | PollRaised(cause: string)
    | PollDecoded(info: RegistrationInfo)

  /** The dictionary Provision returns on success. */
  datatype ProvisionResult = ProvisionResult(
    azureIotHubHostname: Option<string>,
    azureIotHubDeviceId: Option<string>,
    azureDeviceCertificatePath: Path,
    azureDevicePrivateKeyPath: Path)

  /** One observable interaction with the outside world. */
  datatype Event =
    | Post(url: string, timeoutSec: nat)
    | Get(url: string, timeoutSec: nat)
    | Sleep(seconds: nat)

  /** Everything one Provision call produces: its result, its trace and the final filesystem. */
  datatype Run = Run(result: Result<ProvisionResult>, trace: seq<Event>, files: map<Path, string>)

  // ---------------------------------------------------------------------------
  // Paths and URLs
  // ---------------------------------------------------------------------------

  /** POSIX path joining of a directory and a name: no separator is added after an empty
      directory or one that already ends in '/', and an absolute name replaces the directory. */
  function Join(dir: Path, name: string): Path
  {
    if name != [] && name[0] == '/' then name
    else if dir == [] || dir[|dir| - 1] == '/' then dir + name
    else dir + "/" + name
  }

  function CertificatePath(targetPath: Path): Path
  {
    Join(targetPath, CERTIFICATE_FILE_NAME)
  }

  function PrivateKeyPath(targetPath: Path): Path
  {
    Join(targetPath, PRIVATE_KEY_FILE_NAME)
  }

  /** URL joining of a base URL without a path component and a relative path. */
  function UrlJoin(base: string, path: string): string
  {
    base + "/" + path
  }

  function RegisterUrl(): string
  {
    UrlJoin(ENDPOINT, REGISTER_PATH)
  }

  function PollUrl(operationId: string): string
  {
    UrlJoin(ENDPOINT, REGISTRATIONS_PATH + operationId)
  }

  // ---------------------------------------------------------------------------
  // Reference behaviour of Provision
  // ---------------------------------------------------------------------------

  /** Python truthiness of the operation id: absent and empty ids are falsy. */
  predicate Truthy(id: Option<string>)
  {
    id.Some? && id.value != ""
  }

  predicate IsAssigned(info: RegistrationInfo)
  {
    info.status == Some(ASSIGNED)
  }

  /** A reply after which the loop sleeps and polls again. */
  predicate Pending(reply: PollReply)
  {
    reply.PollDecoded? && !IsAssigned(reply.info)
  }

  /** The index of the first reply at or after `from` that ends the poll loop (a raise or an
      assigned status), or RETRY_LIMIT if every reply up to the limit is pending. */
  function FirstNonPending(polls: seq<PollReply>, from: nat): (n: nat)
    requires from <= RETRY_LIMIT <= |polls|
    ensures from <= n <= RETRY_LIMIT
    ensures forall j :: from <= j < n ==> Pending(polls[j])
    ensures n < RETRY_LIMIT ==> !Pending(polls[n])
    decreases RETRY_LIMIT - from
  {
    if from == RETRY_LIMIT || !Pending(polls[from]) then from
    else FirstNonPending(polls, from + 1)
  }

  /** The first `rounds` iterations of the poll loop that did not end it: a GET, then a sleep. */
  function PollRounds(url: string, rounds: nat): seq<Event>
  {
    if rounds == 0 then []
    else PollRounds(url, rounds - 1) + [Get(url, REQUESTS_TIMEOUT_SEC), Sleep(POLL_INTERVAL_SEC)]
  }

  /** What a file holds after it is opened for writing and handed `content`: the content, or
      nothing when the content is absent (the open truncated it before the write raised). */
  function Written(content: Option<string>): string
  {
    match content
    case Some(s) => s
    case None => ""
  }

  /** The persistence step: the certificate is written first, then the private key, and
      a missing field stops the step with a TypeError. */
  function Persist(certificatePath: Path, privateKeyPath: Path, info: RegistrationInfo,
                   files: map<Path, string>): (Result<ProvisionResult>, map<Path, string>)
  {
    var afterCertificate := files[certificatePath := Written(info.certificate)];
    if info.certificate.None? then
      (Err(TypeError(WRITE_NONE_MESSAGE)), afterCertificate)
    else
      var afterKey := afterCertificate[privateKeyPath := Written(info.privateKey)];
      if info.privateKey.None? then
        (Err(TypeError(WRITE_NONE_MESSAGE)), afterKey)
      else
        (Ok(ProvisionResult(info.host, info.deviceId, certificatePath, privateKeyPath)), afterKey)
  }

  /** One Provision call of a client whose credential paths are the first two arguments,
      given the register reply, the status replies in the order they arrive, and the
      filesystem before the call. */
  function ProvisionRun(certificatePath: Path, privateKeyPath: Path, register: RegisterReply,
                        polls: seq<PollReply>, files: map<Path, string>): Run
    requires RETRY_LIMIT <= |polls|
  {
    var post := [Post(RegisterUrl(), REQUESTS_TIMEOUT_SEC)];
    match register
    case RegisterRaised(cause) =>
      Run(Err(RuntimeError(RegisterCall, REGISTER_FAILED_MESSAGE + cause)), post, files)
    case RegisterDecoded(id) =>
      if !Truthy(id) then
        Run(Err(RuntimeError(NoOperationId, CREDENTIAL_ISSUE_FAILED_MESSAGE)), post, files)
      else
        var url := PollUrl(id.value);
        var n := FirstNonPending(polls, 0);
        if n == RETRY_LIMIT then
          Run(Err(RuntimeError(RetryLimit, RETRIES_EXHAUSTED_MESSAGE)), post + PollRounds(url, n), files)
        else
          var trace := post + PollRounds(url, n) + [Get(url, REQUESTS_TIMEOUT_SEC)];
          match polls[n]
          case PollRaised(cause) =>
            Run(Err(RuntimeError(StatusCall, STATUS_FAILED_MESSAGE + cause)), trace, files)
          case PollDecoded(info) =>
            var persisted := Persist(certificatePath, privateKeyPath, info, files);
            Run(persisted.0, trace, persisted.1)
  }

  /** FirstNonPending is pinned down by its contract: a pending prefix of length k that is
      followed by a non-pending reply (or by the limit) makes it k. */
  lemma FirstNonPendingIs(polls: seq<PollReply>, k: nat)
    requires k <= RETRY_LIMIT <= |polls|
    requires forall j :: 0 <= j < k ==> Pending(polls[j])
    requires k < RETRY_LIMIT ==> !Pending(polls[k])
    ensures FirstNonPending(polls, 0) == k
  {
  }

  // ---------------------------------------------------------------------------
  // The environment: filesystem, network and clock
  // ---------------------------------------------------------------------------

  class Environment {
    /** Regular files and their contents. */
    var files: map<Path, string>
    /** Existing directories. */
    var dirs: set<Path>
    /** Every network call and sleep, in order. */
    var trace: seq<Event>

    constructor (files: map<Path, string>, dirs: set<Path>)
      ensures this.files == files && this.dirs == dirs && trace == []
    {
      this.files := files;
      this.dirs := dirs;
      this.trace := [];
    }

    /** Whether a path names an existing file or directory; the empty path never does. */
    predicate Exists(path: Path)
      reads this
    {
      path != "" && (path in dirs || path in files)
    }

    method HttpPost(url: string, timeoutSec: nat)
      modifies this`trace
      ensures trace == old(trace) + [Post(url, timeoutSec)]
    {
      trace := trace + [Post(url, timeoutSec)];
    }

    method HttpGet(url: string, timeoutSec: nat)
      modifies this`trace
      ensures trace == old(trace) + [Get(url, timeoutSec)]
    {
      trace := trace + [Get(url, timeoutSec)];
    }

    method SleepFor(seconds: nat)
      modifies this`trace
      ensures trace == old(trace) + [Sleep(seconds)]
    {
      trace := trace + [Sleep(seconds)];
    }

    /** Opens a file for writing (creating or truncating it) and writes `content` into it;
        an absent content makes the write raise, leaving the file empty. */
    method Write(path: Path, content: Option<string>) returns (ok: bool)
      modifies this`files
      ensures ok <==> content.Some?
      ensures files == old(files)[path := Written(content)]
    {
      files := files[path := ""];
      match content
      case Some(s) =>
        files := files[path := s];
        ok := true;
      case None =>
        ok := false;
    }
  }

  // ---------------------------------------------------------------------------
  // The client
  // ---------------------------------------------------------------------------

  class SoracomKryptonAzureIoTProvisioning {
    const azureDeviceCertificatePath: Path
    const azureDevicePrivateKeyPath: Path

    /** The object itself; the existence check that may reject the target path is Create. */
    constructor (env: Environment, targetPath: Path)
      requires env.Exists(targetPath)
      ensures azureDeviceCertificatePath == CertificatePath(targetPath)
      ensures azureDevicePrivateKeyPath == PrivateKeyPath(targetPath)
    {
      azureDeviceCertificatePath := CertificatePath(targetPath);
      azureDevicePrivateKeyPath := PrivateKeyPath(targetPath);
    }

    /** Construction: a ValueError exactly when the target path does not exist, otherwise a
        client whose credential paths are the two fixed names under the target path. */
    static method Create(env: Environment, targetPath: Path)
      returns (r: Result<SoracomKryptonAzureIoTProvisioning>)
      ensures r.Err? <==> !env.Exists(targetPath)
      ensures r.Err? ==> r.error == ValueError(PATH_DOES_NOT_EXIST_MESSAGE)
      ensures r.Ok? ==> r.value.azureDeviceCertificatePath == CertificatePath(targetPath)
      ensures r.Ok? ==> r.value.azureDevicePrivateKeyPath == PrivateKeyPath(targetPath)
    {
      if !env.Exists(targetPath) {
        return Err(ValueError(PATH_DOES_NOT_EXIST_MESSAGE));
      }
      var client := new SoracomKryptonAzureIoTProvisioning(env, targetPath);
      r := Ok(client);
    }

    /** Writes one credential to its file; false when the write raised. */
    method SaveCredentialToFile(env: Environment, fileName: Path, fileContent: Option<string>)
      returns (ok: bool)
      modifies env`files
      ensures ok <==> fileContent.Some?
      ensures env.files == old(env.files)[fileName := Written(fileContent)]
    {
      ok := env.Write(fileName, fileContent);
    }

    /** Register, poll and persist. `register` is the reply to the register call, and
        `polls[j]` the reply to the (j+1)-th status call. The result, the calls and sleeps
        made, and the filesystem afterwards are those of ProvisionRun. */
    method Provision(env: Environment, register: RegisterReply, polls: seq<PollReply>)
      returns (r: Result<ProvisionResult>)
      requires RETRY_LIMIT <= |polls|
      modifies env`files, env`trace
      ensures r == ProvisionRun(azureDeviceCertificatePath, azureDevicePrivateKeyPath,
                                register, polls, old(env.files)).result
      ensures env.trace == old(env.trace) + ProvisionRun(azureDeviceCertificatePath,
                azureDevicePrivateKeyPath, register, polls, old(env.files)).trace
      ensures env.files == ProvisionRun(azureDeviceCertificatePath, azureDevicePrivateKeyPath,
                                        register, polls, old(env.files)).files
    {
      var retryCount: nat := 0;
      var registerUrl := RegisterUrl();

      env.HttpPost(registerUrl, REQUESTS_TIMEOUT_SEC);
      var id: Option<string>;
      match register
      case RegisterRaised(cause) =>
        return Err(RuntimeError(RegisterCall, REGISTER_FAILED_MESSAGE + cause));
      case RegisterDecoded(operationId) =>
        id := operationId;

      if !Truthy(id) {
        return Err(RuntimeError(NoOperationId, CREDENTIAL_ISSUE_FAILED_MESSAGE));
      }

      var getResultUrl := PollUrl(id.value);
      ghost var start := old(env.trace) + [Post(registerUrl, REQUESTS_TIMEOUT_SEC)];
      var deviceProvisioningInfo: RegistrationInfo;

      while retryCount < RETRY_LIMIT
        invariant retryCount <= RETRY_LIMIT
        invariant forall j :: 0 <= j < retryCount ==> Pending(polls[j])
        invariant env.trace == start + PollRounds(getResultUrl, retryCount)
        invariant env.files == old(env.files)
      {
        env.HttpGet(getResultUrl, REQUESTS_TIMEOUT_SEC);
        match polls[retryCount]
        case PollRaised(cause) =>
          FirstNonPendingIs(polls, retryCount);
          return Err(RuntimeError(StatusCall, STATUS_FAILED_MESSAGE + cause));
        case PollDecoded(info) =>
          deviceProvisioningInfo := info;

        if deviceProvisioningInfo.status == Some(ASSIGNED) {
          FirstNonPendingIs(polls, retryCount);
          break;
        }

        retryCount := retryCount + 1;
        env.SleepFor(POLL_INTERVAL_SEC);
      }

      if retryCount == RETRY_LIMIT {
        FirstNonPendingIs(polls, retryCount);
        return Err(RuntimeError(RetryLimit, RETRIES_EXHAUSTED_MESSAGE));
      }

      var certificateSaved := SaveCredentialToFile(env, azureDeviceCertificatePath,
                                                   deviceProvisioningInfo.certificate);
      if !certificateSaved {
        return Err(TypeError(WRITE_NONE_MESSAGE));
      }
      var privateKeySaved := SaveCredentialToFile(env, azureDevicePrivateKeyPath,
                                                  deviceProvisioningInfo.privateKey);
      if !privateKeySaved {
        return Err(TypeError(WRITE_NONE_MESSAGE));
      }

      r := Ok(ProvisionResult(deviceProvisioningInfo.host, deviceProvisioningInfo.deviceId,
                              azureDeviceCertificatePath, azureDevicePrivateKeyPath));
    }
  }
}
