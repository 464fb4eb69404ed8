/** The order workflow `handleNewOrder(order)`: fetch the token, download the
    user's file, upload it to object storage, fetch the cookie, submit the
    public URL for a deep check, and start polling when a job id comes back;
    on any thrown error, mark the order failed and refund its owner. */
module Workflow {
  import opened Js
  import opened Store
  import Credentials
  import Polling

  const StorageUploadBase: string :=
    "https://uvibhxfykplnajxopihb.supabase.co/storage/v1/object/files/d779c3f9-5c15-4e44-9e64-ed72afd12a28/"
  const StoragePublicBase: string :=
    "https://uvibhxfykplnajxopihb.supabase.co/storage/v1/object/public/"
  const InvalidKeyCode: string := "InvalidKey"
  const InvalidKeyMessage: string :=
    "Please make sure your filename is in full english and doesn't contain any unicode characters!"
  /** The TypeError message thrown by reading `order.userFile.url` when `userFile` is absent. */
  const MissingUserFileMessage: string := "Cannot read properties of undefined (reading 'url')"

  /** The network calls of the workflow whose results depend on what is sent. */
  datatype Services = Services(
    /** `axios.get(url)`: the file's bytes. */
    download: Value -> Result<seq<bv8>>,
    /** The storage upload: (upload URL, file name, bytes, authorization) to `response.data`. */
    upload: (string, string, seq<bv8>, string) -> Result<Fields>,
    /** The deep-check submission: (public file URL, cookie) to `response.data`. */
    deepCheck: (string, string) -> Result<Fields>)

  /** `order.userFile.filename || order.fileName || 'file'`. */
  function FileName(order: Order): (name: string)
    requires order.userFile.Some?
    ensures name != ""
    ensures order.userFile.value.filename.Some? && order.userFile.value.filename.value != "" ==>
              name == order.userFile.value.filename.value
    ensures !(order.userFile.value.filename.Some? && order.userFile.value.filename.value != "")
            && order.fileName.Some? && order.fileName.value != "" ==>
              name == order.fileName.value
    ensures !(order.userFile.value.filename.Some? && order.userFile.value.filename.value != "")
            && !(order.fileName.Some? && order.fileName.value != "") ==>
              name == "file"
  {
    var vs := [OfOption(order.userFile.value.filename), OfOption(order.fileName), Str("file")];
    var v := Or(vs);
    if Truthy(vs[0]) then
      OrFirstTruthy(vs, 0); Stringify(v)
    else if Truthy(vs[1]) then
      OrFirstTruthy(vs, 1); Stringify(v)
    else
      OrFirstTruthy(vs, 2); Stringify(v)
  }

  /** `response.data.Key || response.data.key || response.data.name || fileName`. */
  function StorageKey(data: Fields, fileName: string): (key: Value)
    requires fileName != ""
    ensures Truthy(key)
    ensures key in [Get(data, "Key"), Get(data, "key"), Get(data, "name"), Str(fileName)]
    ensures Truthy(Get(data, "Key")) ==> key == Get(data, "Key")
    ensures !Truthy(Get(data, "Key")) && Truthy(Get(data, "key")) ==> key == Get(data, "key")
    ensures !Truthy(Get(data, "Key")) && !Truthy(Get(data, "key")) && Truthy(Get(data, "name")) ==>
              key == Get(data, "name")
    ensures !Truthy(Get(data, "Key")) && !Truthy(Get(data, "key")) && !Truthy(Get(data, "name")) ==>
              key == Str(fileName)
  {
    var vs := [Get(data, "Key"), Get(data, "key"), Get(data, "name"), Str(fileName)];
    if Truthy(vs[0]) then OrFirstTruthy(vs, 0); Or(vs)
    else if Truthy(vs[1]) then OrFirstTruthy(vs, 1); Or(vs)
    else if Truthy(vs[2]) then OrFirstTruthy(vs, 2); Or(vs)
    else OrFirstTruthy(vs, 3); Or(vs)
  }

  /** The storage path the file is uploaded to. */
  function UploadUrl(fileName: string): string
  {
    StorageUploadBase + fileName
  }

  /** The public URL of an uploaded object. */
  function PublicUrl(key: Value): string
  {
    StoragePublicBase + Stringify(key)
  }

  /** `ryneResponse.data.history_id || ryneResponse.data.historyId || ryneResponse.data.id`. */
  function JobId(data: Fields): (id: Value)
    ensures id in [Get(data, "history_id"), Get(data, "historyId"), Get(data, "id")]
    ensures Truthy(id) <==> Truthy(Get(data, "history_id")) || Truthy(Get(data, "historyId")) || Truthy(Get(data, "id"))
    ensures Truthy(Get(data, "history_id")) ==> id == Get(data, "history_id")
    ensures !Truthy(Get(data, "history_id")) && Truthy(Get(data, "historyId")) ==> id == Get(data, "historyId")
  {
    var vs := [Get(data, "history_id"), Get(data, "historyId"), Get(data, "id")];
    if Truthy(vs[0]) then OrFirstTruthy(vs, 0); Or(vs)
    else if Truthy(vs[1]) then OrFirstTruthy(vs, 1); Or(vs)
    else if Truthy(vs[2]) then OrFirstTruthy(vs, 2); Or(vs)
    else OrAllFalsy(vs); Or(vs)
  }

  /** `error.response.data.error`, or `undefined` when there is no such object. */
  function ErrorCode(e: HttpError): Value
  {
    if e.responseData.Some? then Get(e.responseData.value, "error") else Undefined
  }

  /** The failure reason written to the order: the fixed filename message for an
      `InvalidKey` error, otherwise the response's error field when truthy,
      otherwise the error's message. */
  function FailureReason(e: HttpError): (reason: string)
    ensures ErrorCode(e) == Str(InvalidKeyCode) ==> reason == InvalidKeyMessage
    ensures ErrorCode(e) != Str(InvalidKeyCode) && Truthy(ErrorCode(e)) ==> reason == Stringify(ErrorCode(e))
    ensures !Truthy(ErrorCode(e)) ==> reason == e.message
  {
    var reason := Or([ErrorCode(e), Str(e.message)]);
    if ErrorCode(e) == Str(InvalidKeyCode) then InvalidKeyMessage
    else Stringify(reason)
  }

  /** How the try block of `handleNewOrder` ends: it throws, or it submits the
      file and reads back a job id (possibly a falsy one). */
  datatype Submission =
    | Thrown(error: HttpError)
    | Submitted(token: string, fileName: string, publicUrl: string, jobId: Value)

  /** How the try block ends once the file is uploaded and its public URL is
      known: a failed cookie fetch or deep check throws its error; otherwise the
      file is submitted with the job id read from the deep check's response. */
  predicate AfterUpload(s: Submission, token: string, fileName: string, publicUrl: string,
                        cookieText: Result<string>, svc: Services)
  {
    (cookieText.Err? ==> s == Thrown(cookieText.error))
    && (cookieText.Ok? ==>
          var checked := svc.deepCheck(publicUrl, Credentials.Sanitize(cookieText.value));
          (checked.Err? ==> s == Thrown(checked.error))
          && (checked.Ok? ==> s == Submitted(token, fileName, publicUrl, JobId(checked.value))))
  }

  /** The try block, given the raw token and cookie texts (or the errors their
      fetches threw) and the network services. */
  function Submit(order: Order, tokenText: Result<string>, cookieText: Result<string>, svc: Services)
    : (s: Submission)
    ensures tokenText.Err? ==> s == Thrown(tokenText.error)
    ensures tokenText.Ok? && order.userFile.None? ==> s == Thrown(HttpError(MissingUserFileMessage, None))
    ensures tokenText.Ok? && order.userFile.Some? && svc.download(OfOption(order.userFile.value.url)).Err? ==>
              s == Thrown(svc.download(OfOption(order.userFile.value.url)).error)
    ensures tokenText.Ok? && order.userFile.Some? && svc.download(OfOption(order.userFile.value.url)).Ok? ==>
              var token := Credentials.Sanitize(tokenText.value);
              var fileName := FileName(order);
              var bytes := svc.download(OfOption(order.userFile.value.url)).value;
              var uploaded := svc.upload(UploadUrl(fileName), fileName, bytes, token);
              (uploaded.Err? ==> s == Thrown(uploaded.error))
              && (uploaded.Ok? ==>
                    AfterUpload(s, token, fileName, PublicUrl(StorageKey(uploaded.value, fileName)), cookieText, svc))
    ensures s.Submitted? ==>
              tokenText.Ok? && cookieText.Ok? && order.userFile.Some?
              && s.token == Credentials.Sanitize(tokenText.value) && s.fileName == FileName(order)
              && svc.deepCheck(s.publicUrl, Credentials.Sanitize(cookieText.value)).Ok?
              && s.jobId == JobId(svc.deepCheck(s.publicUrl, Credentials.Sanitize(cookieText.value)).value)
  {
    match tokenText
    case Err(e) => Thrown(e)
    case Ok(rawToken) => Transfer(order, Credentials.Sanitize(rawToken), cookieText, svc)
  }

  /** From the file download on, with the sanitised token. */
  function Transfer(order: Order, token: string, cookieText: Result<string>, svc: Services): (s: Submission)
    ensures order.userFile.None? ==> s == Thrown(HttpError(MissingUserFileMessage, None))
    ensures order.userFile.Some? && svc.download(OfOption(order.userFile.value.url)).Err? ==>
              s == Thrown(svc.download(OfOption(order.userFile.value.url)).error)
    ensures order.userFile.Some? && svc.download(OfOption(order.userFile.value.url)).Ok? ==>
              var fileName := FileName(order);
              var bytes := svc.download(OfOption(order.userFile.value.url)).value;
              var uploaded := svc.upload(UploadUrl(fileName), fileName, bytes, token);
              (uploaded.Err? ==> s == Thrown(uploaded.error))
              && (uploaded.Ok? ==>
                    AfterUpload(s, token, fileName, PublicUrl(StorageKey(uploaded.value, fileName)), cookieText, svc))
    ensures s.Submitted? ==>
              cookieText.Ok? && order.userFile.Some? && s.token == token && s.fileName == FileName(order)
              && svc.deepCheck(s.publicUrl, Credentials.Sanitize(cookieText.value)).Ok?
              && s.jobId == JobId(svc.deepCheck(s.publicUrl, Credentials.Sanitize(cookieText.value)).value)
  {
    if order.userFile.None? then Thrown(HttpError(MissingUserFileMessage, None))
    else
      match svc.download(OfOption(order.userFile.value.url))
      case Err(e) => Thrown(e)
      case Ok(bytes) => Upload(FileName(order), bytes, token, cookieText, svc)
  }

  /** From the storage upload on. */
  function Upload(fileName: string, bytes: seq<bv8>, token: string, cookieText: Result<string>, svc: Services)
    : (s: Submission)
    requires fileName != ""
    ensures svc.upload(UploadUrl(fileName), fileName, bytes, token).Err? ==>
              s == Thrown(svc.upload(UploadUrl(fileName), fileName, bytes, token).error)
    ensures svc.upload(UploadUrl(fileName), fileName, bytes, token).Ok? ==>
              var data := svc.upload(UploadUrl(fileName), fileName, bytes, token).value;
              AfterUpload(s, token, fileName, PublicUrl(StorageKey(data, fileName)), cookieText, svc)
    ensures s.Submitted? ==>
              cookieText.Ok? && s.token == token && s.fileName == fileName
              && svc.upload(UploadUrl(fileName), fileName, bytes, token).Ok?
              && s.publicUrl == PublicUrl(StorageKey(svc.upload(UploadUrl(fileName), fileName, bytes, token).value, fileName))
              && svc.deepCheck(s.publicUrl, Credentials.Sanitize(cookieText.value)).Ok?
              && s.jobId == JobId(svc.deepCheck(s.publicUrl, Credentials.Sanitize(cookieText.value)).value)
  {
    match svc.upload(UploadUrl(fileName), fileName, bytes, token)
    case Err(e) => Thrown(e)
    case Ok(data) => DeepCheck(token, fileName, PublicUrl(StorageKey(data, fileName)), cookieText, svc)
  }

  /** From the cookie fetch on. */
  function DeepCheck(token: string, fileName: string, publicUrl: string, cookieText: Result<string>, svc: Services)
    : (s: Submission)
    ensures cookieText.Err? ==> s == Thrown(cookieText.error)
    ensures cookieText.Ok? && svc.deepCheck(publicUrl, Credentials.Sanitize(cookieText.value)).Err? ==>
              s == Thrown(svc.deepCheck(publicUrl, Credentials.Sanitize(cookieText.value)).error)
    ensures cookieText.Ok? && svc.deepCheck(publicUrl, Credentials.Sanitize(cookieText.value)).Ok? ==>
              s == Submitted(token, fileName, publicUrl,
                             JobId(svc.deepCheck(publicUrl, Credentials.Sanitize(cookieText.value)).value))
    ensures s.Submitted? ==>
              cookieText.Ok? && s.token == token && s.fileName == fileName && s.publicUrl == publicUrl
              && svc.deepCheck(publicUrl, Credentials.Sanitize(cookieText.value)).Ok?
              && s.jobId == JobId(svc.deepCheck(publicUrl, Credentials.Sanitize(cookieText.value)).value)
  {
    match cookieText
    case Err(e) => Thrown(e)
    case Ok(rawCookie) =>
      match svc.deepCheck(publicUrl, Credentials.Sanitize(rawCookie))
      case Err(e) => Thrown(e)
      case Ok(response) => Submitted(token, fileName, publicUrl, JobId(response))
  }

  /** What `handleNewOrder` does once the try block has ended. */
  datatype Decision = StartPolling(jobId: Value, token: string) | NoJob | FailOrder(reason: string)

  function Decide(s: Submission): (d: Decision)
    ensures d.StartPolling? <==> s.Submitted? && Truthy(s.jobId)
    ensures d.StartPolling? ==> d.jobId == s.jobId && d.token == s.token
    ensures d.FailOrder? <==> s.Thrown?
    ensures d.FailOrder? ==> d.reason == FailureReason(s.error)
  {
    match s
    case Thrown(e) => FailOrder(FailureReason(e))
    case Submitted(token, _, _, jobId) => if Truthy(jobId) then StartPolling(jobId, token) else NoJob
  }

  /** Polling starts only with a truthy job id, and with the token the upload
      was authenticated with; a missing job id leaves the order untouched. */
  lemma PollingNeedsJobId(order: Order, tokenText: Result<string>, cookieText: Result<string>, svc: Services)
    ensures var s := Submit(order, tokenText, cookieText, svc);
      var d := Decide(s);
      (d.StartPolling? ==> tokenText.Ok? && d.token == Credentials.Sanitize(tokenText.value)
                           && Truthy(d.jobId))
      && (s.Submitted? && !Truthy(s.jobId) ==> d == NoJob)
  {
    var s := Submit(order, tokenText, cookieText, svc);
    if s.Submitted? {
      assert tokenText.Ok? && s.token == Credentials.Sanitize(tokenText.value);
    }
  }

  /** The try block as the source runs it, step by step. */
  method TrySubmit(order: Order, tokenText: Result<string>, cookieText: Result<string>, svc: Services)
    returns (s: Submission)
    ensures s == Submit(order, tokenText, cookieText, svc)
  {
    if tokenText.Err? {
      return Thrown(tokenText.error);
    }
    var token := Credentials.Sanitize(tokenText.value);
    assert Submit(order, tokenText, cookieText, svc) == Transfer(order, token, cookieText, svc);
    if order.userFile.None? {
      return Thrown(HttpError(MissingUserFileMessage, None));
    }
    var fileResponse := svc.download(OfOption(order.userFile.value.url));
    if fileResponse.Err? {
      return Thrown(fileResponse.error);
    }
    var fileName := FileName(order);
    assert Transfer(order, token, cookieText, svc) == Upload(fileName, fileResponse.value, token, cookieText, svc);
    var response := svc.upload(UploadUrl(fileName), fileName, fileResponse.value, token);
    if response.Err? {
      return Thrown(response.error);
    }
    var key := StorageKey(response.value, fileName);
    var publicFileUrl := PublicUrl(key);
    assert Upload(fileName, fileResponse.value, token, cookieText, svc)
      == DeepCheck(token, fileName, publicFileUrl, cookieText, svc);
    if cookieText.Err? {
      return Thrown(cookieText.error);
    }
    var cookie := Credentials.Sanitize(cookieText.value);
    var ryneResponse := svc.deepCheck(publicFileUrl, cookie);
    if ryneResponse.Err? {
      return Thrown(ryneResponse.error);
    }
    s := Submitted(token, fileName, publicFileUrl, JobId(ryneResponse.value));
  }

  /** `handleNewOrder(order)` for the inserted document `order` with id `id`,
      at time `now`: returns the poll task it starts, if any. On a thrown error
      the order is marked failed and its owner, read from the updated stored
      document rather than from the event's snapshot, is refunded. */
  method HandleNewOrder(id: OrderId, order: Order, tokenText: Result<string>, cookieText: Result<string>,
                        svc: Services, now: int, store: Datastore, writeOk: bool, refundOk: bool)
    returns (task: Polling.PollTask?)
    modifies store
    ensures var d := Decide(Submit(order, tokenText, cookieText, svc));
      (d.StartPolling? ==>
         task != null && fresh(task) && task.jobId == d.jobId && task.token == d.token
         && task.orderId == id && task.startedAt == now && !task.cancelled
         && store.State() == old(store.State()))
      && (d.NoJob? ==> task == null && store.State() == old(store.State()))
      && (d.FailOrder? ==>
            task == null
            && store.State() == Finalized(old(store.State()), id, MarkFailed(d.reason), writeOk, refundOk))
  {
    var s := TrySubmit(order, tokenText, cookieText, svc);
    task := null;
    match s
    case Submitted(token, _, _, historyId) =>
      if Truthy(historyId) {
        task := new Polling.PollTask(historyId, token, id, now);
      }
    case Thrown(error) =>
      var reason := FailureReason(error);
      store.Finalize(id, MarkFailed(reason), writeOk, refundOk);
  }

  /** An order paid from "regular" whose storage upload is rejected with
      `InvalidKey` ends failed with the filename message, and its owner gets one
      check back. */
  lemma InvalidKeyScenario(db: Db, id: OrderId, order: Order, tokenText: Result<string>,
                           cookieText: Result<string>, svc: Services)
    requires id in db.orders && db.orders[id].user.Some? && db.orders[id].user.value in db.users
    requires db.orders[id].paymentSource == Some(Regular)
    requires tokenText.Ok? && order.userFile.Some?
    requires svc.download(OfOption(order.userFile.value.url)).Ok?
    requires var fileName := FileName(order);
      var bytes := svc.download(OfOption(order.userFile.value.url)).value;
      var token := Credentials.Sanitize(tokenText.value);
      exists message, data ::
        svc.upload(UploadUrl(fileName), fileName, bytes, token)
          == Err(HttpError(message, Some(data))) && Get(data, "error") == Str(InvalidKeyCode)
    ensures var d := Decide(Submit(order, tokenText, cookieText, svc));
      var owner := db.orders[id].user.value;
      var r := Finalized(db, id, MarkFailed(InvalidKeyMessage), true, true);
      d == FailOrder(InvalidKeyMessage)
      && r.orders[id].status == "failed" && r.orders[id].failureReason == Some(InvalidKeyMessage)
      && r.users[owner].checks == db.users[owner].checks + 1
  {
    var fileName := FileName(order);
    var bytes := svc.download(OfOption(order.userFile.value.url)).value;
    var token := Credentials.Sanitize(tokenText.value);
    var message, data :| svc.upload(UploadUrl(fileName), fileName, bytes, token)
        == Err(HttpError(message, Some(data))) && Get(data, "error") == Str(InvalidKeyCode);
    var e := HttpError(message, Some(data));
    assert Upload(fileName, bytes, token, cookieText, svc) == Thrown(e);
    assert Transfer(order, token, cookieText, svc) == Upload(fileName, bytes, token, cookieText, svc);
    assert Submit(order, tokenText, cookieText, svc) == Transfer(order, token, cookieText, svc);
    assert ErrorCode(e) == Str(InvalidKeyCode);
    FailedRegularRefundsOneCheck(db, id, InvalidKeyMessage);
  }
}
