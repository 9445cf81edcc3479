/**
 * The operation dispatcher (Providers/AzureFilesServiceOperationProvider.cs):
 * the table of registered operation ids, parameter extraction from the
 * case-insensitive request dictionary, the switch that calls the Azure Files
 * facade, the catch ladder that turns exceptions into provider errors, and the
 * FTP reply-code classifier.
 *
 * The facade is abstract here: a record of what each facade call returns for
 * the arguments the dispatcher passes it.
 */
module OperationProvider {
  import opened Wrappers
  import opened Exceptions
  import opened Text
  import opened AzureFilesCore

  // ---------------------------------------------------------------------------
  // Operation ids

  const ServiceOperationTrigger := "AzureFilesTrigger"
  const ServiceOperationGetFile := "AzureFilesGetFile"
  const ServiceOperationListFile := "AzureFilesList"
  const ServiceOperationUploadFile := "AzureFilesUploadFile"
  const ServiceOperationDeleteFile := "AzureFilesDeleteFile"
  const ServiceOperationCopyFileToBlob := "AzureFilesCopyFileToBlob"

  /** The ids the constructor registers, in registration order (the trigger is commented out there). */
  const RegisteredOperationIds: seq<string> :=
    [ServiceOperationListFile, ServiceOperationGetFile, ServiceOperationUploadFile,
     ServiceOperationDeleteFile, ServiceOperationCopyFileToBlob]

  /** The ids the switch in InvokeOperation has a case for (compared ordinally). */
  const DispatchedOperationIds: set<string> :=
    {ServiceOperationTrigger, ServiceOperationListFile, ServiceOperationGetFile, ServiceOperationCopyFileToBlob}

  // ---------------------------------------------------------------------------
  // Case-insensitive dictionary

  predicate IsFolded(key: string) {
    Fold(key) == key
  }

  /** A dictionary whose keys compare without regard to case: each entry is stored under its folded key. */
  type InsensitiveDictionary<V> = m: map<string, V> | forall k :: k in m ==> IsFolded(k) witness map[]

  function Lookup<V>(d: InsensitiveDictionary<V>, key: string): Option<V> {
    if Fold(key) in d then Some(d[Fold(key)]) else None
  }

  /** The indexer's setter: afterwards `key`, in any case, finds `v`, and every other key finds what it found before. */
  function Put<V>(d: InsensitiveDictionary<V>, key: string, v: V): (r: InsensitiveDictionary<V>)
    ensures Lookup(r, key) == Some(v)
    ensures forall k :: !EqualsIgnoreCase(k, key) ==> Lookup(r, k) == Lookup(d, k)
  {
    FoldIdempotent(key);
    d[Fold(key) := v]
  }

  /** Keys that differ only in case find the same entry. */
  lemma LookupIgnoresCase<V>(d: InsensitiveDictionary<V>, a: string, b: string)
    requires EqualsIgnoreCase(a, b)
    ensures Lookup(d, a) == Lookup(d, b)
  {
  }

  /** GetValueOrDefault(key, defaultValue). */
  function GetValueOrDefault<V>(d: InsensitiveDictionary<V>, key: string, defaultValue: V): V {
    match Lookup(d, key)
    case Some(v) => v
    case None => defaultValue
  }

  // ---------------------------------------------------------------------------
  // Request parameters

  /** A parameter value as the host delivers it: a JSON string, boolean or null. */
  datatype Value = StringValue(s: string) | BoolValue(b: bool) | NullValue

  /** JValue.ToString(): the string itself, "True"/"False" for booleans, "" for null. */
  function ValueString(v: Value): string {
    match v
    case StringValue(s) => s
    case BoolValue(b) => if b then "True" else "False"
    case NullValue => ""
  }

  type Parameters = InsensitiveDictionary<Value>

  /** The message of the ApplicationException for a missing required parameter. */
  function UnableToRead(param: string): string {
    "Unable to read " + param
  }

  /** The required overload: an absent parameter throws "Unable to read <param>". */
  function GetParameter(parameters: Parameters, param: string): (r: Result<string, Exn>)
    ensures r.Success? <==> Lookup(parameters, param).Some?
    ensures r.Success? ==> r.value == ValueString(Lookup(parameters, param).value)
    ensures r.Failure? ==> r.error == ApplicationError(UnableToRead(param))
  {
    match Lookup(parameters, param)
    case Some(v) => Success(ValueString(v))
    case None => Failure(ApplicationError(UnableToRead(param)))
  }

  /**
   * The overload with a string default. The default becomes a non-null token,
   * so the overload's null check can never throw.
   */
  function GetParameterOr(parameters: Parameters, param: string, defaultVal: string): (r: string)
    ensures Lookup(parameters, param).None? ==> r == defaultVal
    ensures Lookup(parameters, param).Some? ==> r == ValueString(Lookup(parameters, param).value)
  {
    ValueString(GetValueOrDefault(parameters, param, StringValue(defaultVal)))
  }

  /** The overload with a boolean default: an absent parameter reads as "True" or "False". */
  function GetParameterOrBool(parameters: Parameters, param: string, defaultVal: bool): (r: string)
    ensures Lookup(parameters, param).None? ==> r == (if defaultVal then "True" else "False")
    ensures Lookup(parameters, param).Some? ==> r == ValueString(Lookup(parameters, param).value)
  {
    ValueString(GetValueOrDefault(parameters, param, BoolValue(defaultVal)))
  }

  /** The fileshare value the dispatcher starts from: "" when the parameter is absent. */
  function FileShareOf(parameters: Parameters): string {
    match Lookup(parameters, "fileshare")
    case Some(v) => ValueString(v)
    case None => ""
  }

  // ---------------------------------------------------------------------------
  // bool.TryParse and the overwrite flag

  predicate IsTrueString(s: string) {
    |s| == 4 && Fold(s) == "true"
  }

  predicate IsFalseString(s: string) {
    |s| == 5 && Fold(s) == "false"
  }

  /**
   * bool.TryParse: "true" or "false" in any ASCII case, first as given and then
   * with whitespace and NUL trimmed from both ends; None when neither matches.
   */
  function TryParseBool(s: string): Option<bool> {
    if IsTrueString(s) then Some(true)
    else if IsFalseString(s) then Some(false)
    else
      var t := Trim(s, IsWhiteSpaceOrNull);
      if IsTrueString(t) then Some(true)
      else if IsFalseString(t) then Some(false)
      else None
  }

  /** `bool overwrite = true; bool.TryParse(s, out overwrite);` — TryParse stores false when it fails. */
  function ParseOverwrite(overwriteString: string): bool {
    match TryParseBool(overwriteString)
    case Some(b) => b
    case None => false
  }

  /** The overwrite flag CopyFileToBlob passes to the facade. */
  function OverwriteFlag(parameters: Parameters): bool {
    ParseOverwrite(GetParameterOrBool(parameters, "overwrite", true))
  }

  /** TryParse only ever looks at the trimmed string. */
  lemma TryParseBoolSeesTrimmed(s: string)
    ensures TryParseBool(s) ==
      (var t := Trim(s, IsWhiteSpaceOrNull);
       if IsTrueString(t) then Some(true) else if IsFalseString(t) then Some(false) else None)
  {
    if IsTrueString(s) || IsFalseString(s) {
      assert !IsWhiteSpaceOrNull(Fold(s)[0]) && !IsWhiteSpaceOrNull(Fold(s)[|s| - 1]);
      assert !IsWhiteSpaceOrNull(s[0]) && !IsWhiteSpaceOrNull(s[|s| - 1]);
      TrimKeepsTrimmed(s, IsWhiteSpaceOrNull);
    }
  }

  lemma FoldBooleanLiterals()
    ensures Fold("True") == "true" && Fold("False") == "false" && Fold("true") == "true"
  {
    assert Fold("True")[0] == 't';
    assert Fold("False")[0] == 'f';
  }

  /** A string parses to true exactly when, trimmed, it is "true" in some ASCII case; otherwise overwrite is false. */
  lemma ParseOverwriteTrueIff(s: string)
    ensures ParseOverwrite(s) <==> EqualsIgnoreCase(Trim(s, IsWhiteSpaceOrNull), "true")
  {
    TryParseBoolSeesTrimmed(s);
    FoldBooleanLiterals();
    var t := Trim(s, IsWhiteSpaceOrNull);
    if EqualsIgnoreCase(t, "true") {
      assert |t| == |Fold(t)| == 4;
    }
  }

  /**
   * What `overwrite` becomes: true when the parameter is absent, a boolean's own
   * value, false for null, and for a string true exactly when, trimmed, it is
   * "true" in some case. Every other string, however malformed, gives false.
   */
  lemma OverwriteFlagCases(parameters: Parameters)
    ensures Lookup(parameters, "overwrite").None? ==> OverwriteFlag(parameters)
    ensures Lookup(parameters, "overwrite") == Some(NullValue) ==> !OverwriteFlag(parameters)
    ensures forall b :: Lookup(parameters, "overwrite") == Some(BoolValue(b)) ==> OverwriteFlag(parameters) == b
    ensures forall s :: Lookup(parameters, "overwrite") == Some(StringValue(s)) ==>
      (OverwriteFlag(parameters) <==> EqualsIgnoreCase(Trim(s, IsWhiteSpaceOrNull), "true"))
  {
    var text := GetParameterOrBool(parameters, "overwrite", true);
    FoldBooleanLiterals();
    var found: Option<Value> := Lookup(parameters, "overwrite");
    match found
    case None =>
      assert text == "True" && IsTrueString(text);
    case Some(NullValue) =>
      assert text == "";
      ParseOverwriteTrueIff(text);
      assert !EqualsIgnoreCase(Trim(text, IsWhiteSpaceOrNull), "true");
    case Some(BoolValue(b)) =>
      if b {
        assert text == "True" && IsTrueString(text);
      } else {
        assert text == "False" && IsFalseString(text);
      }
    case Some(StringValue(s)) =>
      assert text == s;
      ParseOverwriteTrueIff(s);
  }

  /** Whitespace or NUL around the overwrite string does not change the flag. */
  lemma ParseOverwriteIgnoresSurrounding(ws1: string, s: string, ws2: string)
    requires AllSatisfy(ws1, IsWhiteSpaceOrNull) && AllSatisfy(ws2, IsWhiteSpaceOrNull)
    ensures ParseOverwrite(ws1 + s + ws2) == ParseOverwrite(s)
  {
    TryParseBoolSeesTrimmed(ws1 + s + ws2);
    TryParseBoolSeesTrimmed(s);
    TrimIgnoresSurrounding(ws1, s, ws2, IsWhiteSpaceOrNull);
  }

  // ---------------------------------------------------------------------------
  // Facade calls, responses and provider errors

  datatype ListArgs = ListArgs(connectionString: string, fileShareName: string, fileSourceDir: string, prefixFilter: string)
  datatype DownloadArgs = DownloadArgs(connectionString: string, fileShareName: string, fileSourcePath: string, fileSourceName: string)
  datatype CopyArgs = CopyArgs(connectionString: string, fileShareName: string, fileSourcePath: string, fileSourceName: string,
                               destBlobConn: string, destBlobPath: string, overwrite: bool)

  /** What each facade method's task ends with, for the arguments it is given. */
  datatype Facade = Facade(
    listShare: ListArgs -> Result<FileDefinitionList, Exn>,
    downloadFile: DownloadArgs -> Result<string, Exn>,
    copyFileToBlob: CopyArgs -> Result<bool, Exn>)

  /**
   * The exception GetBindingConnectionParameter lets through when the host's
   * GetRequiredParameterValue rejects the connection parameters: its message
   * and its inner exception.
   */
  datatype HostFailure = HostFailure(message: string, inner: Option<Exn>)

  /** The JSON token made from the facade's result. */
  datatype Payload = ListBody(list: FileDefinitionList) | TextBody(text: string) | BoolBody(flag: bool)

  const OK := 200
  const NotFound := 404
  const Conflict := 409
  const InternalServerError := 500
  const ServiceUnavailable := 503

  datatype ServiceOperationResponse = ServiceOperationResponse(body: Payload, status: int)

  datatype ErrorCode = ServiceOperationFailed

  datatype ServiceOperationsProviderException = ServiceOperationsProviderException(
    httpStatus: int, errorCode: ErrorCode, errorMessage: string, innerException: Option<Exn>)

  /**
   * How the dispatcher waits for a facade task: `BlockingResult` is `Task.Result`,
   * as the code does it, which wraps the task's exception in an
   * AggregateException; `Unwrapped` rethrows the task's own exception, as
   * awaiting it or `GetAwaiter().GetResult()` would.
   */
  datatype Awaiting = BlockingResult | Unwrapped

  function Await<T>(outcome: Result<T, Exn>, awaiting: Awaiting): (r: Result<T, Exn>)
    ensures outcome.Success? ==> r == outcome
    ensures outcome.Failure? ==> r.Failure?
    ensures outcome.Failure? && awaiting == BlockingResult ==> r == Failure(Wrap(outcome.error))
    ensures awaiting == Unwrapped ==> r == outcome
  {
    match outcome
    case Success(_) => outcome
    case Failure(e) => if awaiting == BlockingResult then Failure(Wrap(e)) else outcome
  }

  /**
   * The catch ladder: FileNotFoundException gives 404, FileExistsException 409,
   * any other exception 500; each keeps the exception's message and its inner
   * exception, under the error code ServiceOperationFailed.
   */
  function CatchLadder(e: Exn): (r: ServiceOperationsProviderException)
    ensures r.errorCode == ServiceOperationFailed
    ensures r.errorMessage == e.message && r.innerException == e.inner
    ensures r.httpStatus == NotFound <==> e.kind == FileNotFound
    ensures r.httpStatus == Conflict <==> e.kind == FileExists
    ensures r.httpStatus in {NotFound, Conflict, InternalServerError}
  {
    var status := match e.kind
      case FileNotFound => NotFound
      case FileExists => Conflict
      case _ => InternalServerError;
    ServiceOperationsProviderException(status, ServiceOperationFailed, e.message, e.inner)
  }

  /** The Trigger and List cases: list `folder` under the prefix filter, both "" by default. */
  function ListBranch(parameters: Parameters, connectionString: string, share: string, facade: Facade, awaiting: Awaiting)
    : (r: Result<ServiceOperationResponse, Exn>)
    ensures r.Success? ==> r.value.status == OK
    ensures r.Failure? && awaiting == BlockingResult ==> r.error.kind == Application || r.error.kind == Wrapped
  {
    var prefixFilter := GetParameterOr(parameters, "prefixfilter", "");
    var folder := GetParameterOr(parameters, "folder", "");
    var fileList :- Await(facade.listShare(ListArgs(connectionString, share, folder, prefixFilter)), awaiting);
    Success(ServiceOperationResponse(ListBody(fileList), OK))
  }

  /** The GetFile case: `folder` defaults to "", `sourcefile` is required. */
  function GetFileBranch(parameters: Parameters, connectionString: string, share: string, facade: Facade, awaiting: Awaiting)
    : (r: Result<ServiceOperationResponse, Exn>)
    ensures r.Success? ==> r.value.status == OK
    ensures r.Failure? && awaiting == BlockingResult ==> r.error.kind == Application || r.error.kind == Wrapped
  {
    var shareFolder := GetParameterOr(parameters, "folder", "");
    var file :- GetParameter(parameters, "sourcefile");
    var content :- Await(facade.downloadFile(DownloadArgs(connectionString, share, shareFolder, file)), awaiting);
    Success(ServiceOperationResponse(TextBody(content), OK))
  }

  /**
   * The CopyFileToBlob case: `blobconnection` is checked first with its own
   * message, then `folder`, `sourcefile`, `blobconnection` and `blobfolder` are
   * required in that order, and `overwrite` is parsed from its string form.
   */
  function CopyBranch(parameters: Parameters, connectionString: string, share: string, facade: Facade, awaiting: Awaiting)
    : (r: Result<ServiceOperationResponse, Exn>)
    ensures r.Success? ==> r.value.status == OK
    ensures r.Failure? && awaiting == BlockingResult ==> r.error.kind == Application || r.error.kind == Wrapped
  {
    if Lookup(parameters, "blobconnection").None? then
      Failure(ApplicationError("Unable to read Storage Connection String"))
    else
      var copyShareFolder :- GetParameter(parameters, "folder");
      var sourceFile :- GetParameter(parameters, "sourcefile");
      // present, as checked above, so this read cannot fail
      var blobConnection := GetParameter(parameters, "blobconnection").value;
      var blobFolder :- GetParameter(parameters, "blobfolder");
      var overwrite := ParseOverwrite(GetParameterOrBool(parameters, "overwrite", true));
      var copied :- Await(facade.copyFileToBlob(
        CopyArgs(connectionString, share, copyShareFolder, sourceFile, blobConnection, blobFolder, overwrite)), awaiting);
      Success(ServiceOperationResponse(BoolBody(copied), OK))
  }

  /** The labels of the switch on the operation id. */
  datatype SwitchCase = TriggerCase | ListCase | GetFileCase | CopyCase | DefaultCase

  /** The case the switch takes: ids are compared ordinally, so case matters. */
  function CaseOf(operationId: string): SwitchCase {
    if operationId == ServiceOperationTrigger then TriggerCase
    else if operationId == ServiceOperationListFile then ListCase
    else if operationId == ServiceOperationGetFile then GetFileCase
    else if operationId == ServiceOperationCopyFileToBlob then CopyCase
    else DefaultCase
  }

  /** Each dispatched id reaches its own case, and only the dispatched ids avoid the default. */
  lemma CaseOfDispatchedIds()
    ensures CaseOf(ServiceOperationTrigger) == TriggerCase
    ensures CaseOf(ServiceOperationListFile) == ListCase
    ensures CaseOf(ServiceOperationGetFile) == GetFileCase
    ensures CaseOf(ServiceOperationCopyFileToBlob) == CopyCase
    ensures forall id :: CaseOf(id) == DefaultCase <==> id !in DispatchedOperationIds
  {
    assert ServiceOperationListFile[10] == 'L' && ServiceOperationGetFile[10] == 'G';
    assert ServiceOperationCopyFileToBlob[10] == 'C' && ServiceOperationTrigger[10] == 'T';
  }

  /**
   * The body of the try block: the fileshare check, the connection-string
   * lookup (done by the host; `connection` is its value or the message of the
   * exception it raised), then the switch on the operation id.
   */
  function TryBlock(operationId: string, parameters: Parameters, connection: Result<string, HostFailure>,
                    facade: Facade, awaiting: Awaiting): Result<ServiceOperationResponse, Exn>
  {
    var share := FileShareOf(parameters);
    if share == "" then Failure(ApplicationError("File Share"))
    else if connection.Failure? then Failure(Exn(Host, connection.error.message, connection.error.inner))
    else
      var connectionString := connection.value;
      match CaseOf(operationId)
      case TriggerCase => ListBranch(parameters, connectionString, share, facade, awaiting)
      case ListCase => ListBranch(parameters, connectionString, share, facade, awaiting)
      case GetFileCase => GetFileBranch(parameters, connectionString, share, facade, awaiting)
      case CopyCase => CopyBranch(parameters, connectionString, share, facade, awaiting)
      case DefaultCase => Failure(Exn(NotImplemented, NotImplementedMessage, None))
  }

  /**
   * InvokeOperation with a chosen way of awaiting the facade: a success has
   * status 200; a failure has gone through the catch ladder.
   */
  function Invoke(operationId: string, parameters: Parameters, connection: Result<string, HostFailure>,
                  facade: Facade, awaiting: Awaiting): (r: Result<ServiceOperationResponse, ServiceOperationsProviderException>)
    ensures r.Success? ==> r.value.status == OK
    ensures r.Failure? ==> r.error.errorCode == ServiceOperationFailed && r.error.httpStatus in {NotFound, Conflict, InternalServerError}
  {
    match TryBlock(operationId, parameters, connection, facade, awaiting)
    case Success(response) => Success(response)
    case Failure(e) => Failure(CatchLadder(e))
  }

  /** InvokeOperation as written: facade tasks are read with `.Result`. */
  function InvokeOperation(operationId: string, parameters: Parameters, connection: Result<string, HostFailure>, facade: Facade)
    : Result<ServiceOperationResponse, ServiceOperationsProviderException>
  {
    Invoke(operationId, parameters, connection, facade, BlockingResult)
  }

  /** InvokeOperation with the facade's exceptions rethrown unwrapped, so the catch ladder sees them. */
  function InvokeOperationUnwrapped(operationId: string, parameters: Parameters, connection: Result<string, HostFailure>, facade: Facade)
    : Result<ServiceOperationResponse, ServiceOperationsProviderException>
  {
    Invoke(operationId, parameters, connection, facade, Unwrapped)
  }

  // ---------------------------------------------------------------------------
  // Properties of the dispatcher

  function Failed(status: int, message: string): ServiceOperationsProviderException {
    ServiceOperationsProviderException(status, ServiceOperationFailed, message, None)
  }

  /**
   * A missing or empty fileshare fails with "File Share" and status 500 for every
   * operation id, whatever the other parameters, the connection or the facade.
   */
  lemma MissingFileShareFailsFirst(operationId: string, parameters: Parameters, connection: Result<string, HostFailure>,
                                   facade: Facade, awaiting: Awaiting)
    requires Lookup(parameters, "fileshare").None? || ValueString(Lookup(parameters, "fileshare").value) == ""
    ensures Invoke(operationId, parameters, connection, facade, awaiting) == Failure(Failed(InternalServerError, "File Share"))
  {
  }

  /**
   * An id without a case in the switch fails with NotImplementedException's
   * message and status 500 (not 501), without consulting the facade. This covers
   * the registered UploadFile and DeleteFile, and ids differing only in case.
   */
  lemma UndispatchedOperationFails(operationId: string, parameters: Parameters, connectionString: string,
                                   facade: Facade, awaiting: Awaiting)
    requires operationId !in DispatchedOperationIds
    requires FileShareOf(parameters) != ""
    ensures Invoke(operationId, parameters, Success(connectionString), facade, awaiting)
            == Failure(Failed(InternalServerError, NotImplementedMessage))
  {
    CaseOfDispatchedIds();
  }

  /** UploadFile and DeleteFile are registered but fall to the default case; Trigger is dispatched but not registered. */
  lemma RegisteredAndDispatchedDiffer()
    ensures ServiceOperationUploadFile in RegisteredOperationIds && ServiceOperationUploadFile !in DispatchedOperationIds
    ensures ServiceOperationDeleteFile in RegisteredOperationIds && ServiceOperationDeleteFile !in DispatchedOperationIds
    ensures ServiceOperationTrigger !in RegisteredOperationIds && ServiceOperationTrigger in DispatchedOperationIds
    ensures "azurefileslist" !in DispatchedOperationIds
    ensures Lookup(RegisteredApiOperations(), "azurefileslist") == Some(ServiceOperationListFile)
  {
    CaseOfDispatchedIds();
    RegisteredApiOperationsLookup();
    assert ServiceOperationTrigger != RegisteredOperationIds[0] && ServiceOperationTrigger != RegisteredOperationIds[1];
    assert ServiceOperationTrigger != RegisteredOperationIds[2] && ServiceOperationTrigger != RegisteredOperationIds[3];
    assert ServiceOperationTrigger != RegisteredOperationIds[4];
    assert "azurefileslist"[0] != ServiceOperationListFile[0];
    assert |"azurefileslist"| != |ServiceOperationTrigger| && |"azurefileslist"| != |ServiceOperationGetFile|;
    assert |"azurefileslist"| != |ServiceOperationCopyFileToBlob|;
    FoldListFileId();
    LookupIgnoresCase(RegisteredApiOperations(), "azurefileslist", ServiceOperationListFile);
  }

  /** The List id in lower case is its folded form. */
  lemma FoldListFileId()
    ensures Fold(ServiceOperationListFile) == "azurefileslist"
  {
    var f := Fold(ServiceOperationListFile);
    assert |f| == 14;
    assert f[0] == 'a' && f[5] == 'f' && f[10] == 'l';
  }

  /**
   * List and Trigger call ListShare with the share, `folder` and `prefixfilter`
   * ("" when absent) and answer its result with status 200.
   */
  lemma ListPassesArguments(operationId: string, parameters: Parameters, connectionString: string,
                            facade: Facade, awaiting: Awaiting)
    requires operationId == ServiceOperationListFile || operationId == ServiceOperationTrigger
    requires FileShareOf(parameters) != ""
    ensures var args := ListArgs(connectionString, FileShareOf(parameters),
                                 GetParameterOr(parameters, "folder", ""), GetParameterOr(parameters, "prefixfilter", ""));
      && (Lookup(parameters, "folder").None? ==> args.fileSourceDir == "")
      && (Lookup(parameters, "prefixfilter").None? ==> args.prefixFilter == "")
      && (facade.listShare(args).Success? ==>
            Invoke(operationId, parameters, Success(connectionString), facade, awaiting)
            == Success(ServiceOperationResponse(ListBody(facade.listShare(args).value), OK)))
  {
    CaseOfDispatchedIds();
  }

  /** GetFile needs `sourcefile`: without it the result is "Unable to read sourcefile" with status 500. */
  lemma GetFileRequiresSourceFile(parameters: Parameters, connectionString: string, facade: Facade, awaiting: Awaiting)
    requires FileShareOf(parameters) != "" && Lookup(parameters, "sourcefile").None?
    ensures Invoke(ServiceOperationGetFile, parameters, Success(connectionString), facade, awaiting)
            == Failure(Failed(InternalServerError, UnableToRead("sourcefile")))
  {
    CaseOfDispatchedIds();
  }

  /** GetFile calls DownloadFile with the share, `folder` ("" when absent) and `sourcefile`, and answers the content with 200. */
  lemma GetFilePassesArguments(parameters: Parameters, connectionString: string, facade: Facade, awaiting: Awaiting)
    requires FileShareOf(parameters) != "" && Lookup(parameters, "sourcefile").Some?
    ensures var args := DownloadArgs(connectionString, FileShareOf(parameters), GetParameterOr(parameters, "folder", ""),
                                     ValueString(Lookup(parameters, "sourcefile").value));
      && (Lookup(parameters, "folder").None? ==> args.fileSourcePath == "")
      && (facade.downloadFile(args).Success? ==>
            Invoke(ServiceOperationGetFile, parameters, Success(connectionString), facade, awaiting)
            == Success(ServiceOperationResponse(TextBody(facade.downloadFile(args).value), OK)))
  {
    CaseOfDispatchedIds();
  }

  /**
   * CopyFileToBlob fails with status 500 before calling the facade when a
   * required parameter is missing, naming the first one missing in the order
   * blobconnection, folder, sourcefile, blobfolder.
   */
  lemma CopyRequiresParameters(parameters: Parameters, connectionString: string, facade: Facade, awaiting: Awaiting)
    requires FileShareOf(parameters) != ""
    ensures var r := Invoke(ServiceOperationCopyFileToBlob, parameters, Success(connectionString), facade, awaiting);
      var blobConnection, folder, sourceFile, blobFolder :=
        Lookup(parameters, "blobconnection"), Lookup(parameters, "folder"),
        Lookup(parameters, "sourcefile"), Lookup(parameters, "blobfolder");
      && (blobConnection.None? ==> r == Failure(Failed(InternalServerError, "Unable to read Storage Connection String")))
      && (blobConnection.Some? && folder.None? ==> r == Failure(Failed(InternalServerError, UnableToRead("folder"))))
      && (blobConnection.Some? && folder.Some? && sourceFile.None? ==>
            r == Failure(Failed(InternalServerError, UnableToRead("sourcefile"))))
      && (blobConnection.Some? && folder.Some? && sourceFile.Some? && blobFolder.None? ==>
            r == Failure(Failed(InternalServerError, UnableToRead("blobfolder"))))
  {
    CaseOfDispatchedIds();
    var share := FileShareOf(parameters);
    assert TryBlock(ServiceOperationCopyFileToBlob, parameters, Success(connectionString), facade, awaiting)
           == CopyBranch(parameters, connectionString, share, facade, awaiting);
  }

  /**
   * With every required parameter present, CopyFileToBlob calls the facade with
   * their string forms and the parsed overwrite flag, and answers its result with 200.
   */
  lemma CopyPassesArguments(parameters: Parameters, connectionString: string, facade: Facade, awaiting: Awaiting)
    requires FileShareOf(parameters) != ""
    requires Lookup(parameters, "blobconnection").Some? && Lookup(parameters, "folder").Some?
    requires Lookup(parameters, "sourcefile").Some? && Lookup(parameters, "blobfolder").Some?
    ensures var args := CopyArgs(connectionString, FileShareOf(parameters),
                                 ValueString(Lookup(parameters, "folder").value),
                                 ValueString(Lookup(parameters, "sourcefile").value),
                                 ValueString(Lookup(parameters, "blobconnection").value),
                                 ValueString(Lookup(parameters, "blobfolder").value),
                                 OverwriteFlag(parameters));
      && (Lookup(parameters, "overwrite").None? ==> args.overwrite)
      && (facade.copyFileToBlob(args).Success? ==>
            Invoke(ServiceOperationCopyFileToBlob, parameters, Success(connectionString), facade, awaiting)
            == Success(ServiceOperationResponse(BoolBody(facade.copyFileToBlob(args).value), OK)))
  {
    CaseOfDispatchedIds();
    OverwriteFlagCases(parameters);
    var share := FileShareOf(parameters);
    assert TryBlock(ServiceOperationCopyFileToBlob, parameters, Success(connectionString), facade, awaiting)
        == CopyBranch(parameters, connectionString, share, facade, awaiting);
  }

  /**
   * As written, every failure of InvokeOperation has status 500: the exceptions
   * the dispatcher raises itself are neither FileNotFound nor FileExists, and a
   * facade exception reaches the catch ladder wrapped in an AggregateException.
   */
  lemma AsWrittenEveryFailureIs500(operationId: string, parameters: Parameters, connection: Result<string, HostFailure>, facade: Facade)
    ensures var r := InvokeOperation(operationId, parameters, connection, facade);
      r.Failure? ==> r.error.httpStatus == InternalServerError
  {
    CaseOfDispatchedIds();
  }

  /**
   * As written, a facade that reports a missing file (or an existing blob) gives
   * 500, with the AggregateException's message and the facade's exception as inner.
   */
  lemma AsWrittenFacadeErrorIs500(operationId: string, parameters: Parameters, connectionString: string, facade: Facade, e: Exn)
    requires FileShareOf(parameters) != "" && Lookup(parameters, "sourcefile").Some?
    requires operationId == ServiceOperationGetFile
    requires facade.downloadFile(DownloadArgs(connectionString, FileShareOf(parameters), GetParameterOr(parameters, "folder", ""),
                                              ValueString(Lookup(parameters, "sourcefile").value))) == Failure(e)
    ensures InvokeOperation(operationId, parameters, Success(connectionString), facade)
            == Failure(ServiceOperationsProviderException(InternalServerError, ServiceOperationFailed, Wrap(e).message, Some(e)))
  {
    CaseOfDispatchedIds();
  }

  /**
   * With the facade's exceptions unwrapped, they reach the catch ladder as
   * intended: a missing file gives 404, an existing blob 409, with the facade's
   * own message and inner exception.
   */
  lemma UnwrappedFacadeErrorsReachLadder(operationId: string, parameters: Parameters, connectionString: string, facade: Facade)
    requires operationId in DispatchedOperationIds && FileShareOf(parameters) != ""
    requires operationId == ServiceOperationGetFile ==> Lookup(parameters, "sourcefile").Some?
    requires operationId == ServiceOperationCopyFileToBlob ==>
      Lookup(parameters, "blobconnection").Some? && Lookup(parameters, "folder").Some?
      && Lookup(parameters, "sourcefile").Some? && Lookup(parameters, "blobfolder").Some?
    ensures var r := InvokeOperationUnwrapped(operationId, parameters, Success(connectionString), facade);
      var e := FacadeError(operationId, parameters, connectionString, facade);
      e.Some? ==> r == Failure(CatchLadder(e.value))
  {
    CaseOfDispatchedIds();
  }

  /**
   * A GetFile of a file that is not in the share: as written the answer is 500
   * with the AggregateException's message; with the exception unwrapped it is
   * 404 with the facade's "<share>/<file> not found".
   */
  lemma MissingFileStatus(parameters: Parameters, connectionString: string, facade: Facade)
    requires FileShareOf(parameters) != "" && Lookup(parameters, "sourcefile").Some?
    requires var file := ValueString(Lookup(parameters, "sourcefile").value);
      facade.downloadFile(DownloadArgs(connectionString, FileShareOf(parameters), GetParameterOr(parameters, "folder", ""), file))
      == Failure(SourceNotFound(FileShareOf(parameters), file))
    ensures var file := ValueString(Lookup(parameters, "sourcefile").value);
      var message := FileShareOf(parameters) + "/" + file + " not found";
      && InvokeOperation(ServiceOperationGetFile, parameters, Success(connectionString), facade)
         == Failure(ServiceOperationsProviderException(InternalServerError, ServiceOperationFailed,
                      AggregateBaseMessage + " (" + message + ")", Some(FileNotFoundError(message))))
      && InvokeOperationUnwrapped(ServiceOperationGetFile, parameters, Success(connectionString), facade)
         == Failure(Failed(NotFound, message))
  {
    CaseOfDispatchedIds();
  }

  /**
   * A CopyFileToBlob with `overwrite` false onto a blob that already exists:
   * as written the
   * answer is 500; with the exception unwrapped it is 409 with
   * "<container>/<file> already exists".
   */
  lemma ExistingBlobStatus(parameters: Parameters, connectionString: string, facade: Facade)
    requires FileShareOf(parameters) != ""
    requires Lookup(parameters, "blobconnection").Some? && Lookup(parameters, "folder").Some?
    requires Lookup(parameters, "sourcefile").Some? && Lookup(parameters, "blobfolder").Some?
    requires Lookup(parameters, "overwrite") == Some(BoolValue(false))
    requires var args := CopyArgs(connectionString, FileShareOf(parameters),
                                  ValueString(Lookup(parameters, "folder").value),
                                  ValueString(Lookup(parameters, "sourcefile").value),
                                  ValueString(Lookup(parameters, "blobconnection").value),
                                  ValueString(Lookup(parameters, "blobfolder").value),
                                  false);
      facade.copyFileToBlob(args)
      == Failure(TranslateCopyError(RequestFailedError(BlobAlreadyExists), args.destBlobPath, args.fileSourceName))
    ensures var message := ValueString(Lookup(parameters, "blobfolder").value) + "/"
                           + ValueString(Lookup(parameters, "sourcefile").value) + " already exists";
      var fileExists := Exn(FileExists, message, Some(RequestFailedError(BlobAlreadyExists)));
      && InvokeOperation(ServiceOperationCopyFileToBlob, parameters, Success(connectionString), facade)
         == Failure(ServiceOperationsProviderException(InternalServerError, ServiceOperationFailed,
                      AggregateBaseMessage + " (" + message + ")", Some(fileExists)))
      && InvokeOperationUnwrapped(ServiceOperationCopyFileToBlob, parameters, Success(connectionString), facade)
         == Failure(ServiceOperationsProviderException(Conflict, ServiceOperationFailed, message,
                                                       Some(RequestFailedError(BlobAlreadyExists))))
  {
    CaseOfDispatchedIds();
    FoldBooleanLiterals();
    assert GetParameterOrBool(parameters, "overwrite", true) == "False";
    assert !OverwriteFlag(parameters);
    var e := TranslateCopyError(RequestFailedError(BlobAlreadyExists), ValueString(Lookup(parameters, "blobfolder").value),
                                ValueString(Lookup(parameters, "sourcefile").value));
    var share := FileShareOf(parameters);
    assert CopyBranch(parameters, connectionString, share, facade, Unwrapped) == Failure(e);
    assert CopyBranch(parameters, connectionString, share, facade, BlockingResult) == Failure(Wrap(e));
  }

  /** The exception the facade call of a dispatched operation ends with, if any. */
  function FacadeError(operationId: string, parameters: Parameters, connectionString: string, facade: Facade): Option<Exn>
    requires operationId in DispatchedOperationIds
  {
    var share := FileShareOf(parameters);
    var folder := GetParameterOr(parameters, "folder", "");
    if operationId == ServiceOperationGetFile then
      var file := GetParameterOr(parameters, "sourcefile", "");
      var outcome := facade.downloadFile(DownloadArgs(connectionString, share, folder, file));
      if outcome.Failure? then Some(outcome.error) else None
    else if operationId == ServiceOperationCopyFileToBlob then
      var outcome := facade.copyFileToBlob(CopyArgs(connectionString, share,
        GetParameterOr(parameters, "folder", ""), GetParameterOr(parameters, "sourcefile", ""),
        GetParameterOr(parameters, "blobconnection", ""), GetParameterOr(parameters, "blobfolder", ""),
        OverwriteFlag(parameters)));
      if outcome.Failure? then Some(outcome.error) else None
    else
      var outcome := facade.listShare(ListArgs(connectionString, share, folder, GetParameterOr(parameters, "prefixfilter", "")));
      if outcome.Failure? then Some(outcome.error) else None
  }

  // ---------------------------------------------------------------------------
  // FTP reply codes

  /** Classifies an FTP reply code after trimming: "550" is 404, other 4xx codes 503, the rest 500. */
  function GetStatusCode(code: string): (r: int)
    ensures r in {NotFound, ServiceUnavailable, InternalServerError}
    ensures r == NotFound <==> StringTrim(code) == "550"
    ensures r == ServiceUnavailable <==> StartsWith(StringTrim(code), "4")
  {
    var trimmed := StringTrim(code);
    if trimmed == "550" then NotFound
    else if StartsWith(trimmed, "4") then ServiceUnavailable
    else InternalServerError
  }

  /** Whitespace around a reply code never changes its classification. */
  lemma GetStatusCodeIgnoresWhitespace(ws1: string, code: string, ws2: string)
    requires AllSatisfy(ws1, IsWhiteSpace) && AllSatisfy(ws2, IsWhiteSpace)
    ensures GetStatusCode(ws1 + code + ws2) == GetStatusCode(code)
  {
    TrimIgnoresSurrounding(ws1, code, ws2, IsWhiteSpace);
  }

  // ---------------------------------------------------------------------------
  // The provider object

  /** The provider's operation tables, filled by its constructor. */
  class AzureFilesServiceOperationProvider {
    /** The operations with their manifests, in order (only the ids are kept). */
    var serviceOperations: seq<string>
    /** The API operations by id, looked up without regard to case (the id stands for its descriptor). */
    var apiOperations: InsensitiveDictionary<string>

    predicate IsRegistered(operationId: string)
      reads this
    {
      Lookup(apiOperations, operationId).Some?
    }

    /**
     * Fills both tables with List, GetFile, UploadFile, DeleteFile and
     * CopyFileToBlob (the trigger is left out): afterwards exactly those ids,
     * in any case, are registered.
     */
    constructor ()
      ensures serviceOperations == RegisteredOperationIds
      ensures apiOperations == RegisteredApiOperations()
      ensures forall k :: k in RegisteredOperationIds ==> IsRegistered(k)
      ensures !IsRegistered(ServiceOperationTrigger)
    {
      apiOperations := AddAll(map[], RegisteredOperationIds);
      serviceOperations := RegisteredOperationIds;
      RegisteredApiOperationsLookup();
    }
  }

  /** AddRange over ids: each id is added in turn, under its own name. */
  function AddAll(d: InsensitiveDictionary<string>, ids: seq<string>): InsensitiveDictionary<string>
    decreases |ids|
  {
    if ids == [] then d else AddAll(Put(d, ids[0], ids[0]), ids[1..])
  }

  /** Adding ids never changes what a key unrelated to all of them finds. */
  lemma {:induction false} AddAllKeeps(d: InsensitiveDictionary<string>, ids: seq<string>, k: string)
    requires forall i :: 0 <= i < |ids| ==> !EqualsIgnoreCase(k, ids[i])
    ensures Lookup(AddAll(d, ids), k) == Lookup(d, k)
    decreases |ids|
  {
    if ids != [] {
      assert !EqualsIgnoreCase(k, ids[0]);
      AddAllKeeps(Put(d, ids[0], ids[0]), ids[1..], k);
    }
  }

  /** When no two ids are equal up to case, every id added finds itself. */
  lemma {:induction false} AddAllFinds(d: InsensitiveDictionary<string>, ids: seq<string>, i: nat)
    requires forall a, b :: 0 <= a < b < |ids| ==> !EqualsIgnoreCase(ids[a], ids[b])
    requires i < |ids|
    ensures Lookup(AddAll(d, ids), ids[i]) == Some(ids[i])
    decreases |ids|
  {
    var d' := Put(d, ids[0], ids[0]);
    if i == 0 {
      forall j | 0 <= j < |ids[1..]| ensures !EqualsIgnoreCase(ids[0], ids[1..][j]) {
        assert ids[1..][j] == ids[j + 1];
      }
      AddAllKeeps(d', ids[1..], ids[0]);
    } else {
      AddAllFinds(d', ids[1..], i - 1);
    }
  }

  /** The API operation table the constructor fills: the five ids added to an empty dictionary. */
  function RegisteredApiOperations(): InsensitiveDictionary<string> {
    AddAll(map[], RegisteredOperationIds)
  }

  /**
   * Each registered id finds its own operation, in any case, and the trigger
   * is not registered.
   */
  lemma RegisteredApiOperationsLookup()
    ensures forall k :: k in RegisteredOperationIds ==> Lookup(RegisteredApiOperations(), k) == Some(k)
    ensures Lookup(RegisteredApiOperations(), ServiceOperationTrigger).None?
  {
    DistinctRegisteredIds();
    var ids := RegisteredOperationIds;
    var all := ids + [ServiceOperationTrigger];
    forall a, b | 0 <= a < b < |ids| ensures !EqualsIgnoreCase(ids[a], ids[b]) {
      assert ids[a] == all[a] && ids[b] == all[b];
    }
    forall k | k in ids ensures Lookup(RegisteredApiOperations(), k) == Some(k) {
      var i :| 0 <= i < |ids| && ids[i] == k;
      AddAllFinds(map[], ids, i);
    }
    forall i | 0 <= i < |ids| ensures !EqualsIgnoreCase(ServiceOperationTrigger, ids[i]) {
      assert all[i] == ids[i] && all[|ids|] == ServiceOperationTrigger;
    }
    AddAllKeeps(map[], ids, ServiceOperationTrigger);
  }

  /** No two of the six ids are equal when case is ignored. */
  lemma DistinctRegisteredIds()
    ensures var ids := RegisteredOperationIds + [ServiceOperationTrigger];
      forall i, j :: 0 <= i < j < |ids| ==> Fold(ids[i]) != Fold(ids[j])
  {
    var ids := RegisteredOperationIds + [ServiceOperationTrigger];
    assert Fold(ServiceOperationUploadFile)[10] == 'u' && Fold(ServiceOperationDeleteFile)[10] == 'd';
    assert Fold(ServiceOperationGetFile)[10] == 'g' && Fold(ServiceOperationTrigger)[10] == 't';
    forall i, j | 0 <= i < j < |ids| ensures Fold(ids[i]) != Fold(ids[j]) {
      if |ids[i]| == |ids[j]| {
        assert {i, j} == {1, 5} || {i, j} == {2, 3};
      }
    }
  }
}
