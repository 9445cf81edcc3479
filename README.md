# Azure Files connector — a Dafny model

This project models the core of the Azure Files built-in connector for Logic Apps Standard.
It covers three parts.

- **The operation provider** (`OperationProvider`). It holds the table of registered operation ids,
  kept in a case-insensitive dictionary. It reads request parameters through the three
  `GetParameter` overloads. `InvokeOperation` checks the file share, switches on the operation id,
  calls the Azure Files facade, and turns exceptions into provider errors through its catch ladder
  (404, 409 or 500). `GetStatusCode` classifies an FTP reply code.
- **The Azure Files facade** (`AzureFilesCore`). It covers `DownloadFile`, `CopyFileToBlob` and
  `ListShare`. They run against `StorageService`, an in-memory stand-in for the file share and blob
  store. It holds the share's files, the containers' blobs and the directory listings. It also
  keeps a log of the calls made to it, so that the order of those calls can be stated.
- **The FTP facade** (`FTPCore`). It covers `FTPConfig` and the `FTP` constructors. `ConfigureClient`
  maps the configuration flags onto an `FtpClient`. `FluentDeleteFile` and `FluentListFiles`
  normalise the path and run against `FtpServer`, an in-memory FTP server. `FluentListFiles` converts
  the server's listing into `FileList` entries.

Supporting modules:

- `Wrappers` holds `Option` and `Result`.
- `Exceptions` describes the .NET exceptions involved. Each has a kind, a message and an inner
  exception. The module also gives the message `Task.Result` builds when it wraps a task's exception
  in an `AggregateException`.
- `Text` holds the .NET string operations the code relies on: `Trim`, the ordinal `StartsWith`, and
  the case-insensitive comparison of dictionary keys.

The dispatcher is a set of pure functions. The facade is passed in as `Facade`, a record of what
each facade call returns for the arguments the dispatcher gives it. `Invoke` takes an `Awaiting`
argument, which says how the facade task is awaited. `BlockingResult` is `Task.Result`, as the code
has it. `Unwrapped` rethrows the task's own exception. `InvokeOperation` is the code as written, and
`InvokeOperationUnwrapped` is the corrected dispatcher (see Findings).

Three details of the code shape the model.

- A malformed `overwrite` gives false, although the variable starts as true. `bool.TryParse` stores
  false when it fails (AzureFilesServiceOperationProvider.cs:1034-1035).
- The response body is the facade's result itself. The code builds a `JProperty("body", …)` but
  passes only its `Value` to the response.
- `AzureFilesTrigger` has a case in the switch but is commented out of the registration
  (AzureFilesServiceOperationProvider.cs:77).

## Model

| member | source | states |
|---|---|---|
| OperationProvider.Put | Providers/AzureFilesServiceOperationProvider.cs:75-85 | Adding an entry to the case-insensitive dictionary: afterwards the key in any case finds the new value, and every key that differs other than by case finds what it found before. |
| OperationProvider.AddAllFinds | Providers/AzureFilesServiceOperationProvider.cs:75-85 | After `AddRange` of ids no two of which are equal up to case, every one of them finds itself. |
| OperationProvider.AddAllKeeps | Providers/AzureFilesServiceOperationProvider.cs:75-85 | `AddRange` never changes what a key unrelated to all the added ids finds. |
| OperationProvider.LookupIgnoresCase | Providers/AzureFilesServiceOperationProvider.cs:63 | Two keys equal up to case find the same entry. |
| OperationProvider.GetParameter | Providers/AzureFilesServiceOperationProvider.cs:911-925 | Succeeds exactly when the parameter is present, with the value's string form. Otherwise it fails with an ApplicationException "Unable to read <param>". |
| OperationProvider.GetParameterOr | Providers/AzureFilesServiceOperationProvider.cs:926-940 | An absent parameter reads as the string default. A present one reads as its string form. It never throws. |
| OperationProvider.GetParameterOrBool | Providers/AzureFilesServiceOperationProvider.cs:941-955 | An absent parameter reads as "True" or "False" from the boolean default. A present one reads as its string form. |
| OperationProvider.ParseOverwriteTrueIff | Providers/AzureFilesServiceOperationProvider.cs:1031-1035 | The parsed flag is true exactly when the string, trimmed of whitespace and NUL, is "true" in some case. Any other string gives false. |
| OperationProvider.TryParseBoolSeesTrimmed | Providers/AzureFilesServiceOperationProvider.cs:1035 | `bool.TryParse`'s result depends only on the trimmed string. |
| OperationProvider.OverwriteFlagCases | Providers/AzureFilesServiceOperationProvider.cs:1031-1035 | An absent `overwrite` gives true. A boolean gives its own value. JSON null gives false. A string gives true exactly when it trims to "true" in some case. |
| OperationProvider.ParseOverwriteIgnoresSurrounding | Providers/AzureFilesServiceOperationProvider.cs:1035 | Whitespace or NUL around the overwrite string never changes the flag. |
| OperationProvider.Await | Providers/AzureFilesServiceOperationProvider.cs:1004-1039 | `.Result` on a failed task fails with exactly `Wrap` of the task's exception: an AggregateException "One or more errors occurred. (<inner>)" whose inner exception is the task's exception. Unwrapped awaiting rethrows the task's exception itself. A success is passed through. |
| OperationProvider.CatchLadder | Providers/AzureFilesServiceOperationProvider.cs:1049-1075 | Gives 404 exactly for FileNotFoundException and 409 exactly for FileExistsException. Every other exception gives 500. Each keeps the exception's message and inner exception, with the code ServiceOperationFailed. |
| OperationProvider.CaseOfDispatchedIds | Providers/AzureFilesServiceOperationProvider.cs:988-1045 | Each of the four ids with a switch case reaches its own case. Exactly the ids outside that set fall to `default`. |
| OperationProvider.ListBranch | Providers/AzureFilesServiceOperationProvider.cs:990-1006 | A success has status 200. As written, a failure is an AggregateException or an ApplicationException. |
| OperationProvider.GetFileBranch | Providers/AzureFilesServiceOperationProvider.cs:1009-1015 | A success has status 200. As written, a failure is an AggregateException or the ApplicationException for a missing `sourcefile`. |
| OperationProvider.CopyBranch | Providers/AzureFilesServiceOperationProvider.cs:1018-1042 | A success has status 200. As written, a failure is an AggregateException or the ApplicationException for a missing parameter. |
| OperationProvider.Invoke | Providers/AzureFilesServiceOperationProvider.cs:956-1081 | A success has status 200. A failure carries ServiceOperationFailed and a status of 404, 409 or 500. |
| OperationProvider.MissingFileShareFailsFirst | Providers/AzureFilesServiceOperationProvider.cs:970-980 | A missing or empty `fileshare` fails with "File Share" and status 500. This holds for every operation id, connection and facade. |
| OperationProvider.UndispatchedOperationFails | Providers/AzureFilesServiceOperationProvider.cs:1044-1045 | An id without a case in the switch fails with 500 and NotImplementedException's message, without calling the facade. The switch compares ids case-sensitively. |
| OperationProvider.RegisteredAndDispatchedDiffer | Providers/AzureFilesServiceOperationProvider.cs:75-85 | UploadFile and DeleteFile are registered but not dispatched. Trigger is dispatched but not registered. "azurefileslist" finds the List operation in the table but has no case in the switch. |
| OperationProvider.ListPassesArguments | Providers/AzureFilesServiceOperationProvider.cs:990-1006 | List and Trigger call ListShare with the share, `folder` and `prefixfilter`, each "" when absent. A successful listing is answered with status 200. |
| OperationProvider.GetFileRequiresSourceFile | Providers/AzureFilesServiceOperationProvider.cs:1009-1011 | GetFile without `sourcefile` fails with "Unable to read sourcefile" and status 500. |
| OperationProvider.GetFilePassesArguments | Providers/AzureFilesServiceOperationProvider.cs:1009-1015 | GetFile calls DownloadFile with the share, `folder` ("" when absent) and `sourcefile`. The content is answered with status 200. |
| OperationProvider.CopyRequiresParameters | Providers/AzureFilesServiceOperationProvider.cs:1018-1029 | CopyFileToBlob fails with 500 before calling the facade, naming the first missing parameter. The order is blobconnection ("Storage Connection String"), then folder, sourcefile, blobfolder. |
| OperationProvider.CopyPassesArguments | Providers/AzureFilesServiceOperationProvider.cs:1018-1042 | With every required parameter present, the facade gets their string forms and the parsed overwrite flag (true when absent). Its result is answered with status 200. |
| OperationProvider.AsWrittenEveryFailureIs500 | Providers/AzureFilesServiceOperationProvider.cs:956-1081 | As written, every failure of InvokeOperation has status 500. |
| OperationProvider.AsWrittenFacadeErrorIs500 | Providers/AzureFilesServiceOperationProvider.cs:1012-1075 | As written, a DownloadFile failure gives 500, with the AggregateException's message and the facade's exception as inner. |
| OperationProvider.UnwrappedFacadeErrorsReachLadder | Providers/AzureFilesServiceOperationProvider.cs:1049-1066 | With the task's exception unwrapped, every facade exception reaches the catch ladder unchanged. |
| OperationProvider.MissingFileStatus | Providers/AzureFilesServiceOperationProvider.cs:1012-1057 | A missing file gives 500 with the wrapped message as written. Corrected, it gives 404 with "<share>/<file> not found". |
| OperationProvider.ExistingBlobStatus | Providers/AzureFilesServiceOperationProvider.cs:1038-1066 | A copy with `overwrite` false onto an existing blob gives 500 as written, with the wrapped "One or more errors occurred. (…)" message. Corrected, it gives 409 with "<container>/<file> already exists" and the storage error as inner. |
| OperationProvider.GetStatusCode | Providers/AzureFilesServiceOperationProvider.cs:1083-1103 | After trimming, "550" gives 404, and any other code starting with "4" gives 503. Everything else gives 500. Both are if-and-only-if. |
| OperationProvider.GetStatusCodeIgnoresWhitespace | Providers/AzureFilesServiceOperationProvider.cs:1085 | Whitespace around a reply code never changes its classification. |
| OperationProvider.AzureFilesServiceOperationProvider.constructor | Providers/AzureFilesServiceOperationProvider.cs:69-96 | The operation list holds List, GetFile, UploadFile, DeleteFile and CopyFileToBlob in that order. The API table is those ids added to an empty case-insensitive dictionary. Afterwards each of them is registered and the trigger is not. |
| OperationProvider.RegisteredApiOperationsLookup | Providers/AzureFilesServiceOperationProvider.cs:75-85 | Each registered id finds its own operation, and the trigger finds nothing. |
| OperationProvider.DistinctRegisteredIds | Providers/AzureFilesServiceOperationProvider.cs:40-46 | No two operation ids are equal when case is ignored. |
| Text.TrimStart | Providers/AzureFilesServiceOperationProvider.cs:1085 | The result is a suffix of the input. Every removed character is whitespace, and the first kept character is not. |
| Text.TrimEnd | Providers/AzureFilesServiceOperationProvider.cs:1085 | The result is a prefix of the input. Every removed character is whitespace, and the last kept character is not. |
| Text.Trim | Providers/AzureFilesServiceOperationProvider.cs:1085 | The result is no longer than the input and neither starts nor ends with a trimmed character. |
| Text.TrimIgnoresSurrounding | Providers/AzureFilesServiceOperationProvider.cs:1085 | Trimming ignores whitespace added at either end. |
| Text.TrimKeepsTrimmed | Providers/AzureFilesServiceOperationProvider.cs:1085 | A string that starts and ends with non-whitespace is its own trim. |
| Text.TrimStartSkipsPrefix | Providers/AzureFilesServiceOperationProvider.cs:1085 | A whitespace prefix does not change TrimStart. |
| Text.TrimEndSkipsSuffix | Providers/AzureFilesServiceOperationProvider.cs:1085 | A whitespace suffix does not change TrimEnd. |
| Text.TrimStartAppend | Providers/AzureFilesServiceOperationProvider.cs:1085 | TrimStart of a concatenation either skips the first part entirely or stops inside it. |
| Text.FoldIdempotent | Providers/AzureFilesServiceOperationProvider.cs:63 | Folding the case of a key twice is folding it once. |
| Exceptions.Wrap | Providers/AzureFilesServiceOperationProvider.cs:1004-1039 | The AggregateException of a failed task has the task's exception as inner and the message "One or more errors occurred. (<inner message>)". |
| AzureFilesCore.TranslateCopyError | Providers/AzureFiles.cs:142-155 | A BlobAlreadyExists storage error becomes a FileExistsException "<destBlobPath>/<file> already exists", with the storage error as inner. Every other error passes through unchanged. |
| AzureFilesCore.StorageService.Exists | Providers/AzureFiles.cs:90 | The existence check answers true exactly when the share holds the file. The call is logged. `CopyFileToBlob` makes the same check at line 123. |
| AzureFilesCore.StorageService.OpenRead | Providers/AzureFiles.cs:94-99 | Opening and reading an existing file to the end gives its whole content. The call is logged. `CopyFileToBlob` opens the same stream at line 127 and uploads all of it. |
| AzureFilesCore.StorageService.GetFilesAndDirectories | Providers/AzureFiles.cs:165-167 | Listing succeeds exactly when the (account, share, directory, prefix) key is known, with that key's entries. An unknown key fails with ResourceNotFound. |
| AzureFilesCore.StorageService.Upload | Providers/AzureFiles.cs:130-132 | A missing container fails with ContainerNotFound. An existing blob without overwrite fails with BlobAlreadyExists. Otherwise the blob is written. The call is logged. |
| AzureFilesCore.AzureFiles.constructor | Providers/AzureFiles.cs:67-71 | The facade keeps the configuration it is given. |
| AzureFilesCore.AzureFiles.FromConnectionString | Providers/AzureFiles.cs:72-77 | The facade's configuration holds the given connection string. |
| AzureFilesCore.AzureFiles.DownloadFile | Providers/AzureFiles.cs:79-113 | An existing file's content is returned after an existence check and a read. A missing file fails with FileNotFoundException "<share>/<file> not found" after the existence check alone. |
| AzureFilesCore.AzureFiles.CopyFileToBlob | Providers/AzureFiles.cs:114-157 | A missing source fails with "<share>/<file> not found" and uploads nothing. Otherwise the content is uploaded to `<destBlobPath>/<file>` with the overwrite flag, after an existence check and a read, in that order. An existing blob without overwrite becomes a FileExistsException, and a missing container passes through. |
| AzureFilesCore.AzureFiles.ListShare | Providers/AzureFiles.cs:159-184 | The result echoes the share and directory. It lists every entry of the directory in order, with its name and directory flag. A missing directory propagates the storage error. Nothing in the store changes. |
| FTPCore.FTPConfig.constructor | Providers/FTP.cs:19-22 | A default configuration has empty strings and every flag false. |
| FTPCore.FTPConfig.Create | Providers/FTP.cs:23-33 | Each of the eight settings holds its argument. |
| FTPCore.FTP.constructor | Providers/FTP.cs:54-57 | The facade keeps the configuration it is given. |
| FTPCore.FTP.FromSettings | Providers/FTP.cs:59-71 | The facade holds a new configuration whose eight settings are the arguments. |
| FTPCore.FTP.ConfigureClient | Providers/FTP.cs:77-102 | With SSL, a self-signed certificate adds the accept-all handler, and the encryption is Implicit or Explicit as configured. Without SSL both stay unchanged. Active mode sets AutoActive, otherwise the mode is unchanged. The credentials are always the configured user and password. The host is never changed. |
| FTPCore.FtpServer.GetListing | Providers/FTP.cs:223 | Listing a path the server knows gives that path's items in order. An unknown path gives no items. |
| FTPCore.FtpServer.DeleteFile | Providers/FTP.cs:196 | Deleting an existing file removes exactly that file. A missing file fails with reply code 550 and changes nothing. |
| FTPCore.NormalizePath | Providers/FTP.cs:192-195 | The result starts with "/". It is the path itself when the path already starts with "/", and "/" + path otherwise. |
| FTPCore.NormalizePathIdempotent | Providers/FTP.cs:192-195 | Normalising twice is normalising once. |
| FTPCore.NormalizePathKeepsPath | Providers/FTP.cs:192-195 | Normalisation only ever prepends, and at most one "/". |
| FTPCore.FTP.FluentDeleteFile | Providers/FTP.cs:182-205 | Deletes the normalised path and answers "success". A missing file fails with the server's 550 error and deletes nothing. |
| FTPCore.FTP.FluentListFiles | Providers/FTP.cs:207-238 | One entry per item of the normalised path's listing, in order, with that item's name and full name. |

## Left out

- `FluentUploadFile` and `FluentGetFile` (FTP.cs:103-180) are out because they only move stream and
  byte data (binary or text writers, base64). The model has no streams.
- The asynchronous machinery (`Task.Run`, `async`/`await`, `ConnectAsync`/`DisconnectAsync`, the
  cancellation token) is out. Each call is modelled as the outcome its task ends with.
- Logging and telemetry (`_logger.Debug`, `TelemetryClient`) are out because they do not affect any
  result.
- The operation manifests and descriptors (AzureFilesServiceOperationProvider.cs:97-909),
  `GetOperations`, `GetService` and `GetFunctionTriggerType` are out. They are static metadata. Each
  registered operation is stood for by its id.
- `GetBindingConnectionParameter` (AzureFilesServiceOperationProvider.cs:108-117) is not modelled.
  It is the connector's own wrapper around the host's `GetRequiredParameterValue`, which is not part
  of this model. Its outcome is a parameter of `InvokeOperation`: the connection string, or the
  message and inner exception of the exception it throws. That exception is assumed to be neither a
  FileNotFoundException nor a FileExistsException, so the catch ladder gives it 500 and forwards its
  inner exception.
- Providers/CoreFTP.cs, Providers/AzureFilesServiceProvider.cs and Startup/AzureFilesStartup.cs are
  not part of this model.
- The Azure SDK and FluentFTP clients are out. They are replaced by the in-memory `StorageService`
  and `FtpServer`. Their error messages are represented by their error codes, and share-name
  validation is not modelled.
- AzureFilesCore.StorageService.GetFilesAndDirectories keys listings on (account, share, directory,
  prefix). The model does not relate the listings of one directory under different prefixes: one
  prefix can list while another fails, and names are not filtered by the prefix.
- FTPCore.FtpServer.GetListing returns an empty listing for a path it does not know. Real servers
  differ here.
- FTPCore.FTPConfig.constructor uses empty strings where .NET leaves the string properties null. The
  model has no null strings. For the same reason, the parameterless `FilesConfig()` (AzureFiles.cs:51)
  is not modelled.
- FTPCore.FtpClient.constructor assumes the FluentFTP defaults: no encryption, AutoPassive, no
  certificate handler, no credentials.
- `FtpDataType` (binary vs ASCII transfers) is not modelled because it only affects the transfer of
  content.
- Text.Fold folds ASCII letters only. `InsensitiveDictionary` compares keys without regard to case
  for every letter, so non-ASCII keys that differ only in case are distinct in the model.
  `bool.TryParse` compares the ASCII letters of "true" and "false" only, so the model is exact there.
- Text.StartsWith is ordinal. `String.StartsWith(string)` compares with the current culture, so the
  two tests differ wherever culture-sensitive collation differs from comparing characters. Two kinds
  of input show it. Zero-weight characters, such as U+00AD, U+200B and, under ICU, U+0000, are
  ignored in every culture, so a match after them still counts. A combining mark right after the
  prefix changes the collation element, so a match followed by one does not count.
- FTPCore.NormalizePath: differs from FTP.cs:192-196 and 219-223 in both directions. `"\u00AD/a"`
  starts with "/" for the source and is passed on unchanged, while the model gives `"/\u00AD/a"`.
  `"/\u0301a"` does not start with "/" for the source, which sends `"//\u0301a"`, while the model
  passes it on unchanged.
- OperationProvider.GetStatusCode: differs from lines 1083-1103 in both directions. `"\u200B450"`
  is 503 in the source and 500 in the model. `"4\u0301"` is 500 in the source and 503 in the model.
- Request parameters are modelled as JSON strings, booleans or null. Numbers, objects and arrays are
  not. Their `ToString` forms are not modelled.
- OperationProvider.GetParameter and the other two overloads cannot see a C# null from
  `GetValueOrDefault`. A present JSON null is a `JValue` whose `ToString` is "", so the null check
  only fires for a missing key in the required overload.

## Findings

| source | as written | input that shows it | evidently intended | confidence | as-written member | corrected member |
|---|---|---|---|---|---|---|
| Providers/AzureFilesServiceOperationProvider.cs:1004-1066 | The facade's task is read with `.Result`, which wraps its exception in an AggregateException. The 404 and 409 catch clauses therefore never see the facade's FileNotFoundException or FileExistsException, and every facade failure becomes 500 with the message "One or more errors occurred. (…)". | GetFile with `fileshare` = "docs" and `sourcefile` = "a.txt", where the share has no such file. The answer is 500 "One or more errors occurred. (docs/a.txt not found)", where 404 "docs/a.txt not found" was intended. | A missing file answers 404, an existing blob without overwrite answers 409, each with the facade's own message. | not executed | OperationProvider.MissingFileStatus | OperationProvider.UnwrappedFacadeErrorsReachLadder |
