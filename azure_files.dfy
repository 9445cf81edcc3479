/**
 * The Azure Files facade (Providers/AzureFiles.cs): download a file from a
 * share, copy a share file into a blob container, and list a share directory.
 *
 * The storage services behind the Azure SDK clients are replaced by an
 * in-memory `StorageService` whose operations stand for the SDK calls the
 * facade makes (Exists, OpenRead, Upload, GetFilesAndDirectories). It keeps a
 * log of the calls that touch files, so that the order in which the facade
 * checks, reads and writes can be stated.
 */
module AzureFilesCore {
  import opened Wrappers
  import opened Exceptions

  /** One entry of a listing result. */
  datatype FileDefinition = FileDefinition(name: string, isDirectory: bool)

  /** The listing result: the entries, and the share and directory they come from. */
  datatype FileDefinitionList = FileDefinitionList(fileList: seq<FileDefinition>, shareName: string, directoryName: string)

  /** Connection settings of the facade. */
  datatype FilesConfig = FilesConfig(filesConnectionString: string)

  /** An item of the SDK's directory enumeration (only the two properties the facade reads). */
  datatype ShareFileItem = ShareFileItem(name: string, isDirectory: bool)

  /** A file in a share: the storage account is named by the connection string. */
  datatype FileKey = FileKey(account: string, share: string, directory: string, name: string)

  /** A directory enumeration request: directory and the prefix filter passed to the service. */
  datatype ListingKey = ListingKey(account: string, share: string, directory: string, prefix: string)

  /** A blob container, in the account named by a blob connection string. */
  datatype ContainerKey = ContainerKey(account: string, container: string)

  /** The service calls that touch files, in the order they are made. */
  datatype StorageCall =
    | ExistsCall(file: FileKey)
    | OpenReadCall(file: FileKey)
    | UploadCall(container: ContainerKey, blobName: string, overwrite: bool)

  const BlobAlreadyExists := "BlobAlreadyExists"
  const ContainerNotFound := "ContainerNotFound"
  const ResourceNotFound := "ResourceNotFound"

  /** A RequestFailedException; its message is represented by its error code. */
  function RequestFailedError(errorCode: string): Exn {
    Exn(RequestFailed(errorCode), errorCode, None)
  }

  /** The FileNotFoundException thrown for a missing source file. */
  function SourceNotFound(fileShareName: string, fileSourceName: string): Exn {
    FileNotFoundError(fileShareName + "/" + fileSourceName + " not found")
  }

  /**
   * The catch (RequestFailedException) handler of CopyFileToBlob: the error code
   * BlobAlreadyExists becomes a FileExistsException wrapping the original, and
   * everything else is rethrown as it is.
   */
  function TranslateCopyError(e: Exn, destBlobPath: string, fileSourceName: string): (r: Exn)
    ensures e.kind == RequestFailed(BlobAlreadyExists) ==>
      r == Exn(FileExists, destBlobPath + "/" + fileSourceName + " already exists", Some(e))
    ensures e.kind != RequestFailed(BlobAlreadyExists) ==> r == e
    ensures r.kind == FileExists <==> e.kind in {FileExists, RequestFailed(BlobAlreadyExists)}
  {
    match e.kind
    case RequestFailed(code) =>
      if code == BlobAlreadyExists then Exn(FileExists, destBlobPath + "/" + fileSourceName + " already exists", Some(e))
      else e
    case _ => e
  }

  /** In-memory stand-in for the Azure Files and Blob services reached through the SDK. */
  class StorageService {
    var files: map<FileKey, string>
    var containers: map<ContainerKey, map<string, string>>
    var listings: map<ListingKey, seq<ShareFileItem>>
    /** The calls made so far, in order: bookkeeping for the contracts only. */
    ghost var calls: seq<StorageCall>

    constructor (files: map<FileKey, string>, containers: map<ContainerKey, map<string, string>>,
                 listings: map<ListingKey, seq<ShareFileItem>>)
      ensures this.files == files && this.containers == containers && this.listings == listings
      ensures calls == []
    {
      this.files, this.containers, this.listings := files, containers, listings;
      calls := [];
    }

    /** ShareFileClient.Exists. */
    method Exists(file: FileKey) returns (b: bool)
      modifies this`calls
      ensures b <==> file in files
      ensures calls == old(calls) + [ExistsCall(file)]
    {
      b := file in files;
      calls := calls + [ExistsCall(file)];
    }

    /**
     * ShareFileClient.OpenReadAsync followed by reading the whole stream as text.
     * The facade opens a file only after Exists reported it, and the model runs
     * calls one at a time, so the file is there.
     */
    method OpenRead(file: FileKey) returns (content: string)
      requires file in files
      modifies this`calls
      ensures content == files[file]
      ensures calls == old(calls) + [OpenReadCall(file)]
    {
      content := files[file];
      calls := calls + [OpenReadCall(file)];
    }

    /**
     * BlobClient.UploadAsync(stream, overwrite): fails when the container does not
     * exist, and when the blob exists and overwriting is not allowed.
     */
    method Upload(container: ContainerKey, blobName: string, content: string, overwrite: bool) returns (r: Result<bool, Exn>)
      modifies this`containers, this`calls
      ensures container !in old(containers) ==>
        r == Failure(RequestFailedError(ContainerNotFound)) && containers == old(containers)
      ensures container in old(containers) && !overwrite && blobName in old(containers)[container] ==>
        r == Failure(RequestFailedError(BlobAlreadyExists)) && containers == old(containers)
      ensures container in old(containers) && (overwrite || blobName !in old(containers)[container]) ==>
        r == Success(true) && containers == old(containers)[container := old(containers)[container][blobName := content]]
      ensures calls == old(calls) + [UploadCall(container, blobName, overwrite)]
    {
      calls := calls + [UploadCall(container, blobName, overwrite)];
      if container !in containers {
        r := Failure(RequestFailedError(ContainerNotFound));
      } else if !overwrite && blobName in containers[container] {
        r := Failure(RequestFailedError(BlobAlreadyExists));
      } else {
        containers := containers[container := containers[container][blobName := content]];
        r := Success(true);
      }
    }

    /** ShareDirectoryClient.GetFilesAndDirectories(prefix), all pages in order. */
    function GetFilesAndDirectories(key: ListingKey): (r: Result<seq<ShareFileItem>, Exn>)
      reads this
      ensures r.Success? <==> key in listings
      ensures r.Success? ==> r.value == listings[key]
      ensures r.Failure? ==> r.error == RequestFailedError(ResourceNotFound)
    {
      if key in listings then Success(listings[key]) else Failure(RequestFailedError(ResourceNotFound))
    }
  }

  /** The facade. Its configuration is set by the constructors and never changed. */
  class AzureFiles {
    const config: FilesConfig

    constructor (config: FilesConfig)
      ensures this.config == config
    {
      this.config := config;
    }

    constructor FromConnectionString(filesConnectionString: string)
      ensures config == FilesConfig(filesConnectionString)
    {
      config := FilesConfig(filesConnectionString);
    }

    /**
     * Checks that the file exists, then reads all of it; a missing file raises
     * FileNotFoundException without any read. The stored files do not change.
     */
    method DownloadFile(service: StorageService, fileShareName: string, fileSourcePath: string, fileSourceName: string)
      returns (r: Result<string, Exn>)
      modifies service`calls
      ensures var file := FileKey(config.filesConnectionString, fileShareName, fileSourcePath, fileSourceName);
        && (file in service.files ==>
              r == Success(service.files[file])
              && service.calls == old(service.calls) + [ExistsCall(file), OpenReadCall(file)])
        && (file !in service.files ==>
              r == Failure(SourceNotFound(fileShareName, fileSourceName))
              && service.calls == old(service.calls) + [ExistsCall(file)])
    {
      var file := FileKey(config.filesConnectionString, fileShareName, fileSourcePath, fileSourceName);
      var found := service.Exists(file);
      if found {
        var content := service.OpenRead(file);
        r := Success(content);
      } else {
        r := Failure(SourceNotFound(fileShareName, fileSourceName));
      }
    }

    /**
     * Copies a share file into the blob `fileSourceName` of container `destBlobPath`.
     * The source is checked and opened before the upload starts; a missing source
     * raises FileNotFoundException and writes nothing; BlobAlreadyExists becomes
     * FileExistsException; other service errors pass through unchanged.
     */
    method CopyFileToBlob(service: StorageService, fileShareName: string, fileSourcePath: string, fileSourceName: string,
                          destBlobConn: string, destBlobPath: string, overwrite: bool)
      returns (r: Result<bool, Exn>)
      modifies service`calls, service`containers
      ensures var file := FileKey(config.filesConnectionString, fileShareName, fileSourcePath, fileSourceName);
        var container := ContainerKey(destBlobConn, destBlobPath);
        && (file !in service.files ==>
              r == Failure(SourceNotFound(fileShareName, fileSourceName))
              && service.containers == old(service.containers)
              && service.calls == old(service.calls) + [ExistsCall(file)])
        && (file in service.files ==>
              service.calls == old(service.calls) + [ExistsCall(file), OpenReadCall(file), UploadCall(container, fileSourceName, overwrite)])
        && (file in service.files && container !in old(service.containers) ==>
              r == Failure(RequestFailedError(ContainerNotFound))
              && service.containers == old(service.containers))
        && (file in service.files && container in old(service.containers)
            && !overwrite && fileSourceName in old(service.containers)[container] ==>
              r == Failure(Exn(FileExists, destBlobPath + "/" + fileSourceName + " already exists",
                               Some(RequestFailedError(BlobAlreadyExists))))
              && service.containers == old(service.containers))
        && (file in service.files && container in old(service.containers)
            && (overwrite || fileSourceName !in old(service.containers)[container]) ==>
              r == Success(true)
              && service.containers == old(service.containers)[container :=
                   old(service.containers)[container][fileSourceName := service.files[file]]])
    {
      var file := FileKey(config.filesConnectionString, fileShareName, fileSourcePath, fileSourceName);
      var found := service.Exists(file);
      var outcome: Result<bool, Exn>;
      if found {
        var content := service.OpenRead(file);
        outcome := service.Upload(ContainerKey(destBlobConn, destBlobPath), fileSourceName, content, overwrite);
      } else {
        outcome := Failure(SourceNotFound(fileShareName, fileSourceName));
      }
      r := if outcome.Failure? then Failure(TranslateCopyError(outcome.error, destBlobPath, fileSourceName)) else outcome;
    }

    /**
     * Lists a directory: one FileDefinition per enumerated item, in the order of
     * the enumeration, each with the item's Name and IsDirectory, under the share
     * and directory names it was asked for. An enumeration error passes through.
     */
    method ListShare(service: StorageService, fileShareName: string, fileSourceDir: string, prefixFilter: string)
      returns (r: Result<FileDefinitionList, Exn>)
      ensures var listing := service.GetFilesAndDirectories(ListingKey(config.filesConnectionString, fileShareName, fileSourceDir, prefixFilter));
        && (listing.Failure? ==> r == Failure(listing.error))
        && (listing.Success? ==>
              && r.Success?
              && r.value.shareName == fileShareName
              && r.value.directoryName == fileSourceDir
              && |r.value.fileList| == |listing.value|
              && forall i :: 0 <= i < |listing.value| ==>
                   r.value.fileList[i] == FileDefinition(listing.value[i].name, listing.value[i].isDirectory))
    {
      var listing := service.GetFilesAndDirectories(ListingKey(config.filesConnectionString, fileShareName, fileSourceDir, prefixFilter));
      if listing.Failure? {
        return Failure(listing.error);
      }
      var items := listing.value;
      var fileList: seq<FileDefinition> := [];
      for i := 0 to |items|
        invariant |fileList| == i
        invariant forall j :: 0 <= j < i ==> fileList[j] == FileDefinition(items[j].name, items[j].isDirectory)
      {
        fileList := fileList + [FileDefinition(items[i].name, items[i].isDirectory)];
      }
      r := Success(FileDefinitionList(fileList, fileShareName, fileSourceDir));
    }
  }
}
