/**
 * The FTP facade (Providers/FTP.cs): its configuration, how it sets up a FluentFTP
 * client from that configuration, and the delete and list operations with
 * their path normalisation.
 *
 * The FTP server is replaced by an in-memory `FtpServer`; the client object
 * keeps only the settings that ConfigureClient writes.
 */
module FTPCore {
  import opened Wrappers
  import opened Exceptions
  import opened Text

  /** The eight settings of an FTPConfig, as one value. */
  datatype FtpSettings = FtpSettings(
    host: string, userName: string, password: string,
    useSSL: bool, implicitMode: bool, useSelfSignedCert: bool, activeMode: bool, useBinaryMode: bool)

  /** Connection settings; its properties have public setters. */
  class FTPConfig {
    var host: string
    var userName: string
    var password: string
    var useSSL: bool
    var activeMode: bool
    var implicitMode: bool
    var useSelfSignedCert: bool
    var useBinaryMode: bool

    function Settings(): FtpSettings
      reads this
    {
      FtpSettings(host, userName, password, useSSL, implicitMode, useSelfSignedCert, activeMode, useBinaryMode)
    }

    /** The parameterless constructor: every property at its default. */
    constructor ()
      ensures Settings() == FtpSettings("", "", "", false, false, false, false, false)
    {
      host, userName, password := "", "", "";
      useSSL, activeMode, implicitMode, useSelfSignedCert, useBinaryMode := false, false, false, false, false;
    }

    /** The eight-argument constructor: each property from the argument of the same name. */
    constructor Create(host: string, username: string, password: string, useSSL: bool, implicitMode: bool,
                       useSelfSignedCert: bool, activeMode: bool, useBinaryMode: bool)
      ensures Settings() == FtpSettings(host, username, password, useSSL, implicitMode, useSelfSignedCert, activeMode, useBinaryMode)
    {
      this.useSSL := useSSL;
      this.host := host;
      this.userName := username;
      this.password := password;
      this.implicitMode := implicitMode;
      this.activeMode := activeMode;
      this.useSelfSignedCert := useSelfSignedCert;
      this.useBinaryMode := useBinaryMode;
    }
  }

  /** One entry of the facade's listing result. */
  datatype FileList = FileList(name: string, fullName: string)

  /** An item of the server listing (only the two properties the facade reads). */
  datatype FtpListItem = FtpListItem(name: string, fullName: string)

  datatype FtpEncryptionMode = EncryptionNone | Implicit | Explicit | Auto
  datatype FtpDataConnectionType = AutoPassive | AutoActive | PASV | PORT | EPSV | EPRT

  /** The certificate-validation handler the facade installs: it accepts every certificate. */
  datatype CertificateHandler = AcceptAnyCertificate

  datatype NetworkCredential = NetworkCredential(userName: string, password: string)

  /** The settings of a FluentFTP client that the facade writes. */
  class FtpClient {
    var host: string
    var encryptionMode: FtpEncryptionMode
    var dataConnectionType: FtpDataConnectionType
    /** The handlers subscribed to the ValidateCertificate event, in subscription order. */
    var validateCertificate: seq<CertificateHandler>
    /** None while the library's default credentials are in use. */
    var credentials: Option<NetworkCredential>

    /** `new FtpClient(host)`, with the library's defaults for everything else. */
    constructor (host: string)
      ensures this.host == host && encryptionMode == EncryptionNone && dataConnectionType == AutoPassive
      ensures validateCertificate == [] && credentials == None
    {
      this.host := host;
      encryptionMode, dataConnectionType := EncryptionNone, AutoPassive;
      validateCertificate, credentials := [], None;
    }
  }

  /** The reply code an FTP server gives for a file that is not there. */
  const FileUnavailable := "550"

  /** In-memory stand-in for the FTP server at the configured host. */
  class FtpServer {
    /** Files by absolute path. */
    var files: map<string, string>
    /** The listing the server returns for a path; a path it has no listing for lists as empty. */
    var listings: map<string, seq<FtpListItem>>

    constructor (files: map<string, string>, listings: map<string, seq<FtpListItem>>)
      ensures this.files == files && this.listings == listings
    {
      this.files, this.listings := files, listings;
    }

    /** DeleteFileAsync: removes the file, or fails with reply 550 when it is not there. */
    method DeleteFile(path: string) returns (r: Result<bool, Exn>)
      modifies this`files
      ensures path in old(files) ==> r == Success(true) && files == old(files) - {path}
      ensures path !in old(files) ==> r == Failure(Exn(FtpCommand(FileUnavailable), FileUnavailable, None)) && files == old(files)
    {
      if path in files {
        files := files - {path};
        r := Success(true);
      } else {
        r := Failure(Exn(FtpCommand(FileUnavailable), FileUnavailable, None));
      }
    }

    /** GetListingAsync. */
    function GetListing(path: string): (r: seq<FtpListItem>)
      reads this
      ensures path in listings ==> r == listings[path]
      ensures path !in listings ==> r == []
    {
      if path in listings then listings[path] else []
    }
  }

  /**
   * The path the delete and list operations pass to the server: a path that does
   * not start with "/" gets one "/" in front, any other is passed as it is.
   */
  function NormalizePath(path: string): (r: string)
    ensures StartsWith(r, "/")
    ensures StartsWith(path, "/") ==> r == path
    ensures !StartsWith(path, "/") ==> r == "/" + path
  {
    if StartsWith(path, "/") then path else "/" + path
  }

  /** Normalising twice is normalising once. */
  lemma NormalizePathIdempotent(path: string)
    ensures NormalizePath(NormalizePath(path)) == NormalizePath(path)
  {
  }

  /** Normalisation only ever adds a leading "/": removing it gives back the path. */
  lemma NormalizePathKeepsPath(path: string)
    ensures var r := NormalizePath(path);
      r == path || r[1..] == path
  {
  }

  class FTP {
    const config: FTPConfig

    constructor (config: FTPConfig)
      ensures this.config == config
    {
      this.config := config;
    }

    /** The eight-argument constructor: a new FTPConfig set property by property. */
    constructor FromSettings(host: string, username: string, password: string, useSSL: bool, implicitMode: bool,
                             useSelfSignedCert: bool, activeMode: bool, useBinaryMode: bool)
      ensures fresh(config)
      ensures config.Settings() == FtpSettings(host, username, password, useSSL, implicitMode, useSelfSignedCert, activeMode, useBinaryMode)
    {
      var c := new FTPConfig();
      c.useSSL := useSSL;
      c.host := host;
      c.userName := username;
      c.password := password;
      c.implicitMode := implicitMode;
      c.activeMode := activeMode;
      c.useSelfSignedCert := useSelfSignedCert;
      c.useBinaryMode := useBinaryMode;
      config := c;
    }

    /**
     * With SSL: the accept-all certificate handler is added when self-signed
     * certificates are allowed, and the encryption mode becomes Implicit or
     * Explicit. Without SSL both stay as they were. Active mode selects
     * AutoActive data connections and otherwise leaves them alone. The
     * credentials always become the configured user name and password.
     */
    method ConfigureClient(client: FtpClient)
      modifies client
      ensures client.validateCertificate ==
        old(client.validateCertificate) + (if config.useSSL && config.useSelfSignedCert then [AcceptAnyCertificate] else [])
      ensures client.encryptionMode ==
        if !config.useSSL then old(client.encryptionMode) else if config.implicitMode then Implicit else Explicit
      ensures client.dataConnectionType == if config.activeMode then AutoActive else old(client.dataConnectionType)
      ensures client.credentials == Some(NetworkCredential(config.userName, config.password))
      ensures client.host == old(client.host)
    {
      if config.useSSL {
        if config.useSelfSignedCert {
          client.validateCertificate := client.validateCertificate + [AcceptAnyCertificate];
        }
        if config.implicitMode {
          client.encryptionMode := Implicit;
        } else {
          client.encryptionMode := Explicit;
        }
      }
      if config.activeMode {
        client.dataConnectionType := AutoActive;
      }
      client.credentials := Some(NetworkCredential(config.userName, config.password));
    }

    /**
     * Deletes the file at the normalised path and answers "success"; a server
     * error passes through and leaves the files alone.
     */
    method FluentDeleteFile(server: FtpServer, path: string) returns (r: Result<string, Exn>)
      modifies server`files
      ensures NormalizePath(path) in old(server.files) ==>
        r == Success("success") && server.files == old(server.files) - {NormalizePath(path)}
      ensures NormalizePath(path) !in old(server.files) ==>
        r == Failure(Exn(FtpCommand(FileUnavailable), FileUnavailable, None)) && server.files == old(server.files)
    {
      var resp := "success";
      var client := new FtpClient(config.host);
      ConfigureClient(client);
      var p := path;
      if !StartsWith(p, "/") {
        p := "/" + p;
      }
      var deleted := server.DeleteFile(p);
      if deleted.Failure? {
        return Failure(deleted.error);
      }
      r := Success(resp);
    }

    /**
     * Lists the normalised path: one FileList per listing item, in order, with
     * the item's Name and FullName.
     */
    method FluentListFiles(server: FtpServer, path: string) returns (fileList: seq<FileList>)
      ensures var list := server.GetListing(NormalizePath(path));
        && |fileList| == |list|
        && forall i :: 0 <= i < |list| ==> fileList[i] == FileList(list[i].name, list[i].fullName)
    {
      var client := new FtpClient(config.host);
      ConfigureClient(client);
      var p := path;
      if !StartsWith(p, "/") {
        p := "/" + p;
      }
      var list := server.GetListing(p);
      fileList := [];
      for i := 0 to |list|
        invariant |fileList| == i
        invariant forall j :: 0 <= j < i ==> fileList[j] == FileList(list[j].name, list[j].fullName)
      {
        fileList := fileList + [FileList(list[i].name, list[i].fullName)];
      }
    }
  }
}
