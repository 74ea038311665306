/** The cloud file-browse client (services/googleDrive.ts): the authenticated
    fetch guard, the search-query string, the folder/file kind mapping and
    the choice between export and raw download. The HTTP exchange itself is a
    parameter (`Reply`), and `encodeURIComponent` is passed in as an opaque
    function. Failures carry the thrown value, since a rejected `fetch`
    propagates its own error rather than a message of this client. */
module GoogleDrive {
  import opened Common
  import opened Text

  const ApiBaseUrl: string := "https://www.googleapis.com/drive/v3"
  const FolderMime: string := "application/vnd.google-apps.folder"
  const SpreadsheetMime: string := "application/vnd.google-apps.spreadsheet"
  const NativeMimePrefix: string := "application/vnd.google-apps"
  const MissingTokenError: string := "Google Drive API called without an access token."
  const UnknownDriveError: string := "An unknown error occurred with Google Drive."

  // ---------------------------------------------------------------------
  // Authenticated fetch

  datatype Request = Request(url: string, authorization: string)

  /** What the exchange gave: a successful body; a failure status whose
      JSON body may carry `error.message` (absent when the body is
      unreadable); or a rejected `fetch` (network failure) and its error. */
  datatype Reply<T> = Ok(body: T) | HttpFailure(errorMessage: Option<string>) | Rejected(error: Thrown)

  datatype Fetched<T> = Fetched(requests: seq<Request>, result: Result<T>)
  datatype Result<T> = Success(value: T) | Failure(error: Thrown)

  const BearerPrefix: string := "Bearer "

  /** `fetchWithAuth`: an empty token is rejected before any request is
      made; otherwise one request carrying the bearer token is sent. A
      failure status becomes an error with the server's message or a fixed
      fallback; a rejected fetch propagates its own error. */
  function FetchWithAuth<T>(url: string, accessToken: string, reply: Reply<T>): (r: Fetched<T>)
    ensures accessToken == "" <==> r.requests == []
    ensures accessToken == "" ==> r.result == Failure(ErrorObject(MissingTokenError))
    ensures accessToken != "" ==> r.requests == [Request(url, BearerPrefix + accessToken)]
    ensures accessToken != "" ==> (r.result.Success? <==> reply.Ok?)
    ensures accessToken != "" && reply.Ok? ==> r.result.value == reply.body
    ensures accessToken != "" && reply.HttpFailure? ==>
              r.result.error
              == ErrorObject(if Truthy(reply.errorMessage) then reply.errorMessage.value else UnknownDriveError)
    ensures accessToken != "" && reply.Rejected? ==> r.result.error == reply.error
  {
    if accessToken == "" then Fetched([], Failure(ErrorObject(MissingTokenError)))
    else
      var req := [Request(url, BearerPrefix + accessToken)];
      match reply
      case Ok(b) => Fetched(req, Success(b))
      case HttpFailure(m) => Fetched(req, Failure(ErrorObject(if Truthy(m) then m.value else UnknownDriveError)))
      case Rejected(e) => Fetched(req, Failure(e))
  }

  /** The token a request carries, read back from its header. */
  function BearerToken(authorization: string): Option<string>
  {
    if StartsWith(authorization, BearerPrefix) then Some(authorization[|BearerPrefix|..]) else None
  }

  /** Whatever the exchange gave, the one request sent is for the given URL
      and its header carries exactly the given token, while a missing token
      sends nothing; so no request ever goes out unauthenticated. */
  lemma FetchCarriesToken<T>(url: string, accessToken: string, reply: Reply<T>)
    ensures var r := FetchWithAuth(url, accessToken, reply);
            forall i :: 0 <= i < |r.requests| ==>
              && r.requests[i].url == url
              && BearerToken(r.requests[i].authorization) == Some(accessToken)
              && accessToken != ""
  {
    var r := FetchWithAuth(url, accessToken, reply);
    if accessToken != "" {
      var h := BearerPrefix + accessToken;
      assert h[..|BearerPrefix|] == BearerPrefix;
      assert h[|BearerPrefix|..] == accessToken;
    }
  }

  // ---------------------------------------------------------------------
  // Query building

  /** `query.replace(/'/g, "\\'")`: a backslash before every single quote;
      backslashes themselves are not escaped. */
  function Escape(q: string): (r: string)
    ensures |r| == |q| + Count(q, '\'')
  {
    if |q| == 0 then ""
    else (if q[0] == '\'' then "\\'" else [q[0]]) + Escape(q[1..])
  }

  /** Removes the backslash Escape puts before each quote. */
  function Unescape(s: string): string
  {
    if |s| == 0 then ""
    else if |s| >= 2 && s[0] == '\\' && s[1] == '\'' then "'" + Unescape(s[2..])
    else [s[0]] + Unescape(s[1..])
  }

  /** Escaping loses nothing: the user's search text is recoverable. */
  lemma {:induction false} UnescapeEscape(q: string)
    ensures Unescape(Escape(q)) == q
  {
    if |q| > 0 {
      UnescapeEscape(q[1..]);
      var e := Escape(q);
      if q[0] == '\'' {
        assert e == "\\'" + Escape(q[1..]);
        assert e[2..] == Escape(q[1..]);
      } else {
        assert e == [q[0]] + Escape(q[1..]);
        assert e[1..] == Escape(q[1..]);
        if |e| >= 2 && e[0] == '\\' && e[1] == '\'' {
          // the next character of Escape(q[1..]) is a quote only as part of an escape pair
          EscapeStartsWithBackslashOrNoQuote(q[1..]);
        }
      }
    }
  }

  /** Escape's output never begins with a bare quote. */
  lemma EscapeStartsWithBackslashOrNoQuote(q: string)
    ensures |Escape(q)| > 0 ==> Escape(q)[0] != '\''
  {
  }

  /** Text without quotes (backslashes included) is copied unchanged. */
  lemma {:induction false} EscapeWithoutQuotes(q: string)
    requires Count(q, '\'') == 0
    ensures Escape(q) == q
  {
    if |q| > 0 {
      EscapeWithoutQuotes(q[1..]);
      assert q == [q[0]] + q[1..];
    }
  }

  function BaseQuery(folderId: string): string
  {
    "'" + folderId + "' in parents and trashed = false"
  }

  const NameClause: string := " and name contains '"

  /** The `q` parameter of `listFiles`: the folder and not-trashed filter,
      and a name filter with the escaped search text when one is given. */
  function ListQuery(folderId: string, query: string): (q: string)
    ensures query == "" ==> q == "'" + folderId + "' in parents and trashed = false"
    ensures query != "" ==> q == BaseQuery(folderId) + NameClause + Escape(query) + "'"
  {
    var base := BaseQuery(folderId);
    if query != "" then base + NameClause + Escape(query) + "'" else base
  }

  /** The search text is recoverable from the query string. */
  lemma NameFilterRecoverable(folderId: string, query: string)
    requires query != ""
    ensures var q := ListQuery(folderId, query);
            var start := |BaseQuery(folderId)| + |NameClause|;
            start <= |q| - 1 && Unescape(q[start..|q| - 1]) == query
  {
    var q := ListQuery(folderId, query);
    var start := |BaseQuery(folderId)| + |NameClause|;
    assert q[start..|q| - 1] == Escape(query);
    UnescapeEscape(query);
  }

  const ListPrefix: string := ApiBaseUrl + "/files?q="
  const ListSuffix: string := "&fields=files(id,name,mimeType,kind)&orderBy=folder,name"

  /** The request URL of `listFiles`, with `encode` standing for
      `encodeURIComponent`: the encoded query sits between the files
      endpoint and the fixed field and ordering parameters. */
  function ListUrl(q: string, encode: string -> string): (url: string)
    ensures |url| == |ListPrefix| + |encode(q)| + |ListSuffix|
    ensures StartsWith(url, ListPrefix)
    ensures url[|ListPrefix|..|ListPrefix| + |encode(q)|] == encode(q)
    ensures url[|ListPrefix| + |encode(q)|..] == ListSuffix
  {
    var url := ListPrefix + encode(q) + ListSuffix;
    assert url[..|ListPrefix|] == ListPrefix;
    url
  }

  // ---------------------------------------------------------------------
  // Listing

  datatype DriveFile = DriveFile(id: string, name: string, mimeType: string, kind: string)

  function KindOf(mimeType: string): string
  {
    if mimeType == FolderMime then "drive#folder" else "drive#file"
  }

  /** Relabels each listed file's kind from its mime type. */
  function WithKinds(files: seq<DriveFile>): (r: seq<DriveFile>)
    ensures |r| == |files|
    ensures forall i :: 0 <= i < |files| ==>
              r[i].id == files[i].id && r[i].name == files[i].name && r[i].mimeType == files[i].mimeType
    ensures forall i :: 0 <= i < |files| ==> (r[i].kind == "drive#folder" <==> files[i].mimeType == FolderMime)
    ensures forall i :: 0 <= i < |files| ==> (r[i].kind == "drive#file" <==> files[i].mimeType != FolderMime)
  {
    seq(|files|, i requires 0 <= i < |files| => files[i].(kind := KindOf(files[i].mimeType)))
  }

  /** Relabelling twice is relabelling once, and a file's new kind depends
      on its mime type alone. */
  lemma WithKindsIdempotent(files: seq<DriveFile>, other: seq<DriveFile>)
    ensures WithKinds(WithKinds(files)) == WithKinds(files)
    ensures forall i, j :: 0 <= i < |files| && 0 <= j < |other| && files[i].mimeType == other[j].mimeType ==>
              WithKinds(files)[i].kind == WithKinds(other)[j].kind
  {
    var once := WithKinds(files);
    var twice := WithKinds(once);
    forall i | 0 <= i < |files| ensures twice[i] == once[i] {
      assert once[i].mimeType == files[i].mimeType;
    }
  }

  /** `listFiles`: builds the query, fetches with the token, relabels kinds. */
  function ListFiles(accessToken: string, folderId: string, query: string,
                     encode: string -> string, reply: Reply<seq<DriveFile>>): (r: Fetched<seq<DriveFile>>)
    ensures accessToken == "" ==> r.requests == [] && r.result == Failure(ErrorObject(MissingTokenError))
    ensures accessToken != "" ==>
              r.requests == [Request(ListUrl(ListQuery(folderId, query), encode), BearerPrefix + accessToken)]
    ensures r.result.Success? <==> accessToken != "" && reply.Ok?
    ensures r.result.Success? ==> r.result.value == WithKinds(reply.body)
    ensures accessToken != "" && reply.Rejected? ==> r.result == Failure(reply.error)
  {
    var f := FetchWithAuth(ListUrl(ListQuery(folderId, query), encode), accessToken, reply);
    match f.result
    case Success(files) => Fetched(f.requests, Success(WithKinds(files)))
    case Failure(e) => Fetched(f.requests, Failure(e))
  }

  const DefaultFolderId: string := "root"

  /** `listFiles(accessToken)` with both defaults: the top folder and no
      name filter. */
  function ListRootFiles(accessToken: string, encode: string -> string,
                         reply: Reply<seq<DriveFile>>): (r: Fetched<seq<DriveFile>>)
    ensures accessToken != "" ==>
              r.requests == [Request(ListUrl(BaseQuery(DefaultFolderId), encode), BearerPrefix + accessToken)]
    ensures r.result.Success? <==> accessToken != "" && reply.Ok?
    ensures r.result.Success? ==> r.result.value == WithKinds(reply.body)
  {
    ListFiles(accessToken, DefaultFolderId, "", encode, reply)
  }

  // ---------------------------------------------------------------------
  // Content download

  /** The URL `getFileContent` fetches: provider-native documents are
      exported (spreadsheets as CSV, the rest as plain text); every other
      file is downloaded raw. */
  function ContentUrl(fileId: string, mimeType: string): (url: string)
    ensures StartsWith(mimeType, NativeMimePrefix) && mimeType == SpreadsheetMime ==>
              url == ApiBaseUrl + "/files/" + fileId + "/export?mimeType=text/csv"
    ensures StartsWith(mimeType, NativeMimePrefix) && mimeType != SpreadsheetMime ==>
              url == ApiBaseUrl + "/files/" + fileId + "/export?mimeType=text/plain"
    ensures !StartsWith(mimeType, NativeMimePrefix) ==> url == ApiBaseUrl + "/files/" + fileId + "?alt=media"
  {
    if StartsWith(mimeType, NativeMimePrefix) then
      var exportMime := if mimeType == SpreadsheetMime then "text/csv" else "text/plain";
      ApiBaseUrl + "/files/" + fileId + "/export?mimeType=" + exportMime
    else
      ApiBaseUrl + "/files/" + fileId + "?alt=media"
  }

  /** `getFileContent`: one authenticated fetch of the chosen URL. */
  function GetFileContent(accessToken: string, fileId: string, mimeType: string,
                          reply: Reply<string>): (r: Fetched<string>)
    ensures accessToken == "" ==> r.requests == [] && r.result == Failure(ErrorObject(MissingTokenError))
    ensures accessToken != "" ==> r.requests == [Request(ContentUrl(fileId, mimeType), BearerPrefix + accessToken)]
    ensures r.result.Success? <==> accessToken != "" && reply.Ok?
    ensures r.result.Success? ==> r.result.value == reply.body
  {
    FetchWithAuth(ContentUrl(fileId, mimeType), accessToken, reply)
  }

  const FilesPrefix: string := ApiBaseUrl + "/files/"
  const CsvExport: string := "/export?mimeType=text/csv"
  const TextExport: string := "/export?mimeType=text/plain"
  const RawDownload: string := "?alt=media"

  /** The content URL names the file, and its tail tells which of the three
      downloads was chosen: the file id is read back after the files
      endpoint, and the tail is the CSV export iff the file is a
      spreadsheet, the text export iff it is another native document, and
      the raw download iff it is not native. */
  lemma ContentUrlRecoverable(fileId: string, mimeType: string)
    ensures var url := ContentUrl(fileId, mimeType);
            var tail := url[|FilesPrefix| + |fileId|..];
            && |FilesPrefix| + |fileId| <= |url|
            && url[..|FilesPrefix|] == FilesPrefix
            && url[|FilesPrefix|..|FilesPrefix| + |fileId|] == fileId
            && (tail == CsvExport <==> mimeType == SpreadsheetMime)
            && (tail == TextExport <==> StartsWith(mimeType, NativeMimePrefix) && mimeType != SpreadsheetMime)
            && (tail == RawDownload <==> !StartsWith(mimeType, NativeMimePrefix))
  {
    var url := ContentUrl(fileId, mimeType);
    var tail :=
      if !StartsWith(mimeType, NativeMimePrefix) then RawDownload
      else if mimeType == SpreadsheetMime then CsvExport
      else TextExport;
    SpreadsheetIsNative();
    assert url == FilesPrefix + fileId + tail;
    assert url[..|FilesPrefix|] == FilesPrefix;
    assert url[|FilesPrefix|..|FilesPrefix| + |fileId|] == fileId;
    assert url[|FilesPrefix| + |fileId|..] == tail;
    assert |CsvExport| != |TextExport| && |CsvExport| != |RawDownload| && |TextExport| != |RawDownload|;
  }

  /** The spreadsheet type is itself provider-native, so the CSV branch is
      reachable. */
  lemma SpreadsheetIsNative()
    ensures StartsWith(SpreadsheetMime, NativeMimePrefix)
  {
    assert SpreadsheetMime[..|NativeMimePrefix|] == NativeMimePrefix;
  }
}
