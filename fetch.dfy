/** Fetching input URLs: the choice of fetcher, the loop that sorts URLs into
    downloads and errors, and the decisions `fetch_http` and
    `fetch_docker_image` take on what the network or `skopeo` returned. */
module Fetch {
  import opened Wrappers
  import opened Strings

  // ---------------------------------------------------------------------------
  // `get_fetcher`
  // ---------------------------------------------------------------------------

  datatype Fetcher = FetchHttp | FetchDockerImage

  const DockerPrefix: string := "docker://"

  /** `get_fetcher(url)` */
  function GetFetcher(url: string): (f: Fetcher)
    ensures f == FetchDockerImage <==> StartsWith(url, DockerPrefix)
  {
    if StartsWith(url, DockerPrefix) then FetchDockerImage else FetchHttp
  }

  /** A docker reference goes to `skopeo`; an `http(s)` URL to `requests`. */
  lemma FetcherByScheme(name: string, url: string)
    ensures GetFetcher(DockerPrefix + name) == FetchDockerImage
    ensures StartsWith(url, "http") ==> GetFetcher(url) == FetchHttp
  {
    assert (DockerPrefix + name)[..|DockerPrefix|] == DockerPrefix;
    if StartsWith(url, "http") {
      assert url[0] == 'h' != DockerPrefix[0];
    }
  }

  // ---------------------------------------------------------------------------
  // `fetch_urls`
  // ---------------------------------------------------------------------------

  /** The `urls` argument: a list, or a string of whitespace-separated URLs. */
  datatype Urls = UrlList(urls: seq<string>) | UrlText(text: string)

  /** The URLs the loop visits: `[url.strip() for url in urls.split()]` for a string. */
  function UrlsOf(urls: Urls): seq<string> {
    match urls
    case UrlList(list) => list
    case UrlText(text) =>
      var pieces := Split(text);
      seq(|pieces|, i requires 0 <= i < |pieces| => Strip(pieces[i]))
  }

  /** A string argument yields exactly the pieces of `split()`: non-empty
      URLs without whitespace. */
  lemma UrlTextSplit(text: string)
    ensures UrlsOf(UrlText(text)) == Split(text)
    ensures forall i :: 0 <= i < |UrlsOf(UrlText(text))| ==> IsWord(UrlsOf(UrlText(text))[i])
  {
    var pieces := Split(text);
    SplitGivesWords(text);
    forall i | 0 <= i < |pieces| ensures Strip(pieces[i]) == pieces[i] {
      StripWord(pieces[i]);
    }
  }

  /** What calling the chosen fetcher on a URL gives: a download, or the
      exception it raised. */
  function Outcome<D, E>(url: string, fetch: (Fetcher, string) -> Result<D, E>): Result<D, E> {
    fetch(GetFetcher(url), url)
  }

  /** The downloads of the URLs whose fetch returned, in order. */
  function Downloaded<D, E>(urls: seq<string>, fetch: (Fetcher, string) -> Result<D, E>): seq<D>
    decreases |urls|
  {
    if urls == [] then []
    else
      var rest := Downloaded(urls[..|urls| - 1], fetch);
      match Outcome(urls[|urls| - 1], fetch)
      case Success(d) => rest + [d]
      case Failure(_) => rest
  }

  /** The URLs whose fetch raised, in order. */
  function Failed<D, E>(urls: seq<string>, fetch: (Fetcher, string) -> Result<D, E>): seq<string>
    decreases |urls|
  {
    if urls == [] then []
    else
      var rest := Failed(urls[..|urls| - 1], fetch);
      match Outcome(urls[|urls| - 1], fetch)
      case Success(_) => rest
      case Failure(_) => rest + [urls[|urls| - 1]]
  }

  /** `fetch_urls(urls)`: `fetch` stands for the two fetchers, which do the I/O. */
  method FetchUrls<D, E>(urls: Urls, fetch: (Fetcher, string) -> Result<D, E>)
    returns (downloads: seq<D>, errors: seq<string>)
    ensures downloads == Downloaded(UrlsOf(urls), fetch)
    ensures errors == Failed(UrlsOf(urls), fetch)
  {
    var list := UrlsOf(urls);
    downloads, errors := [], [];
    for i := 0 to |list|
      invariant downloads == Downloaded(list[..i], fetch)
      invariant errors == Failed(list[..i], fetch)
    {
      var url := list[i];
      var fetcher := GetFetcher(url);
      var outcome := fetch(fetcher, url);
      assert list[..i + 1][..i] == list[..i] && list[..i + 1][i] == url;
      match outcome
      case Success(downloaded) =>
        downloads := downloads + [downloaded];
      case Failure(_) =>
        errors := errors + [url];
    }
    assert list[..|list|] == list;
  }

  /** Every URL lands in exactly one of the two lists. */
  lemma {:induction false} FetchPartition<D, E>(urls: seq<string>, fetch: (Fetcher, string) -> Result<D, E>)
    ensures |Downloaded(urls, fetch)| + |Failed(urls, fetch)| == |urls|
    decreases |urls|
  {
    if urls != [] {
      FetchPartition(urls[..|urls| - 1], fetch);
    }
  }

  /** A URL is listed as an error exactly when some fetch of it raised. */
  lemma {:induction false} FailedIff<D, E>(urls: seq<string>, fetch: (Fetcher, string) -> Result<D, E>, url: string)
    ensures url in Failed(urls, fetch)
        <==> exists i :: 0 <= i < |urls| && urls[i] == url && Outcome(urls[i], fetch).Failure?
    decreases |urls|
  {
    if urls != [] {
      var init, last := urls[..|urls| - 1], urls[|urls| - 1];
      FailedIff(init, fetch, url);
      if exists i :: 0 <= i < |init| && init[i] == url && Outcome(init[i], fetch).Failure? {
        var i :| 0 <= i < |init| && init[i] == url && Outcome(init[i], fetch).Failure?;
        assert urls[i] == init[i];
      }
      if exists i :: 0 <= i < |urls| && urls[i] == url && Outcome(urls[i], fetch).Failure? {
        var i :| 0 <= i < |urls| && urls[i] == url && Outcome(urls[i], fetch).Failure?;
        if i < |init| { assert init[i] == urls[i]; }
      }
    }
  }

  /** A download is listed exactly when some URL's fetch returned it. */
  lemma {:induction false} DownloadedIff<D, E>(urls: seq<string>, fetch: (Fetcher, string) -> Result<D, E>, d: D)
    ensures d in Downloaded(urls, fetch)
        <==> exists i :: 0 <= i < |urls| && Outcome(urls[i], fetch) == Success(d)
    decreases |urls|
  {
    if urls != [] {
      var init := urls[..|urls| - 1];
      DownloadedIff(init, fetch, d);
      if exists i :: 0 <= i < |init| && Outcome(init[i], fetch) == Success(d) {
        var i :| 0 <= i < |init| && Outcome(init[i], fetch) == Success(d);
        assert urls[i] == init[i];
      }
      if exists i :: 0 <= i < |urls| && Outcome(urls[i], fetch) == Success(d) {
        var i :| 0 <= i < |urls| && Outcome(urls[i], fetch) == Success(d);
        if i < |init| { assert init[i] == urls[i]; }
      }
    }
  }

  // ---------------------------------------------------------------------------
  // `fetch_http` and `fetch_docker_image`
  // ---------------------------------------------------------------------------

  /** The `Download` record, without the checksums and the output path. */
  datatype Download = Download(uri: string, directory: string, filename: string, size: nat)

  /** The exceptions the fetchers raise: a status other than 200, the
      `open(output_file, "wb")` of a path that is a directory, or a `skopeo`
      failure. */
  datatype FetchError = RequestException | IsADirectoryError | FetchDockerImageError(output: string)

  /** `to or tempfile.mkdtemp()`: `tempDir` is the directory `mkdtemp` made. */
  function DownloadDirectory(to: Option<string>, tempDir: string): string {
    if to.Some? && to.value != "" then to.value else tempDir
  }

  /** What `fetch_http` reads of the response: the status code, the
      `filename` parameter of its content-disposition header, the path part
      of the (possibly redirected) response URL, and the body's length. */
  datatype Response = Response(statusCode: int, filenameParam: Option<string>, urlPath: string, size: nat)

  /** The parameter when it is given and non-empty, else the URL path's last component. */
  function HttpFilename(response: Response): string {
    if response.filenameParam.Some? && response.filenameParam.value != "" then response.filenameParam.value
    else PathName(response.urlPath)
  }

  /** `Path(directory, name)` is the download directory itself or one of its
      ancestors: every piece of the name is empty, "." or "..". */
  predicate DenotesDirectory(name: string) {
    forall piece :: piece in SplitSlash(name) ==> piece == "" || piece == "." || piece == ".."
  }

  /** `fetch_http(uri, to)` once `requests.get(uri)` has answered `response`. */
  function FetchHttpResult(uri: string, to: Option<string>, tempDir: string, response: Response)
    : (r: Result<Download, FetchError>)
    ensures r.Failure? <==> response.statusCode != 200 || DenotesDirectory(HttpFilename(response))
    ensures r.Failure? && response.statusCode != 200 ==> r.error == RequestException
    ensures r.Failure? && response.statusCode == 200 ==> r.error == IsADirectoryError
    ensures r.Success? ==> r.value == Download(uri, DownloadDirectory(to, tempDir), HttpFilename(response), response.size)
  {
    if response.statusCode != 200 then Failure(RequestException)
    else
      var filename := HttpFilename(response);
      if DenotesDirectory(filename) then Failure(IsADirectoryError)
      else Success(Download(uri, DownloadDirectory(to, tempDir), filename, response.size))
  }

  /** A slash-free name denotes a directory exactly when it is "", "." or "..". */
  lemma PlainNameDenotesDirectory(name: string)
    requires '/' !in name
    ensures DenotesDirectory(name) <==> name == "" || name == "." || name == ".."
  {
    SplitSlashPlain(name);
    assert name in SplitSlash(name);
  }

  /** A response of status 200 whose name is a plain file name other than
      ".." is saved under that name. */
  lemma PlainNameIsSaved(uri: string, to: Option<string>, tempDir: string, response: Response)
    requires response.statusCode == 200
    requires IsFileName(HttpFilename(response)) && HttpFilename(response) != ".."
    ensures FetchHttpResult(uri, to, tempDir, response)
         == Success(Download(uri, DownloadDirectory(to, tempDir), HttpFilename(response), response.size))
  {
    PlainNameDenotesDirectory(HttpFilename(response));
  }

  /** Without a usable header and with status 200, the download fails exactly
      when the URL path names no file ("" for `https://host/`) or ends in "..". */
  lemma UrlNameFails(uri: string, to: Option<string>, tempDir: string, response: Response)
    requires response.statusCode == 200
    requires response.filenameParam.None? || response.filenameParam == Some("")
    ensures FetchHttpResult(uri, to, tempDir, response).Failure?
        <==> PathName(response.urlPath) == "" || PathName(response.urlPath) == ".."
  {
    PathNameIsFileName(response.urlPath);
    PlainNameDenotesDirectory(PathName(response.urlPath));
  }

  /** `https://example.org/` answered with status 200 and no header: the
      name is "", the output file is the directory, and `open` raises. */
  lemma RootUrlFails(uri: string, to: Option<string>, tempDir: string, size: nat)
    ensures FetchHttpResult(uri, to, tempDir, Response(200, None, "/", size)) == Failure(IsADirectoryError)
  {
    assert SplitSlash("/") == ["", ""] by {
      assert "/"[1..] == "";
    }
    assert PathName("/") == "";
    PlainNameDenotesDirectory("");
  }

  /** Without a usable header, a URL ending in `dir/name` saves as `name`. */
  lemma HttpFilenameFromUrl(response: Response, dir: string, name: string)
    requires response.filenameParam.None? || response.filenameParam == Some("")
    requires response.urlPath == dir + "/" + name && IsFileName(name)
    ensures HttpFilename(response) == name
  {
    PathNameOfJoin(dir, name);
  }

  /** A name taken from the URL holds no slash and is never ".": it is empty
      or a plain file name, which may still be "..". */
  lemma HttpFilenameIsPlain(response: Response)
    requires response.filenameParam.None? || response.filenameParam == Some("")
    ensures HttpFilename(response) == "" || IsFileName(HttpFilename(response))
  {
    PathNameIsFileName(response.urlPath);
  }

  /** `docker_reference.replace("docker://", "")` */
  function ImageName(reference: string): string {
    RemoveAll(reference, DockerPrefix)
  }

  /** `f"{python_safe_name(name)}.tar"`: `safeName` is `python_safe_name`. */
  function DockerFilename(reference: string, safeName: string -> string): string {
    safeName(ImageName(reference)) + ".tar"
  }

  /** `fetch_docker_image(docker_reference, to)` once `skopeo` has exited with
      `exitCode` and printed `output`; `size` is the size of the archive it wrote. */
  function FetchDockerImageResult(reference: string, to: Option<string>, tempDir: string,
                                  safeName: string -> string, exitCode: int, output: string, size: nat)
    : (r: Result<Download, FetchError>)
    ensures r.Failure? <==> exitCode != 0
    ensures r.Failure? ==> r.error == FetchDockerImageError(output)
    ensures r.Success? ==> r.value == Download(reference, DownloadDirectory(to, tempDir),
                                               DockerFilename(reference, safeName), size)
  {
    if exitCode != 0 then Failure(FetchDockerImageError(output))
    else Success(Download(reference, DownloadDirectory(to, tempDir), DockerFilename(reference, safeName), size))
  }

  /** The image name of `docker://name` is `name`, when `name` does not
      itself hold the prefix. */
  lemma ImageNameOfReference(name: string)
    requires forall i :: !OccursAt(name, DockerPrefix, i)
    ensures ImageName(DockerPrefix + name) == name
  {
    var reference := DockerPrefix + name;
    assert reference[..|DockerPrefix|] == DockerPrefix;
    assert reference[|DockerPrefix|..] == name;
    RemoveAllAbsent(name, DockerPrefix);
  }

  /** The archive is always named `*.tar`. */
  lemma DockerFilenameIsTar(reference: string, safeName: string -> string)
    ensures var f := DockerFilename(reference, safeName); |f| >= 4 && f[|f| - 4..] == ".tar"
  {
  }
}
