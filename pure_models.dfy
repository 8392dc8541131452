/** The dataset record of the Pure v5.9 API (`PureDataset`) and the rewrite of web-service file
    URLs to public portal URLs (`ws_url_remap`), as the tests in
    pure_adaptor/pure/v59/tests/test_models.py pin them down. */
module PureModels {
  import opened Wrappers
  import opened Json
  import opened Seqs
  import opened Strings

  // ---------------------------------------------------------------- URL rewrite

  /** A URL cut at `scheme://`, at the first `/` after the host, and the rest. */
  datatype UrlParts = UrlParts(scheme: string, host: string, path: string)

  predicate WellFormedParts(u: UrlParts)
  {
    ':' !in u.scheme && '/' !in u.host && (u.path == "" || u.path[0] == '/')
  }

  function Render(u: UrlParts): string
  {
    u.scheme + ("://" + (u.host + u.path))
  }

  /** A `://` at index `i` cuts the string into scheme and the rest. */
  lemma SchemeCut(url: string, i: nat)
    requires i + 3 <= |url| && url[i] == ':' && url[i + 1] == '/' && url[i + 2] == '/'
    ensures url == url[..i] + ("://" + url[i + 3..])
  {
    assert url[i..i + 3] == "://";
    assert url == url[..i] + url[i..i + 3] + url[i + 3..];
  }

  /** The host (up to the first `/`) and the path (from it) of `host/path`. */
  function SplitHost(hostAndPath: string): (r: (string, string))
    ensures '/' !in r.0 && (r.1 == "" || r.1[0] == '/') && r.0 + r.1 == hostAndPath
  {
    match IndexOf(hostAndPath, '/')
    case None => (hostAndPath, "")
    case Some(j) =>
      assert hostAndPath == hostAndPath[..j] + hostAndPath[j..];
      (hostAndPath[..j], hostAndPath[j..])
  }

  /** The parts of an absolute URL; `None` when there is no `scheme://`. */
  function ParseUrl(url: string): (r: Option<UrlParts>)
    ensures r.Some? ==> WellFormedParts(r.value) && Render(r.value) == url
  {
    match IndexOf(url, ':')
    case None => None
    case Some(i) =>
      if i + 3 <= |url| && url[i + 1] == '/' && url[i + 2] == '/' then
        SchemeCut(url, i);
        var (host, path) := SplitHost(url[i + 3..]);
        Some(UrlParts(url[..i], host, path))
      else None
  }

  /** The host is everything before the first `/`. */
  lemma SplitHostOf(host: string, path: string)
    requires '/' !in host && (path == "" || path[0] == '/')
    ensures SplitHost(host + path) == (host, path)
  {
    if path == "" {
      assert host + path == host;
    } else {
      assert host + path == host + ['/'] + path[1..];
      IndexOfAfter(host, '/', path[1..]);
      assert (host + path)[..|host|] == host && (host + path)[|host|..] == path;
    }
  }

  /** The scheme is everything before the first `:`. */
  lemma SchemeOf(scheme: string, rest: string)
    requires ':' !in scheme
    ensures var url := scheme + ("://" + rest);
      && IndexOf(url, ':') == Some(|scheme|) && |scheme| + 3 <= |url|
      && url[|scheme| + 1] == '/' && url[|scheme| + 2] == '/'
      && url[..|scheme|] == scheme && url[|scheme| + 3..] == rest
  {
    var url := scheme + ("://" + rest);
    assert url == scheme + [':'] + ("//" + rest);
    IndexOfAfter(scheme, ':', "//" + rest);
  }

  /** Parsing a rendered URL gives its parts back. */
  lemma ParseRender(u: UrlParts)
    requires WellFormedParts(u)
    ensures ParseUrl(Render(u)) == Some(u)
  {
    SchemeOf(u.scheme, u.host + u.path);
    SplitHostOf(u.host, u.path);
  }

  /** The path starts with the segment `ws`. */
  predicate LeadingWs(path: string)
  {
    |path| >= 3 && path[0] == '/' && path[1] == 'w' && path[2] == 's' && (|path| == 3 || path[3] == '/')
  }

  /** The path rewrite: a leading `ws` segment becomes `portal`, the rest is kept. */
  function RemapPath(path: string): (r: string)
    ensures (path == "" || path[0] == '/') ==> (r == "" || r[0] == '/')
    ensures !LeadingWs(r)
  {
    if LeadingWs(path) then "/portal" + path[3..] else path
  }

  /** What the rewrite does to the parts of a URL: only the scheme and the path change. */
  function RemapParts(u: UrlParts): (v: UrlParts)
    ensures WellFormedParts(u) ==> WellFormedParts(v)
  {
    UrlParts("http", u.host, RemapPath(u.path))
  }

  /** `ws_url_remap`: the scheme becomes `http` and a leading `ws` path segment becomes
      `portal`; host and the rest of the path are kept. A string without `scheme://` is
      returned unchanged. */
  function WsUrlRemap(url: string): (r: string)
    ensures ParseUrl(url).None? ==> r == url
    ensures ParseUrl(url).Some? ==> ParseUrl(r) == Some(RemapParts(ParseUrl(url).value))
  {
    match ParseUrl(url)
    case None => url
    case Some(u) =>
      ParseRender(RemapParts(u));
      Render(RemapParts(u))
  }

  /** On a URL given by its parts, the rewrite changes exactly the scheme and the path. */
  lemma WsUrlRemapParts(u: UrlParts)
    requires WellFormedParts(u)
    ensures WsUrlRemap(Render(u)) == Render(UrlParts("http", u.host, RemapPath(u.path)))
  {
    ParseRender(u);
  }

  lemma Reassociate(a: string, b: string, c: string, d: string, e: string)
    ensures (a + b) + c + d + e == a + (b + (c + (d + e)))
  {
  }

  /** A leading `ws` segment becomes `portal`. */
  lemma RemapPathWs(rest: string)
    ensures RemapPath("/ws/" + rest) == "/portal/" + rest
  {
    var p := "/ws/" + rest;
    assert LeadingWs(p);
    assert p[3..] == "/" + rest;
    assert "/portal" + ("/" + rest) == "/portal/" + rest;
  }

  /** A `scheme://host/ws/...` file URL becomes `http://host/portal/...`, rest untouched. */
  lemma WsUrlRemapRewrites(scheme: string, host: string, rest: string)
    requires ':' !in scheme && '/' !in host
    ensures WsUrlRemap(scheme + ("://" + (host + ("/ws/" + rest))))
         == "http" + ("://" + (host + ("/portal/" + rest)))
  {
    RemapPathWs(rest);
    WsUrlRemapParts(UrlParts(scheme, host, "/ws/" + rest));
  }

  /** A rewritten URL is not rewritten again. */
  lemma WsUrlRemapIdempotent(url: string)
    ensures WsUrlRemap(WsUrlRemap(url)) == WsUrlRemap(url)
  {
    match ParseUrl(url)
    case None =>
    case Some(u) =>
      var v := RemapParts(u);
      WsUrlRemapParts(v);
  }

  /** The example of `test_ws_url_remap`, written as the concatenation of its parts. */
  lemma TestWsUrlRemap()
    ensures WsUrlRemap("https://" + "pure_endpoint_url.ac.uk" + "/ws/" + "files/an_id/test_file.pdf")
         == "http://" + "pure_endpoint_url.ac.uk" + "/portal/" + "files/an_id/test_file.pdf"
  {
    var host, rest := "pure_endpoint_url.ac.uk", "files/an_id/test_file.pdf";
    assert "https://" == "https" + "://";
    assert "http://" == "http" + "://";
    Reassociate("https", "://", host, "/ws/", rest);
    Reassociate("http", "://", host, "/portal/", rest);
    WsUrlRemapRewrites("https", host, rest);
  }

  // ---------------------------------------------------------------- datasets

  /** One dataset of the Pure API: the JSON object it was built from, kept unchanged. */
  datatype PureDataset = PureDataset(originalMetadata: Json)

  /** `original_metadata`: what the dataset was built from. */
  function OriginalMetadata(d: PureDataset): (r: Json)
    ensures d == PureDataset(r)
  {
    d.originalMetadata
  }

  /** `uuid`: the record's `uuid` string. */
  function Uuid(d: PureDataset): (r: Option<string>)
    ensures r.Some? <==> d.originalMetadata.JObj? && "uuid" in d.originalMetadata.fields
                         && d.originalMetadata.fields["uuid"].JStr?
    ensures r.Some? ==> JStr(r.value) == d.originalMetadata.fields["uuid"]
  {
    GetString(d.originalMetadata, "uuid")
  }

  /** `doi_upload_key`: the DOI when the record has a non-empty one, otherwise
      `no_doi/<uuid>`; `None` when neither a DOI nor a uuid is there. */
  function DoiUploadKey(d: PureDataset): (r: Option<string>)
    ensures r.Some? ==> r.value != ""
    ensures match GetString(d.originalMetadata, "doi")
            case Some(doi) => doi != "" ==> r == Some(doi)
            case None => true
    ensures (GetString(d.originalMetadata, "doi") in {None, Some("")}) ==>
              r == (if Uuid(d).Some? then Some("no_doi/" + Uuid(d).value) else None)
  {
    var noDoiKey := match Uuid(d) case Some(u) => Some("no_doi/" + u) case None => None;
    match GetString(d.originalMetadata, "doi")
    case Some(doi) => if doi != "" then Some(doi) else noDoiKey
    case None => noDoiKey
  }

  /** The `(url, title)` pair of one document, with the URL rewritten for download. */
  function DocumentFile(doc: Json): Option<(string, string)>
  {
    match (GetString(doc, "url"), GetString(doc, "title"))
    case (Some(url), Some(title)) => Some((WsUrlRemap(url), title))
    case _ => None
  }

  /** The files of a list of documents, one per document and in document order. */
  function DocumentFiles(docs: seq<Json>): (r: Option<seq<(string, string)>>)
    ensures r.Some? <==> forall i :: 0 <= i < |docs| ==> DocumentFile(docs[i]).Some?
    ensures r.Some? ==> |r.value| == |docs|
    ensures r.Some? ==> forall i :: 0 <= i < |docs| ==> r.value[i] == DocumentFile(docs[i]).value
    decreases |docs|
  {
    if docs == [] then Some([])
    else match (DocumentFile(docs[0]), DocumentFiles(docs[1..]))
      case (Some(f), Some(fs)) => Some([f] + fs)
      case _ => None
  }

  /** `files`: the rewritten URL and title of every document (none when the record has no
      `documents`). */
  function Files(d: PureDataset): (r: Option<seq<(string, string)>>)
    ensures match Get(d.originalMetadata, "documents")
            case None => r == Some([])
            case Some(JArr(docs)) => r == DocumentFiles(docs)
            case Some(_) => r.None?
  {
    match Get(d.originalMetadata, "documents")
    case None => Some([])
    case Some(JArr(docs)) => DocumentFiles(docs)
    case Some(_) => None
  }

  // ---------------------------------------------------------------- the tests' fixture

  /** The document object `{'title': name, 'url': url}` of the fixture. */
  function FixtureDocument(url: string, name: string): Json
  {
    JObj(map["title" := JStr(name), "url" := JStr(url)])
  }

  /** The fixture record of `TestPureDataset`, for any uuid, doi, time and file pairs. */
  function FixtureRecord(uuid: string, doi: string, modified: string, urlNamePairs: seq<(string, string)>): Json
  {
    JObj(map[
      "uuid" := JStr(uuid),
      "doi" := JStr(doi),
      "info" := JObj(map["modifiedDate" := JStr(modified), "modifiedBy" := JStr("testuser")]),
      "documents" := JArr(seq(|urlNamePairs|, i requires 0 <= i < |urlNamePairs| =>
                                 FixtureDocument(urlNamePairs[i].0, urlNamePairs[i].1)))
    ])
  }

  /** `test_uuid` and `test_original_metadata`. */
  lemma TestUuidAndMetadata(uuid: string, doi: string, modified: string, pairs: seq<(string, string)>)
    ensures var j := FixtureRecord(uuid, doi, modified, pairs);
      Uuid(PureDataset(j)) == Some(uuid) && OriginalMetadata(PureDataset(j)) == j
  {
  }

  /** `test_doi_key`: a non-empty DOI is the upload key. */
  lemma TestDoiKey(uuid: string, doi: string, modified: string, pairs: seq<(string, string)>)
    requires doi != ""
    ensures DoiUploadKey(PureDataset(FixtureRecord(uuid, doi, modified, pairs))) == Some(doi)
  {
    assert GetString(FixtureRecord(uuid, doi, modified, pairs), "doi") == Some(doi);
  }

  /** `test_no_doi_key`: with an empty DOI the key is `no_doi/<uuid>`. */
  lemma TestNoDoiKey(uuid: string, modified: string, pairs: seq<(string, string)>)
    ensures DoiUploadKey(PureDataset(FixtureRecord(uuid, "", modified, pairs))) == Some("no_doi/" + uuid)
  {
    assert GetString(FixtureRecord(uuid, "", modified, pairs), "doi") == Some("");
  }

  /** `test_files`: the files are the rewritten URLs with their names, in order. */
  lemma TestFiles(uuid: string, doi: string, modified: string, pairs: seq<(string, string)>)
    ensures Files(PureDataset(FixtureRecord(uuid, doi, modified, pairs)))
         == Some(seq(|pairs|, i requires 0 <= i < |pairs| => (WsUrlRemap(pairs[i].0), pairs[i].1)))
  {
    var docs := seq(|pairs|, i requires 0 <= i < |pairs| => FixtureDocument(pairs[i].0, pairs[i].1));
    var expected := seq(|pairs|, i requires 0 <= i < |pairs| => (WsUrlRemap(pairs[i].0), pairs[i].1));
    assert Get(FixtureRecord(uuid, doi, modified, pairs), "documents") == Some(JArr(docs));
    forall i | 0 <= i < |docs|
      ensures DocumentFile(docs[i]) == Some((WsUrlRemap(pairs[i].0), pairs[i].1))
    {
      assert GetString(docs[i], "url") == Some(pairs[i].0);
      assert GetString(docs[i], "title") == Some(pairs[i].1);
    }
    assert DocumentFiles(docs).value == expected;
  }
}
