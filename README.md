# rdss-pure-adaptor, modelled in Dafny

The Pure adaptor pulls dataset records from a Pure research-information server (API v5.9) and
prepares them for upload to object storage. This project models the parts of it that decide
what is requested, in which order, and under which names:

- **The Pure v5.9 client** (`PureApiClient`, file `pure_api.dfy`). It covers request paths built
  from the endpoint's path and a resource path, and the header dict merged into every request
  (`api-key`, `Accept: application/json`, `verify=False`). It covers the items and navigation
  links of a paged response. It covers the paging loop of `list_all_datasets`, which follows
  `next` links until a page has none or a page had an item rejected by the continuation
  predicate. The remote API is a `PageServer` object: a finite script of decoded JSON
  responses plus a log of the requests made. The loop is proved against a recursive
  specification, `Crawl`, and the lemmas about `Crawl` state ordering, termination and "no
  request after a rejection".
- **The dataset record** (`PureModels`, file `pure_models.dfy`). It covers the `uuid`, `files`,
  `original_metadata` and `doi_upload_key` accessors of `PureDataset`, and the rewrite
  `ws_url_remap` of web-service file URLs to public portal URLs. These are specified from the
  module's tests, because the module that defines them is not part of this model.
- **The storage uploader** (`S3Bucket`, file `s3_bucket.dfy`). It covers object keys built with
  POSIX `os.path.join` and `os.path.basename`, the bucket handle that is created lazily and at
  most once, and the two uploads, which share the key builder.
- **The entry point** (`PureAdaptor`, file `pure_adaptor.dfy`). It covers the check that every
  required environment variable is set. `sys.stderr.write` and `sys.exit(2)` become a returned
  `Exit(2, message)`.

Helper modules: `Wrappers` (Option, Result), `Json` (decoded JSON values), `Seqs` (Python's
`filter` and the key order of a dict built from a list) and `Strings` (`str.split` and
`str.join`).

Three behaviours of the code shape the model:

- A response without an `items` field is an empty page (pure/v59/api.py:75).
- Missing configuration ends the process with exit status 2 and a message on standard error
  (pure_adaptor/pure_adaptor.py:14-15).
- One predicate both filters items and stops paging (pure/v59/api.py:77-81).

## Model

| member | source | states |
|---|---|---|
| `PureApiClient.PureApi.constructor` | pure/v59/api.py:12-19 | the client keeps the split endpoint URL and the API key |
| `PureApiClient.PureApi.CreatePath` | pure/v59/api.py:21-24 | the path splits back on `/` into the endpoint's non-empty segments followed by the argument's; it is empty only when there are no segments |
| `PureApiClient.PureApi.CreatePathShape` | pure/v59/api.py:21-24 | the path never starts or ends with `/` and never has `//` |
| `PureApiClient.PureApi.CreatePathLeadingSlash` | pure/v59/api.py:21-24 | `/datasets` and `datasets` give the same path |
| `PureApiClient.PureApi.DatasetPath` | pure/v59/api.py:156-157 | the path of `get_dataset` is the endpoint's segments, then `datasets`, then the segments of the uuid |
| `PureApiClient.PureApi.CreateUrl` | pure/v59/api.py:26-41 | the URL keeps the endpoint's scheme and host, takes the path `_create_path` builds and the query in insertion order, and has no fragment; the endpoint's own query and fragment are dropped |
| `PureApiClient.PureApi.FirstPageUrl` | pure/v59/api.py:133-135 | the first listing request goes to the endpoint's host, its path is the endpoint's segments followed by `datasets`, and its query is `size` then `order` |
| `PureApiClient.MergeHeaders` | pure/v59/api.py:43-53 | the `headers` entry holds every new header with its new value and every old header not overridden with its old value; other keys are unchanged; an existing `headers` entry that is not a dict is an error |
| `PureApiClient.PureApi.UpdateHeaders` | pure/v59/api.py:43-53 | updates the kwargs object in place to the merged dict and returns that same object |
| `PureApiClient.GetKwargs` | pure/v59/api.py:84-95 | `_get` adds `api-key` with the client's key and `verify=False`, and keeps the caller's other headers and keys |
| `PureApiClient.JsonKwargs` | pure/v59/api.py:97-107 | `_get_json` sends `Accept: application/json` and `api-key`, `verify=False`, and keeps the caller's headers that are not overridden |
| `PureApiClient.ListingKwargsSent` | pure/v59/api.py:93-106 | called without kwargs, `_get_json` sends exactly the two headers and `verify=False` |
| `PureApiClient.PureApi.Get` | pure/v59/api.py:84-95 | one request is logged with the merged kwargs, and the answer is the next scripted response; a `headers` entry that is not a dict is a TypeError and sends nothing; the caller's kwargs are a value and stay as they were |
| `PureApiClient.PureApi.GetJson` | pure/v59/api.py:97-108 | one request is logged with the JSON kwargs, and the answer is the next scripted response; the caller's kwargs stay as they were |
| `PureApiClient.PageServer.Fetch` | pure/v59/api.py:107-108 | the transport logs the request and answers with the next scripted body, or fails once the script is used up |
| `PureApiClient.PageItems` | pure/v59/api.py:75 | a missing `items` field is an empty page; otherwise the items are the `items` array |
| `PureApiClient.ResponseItems` | pure/v59/api.py:67-82 | without a predicate: flag true and the items so far followed by all page items; with one: the accepted items appended in page order, and the flag is true exactly when no item was rejected |
| `PureApiClient.ResponseItemsAsWritten` | pure/v59/api.py:77-81 | as written, any call with a predicate on a well-formed page fails with TypeError; without a predicate it agrees with `ResponseItems` |
| `PureApiClient.AsWrittenFailsWithPredicate` | pure/v59/api.py:78-79 | a one-item page the predicate accepts makes the written code fail, while the intended code appends the item with flag true |
| `Seqs.Filter` | pure/v59/api.py:78 | the kept elements satisfy the predicate and come from the input; every accepted element is kept; the length is unchanged exactly when all are accepted |
| `Seqs.FilterSingle` | pure/v59/api.py:78 | a single element is kept exactly when the predicate accepts it |
| `Seqs.FilterAppend` | pure/v59/api.py:78 | filtering a concatenation filters each part and keeps them in order; with `FilterSingle` this fixes the result as the accepted elements in their input order, repetitions included |
| `PureApiClient.ParseNavLinks` | pure/v59/api.py:63-64 | the parse succeeds exactly when every entry has string `ref` and `href`; then pair i is entry i's `ref` and `href`, one pair per entry; otherwise the response is malformed |
| `PureApiClient.LinkMap` | pure/v59/api.py:62-65 | every entry of the link dict is one of the `{ref, href}` pairs |
| `PureApiClient.LinkMapKeys` | pure/v59/api.py:62-65 | the keys of the link dict are exactly the `ref`s |
| `PureApiClient.LinkMapLastWins` | pure/v59/api.py:62-65 | a `ref` maps to the `href` of its last occurrence |
| `PureApiClient.NavigationLinksOf` | pure/v59/api.py:55-65 | a missing `navigationLink` field gives the empty dict; otherwise the dict of its entries |
| `PureApiClient.PureApi.NavigationLinks` | pure/v59/api.py:55-65 | the method computes `NavigationLinksOf` |
| `PureApiClient.PureApi.LinksOf` | pure/v59/api.py:62-65 | the `for` loop that fills the dict gives `LinkMap` of the parsed entries, or the malformed-response error when an entry is malformed |
| `PureApiClient.Crawl` | pure/v59/api.py:133-147 | the loop's first request goes to the first-page URL, and it makes at most one request more than there are answers |
| `PureApiClient.CrawlSteps` | pure/v59/api.py:135-145 | the first request of a crawl goes to the given target |
| `PureApiClient.CrawlResult` | pure/v59/api.py:133-147 | on success the result is the items of the requested pages concatenated in request order, and the last page requested stops the loop; a failure comes from an exhausted script or from the last page requested |
| `PureApiClient.CrawlLength` | pure/v59/api.py:141-145 | at most one request per scripted response, plus one that goes unanswered |
| `PureApiClient.CrawlTargets` | pure/v59/api.py:141-145 | every page before the last requested had no rejection and a `next` link, and the following request went to that link |
| `PureApiClient.NoRequestAfterRejection` | pure/v59/api.py:141-145 | after a page with a rejected item no further page is requested, even if it has a `next` link |
| `PureApiClient.NoRequestAfterLastPage` | pure/v59/api.py:139-145 | after a page without a `next` link no further page is requested |
| `PureApiClient.ListingWithoutPredicate` | pure/v59/api.py:133-147 | without a predicate, pages linked in a chain are each requested exactly once and all their items come back in the order received |
| `PureApiClient.EarlyTermination` | pure/v59/api.py:137-145 | with pages P1 (all accepted), P2 (one rejected) and P3, the result is P1's items then P2's accepted items, and P3 is never requested |
| `PureApiClient.Wrapped` | pure/v59/api.py:147 | one `PureDataset` per item, in item order, each built from that item |
| `PureApiClient.PureApi.FetchPage` | pure/v59/api.py:142-145 | one round of the loop body makes exactly one request and yields the page's analysis appended to the items so far |
| `PureApiClient.PureApi.FetchFirst` | pure/v59/api.py:133-139 | the first request goes to the given target and is logged once; the crawl continues from the first page's flag, items and `next` link |
| `PureApiClient.PureApi.FollowOne` | pure/v59/api.py:141-145 | one iteration requests the previous page's `next` link, logs exactly one request, and the crawl continues from the new page |
| `PureApiClient.PureApi.FollowLinks` | pure/v59/api.py:141-145 | the `while` loop performs the rest of the crawl and logs one request per page it fetches |
| `PureApiClient.PureApi.ListAllDatasets` | pure/v59/api.py:127-147 | `size`, `order` and the predicate default to 20, `-modified` (most recently modified first) and none; the first request goes to `/datasets` with the given size and order; the requests logged are those of `Crawl`, one per fetched page; the result is `Crawl`'s items wrapped as datasets |
| `PureApiClient.PureApi.GetDataset` | pure/v59/api.py:149-158 | one request to `/datasets/<uuid>` with the JSON headers; the body wrapped as a dataset |
| `PureModels.WsUrlRemap` | pure_adaptor/pure/v59/tests/test_models.py:171-174 | the scheme becomes `http` and a leading `ws` path segment becomes `portal`; the host and the rest of the path are kept; a string without `scheme://` is unchanged |
| `PureModels.WsUrlRemapRewrites` | pure_adaptor/pure/v59/tests/test_models.py:171-174 | `scheme://host/ws/rest` becomes `http://host/portal/rest` for every host and rest |
| `PureModels.WsUrlRemapIdempotent` | pure_adaptor/pure/v59/tests/test_models.py:171-174 | rewriting a rewritten URL changes nothing |
| `PureModels.TestWsUrlRemap` | pure_adaptor/pure/v59/tests/test_models.py:171-174 | the test's URL is rewritten to the test's expected URL |
| `PureModels.OriginalMetadata` | pure_adaptor/pure/v59/tests/test_models.py:155-156 | the original metadata is the record the dataset was built from |
| `PureModels.Uuid` | pure_adaptor/pure/v59/tests/test_models.py:145-146 | the uuid is the record's `uuid` string |
| `PureModels.DoiUploadKey` | pure_adaptor/pure/v59/tests/test_models.py:158-165 | a non-empty DOI is the key; an empty or missing DOI gives `no_doi/<uuid>` |
| `PureModels.DocumentFiles` | pure_adaptor/pure/v59/tests/test_models.py:151-153 | one `(rewritten url, title)` pair per document, in document order |
| `PureModels.Files` | pure_adaptor/pure/v59/tests/test_models.py:151-153 | a record without `documents` has no files; a `documents` array gives the files of its documents; any other `documents` value is an error |
| `PureModels.TestUuidAndMetadata` | pure_adaptor/pure/v59/tests/test_models.py:132-156 | on the fixture record, `uuid` is the fixture's uuid and `original_metadata` is the record |
| `PureModels.TestDoiKey` | pure_adaptor/pure/v59/tests/test_models.py:158-159 | on the fixture record with a DOI, the key is that DOI |
| `PureModels.TestNoDoiKey` | pure_adaptor/pure/v59/tests/test_models.py:161-165 | on the fixture record with an empty DOI, the key is `no_doi/<uuid>` |
| `PureModels.TestFiles` | pure_adaptor/pure/v59/tests/test_models.py:151-153 | on the fixture record, the files are the rewritten URLs with their names, in order |
| `S3Bucket.Basename` | pure_adaptor/s3/s3_bucket.py:20 | the basename has no `/`; it is the whole path when the path has no `/`, otherwise the part after the last `/` |
| `S3Bucket.BasenameDropsDirectories` | pure_adaptor/s3/s3_bucket.py:20 | the basename of `dir/name` is `name` |
| `S3Bucket.JoinFromRelative` | pure_adaptor/s3/s3_bucket.py:17-26 | relative components without a `/` at either end are joined by single slashes |
| `S3Bucket.JoinFromAbsolute` | pure_adaptor/s3/s3_bucket.py:17-26 | a component starting with `/` discards every component before it |
| `S3Bucket.BuildKeySteps` | pure_adaptor/s3/s3_bucket.py:15-26 | with a truthy top-level prefix the key joins top, prefix and basename; with `None` or `''` it joins prefix and basename |
| `S3Bucket.BuildKey` | pure_adaptor/s3/s3_bucket.py:15-26 | the last `/`-separated piece of the key is the file's basename |
| `S3Bucket.BuildKeyIgnoresDirectories` | pure_adaptor/s3/s3_bucket.py:20 | the directories of the local file never change the key |
| `S3Bucket.BuildKeyWithTopLevel` | pure_adaptor/s3/s3_bucket.py:16-21 | with relative parts the key is `top/prefix/name` |
| `S3Bucket.BuildKeyWithoutTopLevel` | pure_adaptor/s3/s3_bucket.py:22-26 | with no top-level prefix and a relative prefix the key is `prefix/name` |
| `S3Bucket.BuildKeyAbsolutePrefix` | pure_adaptor/s3/s3_bucket.py:16-21 | an absolute prefix discards the top-level prefix |
| `S3Bucket.UploadsShareKey` | pure_adaptor/s3/s3_bucket.py:36-44 | a local file and a JSON document of the same name under the same prefix get one key, which ends in that name |
| `S3Bucket.BucketUploader.constructor` | pure_adaptor/s3/s3_bucket.py:9-13 | the fields are set, an empty profile counts as none, and no bucket handle exists yet |
| `S3Bucket.BucketUploader.GetBucket` | pure_adaptor/s3/s3_bucket.py:28-34 | the first access opens one session and creates the handle; later accesses return the same handle and open no session |
| `S3Bucket.BucketUploader.UploadFile` | pure_adaptor/s3/s3_bucket.py:36-39 | the file is stored under `_build_key(prefix, source_file)` in the one bucket handle |
| `S3Bucket.BucketUploader.UploadJsonObj` | pure_adaptor/s3/s3_bucket.py:41-44 | the document is stored under `_build_key(prefix, file_name)` in the one bucket handle |
| `Seqs.Distinct` | pure_adaptor/pure_adaptor.py:10 | the dict built from the names has each name once |
| `PureAdaptor.MissingNames` | pure_adaptor/pure_adaptor.py:10-12 | a name is reported exactly when it is among the names and unset or empty |
| `PureAdaptor.MissingNamesOrder` | pure_adaptor/pure_adaptor.py:10-12 | the reported names have no repetition and follow the order of their first occurrence |
| `PureAdaptor.AllEnvVarsExist` | pure_adaptor/pure_adaptor.py:9-15 | exit with status 2 exactly when some variable is unset or empty, with the message prefix followed by the missing names joined by `, `; otherwise return normally with no message |
| `PureAdaptor.RepeatedNameReportedOnce` | pure_adaptor/pure_adaptor.py:10 | a name given twice and unset is reported once |
| `PureAdaptor.Main` | pure_adaptor/pure_adaptor.py:18-26 | `main` goes on exactly when `API_URL`, `API_VERSION`, `API_KEY` and `UPLOAD_BUCKET` are all set |
| `PureAdaptor.MainReportsMissingKey` | pure_adaptor/pure_adaptor.py:18-26 | with only `API_KEY` unset, the message names exactly `API_KEY` |

## Left out

- Streaming download (`download_file`, pure/v59/api.py:110-125) and the download manager: HTTP streaming and file writes.
- The HTTP transport (`requests.get`): requests go to the `PageServer` script, which answers the k-th request with the k-th decoded body. Cyclic or unbounded `next` chains are cut off by the finite script: a request past its end fails.
- `urlencode`, `urlunsplit` and `urlsplit`: a URL built by the client is kept as its parts (scheme, host, path, query pairs); the endpoint arrives already split.
- `changed_datasets` (pure/v59/api.py:160-161) is an empty stub, and the commented-out steps of `main` have no behaviour.
- The canonical-metadata mapping tests and `modified_date`: they rest on a JMESPath mapping, external taxonomy data and ISO-8601 parsing that are not part of this model.
- boto3 sessions, `upload_fileobj` and `json.dumps`: a bucket handle is a `Bucket` object whose uploads are logged as (key, body), and a JSON body is kept as the document.
- JSON numbers are integers; floating point is not modelled.
- PureApiClient.ParseNavLinks: an entry whose `ref` or `href` is not a string is treated as malformed, where Python would store any value.
- PureApiClient.PageItems: an `items` field that is not an array is a malformed response. Python fails there as well in most cases: without a predicate, `items + new_items` (pure/v59/api.py:82) raises TypeError. With a predicate, the filtered list runs over a dict's keys or a string's characters; when the predicate rejects one of them, Python goes on with the kept keys or characters as items, where the model reports an error.
- PureApiClient.NavigationLinksOf: a `navigationLink` field that is not an array is a malformed response. Python iterates a dict's keys or a string's characters there, and `nav_link['ref']` (pure/v59/api.py:64) raises TypeError on the first of them. Only an empty `{}` or `""` goes through in Python, as an empty dict of links, where the model reports an error.
- PureModels.WsUrlRemap: generalised from the single example the tests assert; only the scheme and a leading `ws` path segment change.
- PureModels.DoiUploadKey: a record without a `uuid` and without a DOI has no key (the accessors' own error handling is not part of this model).

## Findings

| source | as written | input that shows it | evidently intended | confidence | as-written member | corrected member |
|---|---|---|---|---|---|---|
| pure/v59/api.py:78-79 | `len(filter(cont_func, new_items))`: in Python 3 `filter` returns an iterator, so `len` raises TypeError | any `list_all_datasets` call with a `cont_func`, e.g. a first page with one item the predicate accepts | the filtered list is materialised: accepted items are appended and the flag is false exactly when one was rejected (docstring at pure/v59/api.py:68-73) | not executed | `PureApiClient.AsWrittenFailsWithPredicate` | `PureApiClient.ResponseItems` |
