/** The client of the Pure v5.9 API (pure/v59/api.py): request paths and headers, the items and
    navigation links of a paged response, and the loop that follows `next` links while a
    continuation predicate accepts every item of a page. */
module PureApiClient {
  import opened Wrappers
  import opened Json
  import opened Seqs
  import opened Strings
  import PureModels

  /** What aborts a call of the client. */
  datatype Failure =
    | TypeError          // Python raises TypeError in the client's own code
    | MalformedResponse  // the response is not an object with the expected fields
    | RequestFailed      // the transport raised; no response

  type Outcome<T> = Result<T, Failure>

  // ---------------------------------------------------------------- URLs

  /** The result of `urllib.parse.urlsplit` on the endpoint URL. */
  datatype SplitUrl = SplitUrl(scheme: string, netloc: string, path: string, query: string, fragment: string)

  /** A URL as `_create_url` hands its parts to `urlunsplit`: scheme, host, path, the query dict
      (in insertion order, before `urlencode`) and an empty fragment. */
  datatype Url = Url(scheme: string, netloc: string, path: string, query: seq<(string, Json)>, fragment: string)

  /** What a request is sent to: a URL built by the client, or an `href` taken from a response. */
  datatype Target = Built(url: Url) | Link(href: string)

  // ---------------------------------------------------------------- request keyword arguments

  /** A value in the keyword-argument dict passed to `requests.get`. */
  datatype KwValue = KwHeaders(headers: map<string, string>) | KwBool(flag: bool) | KwText(text: string)

  /** One request as the transport receives it. */
  datatype Request = Request(target: Target, kwargs: map<string, KwValue>)

  /** The `**kwargs` dict of a request, which the client updates in place. */
  class RequestKwargs {
    var entries: map<string, KwValue>

    constructor(entries: map<string, KwValue>)
      ensures this.entries == entries
    {
      this.entries := entries;
    }
  }

  /** `kwargs_dict.get('headers', dict())` when that is a header dict. */
  function OldHeaders(kw: map<string, KwValue>): map<string, string>
  {
    if "headers" in kw && kw["headers"].KwHeaders? then kw["headers"].headers else map[]
  }

  /** `_update_headers` as a value: `{**headers, **new_headers}` stored under `headers`; `None`
      when the existing `headers` entry is not a mapping (Python's TypeError). */
  function MergeHeaders(kw: map<string, KwValue>, newHeaders: map<string, string>): (r: Option<map<string, KwValue>>)
    ensures r.None? <==> "headers" in kw && !kw["headers"].KwHeaders?
    ensures r.Some? ==> r.value.Keys == kw.Keys + {"headers"}
    ensures r.Some? ==> forall k :: k in kw && k != "headers" ==> r.value[k] == kw[k]
    ensures r.Some? ==> r.value["headers"].KwHeaders?
    ensures r.Some? ==> r.value["headers"].headers.Keys == OldHeaders(kw).Keys + newHeaders.Keys
    ensures r.Some? ==> forall h :: h in newHeaders ==> r.value["headers"].headers[h] == newHeaders[h]
    ensures r.Some? ==> forall h :: h in OldHeaders(kw) && h !in newHeaders ==>
                           r.value["headers"].headers[h] == OldHeaders(kw)[h]
  {
    if "headers" in kw && !kw["headers"].KwHeaders? then None
    else Some(kw["headers" := KwHeaders(OldHeaders(kw) + newHeaders)])
  }

  /** The keyword arguments `_get` sends: the `api-key` header and `verify=False` added. */
  function GetKwargs(apiKey: string, kw: map<string, KwValue>): (r: Option<map<string, KwValue>>)
    ensures r.None? <==> "headers" in kw && !kw["headers"].KwHeaders?
    ensures r.Some? ==> "headers" in r.value && "verify" in r.value
    ensures r.Some? ==> r.value.Keys == kw.Keys + {"headers", "verify"}
    ensures r.Some? ==> r.value["verify"] == KwBool(false)
    ensures r.Some? ==> forall k :: k in kw && k != "headers" && k != "verify" ==> r.value[k] == kw[k]
    ensures r.Some? ==> r.value["headers"].KwHeaders?
    ensures r.Some? ==> r.value["headers"].headers.Keys == OldHeaders(kw).Keys + {"api-key"}
    ensures r.Some? ==> r.value["headers"].headers["api-key"] == apiKey
    ensures r.Some? ==> forall h :: h in OldHeaders(kw) && h != "api-key" ==>
                           r.value["headers"].headers[h] == OldHeaders(kw)[h]
  {
    match MergeHeaders(kw, map["api-key" := apiKey])
    case None => None
    case Some(k) => Some(k["verify" := KwBool(false)])
  }

  /** The keyword arguments `_get_json` sends: `Accept: application/json`, then what `_get` adds. */
  function JsonKwargs(apiKey: string, kw: map<string, KwValue>): (r: Option<map<string, KwValue>>)
    ensures r.None? <==> "headers" in kw && !kw["headers"].KwHeaders?
    ensures r.Some? ==> "headers" in r.value && "verify" in r.value
    ensures r.Some? ==> r.value.Keys == kw.Keys + {"headers", "verify"}
    ensures r.Some? ==> r.value["verify"] == KwBool(false)
    ensures r.Some? ==> forall k :: k in kw && k != "headers" && k != "verify" ==> r.value[k] == kw[k]
    ensures r.Some? ==> r.value["headers"].KwHeaders?
    ensures r.Some? ==> r.value["headers"].headers.Keys == OldHeaders(kw).Keys + {"Accept", "api-key"}
    ensures r.Some? ==> r.value["headers"].headers["Accept"] == "application/json"
    ensures r.Some? ==> r.value["headers"].headers["api-key"] == apiKey
    ensures r.Some? ==> forall h :: h in OldHeaders(kw) && h != "Accept" && h != "api-key" ==>
                           r.value["headers"].headers[h] == OldHeaders(kw)[h]
  {
    match MergeHeaders(kw, map["Accept" := "application/json"])
    case None => None
    case Some(k) =>
      assert OldHeaders(k) == OldHeaders(kw)["Accept" := "application/json"];
      GetKwargs(apiKey, k)
  }

  // ---------------------------------------------------------------- the remote API

  /** The body of the next answer, or the transport failure once none is left. */
  function Answer(pending: seq<Json>): Outcome<Json>
  {
    if pending == [] then Err(RequestFailed) else Ok(pending[0])
  }

  function AfterAnswer(pending: seq<Json>): seq<Json>
  {
    if pending == [] then [] else pending[1..]
  }

  /** The remote API as a finite script: the k-th request is answered with the decoded JSON
      body `responses[k]`; once the script is used up, every request fails. `log` records the
      requests made, so `|log|` counts them. */
  class PageServer {
    const responses: seq<Json>
    var log: seq<Request>

    constructor(responses: seq<Json>)
      ensures this.responses == responses && log == []
    {
      this.responses := responses;
      log := [];
    }

    /** The answers not yet given. */
    function Pending(): seq<Json>
      reads this
    {
      if |log| <= |responses| then responses[|log|..] else []
    }

    method Fetch(req: Request) returns (r: Outcome<Json>)
      modifies this
      ensures log == old(log) + [req]
      ensures r == Answer(old(Pending()))
      ensures Pending() == AfterAnswer(old(Pending()))
    {
      r := if |log| < |responses| then Ok(responses[|log|]) else Err(RequestFailed);
      log := log + [req];
      if |log| <= |responses| {
        assert responses[|old(log)|..][1..] == responses[|log|..];
      }
    }
  }

  // ---------------------------------------------------------------- responses

  /** `json_dict.get('items', list())`: a missing field is an empty page. */
  function PageItems(page: Json): (r: Outcome<seq<Json>>)
    ensures r.Ok? <==> page.JObj? && ("items" !in page.fields || page.fields["items"].JArr?)
    ensures r.Ok? && "items" !in page.fields ==> r.value == []
    ensures r.Ok? && "items" in page.fields ==> JArr(r.value) == page.fields["items"]
  {
    if !page.JObj? then Err(MalformedResponse)
    else if "items" !in page.fields then Ok([])
    else match page.fields["items"]
      case JArr(a) => Ok(a)
      case _ => Err(MalformedResponse)
  }

  /** `_response_items` with the filtered list materialised, as its docstring intends: without a
      predicate every item is appended and the flag is true; with one, the accepted items are
      appended and the flag is false exactly when one was rejected. `items` itself is a value and
      is not changed. */
  function ResponseItems(page: Json, items: seq<Json>, contFunc: Option<Json -> bool>): (r: Outcome<(bool, seq<Json>)>)
    ensures r.Ok? <==> PageItems(page).Ok?
    ensures r.Ok? && contFunc.None? ==> r.value == (true, items + PageItems(page).value)
    ensures r.Ok? && contFunc.Some? ==> r.value.1 == items + Filter(PageItems(page).value, contFunc.value)
    ensures r.Ok? && contFunc.Some? ==>
      (r.value.0 <==> forall i :: 0 <= i < |PageItems(page).value| ==> contFunc.value(PageItems(page).value[i]))
  {
    match PageItems(page)
    case Err(e) => Err(e)
    case Ok(newItems) =>
      match contFunc
      case None => Ok((true, items + newItems))
      case Some(keep) =>
        var filtered := Filter(newItems, keep);
        if |filtered| != |newItems| then Ok((false, items + filtered))
        else Ok((true, items + newItems))
  }

  /** `_response_items` as written: under Python 3 `filter` returns an iterator, and `len` of it
      raises TypeError, so every call with a predicate fails. */
  function ResponseItemsAsWritten(page: Json, items: seq<Json>, contFunc: Option<Json -> bool>): (r: Outcome<(bool, seq<Json>)>)
    ensures contFunc.Some? && PageItems(page).Ok? ==> r == Err(TypeError)
    ensures contFunc.None? ==> r == ResponseItems(page, items, contFunc)
  {
    match PageItems(page)
    case Err(e) => Err(e)
    case Ok(newItems) =>
      match contFunc
      case None => Ok((true, items + newItems))
      case Some(keep) => Err(TypeError)
  }

  /** The written code fails on a one-item page that the predicate accepts, where the intended
      code appends the item and goes on. */
  lemma AsWrittenFailsWithPredicate(keep: Json -> bool, x: Json)
    requires keep(x)
    ensures var page := JObj(map["items" := JArr([x])]);
      && ResponseItemsAsWritten(page, [], Some(keep)) == Err(TypeError)
      && ResponseItems(page, [], Some(keep)) == Ok((true, [x]))
  {
    var page := JObj(map["items" := JArr([x])]);
    assert PageItems(page) == Ok([x]);
    assert [x][0] == x;
    assert Filter([x], keep) == [x];
    assert [] + [x] == [x];
    assert ResponseItems(page, [], Some(keep)) == Ok((true, [x]));
  }

  /** One `{ref, href}` entry of `navigationLink`. */
  datatype NavLink = NavLink(ref: string, href: string)

  function AsNavLink(j: Json): Option<NavLink>
  {
    match (GetString(j, "ref"), GetString(j, "href"))
    case (Some(ref), Some(href)) => Some(NavLink(ref, href))
    case _ => None
  }

  /** The entries of a `navigationLink` array; an error if one is not an object with string
      `ref` and `href` (where the source raises KeyError or TypeError). */
  function ParseNavLinks(entries: seq<Json>): (r: Outcome<seq<NavLink>>)
    ensures r.Ok? <==> forall i :: 0 <= i < |entries| ==> AsNavLink(entries[i]).Some?
    ensures r.Ok? ==> |r.value| == |entries|
    ensures r.Ok? ==> forall i :: 0 <= i < |entries| ==> r.value[i] == AsNavLink(entries[i]).value
    ensures r.Err? ==> r.error == MalformedResponse
    decreases |entries|
  {
    if entries == [] then Ok([])
    else
      var init := entries[..|entries| - 1];
      assert forall i :: 0 <= i < |init| ==> init[i] == entries[i];
      match ParseNavLinks(init)
      case Err(e) => Err(e)
      case Ok(links) =>
        match AsNavLink(entries[|entries| - 1])
        case None => Err(MalformedResponse)
        case Some(l) => Ok(links + [l])
  }

  /** The dict the `for` loop of `_navigation_links` builds: later entries overwrite earlier. */
  function LinkMap(links: seq<NavLink>): (r: map<string, string>)
    ensures forall k :: k in r ==> NavLink(k, r[k]) in links
    decreases |links|
  {
    if links == [] then map[]
    else
      var init := links[..|links| - 1];
      var last := links[|links| - 1];
      assert links == init + [last];
      LinkMap(init)[last.ref := last.href]
  }

  /** The keys are exactly the `ref`s. */
  lemma {:induction false} LinkMapKeys(links: seq<NavLink>)
    ensures forall k :: k in LinkMap(links) <==> exists i :: 0 <= i < |links| && links[i].ref == k
    decreases |links|
  {
    if links != [] {
      var init := links[..|links| - 1];
      LinkMapKeys(init);
      forall k ensures k in LinkMap(links) <==> exists i :: 0 <= i < |links| && links[i].ref == k {
        if k in LinkMap(init) {
          var i :| 0 <= i < |init| && init[i].ref == k;
          assert links[i].ref == k;
        }
        if exists i :: 0 <= i < |links| && links[i].ref == k {
          var i :| 0 <= i < |links| && links[i].ref == k;
          if i < |init| {
            assert init[i].ref == k;
          }
        }
      }
    }
  }

  /** A `ref` maps to the `href` of its last occurrence. */
  lemma {:induction false} LinkMapLastWins(links: seq<NavLink>, i: nat)
    requires i < |links|
    requires forall j :: i < j < |links| ==> links[j].ref != links[i].ref
    ensures links[i].ref in LinkMap(links) && LinkMap(links)[links[i].ref] == links[i].href
    decreases |links|
  {
    if i < |links| - 1 {
      var init := links[..|links| - 1];
      assert init[i] == links[i];
      LinkMapLastWins(init, i);
    }
  }

  /** `_navigation_links` as a value: a missing `navigationLink` gives the empty dict. */
  function NavigationLinksOf(page: Json): (r: Outcome<map<string, string>>)
    ensures page.JObj? && "navigationLink" !in page.fields ==> r == Ok(map[])
    ensures page.JObj? && "navigationLink" in page.fields && page.fields["navigationLink"].JArr? ==>
      match ParseNavLinks(page.fields["navigationLink"].elems)
      case Ok(links) => r == Ok(LinkMap(links))
      case Err(e) => r == Err(e)
  {
    if !page.JObj? then Err(MalformedResponse)
    else if "navigationLink" !in page.fields then Ok(map[])
    else match page.fields["navigationLink"]
      case JArr(entries) =>
        (match ParseNavLinks(entries)
         case Ok(links) => Ok(LinkMap(links))
         case Err(e) => Err(e))
      case _ => Err(MalformedResponse)
  }

  /** `links.get('next')`. */
  function NextLink(links: map<string, string>): Option<string>
  {
    if "next" in links then Some(links["next"]) else None
  }

  /** Python truthiness of `next_url`: present and not the empty string. */
  predicate Truthy(next: Option<string>)
  {
    next.Some? && next.value != ""
  }

  // ---------------------------------------------------------------- paging

  /** What one fetched page contributes: the new continue flag, the accumulated items and the
      `next` link. */
  datatype PageResult = PageResult(cont: bool, items: seq<Json>, next: Option<string>)

  /** The work done on one response body: `_response_items`, then `_navigation_links`. */
  function PageStep(page: Json, items: seq<Json>, contFunc: Option<Json -> bool>): Outcome<PageResult>
  {
    match ResponseItems(page, items, contFunc)
    case Err(e) => Err(e)
    case Ok(ci) =>
      match NavigationLinksOf(page)
      case Err(e) => Err(e)
      case Ok(links) => Ok(PageResult(ci.0, ci.1, NextLink(links)))
  }

  /** The accumulated items only prefix what a page contributes. */
  lemma PageStepAccumulates(page: Json, items: seq<Json>, contFunc: Option<Json -> bool>)
    ensures PageStep(page, items, contFunc).Ok? == PageStep(page, [], contFunc).Ok?
    ensures PageStep(page, items, contFunc).Ok? ==>
      var alone := PageStep(page, [], contFunc).value;
      PageStep(page, items, contFunc).value == PageResult(alone.cont, items + alone.items, alone.next)
  {
    var with, alone := ResponseItems(page, items, contFunc), ResponseItems(page, [], contFunc);
    if with.Ok? {
      var newItems := PageItems(page).value;
      assert [] + newItems == newItems;
      if contFunc.Some? {
        assert [] + Filter(newItems, contFunc.value) == Filter(newItems, contFunc.value);
      }
      assert with.value == (alone.value.0, items + alone.value.1);
    }
  }

  /** The analysis of each page on its own, in the order the pages are answered. */
  function Analysed(pages: seq<Json>, contFunc: Option<Json -> bool>): (r: seq<Outcome<PageResult>>)
    ensures |r| == |pages|
    decreases |pages|
  {
    if pages == [] then [] else [PageStep(pages[0], [], contFunc)] + Analysed(pages[1..], contFunc)
  }

  lemma {:induction false} AnalysedAt(pages: seq<Json>, contFunc: Option<Json -> bool>, i: nat)
    requires i < |pages|
    ensures Analysed(pages, contFunc)[i] == PageStep(pages[i], [], contFunc)
    decreases i
  {
    if i > 0 {
      AnalysedAt(pages[1..], contFunc, i - 1);
    }
  }

  lemma {:induction false} AnalysedTail(pages: seq<Json>, contFunc: Option<Json -> bool>, k: nat)
    requires k <= |pages|
    ensures Analysed(pages, contFunc)[k..] == Analysed(pages[k..], contFunc)
    decreases k
  {
    if k > 0 {
      AnalysedTail(pages[1..], contFunc, k - 1);
      assert pages[1..][k - 1..] == pages[k..];
    }
  }

  /** A page's contribution appended to the items collected so far. */
  function Joined(items: seq<Json>, step: Outcome<PageResult>): Outcome<PageResult>
  {
    match step
    case Err(e) => Err(e)
    case Ok(s) => Ok(PageResult(s.cont, items + s.items, s.next))
  }

  /** The page was well-formed, had no item rejected and links to a next page. */
  predicate Proceeds(step: Outcome<PageResult>)
  {
    step.Ok? && step.value.cont && Truthy(step.value.next)
  }

  /** The page was well-formed and the loop stops after it. */
  predicate Stops(step: Outcome<PageResult>)
  {
    step.Ok? && !Proceeds(step)
  }

  /** The `next` link of a page, or the empty string. */
  function NextOf(step: Outcome<PageResult>): string
  {
    if step.Ok? && step.value.next.Some? then step.value.next.value else ""
  }

  /** The items the pages contribute, in order. */
  function KeptAll(steps: seq<Outcome<PageResult>>): seq<Json>
    decreases |steps|
  {
    if steps == [] then []
    else (if steps[0].Ok? then steps[0].value.items else []) + KeptAll(steps[1..])
  }

  /** The items collected and the targets requested by a run of the paging loop. */
  datatype Walk = Walk(items: Outcome<seq<Json>>, targets: seq<Target>)

  /** The paging loop of `list_all_datasets` over the analyses of the answers still pending:
      request `target`, append the page's items, and follow its `next` link while the flag
      stays true. Without an answer left the request fails. */
  function CrawlSteps(steps: seq<Outcome<PageResult>>, target: Target, items: seq<Json>): (w: Walk)
    ensures |w.targets| >= 1 && w.targets[0] == target
    decreases |steps|
  {
    if steps == [] then Walk(Err(RequestFailed), [target])
    else match steps[0]
      case Err(e) => Walk(Err(e), [target])
      case Ok(s) =>
        if s.cont && Truthy(s.next) then
          var rest := CrawlSteps(steps[1..], Link(s.next.value), items + s.items);
          Walk(rest.items, [target] + rest.targets)
        else Walk(Ok(items + s.items), [target])
  }

  /** `list_all_datasets`'s loop from its first request: it requests `target` first, and makes
      at most one request more than there are answers. */
  function Crawl(pending: seq<Json>, target: Target, contFunc: Option<Json -> bool>): (w: Walk)
    ensures 1 <= |w.targets| <= |pending| + 1 && w.targets[0] == target
  {
    CrawlLength(Analysed(pending, contFunc), target, []);
    CrawlSteps(Analysed(pending, contFunc), target, [])
  }

  /** What is left of a crawl once its loop condition has been evaluated again. */
  function Resume(steps: seq<Outcome<PageResult>>, items: seq<Json>, cont: bool, next: Option<string>): Walk
  {
    if Truthy(next) && cont then CrawlSteps(steps, Link(next.value), items)
    else Walk(Ok(items), [])
  }

  function Prefixed(done: seq<Target>, w: Walk): Walk
  {
    Walk(w.items, done + w.targets)
  }

  lemma PrefixedTwice(a: seq<Target>, b: seq<Target>, w: Walk)
    ensures Prefixed(a, Prefixed(b, w)) == Prefixed(a + b, w)
  {
  }

  /** One round of the loop body on the answers still pending: fetch, then read items and links. */
  function FetchStep(pending: seq<Json>, items: seq<Json>, contFunc: Option<Json -> bool>): Outcome<PageResult>
  {
    match Answer(pending)
    case Err(e) => Err(e)
    case Ok(page) => PageStep(page, items, contFunc)
  }

  /** A round of the loop body on the k-th pending answer is that page's analysis appended to
      the items so far. */
  lemma FetchStepAnalysed(pending: seq<Json>, k: nat, items: seq<Json>, contFunc: Option<Json -> bool>)
    requires k <= |pending|
    ensures k == |pending| ==> FetchStep(pending[k..], items, contFunc) == Err(RequestFailed)
    ensures k < |pending| ==> FetchStep(pending[k..], items, contFunc) == Joined(items, Analysed(pending, contFunc)[k])
  {
    if k < |pending| {
      assert pending[k..][0] == pending[k];
      AnalysedAt(pending, contFunc, k);
      PageStepAccumulates(pending[k], items, contFunc);
    }
  }

  /** A crawl is one round of the loop body followed by the rest of the crawl. */
  lemma CrawlUnfold(steps: seq<Outcome<PageResult>>, target: Target, items: seq<Json>)
    ensures steps == [] ==> CrawlSteps(steps, target, items) == Walk(Err(RequestFailed), [target])
    ensures steps != [] && steps[0].Err? ==> CrawlSteps(steps, target, items) == Walk(Err(steps[0].error), [target])
    ensures steps != [] && steps[0].Ok? ==>
      var s := Joined(items, steps[0]).value;
      CrawlSteps(steps, target, items) == Prefixed([target], Resume(steps[1..], s.items, s.cont, s.next))
  {
  }

  /** The result of a round of the loop body on the k-th pending answer, given the analyses of
      all pending answers. */
  function StepAt(steps: seq<Outcome<PageResult>>, k: nat, items: seq<Json>): Outcome<PageResult>
  {
    if k < |steps| then Joined(items, steps[k]) else Err(RequestFailed)
  }

  /** The first round of `list_all_datasets`: the crawl left to run after it. */
  lemma LoopEnter(steps: seq<Outcome<PageResult>>, target: Target)
    ensures StepAt(steps, 0, []).Err? ==> CrawlSteps(steps, target, []) == Walk(Err(StepAt(steps, 0, []).error), [target])
    ensures StepAt(steps, 0, []).Ok? ==> 1 <= |steps|
    ensures var step := StepAt(steps, 0, []);
      step.Ok? ==> (CrawlSteps(steps, target, []) ==
        Prefixed([target], Resume(steps[1..], step.value.items, step.value.cont, step.value.next)))
  {
    CrawlUnfold(steps, target, []);
  }

  /** A later round of `list_all_datasets`, after `done` requests, that produced `step`: the
      crawl left to run after it. */
  lemma LoopAdvance(steps: seq<Outcome<PageResult>>, done: seq<Target>, items: seq<Json>, cont: bool,
                    next: Option<string>, step: Outcome<PageResult>)
    requires 1 <= |done| <= |steps| && Truthy(next) && cont
    requires step == StepAt(steps, |done|, items)
    ensures step.Err? ==> Prefixed(done, Resume(steps[|done|..], items, cont, next)) == Walk(Err(step.error), done + [Link(next.value)])
    ensures step.Ok? ==> |done| < |steps|
    ensures step.Ok? ==> (Prefixed(done, Resume(steps[|done|..], items, cont, next)) ==
      Prefixed(done + [Link(next.value)], Resume(steps[|done| + 1..], step.value.items, step.value.cont, step.value.next)))
  {
    var k := |done|;
    CrawlUnfold(steps[k..], Link(next.value), items);
    if k < |steps| {
      assert steps[k..][0] == steps[k] && steps[k..][1..] == steps[k + 1..];
    }
    if step.Ok? {
      PrefixedTwice(done, [Link(next.value)], Resume(steps[k + 1..], step.value.items, step.value.cont, step.value.next));
    }
  }

  /** A crawl makes at most one request per pending answer, plus the one left unanswered. */
  lemma {:induction false} CrawlLength(steps: seq<Outcome<PageResult>>, target: Target, items: seq<Json>)
    ensures |CrawlSteps(steps, target, items).targets| <= |steps| + 1
    decreases |steps|
  {
    if steps != [] && Proceeds(steps[0]) {
      var s := steps[0].value;
      CrawlLength(steps[1..], Link(s.next.value), items + s.items);
    }
  }

  /** Every page before the last one requested proceeds, and the request after it follows that
      page's `next` link. */
  lemma {:induction false} CrawlTargets(steps: seq<Outcome<PageResult>>, target: Target, items: seq<Json>)
    ensures var w := CrawlSteps(steps, target, items);
      forall i :: 0 <= i < |w.targets| - 1 ==>
        i < |steps| && Proceeds(steps[i]) && w.targets[i + 1] == Link(NextOf(steps[i]))
    decreases |steps|
  {
    if steps != [] && Proceeds(steps[0]) {
      var s := steps[0].value;
      var rest := CrawlSteps(steps[1..], Link(s.next.value), items + s.items);
      CrawlTargets(steps[1..], Link(s.next.value), items + s.items);
      var w := CrawlSteps(steps, target, items);
      assert w == Walk(rest.items, [target] + rest.targets);
      assert |w.targets| == 1 + |rest.targets|;
      forall i | 0 <= i < |w.targets| - 1
        ensures i < |steps| && Proceeds(steps[i]) && w.targets[i + 1] == Link(NextOf(steps[i]))
      {
        if i > 0 {
          var j := i - 1;
          assert 0 <= j < |rest.targets| - 1;
          assert j < |steps[1..]| && Proceeds(steps[1..][j]) && rest.targets[j + 1] == Link(NextOf(steps[1..][j]));
          assert w.targets[i + 1] == rest.targets[j + 1];
          assert steps[i] == steps[1..][j];
        }
      }
    }
  }

  /** The items kept from the first `n` pages: those of the first page, then of the next `n - 1`. */
  lemma KeptAllPrefix(steps: seq<Outcome<PageResult>>, n: nat)
    requires 1 <= n <= |steps|
    ensures KeptAll(steps[..n]) == (if steps[0].Ok? then steps[0].value.items else []) + KeptAll(steps[1..][..n - 1])
  {
    assert steps[..n][0] == steps[0];
    assert steps[..n][1..] == steps[1..][..n - 1];
  }

  /** What a crawl over `steps` that started from `items` may return: on success, `items` then
      the items kept from each requested page in order, the last of which stops the loop; on
      failure, either the answers ran out or the last page requested was malformed. */
  predicate CrawlOutcome(steps: seq<Outcome<PageResult>>, items: seq<Json>, w: Walk)
  {
    var n := |w.targets|;
    && n >= 1
    && (w.items.Ok? ==>
          n <= |steps| && Stops(steps[n - 1]) && w.items.value == items + KeptAll(steps[..n]))
    && (w.items.Err? ==>
          || (n == |steps| + 1 && w.items.error == RequestFailed)
          || (n <= |steps| && steps[n - 1] == Err(w.items.error)))
  }

  /** A first page that keeps some items, followed by a crawl of the rest, is a crawl of the
      whole. */
  lemma OutcomeExtends(steps: seq<Outcome<PageResult>>, target: Target, items: seq<Json>, rest: Walk)
    requires steps != [] && steps[0].Ok?
    requires CrawlOutcome(steps[1..], items + steps[0].value.items, rest)
    ensures CrawlOutcome(steps, items, Prefixed([target], rest))
  {
    var w := Prefixed([target], rest);
    var n := |w.targets|;
    if w.items.Ok? {
      assert steps[n - 1] == steps[1..][n - 2];
      KeptAllPrefix(steps, n);
    } else if n <= |steps| {
      assert steps[n - 1] == steps[1..][n - 2];
    }
  }

  /** The result of every crawl has the shape `CrawlOutcome` describes. */
  lemma {:induction false} CrawlResult(steps: seq<Outcome<PageResult>>, target: Target, items: seq<Json>)
    ensures CrawlOutcome(steps, items, CrawlSteps(steps, target, items))
    decreases |steps|
  {
    if steps != [] && steps[0].Ok? {
      var s := steps[0].value;
      if s.cont && Truthy(s.next) {
        CrawlResult(steps[1..], Link(s.next.value), items + s.items);
        OutcomeExtends(steps, target, items, CrawlSteps(steps[1..], Link(s.next.value), items + s.items));
      } else {
        KeptAllPrefix(steps, 1);
        assert steps[1..][..0] == [];
      }
    }
  }

  /** Once a page has an item rejected, no later page is requested, even if it links to one. */
  lemma NoRequestAfterRejection(pending: seq<Json>, target: Target, contFunc: Option<Json -> bool>, k: nat)
    requires k < |pending|
    requires PageStep(pending[k], [], contFunc).Ok? && !PageStep(pending[k], [], contFunc).value.cont
    ensures |Crawl(pending, target, contFunc).targets| <= k + 1
  {
    AnalysedAt(pending, contFunc, k);
    CrawlTargets(Analysed(pending, contFunc), target, []);
  }

  /** A page without a `next` link is the last one requested. */
  lemma NoRequestAfterLastPage(pending: seq<Json>, target: Target, contFunc: Option<Json -> bool>, k: nat)
    requires k < |pending|
    requires PageStep(pending[k], [], contFunc).Ok? && !Truthy(PageStep(pending[k], [], contFunc).value.next)
    ensures |Crawl(pending, target, contFunc).targets| <= k + 1
  {
    AnalysedAt(pending, contFunc, k);
    CrawlTargets(Analysed(pending, contFunc), target, []);
  }

  /** The items of all pages, concatenated in page order. */
  function AllItems(pages: seq<Json>): seq<Json>
    decreases |pages|
  {
    if pages == [] then []
    else (match PageItems(pages[0]) case Ok(xs) => xs case Err(_) => []) + AllItems(pages[1..])
  }

  /** Without a predicate a page keeps all its items. */
  lemma {:induction false} KeptAllWithoutPredicate(pages: seq<Json>)
    requires forall i :: 0 <= i < |pages| ==> PageStep(pages[i], [], None).Ok?
    ensures KeptAll(Analysed(pages, None)) == AllItems(pages)
    decreases |pages|
  {
    if pages != [] {
      var steps := Analysed(pages, None);
      assert steps == [PageStep(pages[0], [], None)] + Analysed(pages[1..], None);
      assert steps[1..] == Analysed(pages[1..], None);
      assert steps[0] == PageStep(pages[0], [], None);
      var xs := PageItems(pages[0]).value;
      assert [] + xs == xs;
      assert steps[0].value.items == xs;
      KeptAllWithoutPredicate(pages[1..]);
    }
  }

  /** Plain listing: when every page but the last links to the next and the last has no `next`,
      a crawl without predicate requests each page exactly once and returns all items in the
      order received. */
  lemma ListingWithoutPredicate(pages: seq<Json>, target: Target)
    requires pages != []
    requires forall i :: 0 <= i < |pages| ==> PageStep(pages[i], [], None).Ok?
    requires forall i :: 0 <= i < |pages| - 1 ==> Truthy(PageStep(pages[i], [], None).value.next)
    requires !Truthy(PageStep(pages[|pages| - 1], [], None).value.next)
    ensures Crawl(pages, target, None).items == Ok(AllItems(pages))
    ensures |Crawl(pages, target, None).targets| == |pages|
  {
    var steps := Analysed(pages, None);
    forall i | 0 <= i < |pages| ensures steps[i] == PageStep(pages[i], [], None) {
      AnalysedAt(pages, None, i);
    }
    var w := CrawlSteps(steps, target, []);
    CrawlLength(steps, target, []);
    CrawlTargets(steps, target, []);
    CrawlResult(steps, target, []);
    var n := |w.targets|;
    assert forall j :: 0 <= j < |pages| - 1 ==> Proceeds(steps[j]);
    assert n == |pages|;
    assert w.items.Ok?;
    assert steps[..n] == steps;
    KeptAllWithoutPredicate(pages);
    assert w.items.value == [] + AllItems(pages) == AllItems(pages);
    assert Crawl(pages, target, None) == w;
  }

  /** Early termination: the first page has all items accepted and links on, the second has one
      rejected; the result is the first page's items and the accepted ones of the second, and
      the third page is never requested although the second links to it. */
  lemma EarlyTermination(p1: Json, p2: Json, p3: Json, target: Target, keep: Json -> bool)
    requires Proceeds(PageStep(p1, [], Some(keep)))
    requires PageStep(p2, [], Some(keep)).Ok? && !PageStep(p2, [], Some(keep)).value.cont
    ensures var s1, s2 := PageStep(p1, [], Some(keep)), PageStep(p2, [], Some(keep));
      Crawl([p1, p2, p3], target, Some(keep)) ==
      Walk(Ok(s1.value.items + s2.value.items), [target, Link(s1.value.next.value)])
  {
    var steps := Analysed([p1, p2, p3], Some(keep));
    AnalysedAt([p1, p2, p3], Some(keep), 0);
    AnalysedAt([p1, p2, p3], Some(keep), 1);
    var s1 := steps[0].value;
    var s2 := steps[1].value;
    assert steps[1..][0] == steps[1];
    assert [] + s1.items == s1.items;
    CrawlUnfold(steps, target, []);
    CrawlUnfold(steps[1..], Link(s1.next.value), s1.items);
    assert CrawlSteps(steps[1..], Link(s1.next.value), s1.items) == Walk(Ok(s1.items + s2.items), [Link(s1.next.value)]);
  }

  /** The keyword arguments `_get_json` sends when called without any: the two headers and
      `verify=False`. */
  function ListingKwargs(apiKey: string): map<string, KwValue>
  {
    map["headers" := KwHeaders(map["Accept" := "application/json", "api-key" := apiKey]),
        "verify" := KwBool(false)]
  }

  /** `_get_json` without keyword arguments sends exactly `ListingKwargs`. */
  lemma ListingKwargsSent(apiKey: string)
    ensures JsonKwargs(apiKey, map[]) == Some(ListingKwargs(apiKey))
  {
    var empty: map<string, string> := map[];
    var accept := map["Accept" := "application/json"];
    var both := map["Accept" := "application/json", "api-key" := apiKey];
    var k1 := map["headers" := KwHeaders(accept)];
    assert OldHeaders(map[]) == empty;
    assert empty + accept == accept;
    assert MergeHeaders(map[], accept) == Some(k1);
    assert OldHeaders(k1) == accept;
    assert accept + map["api-key" := apiKey] == both;
    assert MergeHeaders(k1, map["api-key" := apiKey]) == Some(k1["headers" := KwHeaders(both)]);
    assert k1["headers" := KwHeaders(both)]["verify" := KwBool(false)] == ListingKwargs(apiKey);
  }

  /** The requests made, in order, to the given targets by `_get_json` without keyword
      arguments. */
  function RequestsFor(apiKey: string, targets: seq<Target>): (r: seq<Request>)
    ensures |r| == |targets|
    ensures forall i :: 0 <= i < |targets| ==> r[i] == Request(targets[i], ListingKwargs(apiKey))
    decreases |targets|
  {
    if targets == [] then []
    else RequestsFor(apiKey, targets[..|targets| - 1]) + [Request(targets[|targets| - 1], ListingKwargs(apiKey))]
  }

  lemma RequestsForAppend(apiKey: string, done: seq<Target>, t: Target)
    ensures RequestsFor(apiKey, done + [t]) == RequestsFor(apiKey, done) + [Request(t, ListingKwargs(apiKey))]
  {
    assert (done + [t])[..|done|] == done;
  }

  /** One more request of the listing extends the log by that request. */
  lemma LogAppend(apiKey: string, log0: seq<Request>, done: seq<Target>, t: Target)
    ensures log0 + RequestsFor(apiKey, done) + [Request(t, ListingKwargs(apiKey))] == log0 + RequestsFor(apiKey, done + [t])
  {
    RequestsForAppend(apiKey, done, t);
  }

  /** `[PureDataset(dataset_json) for dataset_json in items]`, when there are items. */
  function Wrapped(items: Outcome<seq<Json>>): (r: Outcome<seq<PureModels.PureDataset>>)
    ensures r.Ok? <==> items.Ok?
    ensures r.Err? ==> r.error == items.error
    ensures r.Ok? ==> |r.value| == |items.value|
    ensures r.Ok? ==> forall i :: 0 <= i < |items.value| ==> r.value[i].originalMetadata == items.value[i]
  {
    match items
    case Err(e) => Err(e)
    case Ok(xs) => Ok(seq(|xs|, i requires 0 <= i < |xs| => PureModels.PureDataset(xs[i])))
  }

  /** Dropping the empty pieces of two splits on '/' leaves non-empty, slash-free segments. */
  lemma CleanSegments(a: seq<string>, b: seq<string>)
    requires forall i :: 0 <= i < |a| ==> '/' !in a[i]
    requires forall i :: 0 <= i < |b| ==> '/' !in b[i]
    ensures NonEmpty(a + b) == NonEmpty(a) + NonEmpty(b)
    ensures forall i :: 0 <= i < |NonEmpty(a + b)| ==> NonEmpty(a + b)[i] != "" && '/' !in NonEmpty(a + b)[i]
  {
    NonEmptyAppend(a, b);
    var parts := a + b;
    var segments := NonEmpty(parts);
    forall i | 0 <= i < |segments| ensures segments[i] != "" && '/' !in segments[i] {
      assert segments[i] in parts;
      var j :| 0 <= j < |parts| && parts[j] == segments[i];
      if j >= |a| {
        assert parts[j] == b[j - |a|];
      }
    }
  }

  /** Joining clean segments with '/' splits back into them, and never puts a slash at either
      end or two in a row. */
  lemma PathShape(segments: seq<string>)
    requires forall i :: 0 <= i < |segments| ==> segments[i] != "" && '/' !in segments[i]
    ensures Join(segments, "/") == "" <==> segments == []
    ensures segments != [] ==> Split(Join(segments, "/"), '/') == segments
    ensures var r := Join(segments, "/");
      && (r != "" ==> r[0] != '/' && r[|r| - 1] != '/')
      && (forall i :: 0 <= i < |r| - 1 ==> Adjacent(r, i) != ('/', '/'))
  {
    if segments != [] {
      SplitJoin(segments, '/');
      JoinShape(segments, '/');
    }
  }

  /** The segments of `/<name>` for a slash-free name, once the empty ones are dropped. */
  lemma RootSegment(name: string)
    requires name != "" && '/' !in name
    ensures NonEmpty(Split("/" + name, '/')) == [name]
  {
    SplitWithout(name, '/');
    SplitAfter("", '/', name);
    assert "/" + name == "" + ['/'] + name;
    NonEmptyAppend([""], [name]);
    assert NonEmpty([""]) == [];
    assert NonEmpty([name]) == [name];
  }

  /** The segments of `/<name>/<tail>` for a slash-free name, once the empty ones are dropped. */
  lemma RootedSegments(name: string, tail: string)
    requires name != "" && '/' !in name
    ensures NonEmpty(Split("/" + name + "/" + tail, '/')) == [name] + NonEmpty(Split(tail, '/'))
  {
    var pieces := Split(tail, '/');
    var rest := name + ['/'] + tail;
    SplitAfter(name, '/', tail);
    SplitAfter("", '/', rest);
    assert "/" + name + "/" + tail == "" + ['/'] + rest;
    assert Split("/" + name + "/" + tail, '/') == [""] + ([name] + pieces);
    NonEmptyAppend([""], [name] + pieces);
    NonEmptyAppend([name], pieces);
    assert NonEmpty([""]) == [];
    assert NonEmpty([name]) == [name];
  }

  // ---------------------------------------------------------------- the client

  /** `PureAPI`: the split endpoint URL and the API key, fixed at construction. */
  class PureApi {
    const endpoint: SplitUrl
    const apiKey: string

    constructor(endpoint: SplitUrl, apiKey: string)
      ensures this.endpoint == endpoint && this.apiKey == apiKey
    {
      this.endpoint := endpoint;
      this.apiKey := apiKey;
    }

    /** `_create_path`: the endpoint's path segments, then the argument's, joined by single
        slashes with every empty segment dropped. */
    function CreatePath(path: string): (r: string)
      ensures var segments := NonEmpty(Split(endpoint.path, '/')) + NonEmpty(Split(path, '/'));
        && (r == "" <==> segments == [])
        && (segments != [] ==> Split(r, '/') == segments)
    {
      var parts := Split(endpoint.path, '/') + Split(path, '/');
      CleanSegments(Split(endpoint.path, '/'), Split(path, '/'));
      PathShape(NonEmpty(parts));
      Join(NonEmpty(parts), "/")
    }

    /** The path `_create_path` builds has no slash at either end and never two in a row. */
    lemma CreatePathShape(path: string)
      ensures var r := CreatePath(path);
        && (r != "" ==> r[0] != '/' && r[|r| - 1] != '/')
        && (forall i :: 0 <= i < |r| - 1 ==> Adjacent(r, i) != ('/', '/'))
    {
      CleanSegments(Split(endpoint.path, '/'), Split(path, '/'));
      PathShape(NonEmpty(Split(endpoint.path, '/') + Split(path, '/')));
    }

    /** A leading slash on the argument makes no difference: `/datasets` and `datasets` give the
        same path. */
    lemma CreatePathLeadingSlash(path: string)
      ensures CreatePath("/" + path) == CreatePath(path)
    {
      var base := Split(endpoint.path, '/');
      var tail := Split(path, '/');
      assert "" + ['/'] + path == "/" + path;
      SplitAfter("", '/', path);
      assert NonEmpty([""]) == [];
      NonEmptyAppend([""], tail);
      NonEmptyAppend(base, [""] + tail);
      NonEmptyAppend(base, tail);
      assert NonEmpty(base + Split("/" + path, '/')) == NonEmpty(base + tail);
    }

    /** The path of `get_dataset`: the endpoint's segments, `datasets`, then the segments of the
        uuid. */
    lemma DatasetPath(uuid: string)
      ensures Split(CreatePath("/datasets/" + uuid), '/') ==
        NonEmpty(Split(endpoint.path, '/')) + (["datasets"] + NonEmpty(Split(uuid, '/')))
    {
      assert '/' !in "datasets";
      assert "/datasets/" + uuid == "/" + "datasets" + "/" + uuid;
      CreatePathRooted("datasets", uuid);
    }

    /** The path of `/<name>/<tail>` for a slash-free name: the endpoint's segments, the name,
        then the segments of the tail. */
    lemma CreatePathRooted(name: string, tail: string)
      requires name != "" && '/' !in name
      ensures Split(CreatePath("/" + name + "/" + tail), '/') ==
        NonEmpty(Split(endpoint.path, '/')) + ([name] + NonEmpty(Split(tail, '/')))
    {
      RootedSegments(name, tail);
      CreatePathFrom("/" + name + "/" + tail, [name] + NonEmpty(Split(tail, '/')));
    }

    /** A path whose own segments are known gives the endpoint's segments followed by them. */
    lemma CreatePathFrom(path: string, segments: seq<string>)
      requires NonEmpty(Split(path, '/')) == segments && segments != []
      ensures Split(CreatePath(path), '/') == NonEmpty(Split(endpoint.path, '/')) + segments
    {
    }

    /** `_create_url`: the endpoint's scheme and host, the path `_create_path` builds, the query
        in insertion order and no fragment; the endpoint's own query and fragment are dropped. */
    function CreateUrl(path: string, query: seq<(string, Json)>): (r: Url)
      ensures r.scheme == endpoint.scheme && r.netloc == endpoint.netloc
      ensures r.path == CreatePath(path) && r.query == query && r.fragment == ""
    {
      Url(endpoint.scheme, endpoint.netloc, CreatePath(path), query, "")
    }

    /** The first request of `list_all_datasets`: the endpoint's `datasets` collection, with the
        page size and the sort order as the query. */
    function FirstPageUrl(size: int, order: string): (r: Url)
      ensures r.scheme == endpoint.scheme && r.netloc == endpoint.netloc && r.fragment == ""
      ensures Split(r.path, '/') == NonEmpty(Split(endpoint.path, '/')) + ["datasets"]
      ensures r.query == [("size", JNum(size)), ("order", JStr(order))]
    {
      assert '/' !in "datasets";
      RootSegment("datasets");
      CreateUrl("/datasets", [("size", JNum(size)), ("order", JStr(order))])
    }

    /** `_update_headers`: updates the dict in place and returns that same dict. */
    method UpdateHeaders(kwargs: RequestKwargs, newHeaders: map<string, string>) returns (ok: bool, r: RequestKwargs)
      modifies kwargs
      ensures r == kwargs
      ensures ok == MergeHeaders(old(kwargs.entries), newHeaders).Some?
      ensures kwargs.entries == if ok then MergeHeaders(old(kwargs.entries), newHeaders).value else old(kwargs.entries)
    {
      r := kwargs;
      var headers := if "headers" in kwargs.entries then kwargs.entries["headers"] else KwHeaders(map[]);
      if !headers.KwHeaders? {
        return false, r;
      }
      kwargs.entries := kwargs.entries["headers" := KwHeaders(headers.headers + newHeaders)];
      ok := true;
    }

    /** `_get`: add the API key header and `verify=False`, then send the request. `**kwargs`
        hands the method a dict of its own, so the caller's dict is never changed. */
    method Get(server: PageServer, target: Target, kwargs: map<string, KwValue>) returns (r: Outcome<Json>)
      modifies server
      ensures var sent := GetKwargs(apiKey, kwargs);
        && (sent.None? ==> r == Err(TypeError) && server.log == old(server.log))
        && (sent.Some? ==> server.log == old(server.log) + [Request(target, sent.value)]
                           && r == Answer(old(server.Pending()))
                           && server.Pending() == AfterAnswer(old(server.Pending())))
    {
      var own := new RequestKwargs(kwargs);
      var ok, kw := UpdateHeaders(own, map["api-key" := apiKey]);
      if !ok {
        return Err(TypeError);
      }
      kw.entries := kw.entries["verify" := KwBool(false)];
      r := server.Fetch(Request(target, kw.entries));
    }

    /** `_get_json`: ask for JSON, then `_get`; the body comes back decoded. Like `_get`, it
        works on a dict of its own. */
    method GetJson(server: PageServer, target: Target, kwargs: map<string, KwValue>) returns (r: Outcome<Json>)
      modifies server
      ensures var sent := JsonKwargs(apiKey, kwargs);
        && (sent.None? ==> r == Err(TypeError) && server.log == old(server.log))
        && (sent.Some? ==> server.log == old(server.log) + [Request(target, sent.value)]
                           && r == Answer(old(server.Pending()))
                           && server.Pending() == AfterAnswer(old(server.Pending())))
    {
      var own := new RequestKwargs(kwargs);
      var ok, kw := UpdateHeaders(own, map["Accept" := "application/json"]);
      if !ok {
        return Err(TypeError);
      }
      r := Get(server, target, kw.entries);
    }

    /** `_navigation_links`: fill a dict from the `{ref, href}` entries in order. */
    method NavigationLinks(page: Json) returns (r: Outcome<map<string, string>>)
      ensures r == NavigationLinksOf(page)
    {
      if !page.JObj? {
        return Err(MalformedResponse);
      }
      if "navigationLink" !in page.fields {
        return Ok(map[]);
      }
      var field := page.fields["navigationLink"];
      if !field.JArr? {
        return Err(MalformedResponse);
      }
      r := LinksOf(field.elems);
    }

    /** The `for` loop of `_navigation_links`: one dict entry per `{ref, href}` entry, later
        entries overwriting earlier ones. */
    method LinksOf(entries: seq<Json>) returns (r: Outcome<map<string, string>>)
      ensures r == match ParseNavLinks(entries)
                   case Ok(links) => Ok(LinkMap(links))
                   case Err(e) => Err(e)
    {
      var links: map<string, string> := map[];
      ghost var parsed: seq<NavLink> := [];
      var i := 0;
      while i < |entries|
        invariant 0 <= i <= |entries| && |parsed| == i
        invariant forall j :: 0 <= j < i ==> AsNavLink(entries[j]) == Some(parsed[j])
        invariant links == LinkMap(parsed)
      {
        var link := AsNavLink(entries[i]);
        if link.None? {
          assert !ParseNavLinks(entries).Ok?;
          return Err(MalformedResponse);
        }
        ghost var before := parsed;
        links := links[link.value.ref := link.value.href];
        parsed := parsed + [link.value];
        assert parsed[..|parsed| - 1] == before && parsed[|parsed| - 1] == link.value;
        assert LinkMap(parsed) == LinkMap(before)[link.value.ref := link.value.href];
        i := i + 1;
      }
      assert ParseNavLinks(entries).Ok?;
      assert ParseNavLinks(entries).value == parsed;
      r := Ok(links);
    }

    /** One round of the loop body of `list_all_datasets`: `_get_json`, `_response_items`,
        then the `next` entry of `_navigation_links`. */
    method FetchPage(server: PageServer, target: Target, items: seq<Json>, contFunc: Option<Json -> bool>,
                     ghost pending0: seq<Json>, ghost steps: seq<Outcome<PageResult>>, ghost k: nat)
      returns (r: Outcome<PageResult>)
      requires steps == Analysed(pending0, contFunc)
      requires k <= |pending0| && server.Pending() == pending0[k..]
      modifies server
      ensures server.log == old(server.log) + [Request(target, ListingKwargs(apiKey))]
      ensures server.Pending() == if k < |pending0| then pending0[k + 1..] else []
      ensures r == StepAt(steps, k, items)
    {
      FetchStepAnalysed(pending0, k, items, contFunc);
      ListingKwargsSent(apiKey);
      if k < |pending0| {
        assert pending0[k..][1..] == pending0[k + 1..];
      }
      var response := GetJson(server, target, map[]);
      if response.Err? {
        return Err(response.error);
      }
      var ci := ResponseItems(response.value, items, contFunc);
      if ci.Err? {
        return Err(ci.error);
      }
      var links := NavigationLinks(response.value);
      if links.Err? {
        return Err(links.error);
      }
      r := Ok(PageResult(ci.value.0, ci.value.1, NextLink(links.value)));
    }

    /** One iteration of the `while` loop of `list_all_datasets`: request the `next` link of the
        previous page; the crawl left to run continues from this page. */
    method FollowOne(server: PageServer, target: Target, items: seq<Json>, cont: bool, next: Option<string>,
                     contFunc: Option<Json -> bool>, ghost pending0: seq<Json>,
                     ghost steps: seq<Outcome<PageResult>>, ghost done: seq<Target>, ghost log0: seq<Request>)
      returns (step: Outcome<PageResult>)
      requires steps == Analysed(pending0, contFunc)
      requires 1 <= |done| <= |pending0| && Truthy(next) && cont && target == Link(next.value)
      requires server.Pending() == pending0[|done|..]
      requires server.log == log0 + RequestsFor(apiKey, done)
      modifies server
      ensures server.log == log0 + RequestsFor(apiKey, done + [target])
      ensures step.Err? ==>
        Prefixed(done, Resume(steps[|done|..], items, cont, next)) == Walk(Err(step.error), done + [target])
      ensures step.Ok? ==> |done| < |pending0| && server.Pending() == pending0[|done| + 1..]
      ensures step.Ok? ==> (Prefixed(done, Resume(steps[|done|..], items, cont, next)) ==
        Prefixed(done + [target], Resume(steps[|done| + 1..], step.value.items, step.value.cont, step.value.next)))
    {
      LogAppend(apiKey, log0, done, target);
      step := FetchPage(server, target, items, contFunc, pending0, steps, |done|);
      LoopAdvance(steps, done, items, cont, next, step);
    }

    /** The `while` loop of `list_all_datasets`: follow `next` links while the continue flag
        is true, one request per link. The walk it performs is the rest of the crawl after the
        targets already requested. */
    method FollowLinks(server: PageServer, contFunc: Option<Json -> bool>,
                       items0: seq<Json>, cont0: bool, next0: Option<string>,
                       ghost pending0: seq<Json>, ghost steps: seq<Outcome<PageResult>>,
                       ghost done0: seq<Target>, ghost log0: seq<Request>)
      returns (r: Outcome<seq<Json>>, ghost done: seq<Target>)
      requires steps == Analysed(pending0, contFunc)
      requires 1 <= |done0| <= |pending0|
      requires server.Pending() == pending0[|done0|..]
      requires server.log == log0 + RequestsFor(apiKey, done0)
      modifies server
      ensures Prefixed(done0, Resume(steps[|done0|..], items0, cont0, next0)) == Walk(r, done)
      ensures server.log == log0 + RequestsFor(apiKey, done)
    {
      ghost var w0 := Prefixed(done0, Resume(steps[|done0|..], items0, cont0, next0));
      var cont, items, nextUrl := cont0, items0, next0;
      done := done0;
      assert |steps| == |pending0|;
      while Truthy(nextUrl) && cont
        invariant |steps| == |pending0|
        invariant 1 <= |done| <= |pending0|
        invariant server.Pending() == pending0[|done|..]
        invariant server.log == log0 + RequestsFor(apiKey, done)
        invariant w0 == Prefixed(done, Resume(steps[|done|..], items, cont, nextUrl))
        decreases |pending0| - |done|
      {
        var target := Link(nextUrl.value);
        var step := FollowOne(server, target, items, cont, nextUrl, contFunc, pending0, steps, done, log0);
        done := done + [target];
        if step.Err? {
          return Err(step.error), done;
        }
        cont, items, nextUrl := step.value.cont, step.value.items, step.value.next;
      }
      assert w0 == Walk(Ok(items), done);
      r := Ok(items);
    }

    /** The first request of `list_all_datasets` and the crawl left to run after it. */
    method FetchFirst(server: PageServer, first: Target, contFunc: Option<Json -> bool>,
                      ghost pending0: seq<Json>, ghost steps: seq<Outcome<PageResult>>, ghost log0: seq<Request>)
      returns (step: Outcome<PageResult>)
      requires steps == Analysed(pending0, contFunc)
      requires server.Pending() == pending0 && server.log == log0
      modifies server
      ensures server.log == log0 + RequestsFor(apiKey, [first])
      ensures step.Err? ==> Crawl(pending0, first, contFunc) == Walk(Err(step.error), [first])
      ensures step.Ok? ==> 1 <= |pending0| && server.Pending() == pending0[1..]
      ensures step.Ok? ==> (Crawl(pending0, first, contFunc) ==
        Prefixed([first], Resume(steps[1..], step.value.items, step.value.cont, step.value.next)))
    {
      assert pending0[0..] == pending0;
      LoopEnter(steps, first);
      step := FetchPage(server, first, [], contFunc, pending0, steps, 0);
      assert RequestsFor(apiKey, [first]) == [Request(first, ListingKwargs(apiKey))];
    }

    /** `list_all_datasets`: request the first page with the given size and order (by default 20
        per page, most recently modified first), then follow `next` links while the continue flag
        is true; one request per page, and the datasets in the order their items arrived. */
    method ListAllDatasets(server: PageServer, size: int := 20, order: string := "-modified",
                           contFunc: Option<Json -> bool> := None)
      returns (r: Outcome<seq<PureModels.PureDataset>>)
      modifies server
      ensures var w := Crawl(old(server.Pending()), Built(FirstPageUrl(size, order)), contFunc);
        && server.log == old(server.log) + RequestsFor(apiKey, w.targets)
        && r == Wrapped(w.items)
    {
      ghost var log0 := server.log;
      ghost var pending0 := server.Pending();
      ghost var steps := Analysed(pending0, contFunc);
      var first := Built(FirstPageUrl(size, order));
      var step := FetchFirst(server, first, contFunc, pending0, steps, log0);
      ghost var done := [first];
      if step.Err? {
        return Err(step.error);
      }
      assert steps[|done|..] == steps[1..];
      var items;
      items, done := FollowLinks(server, contFunc, step.value.items, step.value.cont, step.value.next,
                                 pending0, steps, done, log0);
      r := Wrapped(items);
    }

    /** `get_dataset`: request `/datasets/<uuid>` and wrap the body as a dataset. */
    method GetDataset(server: PageServer, uuid: string) returns (r: Outcome<PureModels.PureDataset>)
      modifies server
      ensures server.log == old(server.log) + [Request(Built(CreateUrl("/datasets/" + uuid, [])), ListingKwargs(apiKey))]
      ensures r == match Answer(old(server.Pending()))
                   case Ok(body) => Ok(PureModels.PureDataset(body))
                   case Err(e) => Err(e)
    {
      ListingKwargsSent(apiKey);
      var response := GetJson(server, Built(CreateUrl("/datasets/" + uuid, [])), map[]);
      if response.Err? {
        return Err(response.error);
      }
      r := Ok(PureModels.PureDataset(response.value));
    }
  }
}
