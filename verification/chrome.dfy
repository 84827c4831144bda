/** Target resolution (`ChromeDebugger.GetDebuggingTargets`) over an already decoded target list. */
module Chrome {
  import opened Wrappers
  import opened Strings
  import opened DebuggerTypes

  /** A target the debugger accepts for a requested URL: a page whose URL contains it. */
  predicate IsPageFor(t: DebuggingTarget, url: string)
  {
    t.kind == "page" && Contains(t.url, url)
  }

  /** Index of the first target, at `from` or later, that is a page for `url`. */
  function FirstPageFrom(targets: seq<DebuggingTarget>, url: string, from: nat): (r: Option<nat>)
    ensures r.Some? ==>
      (from <= r.value < |targets| && IsPageFor(targets[r.value], url)
       && forall j :: from <= j < r.value ==> !IsPageFor(targets[j], url))
    ensures r.None? ==> forall j :: from <= j < |targets| ==> !IsPageFor(targets[j], url)
    decreases |targets| - from
  {
    if from >= |targets| then None
    else if IsPageFor(targets[from], url) then Some(from)
    else FirstPageFrom(targets, url, from + 1)
  }

  /** Index of the first page target whose URL contains `url`, if any. */
  function FirstPage(targets: seq<DebuggingTarget>, url: string): Option<nat>
  {
    FirstPageFrom(targets, url, 0)
  }

  /** For each requested URL, scan the target list and keep the first page target whose URL
      contains it; URLs without such a target are simply absent. */
  method GetDebuggingTargets(urls: seq<string>, targets: seq<DebuggingTarget>)
    returns (urlTargets: map<string, DebuggingTarget>)
    ensures forall url :: url in urlTargets <==> url in urls && FirstPage(targets, url).Some?
    ensures forall url :: url in urlTargets ==>
      FirstPage(targets, url).Some? && urlTargets[url] == targets[FirstPage(targets, url).value]
    ensures forall url :: url in urlTargets ==> IsPageFor(urlTargets[url], url)
  {
    urlTargets := map[];
    var k := 0;
    while k < |urls|
      invariant 0 <= k <= |urls|
      invariant forall url :: url in urlTargets <==> url in urls[..k] && FirstPage(targets, url).Some?
      invariant forall url :: url in urlTargets ==>
        FirstPage(targets, url).Some? && urlTargets[url] == targets[FirstPage(targets, url).value]
    {
      var url := urls[k];
      var i := 0;
      while i < |targets|
        invariant 0 <= i <= |targets|
        invariant forall j :: 0 <= j < i ==> !IsPageFor(targets[j], url)
      {
        if targets[i].kind == "page" && Contains(targets[i].url, url) {
          assert FirstPageFrom(targets, url, 0) == Some(i);
          urlTargets := urlTargets[url := targets[i]];
          break;
        }
        i := i + 1;
      }
      assert urls[..k + 1] == urls[..k] + [url];
      k := k + 1;
    }
    assert urls[..k] == urls;
  }

  /** What the request to the browser's discovery endpoint produced: a transport error,
      a body that is not a target list, or the decoded list. */
  datatype Discovery = FetchFailed(reason: string) | DecodeFailed(reason: string) | Listed(targets: seq<DebuggingTarget>)

  /** `GetDebuggingTargets` with its two failure paths: a failed fetch or decode is reported
      with its prefix and no map; otherwise the map the resolution loop builds. */
  method FetchDebuggingTargets(urls: seq<string>, discovery: Discovery)
    returns (r: Result<map<string, DebuggingTarget>, string>)
    ensures discovery.FetchFailed? ==> r == Err("error getting debug targets: " + discovery.reason)
    ensures discovery.DecodeFailed? ==> r == Err("error decoding targets: " + discovery.reason)
    ensures discovery.Listed? ==> r.Ok?
    ensures discovery.Listed? && r.Ok? ==>
      forall url :: url in r.value <==> url in urls && FirstPage(discovery.targets, url).Some?
    ensures discovery.Listed? && r.Ok? ==>
      forall url :: url in r.value ==>
        (IsPageFor(r.value[url], url) && r.value[url] == discovery.targets[FirstPage(discovery.targets, url).value])
  {
    match discovery {
      case FetchFailed(reason) =>
        return Err("error getting debug targets: " + reason);
      case DecodeFailed(reason) =>
        return Err("error decoding targets: " + reason);
      case Listed(targets) =>
        var urlTargets := GetDebuggingTargets(urls, targets);
        return Ok(urlTargets);
    }
  }

  /** Two requested URLs that are both contained in one page's URL resolve to that one page:
      the map does not make targets distinct. */
  method SharedTarget() returns (urlTargets: map<string, DebuggingTarget>)
    ensures "/a" in urlTargets && "/b" in urlTargets
    ensures urlTargets["/a"] == urlTargets["/b"]
  {
    var page := DebuggingTarget("1", "page", "errors", "/a/b", "ws://page/1");
    assert IsPageFor(page, "/a");
    assert IsPageFor(page, "/b") by {
      assert page.url[1..][1..] == "/b";
    }
    assert FirstPage([page], "/a") == Some(0);
    assert FirstPage([page], "/b") == Some(0);
    urlTargets := GetDebuggingTargets(["/a", "/b"], [page]);
  }
}
