/** Outbound requests that follow redirects by hand. */
module SafeFetch {
  import opened Values

  type Url = string

  datatype Response = Response(status: nat, location: Option<string>)

  /** The outside: how each request is answered, and how URLs parse, validate and group by origin. The
      `n`-th request of a call may be answered differently from an earlier one to the same URL. */
  datatype Net = Net(
    answer: (nat, Url) -> Option<Response>,
    parse: (string, Url) -> Option<Url>,
    validate: Url -> Option<Url>,
    origin: Url -> string)

  datatype Failure =
    | NetworkError | TooManyRedirects | RedirectOnlyForGet | NoLocation | BadLocation | Refused | CrossOrigin
    | Unexpected

  datatype Result = Returned(response: Response) | Thrown(failure: Failure)

  const MAX_REDIRECTS := 5

  predicate IsRedirect(status: nat) {
    status in {301, 302, 303, 307, 308}
  }

  /** Where a redirect answer leads from `at`: the location resolved against it, validated. */
  function Target(net: Net, at: Url, response: Response): Option<Url> {
    match response.location
    case None => None
    case Some(location) =>
      if location == "" then None
      else match net.parse(location, at)
        case None => None
        case Some(url) => net.validate(url)
  }

  /** A redirect that may be followed. */
  predicate Follows(net: Net, isGet: bool, at: Url, response: Response, next: Url) {
    && IsRedirect(response.status)
    && isGet
    && Target(net, at, response) == Some(next)
    && net.origin(next) == net.origin(at)
  }

  /** The requests made: each was answered by a redirect that leads to the next. */
  ghost predicate Chain(net: Net, isGet: bool, trace: seq<Url>) {
    forall i | 0 <= i < |trace| - 1 ::
      net.answer(i, trace[i]).Some? && Follows(net, isGet, trace[i], net.answer(i, trace[i]).value, trace[i + 1])
  }

  /** What is wrong with a redirect, in the order in which it is looked at. */
  ghost predicate Forbids(net: Net, isGet: bool, at: Url, response: Response, failure: Failure) {
    match failure
    case RedirectOnlyForGet => !isGet
    case NoLocation => isGet && (response.location == None || response.location == Some(""))
    case BadLocation => isGet && response.location.Some? && net.parse(response.location.value, at) == None
    case Refused =>
      && isGet && response.location.Some? && net.parse(response.location.value, at).Some?
      && net.validate(net.parse(response.location.value, at).value) == None
    case CrossOrigin =>
      && isGet && Target(net, at, response).Some?
      && net.origin(Target(net, at, response).value) != net.origin(at)
    case _ => false
  }

  lemma ChainRedirects(net: Net, isGet: bool, trace: seq<Url>)
    requires Chain(net, isGet, trace)
    ensures forall i | 0 <= i < |trace| - 1 ::
              net.answer(i, trace[i]).Some? && net.answer(i, trace[i]).value.status in {301, 302, 303, 307, 308}
  {
    forall i | 0 <= i < |trace| - 1
      ensures net.answer(i, trace[i]).Some? && net.answer(i, trace[i]).value.status in {301, 302, 303, 307, 308}
    {
      assert Follows(net, isGet, trace[i], net.answer(i, trace[i]).value, trace[i + 1]);
    }
  }

  /** Why the call ended after its last request. A redirect is never returned, and it ends the call only
      for a reason that forbids to follow it. The error behind the loop is never reached. */
  ghost predicate Explains(net: Net, isGet: bool, trace: seq<Url>, result: Result)
    requires trace != []
  {
    var n := |trace| - 1;
    var last := net.answer(n, trace[n]);
    match result
    case Returned(response) => last == Some(response) && !IsRedirect(response.status)
    case Thrown(NetworkError) => last == None
    case Thrown(Unexpected) => false
    case Thrown(TooManyRedirects) => last.Some? && IsRedirect(last.value.status) && n == MAX_REDIRECTS
    case Thrown(failure) =>
      && last.Some? && IsRedirect(last.value.status) && n < MAX_REDIRECTS
      && (forall next :: !Follows(net, isGet, trace[n], last.value, next))
      && Forbids(net, isGet, trace[n], last.value, failure)
  }

  /** `safeFetch`. `trace` lists the URLs requested, in order. */
  method Fetch(net: Net, initialUrl: Url, isGet: bool) returns (result: Result, trace: seq<Url>)
    ensures 1 <= |trace| <= MAX_REDIRECTS + 1 && trace[0] == initialUrl
    ensures Chain(net, isGet, trace)
    ensures !isGet ==> |trace| == 1
    ensures Explains(net, isGet, trace, result)
    ensures |trace| <= 6
    ensures forall i | 0 <= i < |trace| - 1 ::
              net.answer(i, trace[i]).Some? && net.answer(i, trace[i]).value.status in {301, 302, 303, 307, 308}
    ensures result.Returned? ==> result.response.status !in {301, 302, 303, 307, 308}
    ensures result == Thrown(TooManyRedirects) ==>
              |trace| == 6 && isGet && net.answer(5, trace[5]).value.status in {301, 302, 303, 307, 308}
  {
    var currentUrl := initialUrl;
    trace := [];
    for redirectCount := 0 to MAX_REDIRECTS + 1
      invariant |trace| == redirectCount
      invariant Chain(net, isGet, trace + [currentUrl])
      invariant (trace + [currentUrl])[0] == initialUrl
      invariant !isGet ==> redirectCount == 0
      invariant redirectCount <= MAX_REDIRECTS
    {
      trace := trace + [currentUrl];
      ChainRedirects(net, isGet, trace);
      var answered := net.answer(redirectCount, currentUrl);
      if answered.None? {
        return Thrown(NetworkError), trace;
      }
      var response := answered.value;
      if !IsRedirect(response.status) {
        return Returned(response), trace;
      }
      if redirectCount == MAX_REDIRECTS {
        return Thrown(TooManyRedirects), trace;
      }
      if !isGet {
        return Thrown(RedirectOnlyForGet), trace;
      }
      if response.location.None? || response.location.value == "" {
        return Thrown(NoLocation), trace;
      }
      var redirectUrl := net.parse(response.location.value, currentUrl);
      if redirectUrl.None? {
        return Thrown(BadLocation), trace;
      }
      var validated := net.validate(redirectUrl.value);
      if validated.None? {
        return Thrown(Refused), trace;
      }
      if net.origin(validated.value) != net.origin(currentUrl) {
        return Thrown(CrossOrigin), trace;
      }
      assert Follows(net, isGet, currentUrl, response, validated.value);
      currentUrl := validated.value;
    }
    result := Thrown(Unexpected);
  }

  /** Whatever the servers answer: every URL requested has the origin of the first, and each after the
      first came out of validation. */
  lemma {:induction false} ChainStaysHome(net: Net, isGet: bool, trace: seq<Url>, i: nat)
    requires Chain(net, isGet, trace) && i < |trace|
    ensures net.origin(trace[i]) == net.origin(trace[0])
    ensures i > 0 ==> isGet && exists url :: net.validate(url) == Some(trace[i])
  {
    if i > 0 {
      ChainStaysHome(net, isGet, trace, i - 1);
      var response := net.answer(i - 1, trace[i - 1]).value;
      assert Follows(net, isGet, trace[i - 1], response, trace[i]);
      var url := net.parse(response.location.value, trace[i - 1]).value;
      assert net.validate(url) == Some(trace[i]);
    }
  }

  /** The answers determine the requests: of two chains from one URL, one is a prefix of the other. */
  lemma {:induction false} ChainsAgree(net: Net, isGet: bool, a: seq<Url>, b: seq<Url>, i: nat)
    requires Chain(net, isGet, a) && Chain(net, isGet, b)
    requires i < |a| && i < |b| && a[0] == b[0]
    ensures a[i] == b[i]
  {
    if i > 0 {
      ChainsAgree(net, isGet, a, b, i - 1);
      assert Follows(net, isGet, a[i - 1], net.answer(i - 1, a[i - 1]).value, a[i]);
      assert Follows(net, isGet, b[i - 1], net.answer(i - 1, b[i - 1]).value, b[i]);
    }
  }
}
