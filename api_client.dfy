/**
 The answers and sites endpoints of `APIClient`: each builds an endpoint path and a parameter
 map and hands them, with the caller's backoff behaviour, to `performAPIRequest`. The request
 executor itself (APIClient.swift) is not part of this model: `PerformAPIRequest` only records
 the request it is given, so that each endpoint's contract can say exactly what it asked for.
 */
module ApiClient {
  import opened AnswerPaths

  /** What a request does when its endpoint is in a server-imposed backoff window. */
  datatype BackoffBehavior = Wait | Fail | Ignore

  /** One call of `performAPIRequest`. */
  datatype Request = Request(path: string, parameters: map<string, string>, backoffBehavior: BackoffBehavior)

  /** The path of the sites request. */
  const SitesPath: string := "sites"

  /** `sent` is `given` with "site" forced to the empty string: the key set gains "site" (if it
      was missing), a caller-supplied "site" is overwritten, and every other key keeps the
      caller's value. */
  predicate SiteForcedEmpty(given: map<string, string>, sent: map<string, string>) {
    && sent.Keys == given.Keys + {"site"}
    && sent["site"] == ""
    && forall k :: k in given && k != "site" ==> sent[k] == given[k]
  }

  /** The rewrite is fully determined: only one parameter map satisfies it. */
  lemma SiteForcedEmptyIsUnique(given: map<string, string>, sent: map<string, string>, sent': map<string, string>)
    requires SiteForcedEmpty(given, sent) && SiteForcedEmpty(given, sent')
    ensures sent == sent'
  {
  }

  /** Whatever the caller passed for "site" has no effect on what is sent. */
  lemma CallerSiteIsIgnored(given: map<string, string>, site: string, sent: map<string, string>, sent': map<string, string>)
    requires SiteForcedEmpty(given, sent)
    requires SiteForcedEmpty(given["site" := site], sent')
    ensures sent == sent'
  {
  }

  class APIClient {
    /** The requests handed to `performAPIRequest`, oldest first. */
    var requests: seq<Request>

    constructor ()
      ensures requests == []
    {
      requests := [];
    }

    /** `performAPIRequest(path, parameters, backoffBehavior:)`, reduced to recording its
        arguments (its response and errors are not modelled). */
    method PerformAPIRequest(path: string, parameters: map<string, string>, backoffBehavior: BackoffBehavior)
      modifies this
      ensures requests == old(requests) + [Request(path, parameters, backoffBehavior)]
    {
      requests := requests + [Request(path, parameters, backoffBehavior)];
    }

    /** `fetchAnswers(parameters:backoffBehavior:)`: one request on the fixed path, with the
        parameters and the backoff behaviour passed through unchanged. */
    method FetchAllAnswers(parameters: map<string, string> := map[], backoffBehavior: BackoffBehavior := Wait)
      modifies this
      ensures requests == old(requests) + [Request(AllAnswersPath, parameters, backoffBehavior)]
    {
      PerformAPIRequest(AllAnswersPath, parameters, backoffBehavior);
    }

    /** `fetchAnswers(_ ids:parameters:backoffBehavior:)`. An empty ID list is a fatal misuse
        (`fatalError`) that happens before any request, so callers must not pass one. */
    method FetchAnswers(ids: seq<int>, parameters: map<string, string> := map[], backoffBehavior: BackoffBehavior := Wait)
      requires |ids| > 0
      modifies this
      ensures requests == old(requests) + [Request(AnswersPath(ids), parameters, backoffBehavior)]
    {
      PerformAPIRequest(AnswersPath(ids), parameters, backoffBehavior);
    }

    /** `fetchAnswer(_ id:parameters:backoffBehavior:)`: the request for the one-element list. */
    method FetchAnswer(id: int, parameters: map<string, string> := map[], backoffBehavior: BackoffBehavior := Wait)
      modifies this
      ensures requests == old(requests) + [Request(AnswersPrefix + Decimal(id), parameters, backoffBehavior)]
    {
      SingleAnswerPath(id);
      FetchAnswers([id], parameters, backoffBehavior);
    }

    /** `fetchSites(_:backoffBehavior:)`: copies the caller's parameters, forces "site" to the
        empty string and makes one request on the sites path. */
    method FetchSites(parameters: map<string, string> := map[], backoffBehavior: BackoffBehavior := Wait)
      modifies this
      ensures |requests| == |old(requests)| + 1 && requests[..|old(requests)|] == old(requests)
      ensures requests[|old(requests)|].path == SitesPath
      ensures SiteForcedEmpty(parameters, requests[|old(requests)|].parameters)
      ensures requests[|old(requests)|].backoffBehavior == backoffBehavior
    {
      var params := parameters;
      params := params["site" := ""];
      PerformAPIRequest(SitesPath, params, backoffBehavior);
    }

    /** The work item of `fetchSites(_:backoffBehavior:completionHandler:)`, run inline: the
        same rewrite and the same request as the synchronous variant. */
    method FetchSitesAsync(parameters: map<string, string> := map[], backoffBehavior: BackoffBehavior := Wait)
      modifies this
      ensures |requests| == |old(requests)| + 1 && requests[..|old(requests)|] == old(requests)
      ensures requests[|old(requests)|].path == SitesPath
      ensures SiteForcedEmpty(parameters, requests[|old(requests)|].parameters)
      ensures requests[|old(requests)|].backoffBehavior == backoffBehavior
    {
      var params := parameters;
      params := params["site" := ""];
      PerformAPIRequest(SitesPath, params, backoffBehavior);
    }
  }
}
