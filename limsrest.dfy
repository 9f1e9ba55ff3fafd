/** The request processor of the LIMS REST publishing job: for one request id
    it reads the request record, skips it or enriches it with one manifest per
    sample, reports problems to the LIMS client's error log, and returns the
    record to the batch framework. */
module LimsRest {
  import opened Json
  import opened JavaText
  import opened LimsRestSpec

  /** One call of `updateLimsRequestErrors(requestId, message)`. */
  datatype ErrorReport = ErrorReport(requestId: string, message: string)

  /** The calls a run whose report is `report` makes for `requestId`. */
  function ReportsOf(requestId: string, report: Option<string>): seq<ErrorReport>
  {
    match report
    case None => []
    case Some(message) => [ErrorReport(requestId, message)]
  }

  /** The LIMS REST client. Its remote calls are given as functions; its error
      log is the one piece of state `process` changes. */
  class LimsRequestUtil {
    /** `getLimsRequestSamples(requestId).get()`: the request record. */
    const requestResponse: string -> Record
    /** `getSamplesFromRequestResponse(record)`: the sample map, or `null`. */
    const samplesFromRequestResponse: Record -> Option<map<string, bool>>
    /** `getSampleManifest(sampleId)`, waited on. */
    const sampleManifest: string -> ManifestFetch
    /** Every error report received, oldest first. */
    var errorReports: seq<ErrorReport>

    constructor (requestResponse: string -> Record,
                 samplesFromRequestResponse: Record -> Option<map<string, bool>>,
                 sampleManifest: string -> ManifestFetch)
      ensures this.requestResponse == requestResponse
      ensures this.samplesFromRequestResponse == samplesFromRequestResponse
      ensures this.sampleManifest == sampleManifest
      ensures errorReports == []
    {
      this.requestResponse := requestResponse;
      this.samplesFromRequestResponse := samplesFromRequestResponse;
      this.sampleManifest := sampleManifest;
      errorReports := [];
    }

    /** `updateLimsRequestErrors`: records one report. */
    method UpdateLimsRequestErrors(requestId: string, message: string)
      modifies this
      ensures errorReports == old(errorReports) + [ErrorReport(requestId, message)]
    {
      errorReports := errorReports + [ErrorReport(requestId, message)];
    }
  }

  /** The loop of `process` over the sample ids to fetch. Each id is visited
      once, in an order the `HashSet` chooses (returned as `order`); a fetch
      that yields a manifest appends it to the manifest list, any other
      outcome appends the id to the error list. */
  method FetchManifests(toFetch: set<string>, samples: map<string, bool>, b: Backend)
    returns (sampleManifestList: seq<Value>, samplesWithErrors: seq<string>, ghost order: seq<string>)
    ensures Enumerates(order, toFetch)
    ensures sampleManifestList == Manifests(order, samples, b)
    ensures samplesWithErrors == Failures(order, samples, b)
    ensures |sampleManifestList| + |samplesWithErrors| == |toFetch|
    ensures Distinct(samplesWithErrors)
    ensures forall id :: id in samplesWithErrors <==> id in toFetch && ManifestOf(id, samples, b).None?
  {
    sampleManifestList, samplesWithErrors, order := [], [], [];
    var remaining := toFetch;
    while remaining != {}
      invariant Distinct(order)
      invariant forall id :: id in order <==> id in toFetch && id !in remaining
      invariant remaining <= toFetch
      invariant sampleManifestList == Manifests(order, samples, b)
      invariant samplesWithErrors == Failures(order, samples, b)
      decreases remaining
    {
      var sampleId :| sampleId in remaining;
      var manifest := b.sampleManifest(sampleId);
      if manifest.NoFuture? {
        samplesWithErrors := samplesWithErrors + [sampleId];
      } else if manifest.Failed? || |manifest.items| == 0 {
        // the exception (or `get(0)` on an empty list) is caught
        samplesWithErrors := samplesWithErrors + [sampleId];
      } else {
        var converted := b.convertValue(manifest.items[0]);
        if converted.None? {
          samplesWithErrors := samplesWithErrors + [sampleId];
        } else {
          var sampleManifest := converted.value["igoComplete" := IgoComplete(samples, sampleId)];
          sampleManifestList := sampleManifestList + [Obj(sampleManifest)];
        }
      }
      assert (order + [sampleId])[..|order|] == order;
      order := order + [sampleId];
      remaining := remaining - {sampleId};
    }
    EnumerationSize(order, toFetch);
    FetchPartition(order, samples, b);
    FetchListsDistinct(order, samples, b);
  }

  /** `LimsRequestProcessor`: the batch step that turns a request id into the
      enriched request record. */
  class LimsRequestProcessor {
    /** Job parameter `cmoRequestsFilter`: keep CMO requests only. */
    const cmoRequestsFilter: bool
    /** Job parameter `igoSampleIds`: comma-separated sample ids, or `null`. */
    const igoSampleIds: Option<string>
    const limsRestUtil: LimsRequestUtil
    /** `mapper.convertValue(obj, Map.class)`: `None` when it throws or yields `null`. */
    const convertValue: Value -> Option<Record>

    constructor (cmoRequestsFilter: bool, igoSampleIds: Option<string>,
                 limsRestUtil: LimsRequestUtil, convertValue: Value -> Option<Record>)
      ensures this.cmoRequestsFilter == cmoRequestsFilter && this.igoSampleIds == igoSampleIds
      ensures this.limsRestUtil == limsRestUtil && this.convertValue == convertValue
    {
      this.cmoRequestsFilter := cmoRequestsFilter;
      this.igoSampleIds := igoSampleIds;
      this.limsRestUtil := limsRestUtil;
      this.convertValue := convertValue;
    }

    /** The collaborators as the reference definition takes them. */
    function Collaborators(): Backend
    {
      Backend(limsRestUtil.samplesFromRequestResponse, limsRestUtil.sampleManifest, convertValue)
    }

    /** `process(requestId)`. `fetched` is the order in which the sample
        manifests were requested (empty when the request is skipped first). */
    method Process(requestId: string) returns (outcome: Outcome, ghost fetched: seq<string>)
      modifies limsRestUtil
      ensures
        var run := Expected(cmoRequestsFilter, igoSampleIds, requestId,
                            limsRestUtil.requestResponse(requestId), Collaborators(), fetched);
        && outcome == run.outcome
        && fetched == run.fetched
        && limsRestUtil.errorReports == old(limsRestUtil.errorReports) + ReportsOf(requestId, run.report)
      ensures
        var record := limsRestUtil.requestResponse(requestId);
        Reaches(cmoRequestsFilter, record, Collaborators()) ==>
          Enumerates(fetched, SamplesToFetch(igoSampleIds, limsRestUtil.samplesFromRequestResponse(record).value))
    {
      var requestResponse := limsRestUtil.requestResponse(requestId);
      ghost var record := requestResponse;
      fetched := [];
      if cmoRequestsFilter {
        var isCmoRequest := CmoFlag(requestResponse);
        if isCmoRequest.None? {
          // the cast or the unboxing throws, and nothing catches it
          return Thrown, [];
        }
        if !isCmoRequest.value {
          limsRestUtil.UpdateLimsRequestErrors(requestId, NonCmoMessage);
          return Skipped, [];
        }
      }
      var samples := limsRestUtil.samplesFromRequestResponse(requestResponse);
      if "samples" !in requestResponse || samples.None? || |samples.value| == 0 {
        limsRestUtil.UpdateLimsRequestErrors(requestId, NoSamplesMessage);
        return Skipped, [];
      }

      var igoSamplesToFetch := SamplesToFetch(igoSampleIds, samples.value);
      var sampleManifestList, samplesWithErrors;
      sampleManifestList, samplesWithErrors, fetched := FetchManifests(igoSamplesToFetch, samples.value, Collaborators());
      ghost var run := Expected(cmoRequestsFilter, igoSampleIds, requestId, record, Collaborators(), fetched);
      assert run.report == FetchErrorsReport(samplesWithErrors) && run.fetched == fetched;
      if |samplesWithErrors| > 0 {
        limsRestUtil.UpdateLimsRequestErrors(requestId, FetchErrorsPrefix + Join(samplesWithErrors, ", "));
      }
      assert limsRestUtil.errorReports == old(limsRestUtil.errorReports) + ReportsOf(requestId, run.report);
      if "deliveryDate" in requestResponse {
        requestResponse := requestResponse - {"deliveryDate"};
      } else {
        RemoveAbsentKey(requestResponse, "deliveryDate");
      }
      var parts := Split(requestId, '_');
      if |parts| == 0 {
        // `split("_")[0]` throws on an id made of underscores only
        assert run.outcome == Thrown;
        return Thrown, fetched;
      }
      requestResponse := requestResponse["projectId" := Str(parts[0])];
      requestResponse := requestResponse["samples" := Arr(sampleManifestList)];
      assert run.outcome == Enriched(requestResponse);
      return Enriched(requestResponse), fetched;
    }
  }
}
