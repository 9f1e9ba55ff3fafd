# LIMS request processor: a Dafny model

This project models the request-enrichment step of the SMILE message
publisher's LIMS REST job, `LimsRequestProcessor.process(requestId)`. The
step reads a request record from the LIMS and, when the `cmoRequestsFilter`
job parameter is set, drops requests not flagged `isCmoRequest`. It also
drops requests without samples. It then fetches one sample manifest per
selected sample, either every sample of the request or the ids named in
the `igoSampleIds` job parameter. Each manifest gets the sample's
`igoComplete` flag. Failed fetches are reported, in one report, to the LIMS
client's error log. The step returns the record with `deliveryDate` removed,
`projectId` added and `samples` replaced by the manifest list.

Modules:

- `Json` (`json.dfy`): the loosely-typed values of a record (`Value`,
  `Record`) and `Option`, where `None` is Java's `null`.
- `JavaText` (`java_text.dfy`): Java's `String.split` with limit 0
  (`Split`), `StringUtils.join` (`Join`), `StringUtils.isBlank` (`IsBlank`)
  with `Character.isWhitespace`, and the part of a string before a character
  (`BeforeFirst`). Lemmas connect them: `SplitHead` and the round trip
  `SplitJoin`.
- `LimsRestSpec` (`limsrest_spec.dfy`): the reference definition of one run
  (`Expected`) as pure functions, and the lemmas about it.
- `LimsRest` (`limsrest.dfy`): the imperative model. Class `LimsRequestUtil`
  is the LIMS client; its error log `errorReports` is the state a run
  changes. Class `LimsRequestProcessor` holds the job parameters, and its
  method `Process` follows the Java method statement by statement. The
  sample loop is the method `FetchManifests`, which is proved against the
  reference definition.

The sample ids come from a `HashSet`, whose iteration order Java does not
fix. `FetchManifests` picks the next id arbitrarily and returns the order it
used as a ghost value. Every definition takes that order as a parameter, and
every property holds for any order that visits each selected id once
(`Enumerates`).

Outcomes are `Skipped` (Java returns `null`), `Enriched(record)`, or
`Thrown`. `Thrown` is an exception that escapes `process`: a non-Boolean or
`null` `isCmoRequest` when the filter is on, or a request id made only of
underscores, for which `split("_")` returns an empty array.

An `igoSampleIds` id that the request's sample map does not list is not an
error: `samples.get(sampleId)` returns `null` and `put("igoComplete", null)`
succeeds, so its manifest gets `igoComplete = null` (`IgoComplete`).

## Model

| member | source | states |
|---|---|---|
| `LimsRest.LimsRequestProcessor.Process` | src/main/java/org/mskcc/smile/publisher/pipeline/limsrest/LimsRequestProcessor.java:39-105 | the outcome and the fetch order are those of `Expected`; the error log gains exactly the run's report (none or one), tagged with the request id; when the run gets past both checks, every selected id is fetched exactly once |
| `LimsRest.LimsRequestProcessor.constructor` | src/main/java/org/mskcc/smile/publisher/pipeline/limsrest/LimsRequestProcessor.java:27-36 | the two job parameters, the LIMS client and the object mapper are the ones given |
| `LimsRest.LimsRequestUtil.UpdateLimsRequestErrors` | src/main/java/org/mskcc/smile/publisher/pipeline/limsrest/LimsRequestProcessor.java:49 | the error log grows by exactly the one report (request id, message) |
| `LimsRest.FetchManifests` | src/main/java/org/mskcc/smile/publisher/pipeline/limsrest/LimsRequestProcessor.java:69-88 | visits every selected id once; manifest list and error list are `Manifests` and `Failures` of that order; their lengths add up to the number of selected ids; the error list has no repeats and holds exactly the selected ids whose fetch failed |
| `LimsRestSpec.SamplesToFetch` | src/main/java/org/mskcc/smile/publisher/pipeline/limsrest/LimsRequestProcessor.java:62-67 | a blank or `null` `igoSampleIds` selects all sample ids of the request; otherwise each selected id is a comma-free token |
| `LimsRestSpec.SelectedIds` | src/main/java/org/mskcc/smile/publisher/pipeline/limsrest/LimsRequestProcessor.java:63-64 | a non-blank `igoSampleIds` made of comma-free ids joined with "," selects exactly those ids with the trailing empty ones dropped, as Java's `split` drops them ("s1,s2," selects s1 and s2), duplicates collapsed, whatever samples the request lists |
| `LimsRestSpec.SampleManifest` | src/main/java/org/mskcc/smile/publisher/pipeline/limsrest/LimsRequestProcessor.java:74-84 | a fetch gives a manifest exactly when it returns a non-empty list whose first element converts to a map; the manifest is that map with "igoComplete" set to the sample's flag (`null` for an id the request does not list) and every other field kept |
| `LimsRestSpec.EnumerationSize` | src/main/java/org/mskcc/smile/publisher/pipeline/limsrest/LimsRequestProcessor.java:72 | an iteration order of the id set is exactly as long as the set is large |
| `LimsRestSpec.FetchPartition` | src/main/java/org/mskcc/smile/publisher/pipeline/limsrest/LimsRequestProcessor.java:72-88 | every visited id lands in exactly one of the two lists; the k-th manifest is the manifest of the k-th successful id; an id is in the error list exactly when its fetch failed |
| `LimsRestSpec.FetchListsDistinct` | src/main/java/org/mskcc/smile/publisher/pipeline/limsrest/LimsRequestProcessor.java:72-88 | when ids are visited once each, no id is reported twice and no id gets two manifests |
| `LimsRestSpec.NonCmoRequestSkipped` | src/main/java/org/mskcc/smile/publisher/pipeline/limsrest/LimsRequestProcessor.java:45-51 | with the filter on and "isCmoRequest" absent or false, the request is skipped, the one report is "Non-CMO request", and no manifest is fetched |
| `LimsRestSpec.CmoFlagIgnoredWhenFilterOff` | src/main/java/org/mskcc/smile/publisher/pipeline/limsrest/LimsRequestProcessor.java:45-59 | with the filter off, "isCmoRequest" plays no part: the request is skipped exactly when it lacks samples, and then with the samples report |
| `LimsRestSpec.MissingSamplesSkipped` | src/main/java/org/mskcc/smile/publisher/pipeline/limsrest/LimsRequestProcessor.java:53-58 | no "samples" key, a `null` sample map and an empty one all give a skip with the one report "Request JSON does not contain 'samples'" and no fetch |
| `LimsRestSpec.EnrichedRun` | src/main/java/org/mskcc/smile/publisher/pipeline/limsrest/LimsRequestProcessor.java:61-104 | past both checks: the manifest and error counts add up to the selected ids; the errors are exactly the failed ids, each once; a report is sent exactly when some fetch failed, and it is "Errors during sample manifest fetch: " with the ids joined by ", "; the run throws exactly for an all-underscore id and otherwise returns the assembled record with the project id before the first "_"; a run past both checks is never skipped |
| `LimsRestSpec.Assemble` | src/main/java/org/mskcc/smile/publisher/pipeline/limsrest/LimsRequestProcessor.java:95-103 | the returned record has no "deliveryDate", has "projectId" and "samples" as given, and keeps every other field and value of the request record |
| `LimsRestSpec.ProjectIdWithSuffix` | src/main/java/org/mskcc/smile/publisher/pipeline/limsrest/LimsRequestProcessor.java:101 | request id "12345_T" gives project id "12345" |
| `LimsRestSpec.ProjectIdWithoutUnderscore` | src/main/java/org/mskcc/smile/publisher/pipeline/limsrest/LimsRequestProcessor.java:101 | request id "12345", which has no "_", gives project id "12345" |
| `LimsRestSpec.ProjectIdShort` | src/main/java/org/mskcc/smile/publisher/pipeline/limsrest/LimsRequestProcessor.java:101 | request id "99_B" gives project id "99" |
| `LimsRestSpec.ProjectIdAllUnderscores` | src/main/java/org/mskcc/smile/publisher/pipeline/limsrest/LimsRequestProcessor.java:101 | request id "__" gives an empty `split` result, so the `[0]` lookup throws |
| `LimsRestSpec.ExampleRun` | src/main/java/org/mskcc/smile/publisher/pipeline/limsrest/LimsRequestProcessor.java:39-105 | request "99_B" with samples s1 (complete) and s2, where s1's fetch returns `{"id": "s1"}` and s2's throws, in either fetch order: enriched with project id "99", samples `[{"id": "s1", "igoComplete": true}]`, and the report "Errors during sample manifest fetch: s2" |
| `LimsRestSpec.Expected` | src/main/java/org/mskcc/smile/publisher/pipeline/limsrest/LimsRequestProcessor.java:39-105 | the reference run: a skip always sends one report and fetches nothing; a run stopped by a check fetches nothing and is never enriched; a run past both checks fetches in the given order and is never skipped; a throw after a report happens only past both checks |
| `LimsRestSpec.CmoFlag` | src/main/java/org/mskcc/smile/publisher/pipeline/limsrest/LimsRequestProcessor.java:46-47 | the flag is unreadable (the cast or unboxing throws) exactly when "isCmoRequest" is present and not a Boolean; it is true exactly when the field is `true`, so an absent field reads as false |
| `LimsRestSpec.IgoComplete` | src/main/java/org/mskcc/smile/publisher/pipeline/limsrest/LimsRequestProcessor.java:78 | a sample's completion value is `null` exactly when the request does not list the id, and otherwise the flag the request lists for it |
| `LimsRestSpec.FetchErrorsReport` | src/main/java/org/mskcc/smile/publisher/pipeline/limsrest/LimsRequestProcessor.java:89-93 | a report exists exactly when some fetch failed; it starts with "Errors during sample manifest fetch: " followed by the first failed id, and for one failed id it is the prefix and that id |
| `JavaText.Join` | src/main/java/org/mskcc/smile/publisher/pipeline/limsrest/LimsRequestProcessor.java:92 | the joined string starts with the first part and is as long as the parts plus one separator between each two; `split` inverts it for a one-character separator (`SplitJoin`, `SplitOfJoin`) |
| `JavaText.IsBlankCases` | src/main/java/org/mskcc/smile/publisher/pipeline/limsrest/LimsRequestProcessor.java:63 | `null`, empty and whitespace-only values (an ideographic space included) are blank; a value holding an id, or a no-break space, is not |
| `JavaText.SplitHead` | src/main/java/org/mskcc/smile/publisher/pipeline/limsrest/LimsRequestProcessor.java:101 | `split` returns an empty array exactly for a non-empty string made of the separator only; otherwise its first element is the part before the first separator |
| `JavaText.SplitOfJoin` | src/main/java/org/mskcc/smile/publisher/pipeline/limsrest/LimsRequestProcessor.java:64 | splitting comma-free ids joined with "," gives the ids back without their trailing empty ones, which Java's limit-0 `split` drops |
| `JavaText.SplitJoin` | src/main/java/org/mskcc/smile/publisher/pipeline/limsrest/LimsRequestProcessor.java:64 | splitting ids joined with a separator gives the ids back, when no id contains the separator and the last id is not an empty one that `split` drops |
| `JavaText.Split` | src/main/java/org/mskcc/smile/publisher/pipeline/limsrest/LimsRequestProcessor.java:64 | no token contains the separator |
| `JavaText.BeforeFirst` | src/main/java/org/mskcc/smile/publisher/pipeline/limsrest/LimsRequestProcessor.java:101 | a prefix of the string with no separator in it, followed by the separator unless it is the whole string |

## Left out

- SamplesToFetch: for a non-blank `igoSampleIds`, its contract says only that every selected id is free of commas. The exact set is stated by `SelectedIds`: every non-blank string is some list of comma-free ids joined with ",", and the lemma gives the selection for each such list.
- Spring Batch wiring: the `ItemProcessor` interface, `@Value` job parameters and `@Autowired` injection. The job parameters are constructor arguments.
- A `null` `cmoRequestsFilter` job parameter, whose unboxing throws. The parameter is a plain `bool`.
- The network calls and their `CompletableFuture`s. The base request fetch (`getLimsRequestSamples(...).get()`) is a function from request id to record, and its failures are not modelled. Each sample fetch is a function from sample id to `ManifestFetch`. A `null` future, an exception, a `null` list, an empty list (whose `get(0)` throws) and a conversion that throws or yields `null` are the non-success cases. The loop awaits each future before the next, so nothing runs concurrently.
- `getSamplesFromRequestResponse` and Jackson's `convertValue` are not part of this model: they are given functions, and `convertValue` yields `None` when it throws or returns `null`. `updateLimsRequestErrors` is abstracted: it appends one report to the client's error log (`UpdateLimsRequestErrors`), and its remote effect is not modelled.
- Logging (`LOG.info`, `LOG.error`, `LOG.warn`): it has no effect on the outcome.
- JSON floating-point numbers: `Value` has integers only. The processor never inspects numbers.
- Aliasing of the request map: the record is a map value that `Process` reassigns. No other holder of the same Java map is modelled.
- The ", "-joined ids of the fetch-errors report are not split back by any lemma: the report is only ever sent, never parsed.
- Java `char` is a UTF-16 code unit; here a character is a Unicode scalar value. Only `_`, `,` and whitespace are compared.
