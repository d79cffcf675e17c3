/**
 * The top level of the three corporate-action scrapers: the output record
 * (`corporate_actions` plus `metadata`) they build and write to
 * `corporate_actions.json`, the first-success fallback over the fetch
 * approaches of versions 1.2 and 1.4, the mock data those versions fall
 * back to, and the single fetch with its error record of version 1.0.
 *
 * The network, the browser and the HTML extraction are not modelled: a
 * fetch approach is given as its `Fetch` outcome (it raised, or it got a
 * page with a status code and the actions extracted from it). The clock
 * is the parameter `now` (the `scraped_at` text). Each write of
 * `corporate_actions.json` may fail: `writeOk(i)` says whether the i-th
 * write of a run succeeds, and `ioError` is the text of the exception a
 * failed write raises.
 */
module Scraper {
  import opened Options
  import opened PyText
  import opened ActionText

  /** The page every version scrapes. */
  const SourceUrl: string := "https://help.wealthsimple.com/hc/en-ca/articles/4415455710363-Corporate-actions-tracker"

  /** The three scripts: `scrape_corporate_actions.py` (1.0),
      `decagon_voice/scrape2.py` (1.2) and
      `decagon_voice/scrape_corporate_actions.py` (1.4). */
  datatype Version = V10 | V12 | V14

  /** The `scraper_version` a version writes. */
  function VersionText(v: Version): (r: string)
    ensures |r| == 3 && r[..2] == "1."
  {
    match v
    case V10 => "1.0"
    case V12 => "1.2"
    case V14 => "1.4"
  }

  /** The `metadata` object. Optional keys are `None` when the record does
      not have them; `githubActionsCompatible` says whether the record
      carries `"github_actions_compatible": true`. */
  datatype Metadata = Metadata(
    totalActions: nat,
    scrapedAt: string,
    sourceUrl: string,
    scraperVersion: string,
    status: Status,
    methodUsed: Option<string>,
    errorMessage: Option<string>,
    note: Option<string>,
    githubActionsCompatible: bool)

  /** The `status` values the scrapers write, and the one more value the
      fallback loop also accepts. */
  datatype Status = Success | SuccessAlternative | NoDataFound | Error | MockStatus

  /** The text of a status in the record. */
  function StatusText(st: Status): (r: string)
    ensures r != []
  {
    match st
    case Success => "success"
    case SuccessAlternative => "success_alternative"
    case NoDataFound => "no_data_found"
    case Error => "error"
    case MockStatus => "mock_data"
  }

  /** Different statuses are written differently, so the record's text
      tells them apart. */
  lemma StatusTextInjective(a: Status, b: Status)
    ensures StatusText(a) == StatusText(b) <==> a == b
  {
    if a != b {
      assert StatusText(a)[..2] != StatusText(b)[..2] || StatusText(a)[2..] != StatusText(b)[2..] || |StatusText(a)| != |StatusText(b)|;
    }
  }

  /** The object a scraper returns and writes. */
  datatype Report = Report(actions: seq<Action>, metadata: Metadata)

  /** The test the fallback loop applies to an approach's result. */
  predicate Accepted(r: Report) {
    r.metadata.status == Success || r.metadata.status == SuccessAlternative
  }

  /** `create_success_response(actions, url, method)` of versions 1.2 and
      1.4, and the output record of version 1.0 (which names no method).
      The status says whether anything was found, so a result without
      actions is never accepted by the fallback loop. */
  function SuccessResponse(v: Version, actions: seq<Action>, url: string, usedMethod: Option<string>, now: string): (r: Report)
    ensures r.actions == actions && r.metadata.totalActions == |actions|
    ensures r.metadata.status == Success <==> actions != []
    ensures r.metadata.status == NoDataFound <==> actions == []
    ensures Accepted(r) <==> actions != []
    ensures r.metadata.sourceUrl == url && r.metadata.scraperVersion == VersionText(v)
    ensures r.metadata.errorMessage.None? && r.metadata.note.None?
    ensures r.metadata.githubActionsCompatible <==> v == V14
  {
    Report(actions, Metadata(|actions|, now, url, VersionText(v),
                             if actions != [] then Success else NoDataFound,
                             usedMethod, None, None, v == V14))
  }

  /** `create_error_response(message)` of versions 1.2 and 1.4, and the
      error record of version 1.0: no actions, status `error`, the
      message kept; never accepted. */
  function ErrorResponse(v: Version, message: string, now: string): (r: Report)
    ensures r.actions == [] && r.metadata.totalActions == 0
    ensures r.metadata.status == Error && !Accepted(r)
    ensures r.metadata.errorMessage == Some(message)
    ensures r.metadata.sourceUrl == SourceUrl && r.metadata.scraperVersion == VersionText(v)
    ensures r.metadata.methodUsed.None? && r.metadata.note.None?
    ensures r.metadata.githubActionsCompatible <==> v == V14
  {
    Report([], Metadata(0, now, SourceUrl, VersionText(v), Error, None, Some(message), None, v == V14))
  }

  /** The sample actions of `create_mock_data()` in version 1.2. */
  const MockActions12: seq<Action> := [
    Action("2024-01-15", "Example Corp", "EXAM", "Stock Split", "2:1",
           "Example Corp (EXAM) performed a 2:1 stock split"),
    Action("2024-01-10", "Test Industries", "TEST", "Consolidation", "1:8",
           "Test Industries (TEST) performed a 1:8 consolidation")
  ]

  /** The sample actions of `create_mock_data()` in version 1.4. */
  const MockActions14: seq<Action> := [
    Action("2025-01-15", "Example Corp", "EXAM", "Stock Split", "2:1",
           "Example Corp (EXAM) performed a 2 for 1 stock split. Holders will now hold 2 shares for every 1 share previously held."),
    Action("2025-01-10", "Test Industries Ltd", "TEST", "Consolidation", "1:8",
           "Test Industries Ltd (TEST) performed a 1 for 8 consolidation. Holders will now hold 1 share for every 8 shares previously held."),
    Action("2025-01-08", "Mock Financial Inc", "MOCK", "Merger", "",
           "Mock Financial Inc (MOCK) performed a merger. Details of the event are still to be determined.")
  ]

  /** The `note` of the mock data in versions 1.2 and 1.4. */
  const MockNote12: string := "This is mock data created because scraping failed"
  const MockNote14: string := "This is mock data created because all scraping methods failed"

  /** The sample actions of `create_mock_data()`. */
  function MockActions(v: Version): (r: seq<Action>)
    requires v != V10
  {
    if v == V12 then MockActions12 else MockActions14
  }

  /** `create_mock_data()` (versions 1.2 and 1.4 only): status
      `mock_data`, which the fallback loop does not accept, and a count
      that agrees with the actions: two in version 1.2, three in 1.4. */
  function MockData(v: Version, now: string): (r: Report)
    requires v != V10
    ensures r.actions == MockActions(v) && r.metadata.totalActions == |r.actions|
    ensures |r.actions| == (if v == V14 then 3 else 2)
    ensures r.metadata.status == MockStatus && !Accepted(r)
    ensures r.metadata.methodUsed == (if v == V14 then Some("fallback_mock_data") else None)
    ensures r.metadata.note.Some? && r.metadata.errorMessage.None?
    ensures r.metadata.sourceUrl == SourceUrl && r.metadata.scraperVersion == VersionText(v)
    ensures r.metadata.githubActionsCompatible <==> v == V14
  {
    var note := if v == V14 then MockNote14 else MockNote12;
    Report(MockActions(v), Metadata(|MockActions(v)|, now, SourceUrl, VersionText(v), MockStatus,
                                    if v == V14 then Some("fallback_mock_data") else None,
                                    None, Some(note), v == V14))
  }

  // ---------------------------------------------------------------------
  // The fallback of versions 1.2 and 1.4

  /** How a fetch approach went: it raised, or it got a page with a status
      code and the actions extracted from it. */
  datatype Fetch = Failed(message: string) | Page(status: int, actions: seq<Action>)

  /** The approaches in the order they are tried, by their `method_used`. */
  const Methods: seq<string> := ["standard_requests", "cloudscraper", "selenium"]

  /** The actions approach `k` hands to `create_success_response`, or
      `None` when it raises before that: requests and cloudscraper raise
      on a status other than 200, Selenium takes whatever page it got. */
  function Reached(k: nat, f: Fetch): (r: Option<seq<Action>>)
    ensures r.Some? <==> f.Page? && (k == 2 || f.status == 200)
    ensures r.Some? ==> r.value == f.actions
  {
    match f
    case Failed(_) => None
    case Page(status, actions) => if k == 2 || status == 200 then Some(actions) else None
  }

  /** Approach `k` gets a page with at least one action. */
  predicate Useful(k: nat, f: Fetch) {
    Reached(k, f).Some? && Reached(k, f).value != []
  }

  /** What a run returned (`None` when it raised) and what it left in
      `corporate_actions.json` (`None` when it wrote nothing). */
  datatype Run = Run(returned: Option<Report>, file: Option<Report>)

  /** The run from approach `k` on, after `w` writes, with the file
      holding `file`. An approach that reaches `create_success_response`
      writes its result, which then ends the loop only when it is accepted;
      a failed write is an exception that moves on to the next approach.
      After the last approach the mock data is written and returned; if
      that write fails, the outer handler writes and returns the error
      response, and if that write fails too, the run raises. */
  function Fallback(v: Version, fetches: seq<Fetch>, writeOk: nat -> bool, now: string, ioError: string,
                    k: nat, w: nat, file: Option<Report>): Run
    requires v != V10 && |fetches| == |Methods| && k <= |fetches|
    decreases |fetches| - k
  {
    if k < |fetches| then
      match Reached(k, fetches[k])
      case None => Fallback(v, fetches, writeOk, now, ioError, k + 1, w, file)
      case Some(actions) =>
        var r := SuccessResponse(v, actions, SourceUrl, Some(Methods[k]), now);
        if !writeOk(w) then Fallback(v, fetches, writeOk, now, ioError, k + 1, w + 1, file)
        else if Accepted(r) then Run(Some(r), Some(r))
        else Fallback(v, fetches, writeOk, now, ioError, k + 1, w + 1, Some(r))
    else
      var m := MockData(v, now);
      if writeOk(w) then Run(Some(m), Some(m))
      else
        var e := ErrorResponse(v, ioError, now);
        if writeOk(w + 1) then Run(Some(e), Some(e)) else Run(None, file)
  }

  /** `scrape_wealthsimple_corporate_actions()` of versions 1.2 and 1.4. */
  method ScrapeWithFallback(v: Version, fetches: seq<Fetch>, writeOk: nat -> bool, now: string, ioError: string)
    returns (run: Run)
    requires v != V10 && |fetches| == |Methods|
    ensures run == Fallback(v, fetches, writeOk, now, ioError, 0, 0, None)
  {
    var w := 0;
    var file: Option<Report> := None;
    for k := 0 to |fetches|
      invariant Fallback(v, fetches, writeOk, now, ioError, k, w, file) == Fallback(v, fetches, writeOk, now, ioError, 0, 0, None)
    {
      var reached := Reached(k, fetches[k]);
      if reached.Some? {
        var result := SuccessResponse(v, reached.value, SourceUrl, Some(Methods[k]), now);
        if writeOk(w) {
          file := Some(result);
          w := w + 1;
          if Accepted(result) {
            return Run(Some(result), file);
          }
        } else {
          w := w + 1;
        }
      }
    }
    var mock := MockData(v, now);
    if writeOk(w) {
      return Run(Some(mock), Some(mock));
    }
    var error := ErrorResponse(v, ioError, now);
    if writeOk(w + 1) {
      return Run(Some(error), Some(error));
    }
    return Run(None, file);
  }

  /** Whatever the writes do: a run that returns has written what it
      returns; it returns the success response of an approach that found
      actions, the mock data or the error response of the failed write,
      and never a result without actions from an approach. */
  lemma {:induction false} FallbackOutcome(v: Version, fetches: seq<Fetch>, writeOk: nat -> bool, now: string,
                                           ioError: string, k: nat, w: nat, file: Option<Report>)
    requires v != V10 && |fetches| == |Methods| && k <= |fetches|
    ensures var run := Fallback(v, fetches, writeOk, now, ioError, k, w, file);
      run.returned.Some? ==> run.file == run.returned
    ensures var run := Fallback(v, fetches, writeOk, now, ioError, k, w, file);
      run.returned.Some? ==> run.returned.value.metadata.status in {Success, MockStatus, Error}
    ensures var run := Fallback(v, fetches, writeOk, now, ioError, k, w, file);
      run.returned.Some? && run.returned.value.metadata.status == Success ==>
        exists j :: k <= j < |fetches| && Useful(j, fetches[j]) &&
          run.returned.value == SuccessResponse(v, fetches[j].actions, SourceUrl, Some(Methods[j]), now)
    ensures var run := Fallback(v, fetches, writeOk, now, ioError, k, w, file);
      run.returned.Some? && run.returned.value.metadata.status == MockStatus ==> run.returned.value == MockData(v, now)
    ensures var run := Fallback(v, fetches, writeOk, now, ioError, k, w, file);
      run.returned.Some? && run.returned.value.metadata.status == Error ==>
        run.returned.value == ErrorResponse(v, ioError, now)
    decreases |fetches| - k
  {
    if k < |fetches| {
      match Reached(k, fetches[k])
      case None =>
        FallbackOutcome(v, fetches, writeOk, now, ioError, k + 1, w, file);
      case Some(actions) =>
        var r := SuccessResponse(v, actions, SourceUrl, Some(Methods[k]), now);
        if !writeOk(w) {
          FallbackOutcome(v, fetches, writeOk, now, ioError, k + 1, w + 1, file);
        } else if !Accepted(r) {
          FallbackOutcome(v, fetches, writeOk, now, ioError, k + 1, w + 1, Some(r));
        } else {
          assert Useful(k, fetches[k]);
        }
    }
  }

  /** When every write succeeds, the run returns the success response of
      the first approach that found actions, and the mock data when none
      did; approaches that raised or found nothing are passed over. */
  lemma {:induction false} FallbackFirstUseful(v: Version, fetches: seq<Fetch>, writeOk: nat -> bool, now: string,
                                               ioError: string, k: nat, w: nat, file: Option<Report>)
    requires v != V10 && |fetches| == |Methods| && k <= |fetches|
    requires forall i :: writeOk(i)
    ensures var run := Fallback(v, fetches, writeOk, now, ioError, k, w, file);
      run.returned.Some? && run.file == run.returned &&
      (forall j :: k <= j < |fetches| && Useful(j, fetches[j]) && (forall i :: k <= i < j ==> !Useful(i, fetches[i])) ==>
         run.returned.value == SuccessResponse(v, fetches[j].actions, SourceUrl, Some(Methods[j]), now)) &&
      ((forall j :: k <= j < |fetches| ==> !Useful(j, fetches[j])) ==> run.returned.value == MockData(v, now))
    decreases |fetches| - k
  {
    if k < |fetches| && !Useful(k, fetches[k]) {
      match Reached(k, fetches[k])
      case None =>
        FallbackFirstUseful(v, fetches, writeOk, now, ioError, k + 1, w, file);
      case Some(actions) =>
        var r := SuccessResponse(v, actions, SourceUrl, Some(Methods[k]), now);
        FallbackFirstUseful(v, fetches, writeOk, now, ioError, k + 1, w + 1, Some(r));
    }
  }

  /** A whole run of versions 1.2 and 1.4 with every write succeeding:
      the first approach with actions wins, else the mock data. */
  lemma ScrapeFallbackOrder(v: Version, fetches: seq<Fetch>, writeOk: nat -> bool, now: string, ioError: string, j: nat)
    requires v != V10 && |fetches| == |Methods| && forall i :: writeOk(i)
    ensures var run := Fallback(v, fetches, writeOk, now, ioError, 0, 0, None);
      (j < |fetches| && Useful(j, fetches[j]) && (forall i :: 0 <= i < j ==> !Useful(i, fetches[i])) ==>
         run.returned == Some(SuccessResponse(v, fetches[j].actions, SourceUrl, Some(Methods[j]), now))) &&
      ((forall i :: 0 <= i < |fetches| ==> !Useful(i, fetches[i])) ==> run.returned == Some(MockData(v, now)))
  {
    FallbackFirstUseful(v, fetches, writeOk, now, ioError, 0, 0, None);
  }

  // ---------------------------------------------------------------------
  // Version 1.0: one fetch, no fallback

  /** `scrape_wealthsimple_corporate_actions()` of version 1.0: a page
      with status 200 gives the output record, which is written and
      returned; any other status, a failed fetch or a failed write is an
      exception whose text goes into an error record, which is written,
      and the exception is raised again. `writeOk(i)` is whether the i-th
      write succeeds. */
  method ScrapeBasic(page: Fetch, writeOk: nat -> bool, now: string, ioError: string) returns (run: Run)
    ensures run.returned.Some? <==> page.Page? && page.status == 200 && writeOk(0)
    ensures run.returned.Some? ==>
      run.file == run.returned && run.returned.value == SuccessResponse(V10, page.actions, SourceUrl, None, now)
    ensures page.Failed? ==>
      run.file == (if writeOk(0) then Some(ErrorResponse(V10, page.message, now)) else None)
    ensures page.Page? && page.status != 200 ==>
      run.file == (if writeOk(0) then Some(ErrorResponse(V10, "HTTP " + IntToString(page.status) + ": Failed to fetch page", now)) else None)
    ensures page.Page? && page.status == 200 && !writeOk(0) ==>
      run.file == (if writeOk(1) then Some(ErrorResponse(V10, ioError, now)) else None)
    ensures run.returned.None? && run.file.Some? ==>
      run.file.value.metadata.status == Error && run.file.value.metadata.totalActions == 0
  {
    var message: string;
    var w := 0;
    match page {
      case Failed(m) =>
        message := m;
      case Page(status, actions) =>
        if status != 200 {
          message := "HTTP " + IntToString(status) + ": Failed to fetch page";
        } else {
          var output := SuccessResponse(V10, actions, SourceUrl, None, now);
          if writeOk(w) {
            return Run(Some(output), Some(output));
          }
          w := w + 1;
          message := ioError;
        }
    }
    var error := ErrorResponse(V10, message, now);
    if writeOk(w) {
      return Run(None, Some(error));
    }
    return Run(None, None);
  }
}
