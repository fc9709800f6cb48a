/** The crawl session of the scraper's `main`: the request counter with its
    watermark, the handler that logs every matched paragraph, and `main`
    itself with the collector's fetching reduced to its result, the texts of
    the paragraphs of the seed page. */
module Scraper {
  import opened LoggerSpec
  import opened Streams
  import opened Logging

  /** The seed page the crawl starts from. */
  const SeedUrl := "https://www.bbc.co.uk/news/articles/cvg885p923jo"
  const CsvPath := "scrape.csv"
  const JsonlPath := "scrape.jsonl"

  /** The request count at which the session announces the watermark. */
  const Watermark := 100

  /** The crawl-session state that the request callback updates. */
  class Session {
    var counter: int

    constructor ()
      ensures counter == 0
    {
      counter := 0;
    }

    /** The request callback: counts the request; `reached` is the watermark
        notice, given when the count becomes exactly `Watermark`. Nothing else
        happens: the crawl goes on. */
    method OnRequest() returns (reached: bool)
      modifies this
      ensures counter == old(counter) + 1
      ensures reached <==> counter == Watermark
    {
      counter := counter + 1;
      reached := counter == Watermark;
    }
  }

  /** The collector issuing `n` requests one after another, each through the
      request callback: the counter grows by `n` and the notices are those of
      `Notices`. */
  method OnRequests(session: Session, n: nat) returns (ns: seq<bool>)
    modifies session
    ensures session.counter == old(session.counter) + n
    ensures ns == Notices(old(session.counter), n)
  {
    ghost var start := session.counter;
    ns := [];
    var i := 0;
    while i < n
      invariant 0 <= i <= n
      invariant session.counter == start + i
      invariant ns == Notices(start, i)
    {
      var reached := session.OnRequest();
      ns := ns + [reached];
      i := i + 1;
    }
  }

  /** The watermark notices of `n` consecutive requests made after `start`
      earlier ones, one entry per request. */
  function Notices(start: int, n: nat): (ns: seq<bool>)
    ensures |ns| == n
    ensures forall k :: 0 <= k < n ==> (ns[k] <==> start + k + 1 == Watermark)
  {
    if n == 0 then [] else Notices(start, n - 1) + [start + n == Watermark]
  }

  function CountTrue(bs: seq<bool>): nat {
    if bs == [] then 0 else CountTrue(bs[..|bs| - 1]) + (if bs[|bs| - 1] then 1 else 0)
  }

  /** Over any run of requests the notice is given exactly once if the run
      crosses the watermark and never otherwise. */
  lemma {:induction false} NoticeAtMostOnce(start: int, n: nat)
    ensures CountTrue(Notices(start, n)) == if start < Watermark <= start + n then 1 else 0
  {
    if n > 0 {
      NoticeAtMostOnce(start, n - 1);
      assert Notices(start, n)[..n - 1] == Notices(start, n - 1);
    }
  }

  /** The paragraph handler, called once per matched element in document
      order: logs key "p" with the element's text; an error is only reported
      (collected in `reports`) and the next paragraph is handled all the same. */
  method OnParagraphs(l: Logger, texts: seq<string>, faults: seq<LogFaults>) returns (reports: seq<IoError>)
    requires l.Valid()
    modifies l.csvFile, l.jsonlFile, l.csvWriter, l.jsonlEncoder
    ensures l.Valid()
    ensures (l.State(), reports) == LogAll(old(l.State()), ParagraphRecords(texts), faults)
  {
    ghost var s := l.State();
    reports := [];
    var i := 0;
    while i < |texts|
      invariant 0 <= i <= |texts|
      invariant l.Valid()
      invariant (l.State(), reports) == LogAll(s, ParagraphRecords(texts[..i]), faults)
    {
      var err := l.Log("p", texts[i], FaultAt(faults, i));
      reports := Report(reports, err);
      ghost var rs := ParagraphRecords(texts[..i + 1]);
      assert texts[..i + 1][..i] == texts[..i];
      assert rs[..i] == ParagraphRecords(texts[..i]) by {
        ParagraphRecordsPrefix(texts[..i + 1], i);
      }
      i := i + 1;
    }
    assert texts[..i] == texts;
  }

  /** The failure inputs of a whole run. */
  datatype RunFaults = RunFaults(csvCreate: Fault, jsonlCreate: Fault, log: seq<LogFaults>, close: CloseFaults)

  /** `main`: create the logger (a failure is fatal and nothing is crawled),
      visit the seed page (one request: links are not followed), log its
      paragraphs, and finally close the logger, whose error is only reported. */
  method Scrape(paragraphs: seq<string>, f: RunFaults)
    returns (fatal: Fault, l: Logger?, requests: int, reports: seq<IoError>, closeErr: Fault)
    ensures fatal.Some? <==> l == null
    ensures fatal.Some? ==>
              fatal == (if f.csvCreate.Some? then f.csvCreate else f.jsonlCreate)
              && requests == 0 && reports == [] && closeErr == None
    ensures l != null ==>
              fresh(l) && l.Valid() && requests == 1
              && l.csvFile.path == CsvPath && l.jsonlFile.path == JsonlPath
              && reports == LogAll(Initial, ParagraphRecords(paragraphs), f.log).1
              && (l.State(), closeErr) == CloseStep(LogAll(Initial, ParagraphRecords(paragraphs), f.log).0, f.close)
  {
    ghost var created;
    l, fatal, created := Logger.NewLogger(CsvPath, JsonlPath, f.csvCreate, f.jsonlCreate);
    if fatal.Some? {
      return fatal, null, 0, [], None;
    }
    var session := new Session();
    var _ := session.OnRequest();
    reports := OnParagraphs(l, paragraphs, f.log);
    requests := session.counter;
    closeErr := l.Close(f.close);
  }
}
