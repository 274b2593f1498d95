/**
 * The express PDF server (project/server/index.js): the
 * `GET /api/invoices/:id/pdf` handler, which drives a headless browser
 * through a fixed sequence of calls and always closes what it launched, and
 * the `POST /api/logo` route's guards.
 *
 * The browser is an abstract resource. Any of its calls may throw; a run is
 * fixed by a `Plan` saying which calls throw and how long the PDF is, so a
 * property proved for every plan holds on every path.
 */
module PdfServer {
  import opened Wrappers
  import opened Js
  import opened Http
  import LogoUpload
  import BrowserLaunch

  const DefaultAppUrl := "http://localhost:5173"

  /** `process.env.APP_URL || 'http://localhost:5173'`. */
  function AppUrl(env: Env): (url: string)
    ensures EnvSet(env, "APP_URL") ==> url == env["APP_URL"]
    ensures !EnvSet(env, "APP_URL") ==> url == DefaultAppUrl
  {
    OrText(EnvValue(env, "APP_URL"), DefaultAppUrl)
  }

  /** The print view the browser opens; `?pdf=1` asks the layout for the bare page. */
  function InvoiceUrl(appUrl: string, id: string): string {
    appUrl + "/invoices/" + id + "/print?pdf=1"
  }

  datatype Margin = Margin(top: string, bottom: string, left: string, right: string)
  datatype PdfOptions = PdfOptions(format: string, printBackground: bool, margin: Margin)

  /** A4, background graphics, 10mm on every side. */
  const InvoicePdfOptions := PdfOptions("A4", true, Margin("10mm", "10mm", "10mm", "10mm"))

  /** The calls the handler makes on puppeteer, its browser and its page. */
  datatype Call =
    | Launch(args: seq<string>)
    | NewPage
    | SetExtraHeaders(name: string, value: string)
    | Goto(url: string, waitUntil: string)
    | EmulateMediaType(media: string)
    | Pdf(options: PdfOptions)
    | Close

  /** A call made, and whether it resolved (`ok`) or threw. */
  datatype Event = Event(call: Call, ok: bool)

  /** One possible run of the browser: the calls that throw, and the byte length of the PDF. */
  datatype Plan = Plan(failing: set<Call>, pdfLength: nat)

  /** The launched browser; it is closed at most once. */
  class Browser {
    var closed: bool

    constructor ()
      ensures !closed
    {
      closed := false;
    }

    method Close()
      requires !closed
      modifies this
      ensures closed
    {
      closed := true;
    }
  }

  /** The calls of a fully successful run, in order. The header is set only when a token is configured. */
  function Pipeline(url: string, env: Env): seq<Call> {
    [Launch(BrowserLaunch.NoSandboxArgs), NewPage]
    + (if EnvSet(env, "SERVICE_TOKEN") then [SetExtraHeaders("Authorization", "Bearer " + env["SERVICE_TOKEN"])] else [])
    + [Goto(url, "networkidle0"), EmulateMediaType("print"), Pdf(InvoicePdfOptions)]
  }

  /**
   * The pipeline's shape: launch and page first, then the page load waiting
   * for network idle, then print media, then the PDF as the last call; a
   * header call appears exactly when a service token is configured, and it is
   * the bearer header.
   */
  lemma PipelineShape(url: string, env: Env)
    ensures var p := Pipeline(url, env);
      && |p| == (if EnvSet(env, "SERVICE_TOKEN") then 6 else 5)
      && p[0] == Launch(BrowserLaunch.NoSandboxArgs) && p[1] == NewPage
      && p[|p| - 3] == Goto(url, "networkidle0")
      && p[|p| - 2] == EmulateMediaType("print")
      && p[|p| - 1] == Pdf(InvoicePdfOptions)
      && ((exists i :: 0 <= i < |p| && p[i].SetExtraHeaders?) <==> EnvSet(env, "SERVICE_TOKEN"))
      && (EnvSet(env, "SERVICE_TOKEN") ==> p[2] == SetExtraHeaders("Authorization", "Bearer " + env["SERVICE_TOKEN"]))
  {
    var p := Pipeline(url, env);
    if !EnvSet(env, "SERVICE_TOKEN") {
      assert forall i :: 0 <= i < |p| ==> !p[i].SetExtraHeaders?;
    } else {
      assert p[2].SetExtraHeaders?;
    }
  }

  function Calls(trace: seq<Event>): (r: seq<Call>)
    ensures |r| == |trace| && forall i :: 0 <= i < |trace| ==> r[i] == trace[i].call
  {
    if trace == [] then [] else [trace[0].call] + Calls(trace[1..])
  }

  function CloseCount(trace: seq<Event>): nat {
    if trace == [] then 0 else (if trace[0].call == Close then 1 else 0) + CloseCount(trace[1..])
  }

  /** The browser came up: the first call was a launch that resolved. */
  predicate Launched(trace: seq<Event>) {
    trace != [] && trace[0].call.Launch? && trace[0].ok
  }

  /** The calls made inside the `try`, i.e. all but a closing `finally`. */
  function Work(trace: seq<Event>): seq<Event> {
    if trace != [] && trace[|trace| - 1].call == Close then trace[..|trace| - 1] else trace
  }

  predicate AllOk(trace: seq<Event>) {
    forall i :: 0 <= i < |trace| ==> trace[i].ok
  }

  /** Every call of the run resolved exactly when the plan does not make it throw. */
  predicate Obeys(trace: seq<Event>, plan: Plan) {
    forall i :: 0 <= i < |trace| ==> trace[i].ok == (trace[i].call !in plan.failing)
  }

  /** Make one call of the plan's run. */
  method Perform(call: Call, plan: Plan, trace: seq<Event>) returns (ok: bool, next: seq<Event>)
    ensures ok == (call !in plan.failing)
    ensures next == trace + [Event(call, ok)]
    ensures AllOk(next) <==> AllOk(trace) && ok
    ensures Obeys(next, plan) <==> Obeys(trace, plan)
  {
    ok := call !in plan.failing;
    next := trace + [Event(call, ok)];
    assert forall i :: 0 <= i < |trace| ==> next[i] == trace[i];
    assert next[|trace|].ok == ok;
  }

  lemma CloseCountAppend(trace: seq<Event>, e: Event)
    ensures CloseCount(trace + [e]) == CloseCount(trace) + (if e.call == Close then 1 else 0)
  {
    if trace != [] {
      assert (trace + [e])[1..] == trace[1..] + [e];
      CloseCountAppend(trace[1..], e);
    }
  }

  /** No call of a pipeline is a close. */
  lemma NoCloseInPipeline(trace: seq<Event>, url: string, env: Env)
    requires Calls(trace) <= Pipeline(url, env)
    ensures CloseCount(trace) == 0
  {
    if trace != [] {
      assert Calls(trace[1..]) == Calls(trace)[1..];
      forall i | 0 <= i < |trace| ensures trace[i].call != Close {
        assert trace[i].call == Pipeline(url, env)[i];
      }
      NoCloseIn(trace);
    }
  }

  lemma NoCloseIn(trace: seq<Event>)
    requires forall i :: 0 <= i < |trace| ==> trace[i].call != Close
    ensures CloseCount(trace) == 0
  {
  }

  /**
   * The run so far follows `pipeline`: its calls are the pipeline's first
   * ones, every call but the last resolved, and `ok` says whether the last did.
   */
  ghost predicate Consistent(trace: seq<Event>, ok: bool, pipeline: seq<Call>) {
    && |trace| <= |pipeline|
    && Calls(trace) == pipeline[..|trace|]
    && (forall i :: 0 <= i < |trace| - 1 ==> trace[i].ok)
    && (ok <==> AllOk(trace))
  }

  /** Making the pipeline's next call after a run of resolved calls keeps the run consistent. */
  lemma Step(trace: seq<Event>, call: Call, ok: bool, pipeline: seq<Call>)
    requires Consistent(trace, true, pipeline) && |trace| < |pipeline| && pipeline[|trace|] == call
    ensures Consistent(trace + [Event(call, ok)], ok, pipeline)
  {
    var next := trace + [Event(call, ok)];
    assert Calls(next) == Calls(trace) + [call];
    assert pipeline[..|next|] == pipeline[..|trace|] + [call];
    assert forall i :: 0 <= i < |trace| ==> next[i] == trace[i];
  }

  /**
   * The page part of the `try` block, after a successful launch: open a page,
   * set the bearer header when a token is configured, load the print view and
   * wait for the network to go idle, switch to print media, print the PDF.
   * It stops at the first call that throws.
   */
  method PrintPage(invoiceUrl: string, env: Env, plan: Plan, trace: seq<Event>) returns (ok: bool, next: seq<Event>)
    requires trace == [Event(Launch(BrowserLaunch.NoSandboxArgs), true)] && Obeys(trace, plan)
    ensures Consistent(next, ok, Pipeline(invoiceUrl, env)) && |next| >= 2
    ensures ok ==> |next| == |Pipeline(invoiceUrl, env)|
    ensures Obeys(next, plan)
  {
    ghost var pipeline := Pipeline(invoiceUrl, env);
    ghost var h := if EnvSet(env, "SERVICE_TOKEN") then 1 else 0;
    assert |pipeline| == 5 + h;
    assert pipeline[..1] == Calls(trace);
    assert pipeline[1] == NewPage;
    assert pipeline[2 + h] == Goto(invoiceUrl, "networkidle0");
    assert pipeline[3 + h] == EmulateMediaType("print");
    assert pipeline[4 + h] == Pdf(InvoicePdfOptions);

    ok, next := Perform(NewPage, plan, trace);
    Step(trace, NewPage, ok, pipeline);
    if ok && EnvSet(env, "SERVICE_TOKEN") {
      var header := SetExtraHeaders("Authorization", "Bearer " + env["SERVICE_TOKEN"]);
      assert pipeline[2] == header;
      ghost var before := next;
      ok, next := Perform(header, plan, next);
      Step(before, header, ok, pipeline);
    }
    assert ok ==> |next| == 2 + h;
    if ok {
      ghost var before := next;
      ok, next := Perform(Goto(invoiceUrl, "networkidle0"), plan, next);
      Step(before, Goto(invoiceUrl, "networkidle0"), ok, pipeline);
    }
    if ok {
      ghost var before := next;
      ok, next := Perform(EmulateMediaType("print"), plan, next);
      Step(before, EmulateMediaType("print"), ok, pipeline);
    }
    if ok {
      ghost var before := next;
      ok, next := Perform(Pdf(InvoicePdfOptions), plan, next);
      Step(before, Pdf(InvoicePdfOptions), ok, pipeline);
    }
  }

  /**
   * The `try` block: launch, then the page steps, stopping at the first call
   * that throws. `browser` is the launched browser, if the launch resolved.
   */
  method TryRender(invoiceUrl: string, env: Env, plan: Plan) returns (ok: bool, trace: seq<Event>, browser: Browser?)
    ensures Consistent(trace, ok, Pipeline(invoiceUrl, env))
    ensures trace != [] && trace[0].call == Launch(BrowserLaunch.NoSandboxArgs)
    ensures ok ==> |trace| == |Pipeline(invoiceUrl, env)|
    ensures CloseCount(trace) == 0 && Work(trace) == trace
    ensures Obeys(trace, plan)
    ensures ok <==> forall c :: c in Pipeline(invoiceUrl, env) ==> c !in plan.failing
    ensures Launched(trace) <==> Launch(BrowserLaunch.NoSandboxArgs) !in plan.failing
    ensures Launched(trace) <==> browser != null
    ensures browser != null ==> fresh(browser) && !browser.closed
  {
    ghost var pipeline := Pipeline(invoiceUrl, env);
    browser := null;
    ok, trace := Perform(Launch(BrowserLaunch.NoSandboxArgs), plan, []);
    Step([], Launch(BrowserLaunch.NoSandboxArgs), ok, pipeline);
    if ok {
      browser := new Browser();
      ok, trace := PrintPage(invoiceUrl, env, plan, trace);
    }
    NoCloseInPipeline(trace, invoiceUrl, env);
    PlanDecides(trace, ok, pipeline, plan);
  }

  /**
   * A run that follows the pipeline and obeys the plan succeeds exactly when
   * the plan makes none of the pipeline's calls throw.
   */
  lemma PlanDecides(trace: seq<Event>, ok: bool, pipeline: seq<Call>, plan: Plan)
    requires Consistent(trace, ok, pipeline) && Obeys(trace, plan)
    requires ok ==> |trace| == |pipeline|
    ensures ok <==> forall c :: c in pipeline ==> c !in plan.failing
  {
    if ok {
      forall c | c in pipeline ensures c !in plan.failing {
        var i :| 0 <= i < |pipeline| && pipeline[i] == c;
        assert Calls(trace)[i] == trace[i].call;
      }
    } else {
      var i :| 0 <= i < |trace| && !trace[i].ok;
      assert Calls(trace)[i] == pipeline[i];
      assert pipeline[i] in pipeline;
    }
  }

  /** What a consistent run says about the calls it made and about its success. */
  lemma WorkFacts(work: seq<Event>, ok: bool, pipeline: seq<Call>)
    requires Consistent(work, ok, pipeline)
    requires ok ==> |work| == |pipeline|
    ensures Calls(work) <= pipeline
    ensures forall i :: 0 <= i < |work| - 1 ==> work[i].ok
    ensures ok <==> Calls(work) == pipeline && AllOk(work)
  {
  }

  /** The answer for a printed PDF of `length` bytes. */
  function PdfReply(length: nat): Reply {
    Reply(200, map["Content-Type" := Str("application/pdf"), "Content-Length" := Num(length)], Bytes(length))
  }

  /**
   * The `/api/invoices/:id/pdf` handler. A missing id is refused before any
   * browser exists. Otherwise the calls follow the pipeline in order and stop
   * at the first one that throws; the answer is the PDF when every call
   * resolved and a 500 otherwise; and the browser is closed exactly once if,
   * and only if, it was launched, as the very last call.
   */
  method RenderInvoicePdf(id: string, env: Env, plan: Plan) returns (reply: Reply, trace: seq<Event>)
    ensures id == "" ==> reply == TextReply(400, "Missing id") && trace == []
    ensures id != "" ==> trace != [] && trace[0].call == Launch(BrowserLaunch.NoSandboxArgs)
    ensures CloseCount(trace) == (if Launched(trace) then 1 else 0)
    ensures Launched(trace) ==> trace[|trace| - 1].call == Close
    ensures Calls(Work(trace)) <= Pipeline(InvoiceUrl(AppUrl(env), id), env)
    ensures forall i :: 0 <= i < |Work(trace)| - 1 ==> Work(trace)[i].ok
    ensures reply.status == 200 <==>
      id != "" && Calls(Work(trace)) == Pipeline(InvoiceUrl(AppUrl(env), id), env) && AllOk(Work(trace))
    ensures reply.status == 200 ==>
      reply == Reply(200, map["Content-Type" := Str("application/pdf"), "Content-Length" := Num(plan.pdfLength)],
                     Bytes(plan.pdfLength))
    ensures id != "" && reply.status != 200 ==> reply == TextReply(500, "PDF generation failed")
    ensures Obeys(trace, plan)
    ensures id != "" ==>
      (reply.status == 200 <==> forall c :: c in Pipeline(InvoiceUrl(AppUrl(env), id), env) ==> c !in plan.failing)
    ensures Launched(trace) <==> id != "" && Launch(BrowserLaunch.NoSandboxArgs) !in plan.failing
    ensures id != "" ==> Consistent(Work(trace), reply.status == 200, Pipeline(InvoiceUrl(AppUrl(env), id), env))
  {
    trace := [];
    if id == "" {
      reply := TextReply(400, "Missing id");
      return;
    }
    var invoiceUrl := InvoiceUrl(AppUrl(env), id);
    var ok, browser;
    ok, trace, browser := TryRender(invoiceUrl, env, plan);
    reply := if ok then PdfReply(plan.pdfLength) else TextReply(500, "PDF generation failed");
    ghost var work := trace;
    WorkFacts(work, ok, Pipeline(invoiceUrl, env));

    // finally
    if browser != null {
      browser.Close();
      var closed;
      closed, trace := Perform(Close, plan, trace);
      CloseCountAppend(work, Event(Close, closed));
      assert trace[..|trace| - 1] == work;
      assert trace[0] == work[0];
    }
  }

  // ---------------------------------------------------------------------
  // POST /api/logo
  // ---------------------------------------------------------------------

  /** The file multer hands the route (the 2 MB limit is enforced by multer itself). */
  datatype MulterFile = MulterFile(originalname: string, mimetype: string)

  /**
   * The express logo route: 500 without storage configuration, 400 without a
   * file or for an extension outside the allow-list, and otherwise one upload
   * whose outcome decides the answer; a thrown error becomes 500 'Upload failed'.
   */
  method UploadLogo(env: Env, file: Option<MulterFile>, now: nat, nonce: string, storage: LogoUpload.StorageResult)
    returns (reply: Reply, calls: seq<LogoUpload.StorageCall>)
    ensures !LogoUpload.Configured(env) ==>
      reply == ErrorJson(500, "Server not configured for uploads") && calls == []
    ensures LogoUpload.Configured(env) && file.None? ==> reply == ErrorJson(400, "No file provided") && calls == []
    ensures LogoUpload.Configured(env) && file.Some? && !LogoUpload.Allowed(LogoUpload.Extension(file.value.originalname)) ==>
      reply == ErrorJson(400, "Unsupported file type") && calls == []
    ensures calls != [] <==>
      LogoUpload.Configured(env) && file.Some? && LogoUpload.Allowed(LogoUpload.Extension(file.value.originalname))
    ensures calls != [] ==>
      calls == [LogoUpload.Upload(LogoUpload.StorageKey(now, nonce, LogoUpload.Extension(file.value.originalname)), file.value.mimetype)]
    ensures calls != [] ==> match storage {
      case StorageOk(url) => reply == Reply(200, map[], Json([("url", url)]))
      case StorageError(m) => reply == ErrorJson(400, m)
      case StorageThrew => reply == ErrorJson(500, "Upload failed")
    }
  {
    calls := [];
    if !LogoUpload.Configured(env) {
      return ErrorJson(500, "Server not configured for uploads"), calls;
    }
    if file.None? {
      return ErrorJson(400, "No file provided"), calls;
    }
    var ext := LogoUpload.Extension(file.value.originalname);
    if ext !in LogoUpload.AllowedExtensions {
      return ErrorJson(400, "Unsupported file type"), calls;
    }
    var pathKey := LogoUpload.StorageKey(now, nonce, ext);
    calls := [LogoUpload.Upload(pathKey, file.value.mimetype)];
    match storage {
      case StorageThrew =>
        reply := ErrorJson(500, "Upload failed");
      case StorageError(message) =>
        reply := ErrorJson(400, message);
      case StorageOk(url) =>
        reply := Reply(200, map[], Json([("url", url)]));
    }
  }
}
