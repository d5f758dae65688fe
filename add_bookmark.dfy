/** The capture form: enrich the URL with a page summary, then create the
    bookmark on the server. The async submit handler is split at its awaits:
    `Submit` is the part before the enrichment request, `ReceiveSummary` runs
    when enrichment settles and issues the create request, `ReceiveCreateReply`
    runs when that settles. */
module AddBookmark {
  import opened Api

  /** The summary sent when enrichment produced nothing usable. */
  const NoSummary := "No summary available"

  /** The error shown when the server rejects the create without a detail. */
  const AddFailed := "Failed to add bookmark"

  /** `getSummaryFromJina`: the response text on an ok status, null on a
      non-ok status or when anything throws. */
  function SummaryFromJina(enrichment: Reply<string>): (summary: Option<string>)
    ensures summary.Some? <==> enrichment.Ok?
    ensures summary.Some? ==> summary.value == enrichment.body
  {
    if enrichment.Ok? then Some(enrichment.body) else None
  }

  /** `summary || "No summary available"`: the enrichment text when it is
      non-empty, otherwise the fallback; never empty. */
  function SummaryToSend(summary: Option<string>): (text: string)
    ensures text != ""
    ensures summary.Some? && summary.value != "" ==> text == summary.value
    ensures summary.None? || summary.value == "" ==> text == NoSummary
  {
    if summary.Some? && summary.value != "" then summary.value else NoSummary
  }

  /** The JSON body of the create request. */
  datatype Payload = Payload(url: string, summary: string)

  /** The create payload built after enrichment of `url` settled: the URL that
      was enriched, and a summary that is the fetched text or the fallback,
      never empty. */
  function CreatePayload(url: string, enrichment: Reply<string>): (p: Payload)
    ensures p.url == url
    ensures p.summary != ""
    ensures enrichment.Ok? && enrichment.body != "" ==> p.summary == enrichment.body
    ensures !(enrichment.Ok? && enrichment.body != "") ==> p.summary == NoSummary
  {
    Payload(url, SummaryToSend(SummaryFromJina(enrichment)))
  }

  /** Where the submit handler is suspended: not running, awaiting enrichment
      of `url`, or awaiting the create request that carries `payload`. */
  datatype Pending = Idle | Enriching(url: string) | Creating(payload: Payload)

  /** The `AddBookmark` component's state. */
  class CaptureForm {
    var url: string
    var error: string
    var loading: bool
    var success: bool
    var pending: Pending

    /** `loading` is on exactly while the handler is suspended; while it is
        on, neither banner shows; the two banners never show together. */
    ghost predicate Valid()
      reads this
    {
      && (loading <==> !pending.Idle?)
      && (loading ==> !success && error == "")
      && (success ==> error == "")
    }

    /** The `useState` initialisers. */
    constructor ()
      ensures Valid()
      ensures url == "" && error == "" && !loading && !success && pending == Idle
    {
      url, error, loading, success := "", "", false, false;
      pending := Idle;
    }

    /** The input's `onChange`: only the URL changes. */
    method SetUrl(value: string)
      modifies this`url
      ensures url == value
    {
      url := value;
    }

    /** `handleSubmit` up to its first await: clear the error, start loading,
        hide the success banner, and ask for a summary of the current URL.
        The submit button is disabled while loading, so this never runs then. */
    method Submit() returns (enrichUrl: string)
      requires Valid() && !loading
      modifies this`error, this`loading, this`success, this`pending
      ensures Valid()
      ensures error == "" && loading && !success
      ensures enrichUrl == url && pending == Enriching(url)
    {
      error := "";
      loading := true;
      success := false;
      enrichUrl := url;
      pending := Enriching(url);
    }

    /** The continuation after enrichment settled: the create request is
        issued only now, with the final summary and the URL that was
        enriched (the one captured at submit, whatever the input holds now). */
    method ReceiveSummary(enrichment: Reply<string>) returns (payload: Payload)
      requires Valid() && pending.Enriching?
      modifies this`pending
      ensures Valid()
      ensures payload == CreatePayload(old(pending).url, enrichment)
      ensures payload.url == old(pending).url && payload.summary != ""
      ensures pending == Creating(payload)
    {
      payload := CreatePayload(pending.url, enrichment);
      pending := Creating(payload);
    }

    /** The continuation after the create request settled. On success the
        input is cleared and the success banner shown; on failure the error
        is the server's detail (or the fallback, or the thrown message) and
        the URL is kept for a retry. Loading ends either way. */
    method ReceiveCreateReply(reply: Reply<()>)
      requires Valid() && pending.Creating?
      modifies this`url, this`error, this`loading, this`success, this`pending
      ensures Valid()
      ensures !loading && pending == Idle
      ensures reply.Ok? ==> url == "" && success && error == ""
      ensures !reply.Ok? ==> url == old(url) && !success && error == FailureMessage(reply, AddFailed)
    {
      if reply.Ok? {
        url := "";
        success := true;
      } else {
        error := FailureMessage(reply, AddFailed);
      }
      loading := false;
      pending := Idle;
    }

    /** The timer set on success fires: the success banner goes away. */
    method ExpireSuccess()
      requires Valid()
      modifies this`success
      ensures Valid()
      ensures !success
    {
      success := false;
    }

    /** One submission with nothing interleaved: the three steps in order.
        The create request carries the URL that was in the input at submit
        time and a non-empty summary. */
    method HandleSubmit(enrichment: Reply<string>, reply: Reply<()>) returns (enrichUrl: string, payload: Payload)
      requires Valid() && !loading
      modifies this`url, this`error, this`loading, this`success, this`pending
      ensures Valid()
      ensures enrichUrl == old(url)
      ensures payload == CreatePayload(old(url), enrichment)
      ensures !loading && pending == Idle
      ensures reply.Ok? ==> url == "" && success && error == ""
      ensures !reply.Ok? ==> url == old(url) && !success && error == FailureMessage(reply, AddFailed)
    {
      enrichUrl := Submit();
      payload := ReceiveSummary(enrichment);
      ReceiveCreateReply(reply);
    }
  }
}
