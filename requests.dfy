/** What a submission sends to the summarization server, what the server
    sends back, and the progress texts ("thoughts") shown meanwhile. */
module Requests {
  import opened History

  /** The JSON body of the POST: `{video_url}` or `{question}`. */
  datatype Payload = VideoUrl(videoUrl: string) | Question(question: string)

  datatype Request = Request(endpoint: string, payload: Payload)

  /** `response.data` of a resolved POST: either an object carrying a
      `summary` string, or `null`, on which reading `.summary` throws. */
  datatype ReplyData = Body(summary: string) | NullBody

  const YouTubeEndpoint: string := "/summarize"
  const WikiEndpoint: string := "/summarize_wiki"

  function PayloadText(p: Payload): string
  {
    match p
    case VideoUrl(u) => u
    case Question(q) => q
  }

  /** The endpoint and payload are chosen by the active tab alone; the payload
      carries the buffer of that tab. */
  function RequestFor(tab: Tab, videoUrl: string, wikiQuestion: string): (r: Request)
    ensures r.payload.VideoUrl? <==> tab.YouTube?
    ensures r.endpoint == YouTubeEndpoint <==> tab.YouTube?
    ensures r.endpoint == WikiEndpoint <==> tab.Wiki?
    ensures PayloadText(r.payload) == Submitted(tab, videoUrl, wikiQuestion).query
  {
    if tab.YouTube? then Request(YouTubeEndpoint, VideoUrl(videoUrl))
    else Request(WikiEndpoint, Question(wikiQuestion))
  }

  /** A request never depends on the buffer of the other tab. */
  lemma RequestIgnoresOtherBuffer(tab: Tab, v1: string, w1: string, v2: string, w2: string)
    requires ActiveBuffer(tab, v1, w1) == ActiveBuffer(tab, v2, w2)
    ensures RequestFor(tab, v1, w1) == RequestFor(tab, v2, w2)
  {
  }

  const GeneratingNotice: string := "Generating summary..."
  const SucceededNotice: string := "Summary generated successfully!"
  const ErrorNotice: string := "Error occurred during summarization."
  /** The summary shown after any failure. */
  const ErrorSummary: string := "An error occurred while generating the summary."

  /** The first thought of every submission. It names what is being fetched,
      so the two tabs give different notices. */
  function FetchNotice(tab: Tab): (s: string)
    ensures s == "Fetching video transcript..." <==> tab.YouTube?
    ensures s == "Fetching Wikipedia content..." <==> tab.Wiki?
  {
    "Fetching " + (if tab.YouTube? then "video transcript" else "Wikipedia content") + "..."
  }

  /** The thought log after a cycle whose reply carried a summary: the fetch
      notice, then the generating line, then the success line. */
  function SucceededLog(tab: Tab): (log: seq<string>)
    ensures |log| > 0 && log[0] == FetchNotice(tab) && log[|log| - 1] == SucceededNotice
    ensures GeneratingNotice in log
  {
    [FetchNotice(tab), GeneratingNotice, SucceededNotice]
  }

  /** The thought log after a cycle whose POST was rejected: the fetch notice
      and the error line, with no generating or success line. */
  function RejectedLog(tab: Tab): (log: seq<string>)
    ensures |log| > 0 && log[0] == FetchNotice(tab) && log[|log| - 1] == ErrorNotice
    ensures GeneratingNotice !in log && SucceededNotice !in log
  {
    [FetchNotice(tab), ErrorNotice]
  }

  /** The thought log after a cycle whose reply body was `null`: the
      generating line was logged before the read failed, and no success line
      follows. */
  function UnreadableLog(tab: Tab): (log: seq<string>)
    ensures |log| > 0 && log[0] == FetchNotice(tab) && log[|log| - 1] == ErrorNotice
    ensures GeneratingNotice in log && SucceededNotice !in log
  {
    [FetchNotice(tab), GeneratingNotice, ErrorNotice]
  }
}
