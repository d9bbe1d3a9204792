/** The request handler, `summarize` (route `POST /summarize`): five gates
    in a fixed order, the first failing one deciding the response.

    The external collaborators are passed in as `Services`: the oEmbed
    request (keyed by URL), the transcript library (keyed by video id and
    language list) and the chat-completion call (keyed by the message list).
    The oEmbed input always returns a reply (a status code and an optional
    title). The transcript and chat inputs yield `None` where the source's
    helper catches an exception and returns `None`. */
module Handler {
  import opened Wrappers
  import opened VideoId
  import opened Title
  import opened Transcript
  import opened Summarizer

  const UrlKey: string := "youtube_url"

  const BadRequest: int := 400
  const NotFound: int := 404
  const ServerError: int := 500

  const MissingUrlError: string := "Missing youtube_url in request"
  const InvalidUrlError: string := "Invalid YouTube URL"
  const NoTranscriptError: string := "Transcript not available"
  const SummaryFailedError: string := "Failed to summarize transcript"

  /** The JSON object of a response: `{"error": ...}` or `{"title": ..., "summary": ...}`. */
  datatype Body = ErrorBody(error: string) | SummaryBody(title: string, summary: string)

  datatype Response = Response(status: int, body: Body)

  datatype Services = Services(
    oembed: string -> OEmbedReply,
    captions: (string, seq<string>) -> Option<seq<Fragment>>,
    chat: seq<Message> -> Option<string>)

  /** Python truthiness of an optional string: `None` and `""` are false. */
  predicate Truthy(s: Option<string>) {
    s.Some? && s.value != ""
  }

  /** `not data or 'youtube_url' not in data` for the parsed JSON body. */
  predicate MissingUrl(request: Option<map<string, string>>) {
    request.None? || |request.value| == 0 || UrlKey !in request.value
  }

  /** The video id the URL of a well-formed request yields. */
  function RequestedId(request: Option<map<string, string>>): Option<string>
    requires !MissingUrl(request)
  {
    ExtractVideoId(request.value[UrlKey])
  }

  /** `get_transcript(video_id)` with the library call supplied by `services`. */
  function TranscriptFor(id: string, services: Services): Option<string> {
    GetTranscript(services.captions(id, Languages))
  }

  /** `summarize()`: the response to one request. */
  function Summarize(request: Option<map<string, string>>, services: Services): (r: Response)
    ensures r.status == OkStatus <==> r.body.SummaryBody?
    ensures r.status in {OkStatus, BadRequest, NotFound, ServerError}
    ensures r.body.SummaryBody? ==> r.body.title != "" && r.body.summary != ""
    ensures MissingUrl(request) ==> r == Response(BadRequest, ErrorBody(MissingUrlError))
  {
    if MissingUrl(request) then
      Response(BadRequest, ErrorBody(MissingUrlError))
    else
      match ExtractVideoId(request.value[UrlKey])
      case None => Response(BadRequest, ErrorBody(InvalidUrlError))
      case Some(id) =>
        var title := ResolveTitle(services.oembed(OEmbedUrl(id)));
        var transcript := TranscriptFor(id, services);
        if !Truthy(transcript) then
          Response(NotFound, ErrorBody(NoTranscriptError))
        else
          var summary := SummarizeWithOpenAI(transcript.value, services.chat);
          if !Truthy(summary) then
            Response(ServerError, ErrorBody(SummaryFailedError))
          else
            Response(OkStatus, SummaryBody(title, summary.value))
  }

  /** Each status names the first gate that failed, and 200 means every
      gate passed. */
  lemma StatusNamesFirstFailedGate(request: Option<map<string, string>>, services: Services)
    ensures var r := Summarize(request, services);
      && (r.body == ErrorBody(MissingUrlError) <==> MissingUrl(request))
      && (r.body == ErrorBody(InvalidUrlError) <==> !MissingUrl(request) && RequestedId(request).None?)
      && (r.status == BadRequest <==> MissingUrl(request) || RequestedId(request).None?)
      && (r.status == NotFound <==>
            !MissingUrl(request) && RequestedId(request).Some?
            && !Truthy(TranscriptFor(RequestedId(request).value, services)))
      && (r.status == ServerError <==>
            !MissingUrl(request) && RequestedId(request).Some?
            && Truthy(TranscriptFor(RequestedId(request).value, services))
            && !Truthy(SummarizeWithOpenAI(TranscriptFor(RequestedId(request).value, services).value, services.chat)))
      && (r.status == NotFound ==> r.body == ErrorBody(NoTranscriptError))
      && (r.status == ServerError ==> r.body == ErrorBody(SummaryFailedError))
  {
  }

  /** A 200 response carries the resolved title and the stripped chat reply
      to the request built from the joined transcript of the extracted id. */
  lemma SuccessCarriesStrippedReply(request: Option<map<string, string>>, services: Services)
    requires Summarize(request, services).status == OkStatus
    ensures !MissingUrl(request) && RequestedId(request).Some?
    ensures var id := RequestedId(request).value;
      var transcript := TranscriptFor(id, services);
      var reply := services.chat(ChatRequest(transcript.value));
      var r := Summarize(request, services);
      && Truthy(transcript)
      && reply.Some?
      && !AllWhitespace(reply.value)
      && IsStripped(reply.value, r.body.summary)
      && r.body.title == ResolveTitle(services.oembed(OEmbedUrl(id)))
  {
  }

  /** Over oEmbed replies (a status code and an optional title), the title
      lookup never decides the status: two runs that differ only in the oEmbed
      service give the same status, and on success the same summary. */
  lemma TitleNeverDecidesStatus(
    request: Option<map<string, string>>,
    oembed1: string -> OEmbedReply,
    oembed2: string -> OEmbedReply,
    captions: (string, seq<string>) -> Option<seq<Fragment>>,
    chat: seq<Message> -> Option<string>)
    ensures var r1 := Summarize(request, Services(oembed1, captions, chat));
      var r2 := Summarize(request, Services(oembed2, captions, chat));
      && r1.status == r2.status
      && (r1.status == OkStatus ==> r1.body.summary == r2.body.summary)
      && (r1.status != OkStatus ==> r1 == r2)
  {
  }

  /** A failed title lookup (any status other than 200) still gives 200 with
      the placeholder title when transcript and summary are available. */
  lemma FailedTitleLookupStillSucceeds(url: string, services: Services, id: string)
    requires ExtractVideoId(url) == Some(id)
    requires services.oembed(OEmbedUrl(id)).statusCode != OkStatus
    requires Truthy(TranscriptFor(id, services))
    requires Truthy(SummarizeWithOpenAI(TranscriptFor(id, services).value, services.chat))
    ensures Summarize(Some(map[UrlKey := url]), services).status == OkStatus
    ensures Summarize(Some(map[UrlKey := url]), services).body.title == Placeholder
  {
  }

  /** A request body `{}` is rejected before the URL is looked at. */
  lemma EmptyBodyIsMissingUrl(services: Services)
    ensures Summarize(Some(map[]), services) == Response(BadRequest, ErrorBody(MissingUrlError))
  {
  }

  /** An empty fragment list yields the empty transcript, which counts as
      unavailable: the response is 404, just as for a failed lookup. */
  lemma NoFragmentsIsNotFound(url: string, services: Services, id: string)
    requires ExtractVideoId(url) == Some(id)
    requires services.captions(id, Languages) == Some([]) || services.captions(id, Languages).None?
    ensures Summarize(Some(map[UrlKey := url]), services) == Response(NotFound, ErrorBody(NoTranscriptError))
  {
  }

  /** A chat reply of nothing but whitespace strips to `""`, which counts as
      a failed summary: the response is 500. */
  lemma WhitespaceReplyIsServerError(url: string, services: Services, id: string)
    requires ExtractVideoId(url) == Some(id)
    requires Truthy(TranscriptFor(id, services))
    requires services.chat(ChatRequest(TranscriptFor(id, services).value)).Some?
    requires AllWhitespace(services.chat(ChatRequest(TranscriptFor(id, services).value)).value)
    ensures Summarize(Some(map[UrlKey := url]), services) == Response(ServerError, ErrorBody(SummaryFailedError))
  {
  }
}
