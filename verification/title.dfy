/** The title resolver: `get_video_title` asks the oEmbed endpoint about the
    video's watch URL, and the handler replaces a missing or empty title with
    a placeholder. The HTTP request is an input here. */
module Title {
  import opened Wrappers
  import opened VideoId

  const OkStatus: int := 200
  const Placeholder: string := "Unknown Title"
  const OEmbedEndpoint: string := "https://www.youtube.com/oembed?url="
  const WatchPrefix: string := "http://www.youtube.com/watch?v="
  const JsonFormat: string := "&format=json"

  /** What the oEmbed request yields: the HTTP status and the `title` field
      of the JSON body, `None` when the field is absent. */
  datatype OEmbedReply = OEmbedReply(statusCode: int, title: Option<string>)

  /** The watch URL of a video, as embedded in the oEmbed query. */
  function WatchUrl(id: string): string {
    WatchPrefix + id
  }

  /** The URL `get_video_title` requests: the endpoint, then the watch URL
      of the video, then the JSON format parameter. */
  function OEmbedUrl(id: string): (u: string)
    ensures |u| == |OEmbedEndpoint| + |WatchUrl(id)| + |JsonFormat|
    ensures u[..|OEmbedEndpoint|] == OEmbedEndpoint
    ensures u[|OEmbedEndpoint|..|u| - |JsonFormat|] == WatchUrl(id)
    ensures u[|u| - |JsonFormat|..] == JsonFormat
  {
    var u := OEmbedEndpoint + WatchUrl(id) + JsonFormat;
    assert u[..|OEmbedEndpoint|] == OEmbedEndpoint;
    assert u[|OEmbedEndpoint|..|u| - |JsonFormat|] == WatchUrl(id);
    u
  }

  /** Distinct videos are asked about under distinct oEmbed URLs. */
  lemma {:induction false} OEmbedUrlIdentifiesVideo(a: string, b: string)
    ensures OEmbedUrl(a) == OEmbedUrl(b) <==> a == b
  {
    if OEmbedUrl(a) == OEmbedUrl(b) {
      var u := OEmbedUrl(a);
      assert WatchUrl(a) == u[|OEmbedEndpoint|..|u| - |JsonFormat|] == WatchUrl(b);
      assert a == WatchUrl(a)[|WatchPrefix|..];
      assert b == WatchUrl(b)[|WatchPrefix|..];
    }
  }

  /** `get_video_title`: the `title` field of a 200 reply, `None` otherwise. */
  function GetVideoTitle(reply: OEmbedReply): (r: Option<string>)
    ensures reply.statusCode != OkStatus ==> r.None?
    ensures reply.statusCode == OkStatus ==> r == reply.title
  {
    if reply.statusCode == OkStatus then reply.title else None
  }

  /** Lines 67-69 of the handler on top of `get_video_title`: the title a
      response carries is never empty, is the oEmbed title whenever that is a
      non-empty string from a 200 reply, and is the placeholder otherwise. */
  function ResolveTitle(reply: OEmbedReply): (t: string)
    ensures t != ""
    ensures reply.statusCode == OkStatus && reply.title.Some? && reply.title.value != "" ==> t == reply.title.value
    ensures !(reply.statusCode == OkStatus && reply.title.Some? && reply.title.value != "") ==> t == Placeholder
  {
    var title := GetVideoTitle(reply);
    if title.None? || title.value == "" then Placeholder else title.value
  }

  /** No match starts in `/watch?`, whatever follows it. */
  lemma WatchPathHasNoMatch(tail: string)
    ensures NoMatchIn("/" + ("watch?" + tail), 0, 7)
  {
    var page := "watch?" + tail;
    NoMarkerNoMatch(page, [], "watch?");
    NoMatchShift("/", page, 0, 6);
    BlockedSlash("/" + page, 0, 6);
    NoMatchInJoin("/" + page, 0, 1, 7);
  }

  /** No match starts in `//www.youtube.com/watch?`, whatever follows it. */
  lemma WatchHostHasNoMatch(tail: string)
    ensures NoMatchIn("//" + ("www.youtube.com" + ("/" + ("watch?" + tail))), 0, 24)
  {
    var path := "/" + ("watch?" + tail);
    var host := "www.youtube.com" + path;
    WatchPathHasNoMatch(tail);
    NoMarkerNoMatch(host, [], "www.youtube.com");
    NoMatchShift("www.youtube.com", path, 0, 7);
    NoMatchInJoin(host, 0, 15, 22);
    NoMatchShift("//", host, 0, 22);
    BlockedSlash("//" + host, 0, 1);
    BlockedSlash("//" + host, 1, 5);
    NoMatchInJoin("//" + host, 0, 2, 24);
  }

  /** No match starts in `http://www.youtube.com/watch?`, whatever follows it. */
  lemma WatchSiteHasNoMatch(tail: string)
    ensures NoMatchIn("http://www.youtube.com/watch?" + tail, 0, 29)
  {
    var slashes := "//" + ("www.youtube.com" + ("/" + ("watch?" + tail)));
    WatchHostHasNoMatch(tail);
    NoMarkerNoMatch("http:" + slashes, [], "http:");
    NoMatchShift("http:", slashes, 0, 24);
    NoMatchInJoin("http:" + slashes, 0, 5, 29);
    assert "http:" + slashes == "http://www.youtube.com/watch?" + tail;
  }

  /** The watch URL the resolver sends to oEmbed names the same video: the
      URL parser applied to it (with anything appended) gives the id back. */
  lemma {:induction false} WatchUrlNamesVideo(id: string, rest: string)
    requires IsVideoId(id)
    ensures ExtractVideoId(WatchUrl(id) + rest) == Some(id)
  {
    var query := "v=" + id + rest;
    assert WatchUrl(id) + rest == "http://www.youtube.com/watch?" + query;
    assert MatchesAt(query, 0) && CaptureAt(query, 0) == id by {
      assert query[2..2 + IdLength] == id;
    }
    WatchSiteHasNoMatch(query);
    ExtractBehindPrefix("http://www.youtube.com/watch?", query, id);
  }
}
