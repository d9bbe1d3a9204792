# youtube_summary: a Dafny model of the summarization service

The service exposes one route, `POST /summarize`. It takes a YouTube URL
and extracts the 11-character video id. It looks up the title through
oEmbed, fetches the English transcript, and asks a chat-completion model
for a short summary. It answers with `{title, summary}` or with an
`{error}` object and a status of 400, 404 or 500.

This project models the deterministic part of that service as pure
functions over strings and sequences:

- `VideoId` (`video_id.dfy`): `extract_video_id`, the `re.search` of
  `(?:v=|\/)([0-9A-Za-z_-]{11}).*`. The search returns the leftmost index
  where a marker (`v=` or `/`) is followed by eleven identifier
  characters, and yields those eleven characters.
- `Title` (`title.dfy`): `get_video_title` reduced to its status-code
  branch, plus the handler's fallback to `"Unknown Title"`.
- `Transcript` (`transcript.dfy`): the single-space join of fragment texts
  in `get_transcript`. Python's `split(' ')` is modelled alongside as its
  inverse.
- `Summarizer` (`summarizer.dfy`): the two-message chat request, and the
  reply with Python's `str.strip()` applied. `Summarizer.IsWhitespace` is
  the set of characters for which `str.isspace` holds, which `strip()` at
  `youtube_summary_api.py:50` removes.
- `Handler` (`handler.dfy`): the gate pipeline of `summarize`.
  `Handler.MissingUrl` is the test `not data or 'youtube_url' not in data`
  at `youtube_summary_api.py:59`. `Handler.Truthy` is Python truthiness of
  an optional string, the `not x` of `youtube_summary_api.py:72` and 76.

The outside calls are function-valued inputs bundled in `Handler.Services`.
These are the oEmbed HTTP request, the transcript library and the
chat-completion API. The oEmbed input always returns a reply: a status
code and an optional title. `Title.GetVideoTitle` turns that reply into
`None` when the status is not 200. The transcript and chat inputs return
`None` where the library or API call raises and the source's helper
catches the exception and returns `None`.

A URL ending in `/XXXXXXXXXXX` does not necessarily yield `XXXXXXXXXXX`.
The leftmost match wins, so an earlier `/` that is followed by eleven
identifier characters takes precedence (`VideoId.LeftmostMatchWins`).

## Model

| member | source | states |
|---|---|---|
| VideoId.FirstMatchFrom | youtube_summary_api.py:14-15 | the scan returns the first index at or after the start where the pattern matches, with no match before it, or the end of the string when there is none |
| VideoId.ExtractVideoId | youtube_summary_api.py:12-18 | `None` exactly when no index matches; otherwise eleven identifier characters, namely the capture group of the leftmost match, which follows a `v=` or `/` marker |
| VideoId.MarkerThenIdAtStart | youtube_summary_api.py:14 | `"v=" + id + s` and `"/" + id + s` yield `id` for any id and any suffix; trailing text, including further id characters, is ignored |
| VideoId.QueryMarkerAnywhere | youtube_summary_api.py:14-15 | `v=` is recognised after any prefix free of `/` and `=`, not only after `?` or `&` |
| VideoId.LeftmostMatchWins | youtube_summary_api.py:14-15 | `"/abcdefghijkl?v=XXXXXXXXXXX"` yields `"abcdefghijk"`: the earliest match wins over a later `v=`, and a longer run is cut to eleven characters |
| VideoId.ShortLinkYieldsId | youtube_summary_api.py:14-17 | a `https://youtu.be/<id>` link yields its id whatever follows |
| VideoId.MatchShift | youtube_summary_api.py:14 | whether a match starts at an index depends only on the text from that index on |
| Title.GetVideoTitle | youtube_summary_api.py:25-27 | a reply with a status other than 200 gives `None`; a 200 reply gives its `title` field, which is `None` when the field is absent |
| Title.OEmbedUrl | youtube_summary_api.py:23 | the oEmbed query URL starts with the endpoint, ends with the JSON format parameter, and embeds the watch URL of the id between them |
| Title.OEmbedUrlIdentifiesVideo | youtube_summary_api.py:23 | two oEmbed query URLs are equal exactly when they name the same video id |
| Title.ResolveTitle | youtube_summary_api.py:67-69 | the title used is never empty: it is the oEmbed title when a 200 reply carries a non-empty one, and `"Unknown Title"` otherwise |
| Title.WatchUrlNamesVideo | youtube_summary_api.py:23 | the watch URL sent to oEmbed, with anything appended, parses back to the same video id |
| Transcript.Join | youtube_summary_api.py:32 | the joined text has the combined length of the parts plus one separator between each pair of neighbours, and begins with the first part; when no part contains a space, the text holds exactly one space fewer than there are parts |
| Transcript.JoinSplit | youtube_summary_api.py:32 | joining the space-separated pieces of any text gives the text back |
| Transcript.SplitJoin | youtube_summary_api.py:32 | splitting the join of space-free fragments gives back the fragments in their original order |
| Transcript.JoinAppend | youtube_summary_api.py:32 | joining two lists back to back is joining each, with one space between: order is kept |
| Transcript.JoinEmptyIff | youtube_summary_api.py:32 | the joined text is empty exactly when there are no fragments or a single empty one |
| Transcript.JoinThreeFragments | youtube_summary_api.py:32 | `["a","b","c"]` joins to `"a b c"` |
| Transcript.Texts | youtube_summary_api.py:32 | one text per fragment, in fragment order |
| Transcript.GetTranscript | youtube_summary_api.py:29-37 | `None` exactly when the library call failed; otherwise the single-space join of the fragment texts, which is empty exactly when those texts are `[]` or `[""]` |
| Summarizer.ChatRequest | youtube_summary_api.py:43-46 | a fixed system message and a user message made of the fixed prefix followed by the transcript, unchanged |
| Summarizer.Strip | youtube_summary_api.py:50 | the result is the input with surrounding whitespace removed: everything cut is whitespace, the rest neither begins nor ends with whitespace, and it is empty exactly when the input is all whitespace |
| Summarizer.StripUnique | youtube_summary_api.py:50 | any string that meets that description is the result of the strip |
| Summarizer.StripIdempotent | youtube_summary_api.py:50 | stripping twice is stripping once |
| Summarizer.SummarizeWithOpenAI | youtube_summary_api.py:39-54 | `None` exactly when the chat call fails; otherwise the stripped reply, which is empty exactly when the reply is all whitespace |
| Handler.Summarize | youtube_summary_api.py:56-82 | status 200 exactly when the body is `{title, summary}`, both non-empty; the status is one of 200, 400, 404 and 500; a missing body or key gives 400 `Missing youtube_url in request` |
| Handler.StatusNamesFirstFailedGate | youtube_summary_api.py:58-77 | each error status holds exactly when its gate is the first to fail: missing URL, then no id, then no transcript, then no summary; each error body carries the message of its gate, and a 404 or 500 body is `Transcript not available` or `Failed to summarize transcript` respectively |
| Handler.SuccessCarriesStrippedReply | youtube_summary_api.py:71-82 | a 200 response carries the stripped reply to the request built from the joined transcript of the extracted id, and the resolved title |
| Handler.TitleNeverDecidesStatus | youtube_summary_api.py:67-77 | changing only the oEmbed outcome changes neither the status nor the summary, and leaves error responses unchanged |
| Handler.FailedTitleLookupStillSucceeds | youtube_summary_api.py:67-69 | with transcript and summary available, a non-200 oEmbed reply still gives 200 with title `"Unknown Title"` |
| Handler.EmptyBodyIsMissingUrl | youtube_summary_api.py:58-60 | the body `{}` gives 400 `Missing youtube_url in request` |
| Handler.NoFragmentsIsNotFound | youtube_summary_api.py:71-73 | an empty fragment list gives 404, the same as a failed transcript lookup |
| Handler.WhitespaceReplyIsServerError | youtube_summary_api.py:75-77 | a chat reply that is all whitespace gives 500 `Failed to summarize transcript` |

## Left out

- Flask routing, `jsonify` and `app.run` are transport only. The parsed JSON body is an `Option<map<string, string>>`.
- Bodies that are JSON but not an object (a list, a number) are not modelled. Neither is a `youtube_url` value that is not a string, on which `re.search` would raise.
- The oEmbed request, the transcript library and the chat-completion API are foreign calls. They are function-valued inputs.
- Exceptions from `requests.get` or from a malformed JSON reply in `get_video_title` are not caught by the source and would fail the request. The model covers only the status-code branch and does not claim these cases fall back to the placeholder. The `title` field is assumed to be a string when present.
- The `print` logging and the distinction between `TranscriptsDisabled`, `NoTranscriptFound` and other errors are not modelled, because all of them end in `None`.
- The API key read from the environment, the model name, `max_tokens` and `temperature` are configuration with no behaviour to state.
- The model assumes that fragments expose `.text`; a library version that returns plain dictionaries would make every lookup fail. Only the fragment text is modelled, not its timing fields.
- Summarizer.Strip: whitespace is the fixed set of characters for which Python's `str.isspace` holds (Unicode whitespace), written out. It stands in for the Unicode database Python consults.
- No timeouts or concurrency exist in the source, so none are modelled.
