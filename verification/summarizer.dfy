/** The summarizer, `summarize_with_openai`: a fixed two-message chat
    request embedding the transcript, and the reply with surrounding
    whitespace removed. The chat-completion call is an input here. */
module Summarizer {
  import opened Wrappers

  const SystemInstruction: string := "You are a helpful assistant who summarizes YouTube video transcripts."
  const UserPrefix: string := "Summarize this transcript briefly:\n\n"

  datatype Role = System | User
  datatype Message = Message(role: Role, content: string)

  /** The `messages` argument of the chat-completion call. */
  function ChatRequest(text: string): (msgs: seq<Message>)
    ensures |msgs| == 2
    ensures msgs[0] == Message(System, SystemInstruction)
    ensures msgs[1].role == User
    ensures |msgs[1].content| == |UserPrefix| + |text|
    ensures msgs[1].content[..|UserPrefix|] == UserPrefix
    ensures msgs[1].content[|UserPrefix|..] == text
  {
    [Message(System, SystemInstruction), Message(User, UserPrefix + text)]
  }

  /** The characters for which Python's `str.isspace` holds. */
  predicate IsWhitespace(c: char) {
    || ('\t' <= c <= '\r')
    || ('\U{1C}' <= c <= '\U{1F}')
    || c == ' '
    || c == '\U{85}'
    || c == '\U{A0}'
    || c == '\U{1680}'
    || ('\U{2000}' <= c <= '\U{200A}')
    || c == '\U{2028}'
    || c == '\U{2029}'
    || c == '\U{202F}'
    || c == '\U{205F}'
    || c == '\U{3000}'
  }

  predicate AllWhitespace(s: string) {
    forall k :: 0 <= k < |s| ==> IsWhitespace(s[k])
  }

  /** `s[a..b]` is what remains of `s` once its leading and trailing
      whitespace is cut: everything before `a` and from `b` on is whitespace,
      and a non-empty remainder neither begins nor ends with whitespace. */
  ghost predicate StripBounds(s: string, a: nat, b: nat) {
    && a <= b <= |s|
    && (forall k :: 0 <= k < a ==> IsWhitespace(s[k]))
    && (forall k :: b <= k < |s| ==> IsWhitespace(s[k]))
    && (a < b ==> !IsWhitespace(s[a]) && !IsWhitespace(s[b - 1]))
  }

  /** `t` is `s` with its surrounding whitespace removed. */
  ghost predicate IsStripped(s: string, t: string) {
    exists a: nat, b: nat :: StripBounds(s, a, b) && t == s[a..b]
  }

  /** The first index at or after `i` that does not hold whitespace. */
  function SkipForward(s: string, i: nat): (j: nat)
    requires i <= |s|
    ensures i <= j <= |s|
    ensures forall k :: i <= k < j ==> IsWhitespace(s[k])
    ensures j == |s| || !IsWhitespace(s[j])
    decreases |s| - i
  {
    if i < |s| && IsWhitespace(s[i]) then SkipForward(s, i + 1) else i
  }

  /** The least index `i` in `[lo, j]` such that `s[i..j]` is all whitespace. */
  function SkipBackward(s: string, lo: nat, j: nat): (i: nat)
    requires lo <= j <= |s|
    ensures lo <= i <= j
    ensures forall k :: i <= k < j ==> IsWhitespace(s[k])
    ensures i == lo || !IsWhitespace(s[i - 1])
    decreases j
  {
    if lo < j && IsWhitespace(s[j - 1]) then SkipBackward(s, lo, j - 1) else j
  }

  /** `s.strip()`. */
  function Strip(s: string): (r: string)
    ensures IsStripped(s, r)
    ensures r == [] <==> AllWhitespace(s)
  {
    var a := SkipForward(s, 0);
    var b := SkipBackward(s, a, |s|);
    assert StripBounds(s, a, b);
    s[a..b]
  }

  /** Whatever `s` is, only one `t` satisfies `IsStripped(s, t)`, and `Strip`
      computes it. */
  lemma StripUnique(s: string, t: string)
    requires IsStripped(s, t)
    ensures Strip(s) == t
  {
  }

  /** Stripping twice strips no more than once. */
  lemma StripIdempotent(s: string)
    ensures Strip(Strip(s)) == Strip(s)
  {
    var t := Strip(s);
    var a: nat, b: nat :| StripBounds(s, a, b) && t == s[a..b];
    assert StripBounds(t, 0, |t|);
    assert t[0..|t|] == t;
    StripUnique(t, t);
  }

  /** `summarize_with_openai(text)`: `None` when the chat call failed,
      otherwise its reply stripped of surrounding whitespace. */
  function SummarizeWithOpenAI(text: string, chat: seq<Message> -> Option<string>): (r: Option<string>)
    ensures r.None? <==> chat(ChatRequest(text)).None?
    ensures r.Some? ==> IsStripped(chat(ChatRequest(text)).value, r.value)
    ensures r.Some? ==> (r.value == "" <==> AllWhitespace(chat(ChatRequest(text)).value))
  {
    match chat(ChatRequest(text))
    case None => None
    case Some(reply) => Some(Strip(reply))
  }
}
