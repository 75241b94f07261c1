/** The deterministic parts of the LLM client (utils/llm.py): the provider
    check, the JSON extraction from a reply, the text of a Claude reply and
    the Gemini chat history.  The API calls themselves are their replies,
    and `json.loads` is a partial function passed in. */
module Llm {
  import opened Wrappers
  import opened Strings

  // ---------------------------------------------------------------------
  // The provider

  datatype Provider = Claude | Gemini

  /** The lower-case name the client compares against. */
  function ProviderName(p: Provider): string {
    match p
    case Claude => "claude"
    case Gemini => "gemini"
  }

  /** `provider or Config.LLM_PROVIDER`: an absent or empty argument falls
      back to the configured name. */
  function RequestedName(requested: Option<string>, configured: string): string {
    if requested.Some? && requested.value != [] then requested.value else configured
  }

  /** `LLMClient.__init__`: the lower-cased name selects the provider;
      `None` is the `ValueError` for any other name. */
  function SelectProvider(requested: Option<string>, configured: string): (p: Option<Provider>)
    ensures p.Some? ==> Lower(RequestedName(requested, configured)) == ProviderName(p.value)
    ensures p.None? ==> forall q: Provider :: Lower(RequestedName(requested, configured)) != ProviderName(q)
  {
    var name := Lower(RequestedName(requested, configured));
    if name == "claude" then Some(Claude)
    else if name == "gemini" then Some(Gemini)
    else None
  }

  /** The check ignores case: a name and its lower-case form select the
      same provider. */
  lemma SelectProviderIgnoresCase(name: string, configured: string)
    ensures SelectProvider(Some(name), configured) == SelectProvider(Some(Lower(name)), configured)
  {
    LowerOfLower(Lower(name));
  }

  // ---------------------------------------------------------------------
  // JSON out of a reply

  /** The `ValueError` raised when nothing decodes: the first 500
      characters of the text and its length. */
  datatype ParseFailure = ParseFailure(preview: string, length: nat)

  const PreviewLimit: nat := 500

  /** The stripped reply without its Markdown fence: the part between the
      first "```json" and the next "```", when both are there, or else the
      text without a leading "```" and then a trailing "```". */
  function Unfenced(t: string): string {
    match Find(t, "```json", 0)
    case Some(i) =>
      (match Find(t, "```", i + 7)
       case Some(j) => Strip(t[i + 7..j])
       case None => t)
    case None =>
      if StartsWith(t, "```") then
        var u := t[3..];
        if EndsWith(u, "```") then u[..|u| - 3] else u
      else t
  }

  /** The text `_extract_json` decodes: the reply stripped, unfenced and
      stripped again. */
  function JsonText(response: string): (text: string)
    ensures text == [] || (!IsSpace(text[0]) && !IsSpace(text[|text| - 1]))
  {
    Strip(Unfenced(Strip(response)))
  }

  /** The two decoding attempts of `_extract_json` on its text: the text as
      a whole, or else its slice from the first '{' to the last '}'; the
      error reports the text. */
  function DecodedText<J>(text: string, parse: string -> Option<J>): (r: Result<J, ParseFailure>)
    ensures r.Err? ==> parse(text).None?
    ensures r.Err? ==> r.error.length == |text|
    ensures r.Err? ==> |r.error.preview| <= PreviewLimit && |r.error.preview| <= |text|
    ensures r.Err? ==> r.error.preview == text[..|r.error.preview|]
  {
    match parse(text)
    case Some(v) => Ok(v)
    case None =>
      match BraceSlice(text)
      case Some(slice) =>
        (match parse(slice)
         case Some(v) => Ok(v)
         case None => Err(ParseFailure(Prefix(text, PreviewLimit), |text|)))
      case None => Err(ParseFailure(Prefix(text, PreviewLimit), |text|))
  }

  /** `_extract_json` */
  function ExtractedJson<J>(response: string, parse: string -> Option<J>): Result<J, ParseFailure> {
    DecodedText(JsonText(response), parse)
  }

  /** A text that decodes as a whole is the value, whatever braces it
      holds; one that does not and has no '{' before a '}' is an error. */
  lemma DecodedTextCases<J>(text: string, parse: string -> Option<J>)
    ensures parse(text).Some? ==> DecodedText(text, parse) == Ok(parse(text).value)
    ensures parse(text).None? && (forall i, j :: 0 <= i < j < |text| ==> !(text[i] == '{' && text[j] == '}')) ==> DecodedText(text, parse).Err?
  {
    BraceSliceExists(text);
  }

  /** `_extract_json` as written: `text` is reassigned step by step. */
  method ExtractJson<J>(response: string, parse: string -> Option<J>) returns (r: Result<J, ParseFailure>)
    ensures r == ExtractedJson(response, parse)
  {
    var text := Strip(response);
    ghost var stripped := text;
    var fence := Find(text, "```json", 0);
    if fence.Some? {
      var start := fence.value + 7;
      var end := Find(text, "```", start);
      if end.Some? {
        text := Strip(text[start..end.value]);
      }
    } else if StartsWith(text, "```") {
      text := text[3..];
      if EndsWith(text, "```") {
        text := text[..|text| - 3];
      }
    }
    assert text == Unfenced(stripped);
    text := Strip(text);
    assert text == JsonText(response);
    r := Decode(text, parse);
  }

  /** The two decoding attempts, one after the other. */
  method Decode<J>(text: string, parse: string -> Option<J>) returns (r: Result<J, ParseFailure>)
    ensures r == DecodedText(text, parse)
  {
    var direct := parse(text);
    if direct.Some? {
      return Ok(direct.value);
    }
    var slice := BraceSlice(text);
    if slice.Some? {
      var inner := parse(slice.value);
      if inner.Some? {
        return Ok(inner.value);
      }
    }
    r := Err(ParseFailure(Prefix(text, PreviewLimit), |text|));
  }

  /** `s.find(pat, from)` is the first occurrence at or after `from`. */
  lemma FindIsFirst(s: string, pat: string, from: nat, i: nat)
    requires from <= i && MatchAt(s, pat, i)
    requires forall k :: from <= k < i ==> !MatchAt(s, pat, k)
    ensures Find(s, pat, from) == Some(i)
  {
  }

  /** A reply without any fence is decoded after stripping alone. */
  lemma UnfencedReply(response: string)
    requires !Contains(Strip(response), "```json") && !StartsWith(Strip(response), "```")
    ensures JsonText(response) == Strip(response)
  {
    StripOfTrimmed(Strip(response));
  }

  /** A reply "```json" + body + "```" whose body holds no backquote is
      decoded from the stripped body. */
  lemma JsonFencedReply<J>(body: string, parse: string -> Option<J>)
    requires forall k :: 0 <= k < |body| ==> body[k] != '`'
    ensures JsonText("```json" + body + "```") == Strip(body)
    ensures parse(Strip(body)).Some? ==> ExtractedJson("```json" + body + "```", parse) == Ok(parse(Strip(body)).value)
  {
    var t := "```json" + body + "```";
    StripOfTrimmed(t);
    assert Strip(t) == t;
    FindIsFirst(t, "```json", 0, 0);
    var j := 7 + |body|;
    assert t[j..j + 3] == "```";
    forall k | 7 <= k < j
      ensures !MatchAt(t, "```", k)
    {
      assert t[k] == body[k - 7];
    }
    FindIsFirst(t, "```", 7, j);
    assert t[7..j] == body;
    assert Unfenced(t) == Strip(body);
    StripOfTrimmed(Strip(body));
    assert JsonText(t) == Strip(Strip(body));
  }

  /** Text before the JSON object that holds no '{' is dropped when the
      whole text does not decode. */
  lemma PreambleDropped<J>(preamble: string, obj: string, parse: string -> Option<J>)
    requires forall k :: 0 <= k < |preamble| ==> preamble[k] != '{'
    requires |obj| >= 2 && obj[0] == '{' && obj[|obj| - 1] == '}'
    requires parse(preamble + obj).None? && parse(obj).Some?
    ensures DecodedText(preamble + obj, parse) == Ok(parse(obj).value)
  {
    var text := preamble + obj;
    assert text[|preamble|] == '{' && text[|text| - 1] == '}';
    assert IndexOfChar(text, '{') == |preamble|;
    assert text[|preamble|..|text|] == obj;
    assert BraceSlice(text) == Some(obj);
  }

  /** `call`: the raw reply, or with `json_mode` the decoded value. */
  datatype Reply<J> = Text(text: string) | Json(value: J)

  function Call<J>(response: string, jsonMode: bool, parse: string -> Option<J>): (r: Result<Reply<J>, ParseFailure>)
    ensures !jsonMode ==> r == Ok(Text(response))
    ensures jsonMode ==> (r.Ok? <==> ExtractedJson(response, parse).Ok?)
    ensures jsonMode && r.Ok? ==> r.value == Json(ExtractedJson(response, parse).value)
  {
    if !jsonMode then Ok(Text(response))
    else
      match ExtractedJson(response, parse)
      case Ok(v) => Ok(Json(v))
      case Err(e) => Err(e)
  }

  // ---------------------------------------------------------------------
  // The text of a Claude reply

  /** A content block: its `type` and its `text`, each absent when the
      block has no such attribute. */
  datatype Block = Block(kind: Option<string>, text: Option<string>)

  predicate IsThinking(b: Block) {
    b.kind == Some("thinking")
  }

  /** The texts of the blocks that are not thinking blocks, in order. */
  function TextParts(blocks: seq<Block>): (parts: seq<string>)
    ensures |parts| <= |blocks|
  {
    if blocks == [] then []
    else
      var b := blocks[|blocks| - 1];
      var before := TextParts(blocks[..|blocks| - 1]);
      if !IsThinking(b) && b.text.Some? then before + [b.text.value] else before
  }

  /** The parts of two runs of blocks are those of the first followed by
      those of the second. */
  lemma {:induction false} TextPartsAppend(a: seq<Block>, b: seq<Block>)
    ensures TextParts(a + b) == TextParts(a) + TextParts(b)
    decreases |b|
  {
    if b == [] {
      assert a + b == a;
    } else {
      TextPartsAppend(a, b[..|b| - 1]);
      assert (a + b)[..|a + b| - 1] == a + b[..|b| - 1];
    }
  }

  /** A thinking block contributes nothing wherever it stands. */
  lemma ThinkingBlockIgnored(a: seq<Block>, t: Block, b: seq<Block>)
    requires IsThinking(t)
    ensures TextParts(a + [t] + b) == TextParts(a + b)
  {
    TextPartsAppend(a + [t], b);
    TextPartsAppend(a, [t]);
    TextPartsAppend(a, b);
    assert TextParts([t]) == [] by {
      assert [t][..0] == [];
    }
  }

  /** Without thinking blocks, every block with a text is kept. */
  lemma {:induction false} TextPartsOfTextBlocks(blocks: seq<Block>)
    requires forall k :: 0 <= k < |blocks| ==> !IsThinking(blocks[k]) && blocks[k].text.Some?
    ensures |TextParts(blocks)| == |blocks|
    ensures forall k :: 0 <= k < |blocks| ==> TextParts(blocks)[k] == blocks[k].text.value
  {
    if blocks != [] {
      TextPartsOfTextBlocks(blocks[..|blocks| - 1]);
    }
  }

  /** `_extract_claude_content` */
  method ExtractClaudeContent(blocks: seq<Block>) returns (content: string)
    ensures content == Join(TextParts(blocks), "\n")
  {
    var parts := [];
    for i := 0 to |blocks|
      invariant parts == TextParts(blocks[..i])
    {
      assert blocks[..i + 1][..i] == blocks[..i];
      var block := blocks[i];
      if IsThinking(block) {
        continue;
      }
      if block.text.Some? {
        parts := parts + [block.text.value];
      }
    }
    assert blocks[..|blocks|] == blocks;
    content := Join(parts, "\n");
  }

  // ---------------------------------------------------------------------
  // The Gemini chat

  datatype Message = Message(role: string, content: string)

  /** An entry of the history given to `start_chat`. */
  datatype Turn = Turn(role: string, parts: seq<string>)

  /** What `_chat_gemini` sends: the history and the last message. */
  datatype GeminiChat = GeminiChat(history: seq<Turn>, lastMessage: string)

  /** `_chat_gemini`: every message but the last goes into the history as
      a "user" turn when its role is "user" and a "model" turn otherwise;
      the system prompt is put before the last message only when there is
      no history.  `None` is the `IndexError` of an empty conversation. */
  method ChatGemini(messages: seq<Message>, system: string) returns (chat: Option<GeminiChat>)
    ensures chat.None? <==> messages == []
    ensures chat.Some? ==> |chat.value.history| == |messages| - 1
    ensures chat.Some? ==> forall k :: 0 <= k < |chat.value.history| ==>
      chat.value.history[k].parts == [messages[k].content]
    ensures chat.Some? ==> forall k :: 0 <= k < |chat.value.history| ==>
      (chat.value.history[k].role == "user" <==> messages[k].role == "user")
    ensures chat.Some? ==> forall k :: 0 <= k < |chat.value.history| ==>
      chat.value.history[k].role in {"user", "model"}
    ensures chat.Some? && (system == [] || |messages| > 1) ==> chat.value.lastMessage == messages[|messages| - 1].content
    ensures chat.Some? && system != [] && |messages| == 1 ==> chat.value.lastMessage == system + "\n\n" + messages[0].content
  {
    var history: seq<Turn> := [];
    var earlier := if messages == [] then [] else messages[..|messages| - 1];
    for i := 0 to |earlier|
      invariant |history| == i
      invariant forall k :: 0 <= k < i ==> history[k] == Turn(if earlier[k].role == "user" then "user" else "model", [earlier[k].content])
    {
      var role := if earlier[i].role == "user" then "user" else "model";
      history := history + [Turn(role, [earlier[i].content])];
    }
    if messages == [] {
      return None;
    }
    var lastMessage := messages[|messages| - 1].content;
    if system != [] && history == [] {
      lastMessage := system + "\n\n" + lastMessage;
    }
    chat := Some(GeminiChat(history, lastMessage));
  }
}
