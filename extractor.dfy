/** The execution trace of one session, as it is rendered for the extraction
    prompt: which transcript events are kept, how each is labelled, how tool
    payloads are shortened, and the cap on the length of the whole trace.
    Reading the transcript file and decoding its JSON lines happen before this
    model: each line is given as the event it decodes to, or as `None` when it
    does not decode. */
module Extractor {
  import opened Wrappers
  import opened Text
  import opened Seqs

  /** The `content` of a `tool_result` block: a string, or any other JSON
      value, given as the text Python's `str()` renders it to. A missing
      `content` is the empty string. */
  datatype ResultContent = ResultText(text: string) | ResultValue(rendered: string)

  /** One element of a list-valued message content. */
  datatype Block =
    | TextBlock(text: string)                            // type "text"; a missing text is ""
    | ToolUse(name: Option<string>, inputJson: string)   // type "tool_use"; the input as `json.dumps` writes it
    | ToolResult(content: ResultContent)                 // type "tool_result"
    | OtherBlock                                         // a dict of any other type, or of none
    | NonDict                                            // not a dict at all

  /** `message.content`: a string (a missing one is "") or a list of blocks. */
  datatype Content = Plain(text: string) | Blocks(blocks: seq<Block>)

  /** One transcript event: whether its `isMeta` is truthy, its `type`, and
      its message content. */
  datatype Message = Message(isMeta: bool, msgType: Option<string>, content: Content)

  const PayloadLimit: nat := 500
  const TruncationMarker: string := "\n\n[... trace truncated ...]"

  // ---------------------------------------------------------------------------
  // Tool payloads
  // ---------------------------------------------------------------------------

  /** A payload longer than 500 characters becomes its first 500 and "...";
      a shorter one is kept whole. */
  function Truncate(s: string): (r: string)
    ensures |r| <= PayloadLimit + 3
    ensures |s| <= PayloadLimit ==> r == s
    ensures |s| > PayloadLimit ==>
      |r| == PayloadLimit + 3 && r[..PayloadLimit] == s[..PayloadLimit] && r[PayloadLimit..] == "..."
  {
    if |s| > PayloadLimit then s[..PayloadLimit] + "..." else s
  }

  /** Shortening a shortened payload gives it back. */
  lemma TruncateIdempotent(s: string)
    ensures Truncate(Truncate(s)) == Truncate(s)
  {
    var r := Truncate(s);
    if |s| > PayloadLimit {
      assert r[..PayloadLimit] == s[..PayloadLimit];
      assert r == s[..PayloadLimit] + "...";
    }
  }

  // ---------------------------------------------------------------------------
  // Rendering a message's content
  // ---------------------------------------------------------------------------

  predicate IsTextBlock(b: Block) {
    b.TextBlock?
  }

  predicate IsToolBlock(b: Block) {
    b.ToolUse? || b.ToolResult?
  }

  /** The line a block contributes; blocks of other kinds contribute none and
      are filtered out before this is asked. A string tool result is
      shortened, any other result value is not. */
  function BlockLine(b: Block): string {
    match b
    case TextBlock(t) => t
    case ToolUse(name, input) => "[Tool: " + name.GetOr("tool") + "] " + Truncate(input)
    case ToolResult(ResultText(t)) => "[Tool Result] " + Truncate(t)
    case ToolResult(ResultValue(v)) => "[Tool Result] " + v
    case _ => ""
  }

  /** The lines of the text blocks, in their order. */
  function TextParts(bs: seq<Block>): seq<string> {
    MapSeq(Filter(bs, IsTextBlock), BlockLine)
  }

  /** The lines of the tool blocks, in their order. */
  function ToolParts(bs: seq<Block>): seq<string> {
    MapSeq(Filter(bs, IsToolBlock), BlockLine)
  }

  /** The rendered content: a string as it is; a block list as all its text
      lines and then all its tool lines, one per line. */
  function ContentText(c: Content): string {
    match c
    case Plain(s) => s
    case Blocks(bs) => Join(TextParts(bs) + ToolParts(bs), "\n")
  }

  /** `load_session_trace`'s inner loop over a block list. */
  method RenderBlocks(bs: seq<Block>) returns (content: string)
    ensures content == ContentText(Blocks(bs))
  {
    var textParts: seq<string> := [];
    var toolParts: seq<string> := [];
    for k := 0 to |bs|
      invariant textParts == TextParts(bs[..k])
      invariant toolParts == ToolParts(bs[..k])
    {
      FilterMapSnoc(bs, k, IsTextBlock, BlockLine);
      FilterMapSnoc(bs, k, IsToolBlock, BlockLine);
      match bs[k] {
        case TextBlock(t) =>
          textParts := textParts + [t];
        case ToolUse(name, input) =>
          var inputStr := input;
          if |inputStr| > 500 {
            inputStr := inputStr[..500] + "...";
          }
          toolParts := toolParts + ["[Tool: " + name.GetOr("tool") + "] " + inputStr];
        case ToolResult(result) =>
          var rendered: string;
          match result {
            case ResultText(t) =>
              rendered := t;
              if |rendered| > 500 {
                rendered := rendered[..500] + "...";
              }
            case ResultValue(v) =>
              rendered := v;
          }
          toolParts := toolParts + ["[Tool Result] " + rendered];
        case _ =>
      }
    }
    assert bs[..|bs|] == bs;
    content := Join(textParts + toolParts, "\n");
  }

  lemma BlockPartsConcat(a: seq<Block>, b: seq<Block>)
    ensures TextParts(a + b) == TextParts(a) + TextParts(b)
    ensures ToolParts(a + b) == ToolParts(a) + ToolParts(b)
  {
    FilterMapConcat(a, b, IsTextBlock, BlockLine);
    FilterMapConcat(a, b, IsToolBlock, BlockLine);
  }

  lemma BlockPartsSplit(a: seq<Block>, b: seq<Block>, c: seq<Block>)
    ensures TextParts(a + b + c) == TextParts(a) + TextParts(b) + TextParts(c)
    ensures ToolParts(a + b + c) == ToolParts(a) + ToolParts(b) + ToolParts(c)
  {
    BlockPartsConcat(a + b, c);
    BlockPartsConcat(a, b);
  }

  /** A block of another type, or one that is not a dict, leaves the
      rendered content as it would be without it. */
  lemma IgnoredBlock(a: seq<Block>, b: Block, c: seq<Block>)
    requires b.OtherBlock? || b.NonDict?
    ensures ContentText(Blocks(a + [b] + c)) == ContentText(Blocks(a + c))
  {
    FilterMapSkip(a, b, c, IsTextBlock, BlockLine);
    FilterMapSkip(a, b, c, IsToolBlock, BlockLine);
  }

  lemma SwappedPair(u: Block, t: Block)
    requires IsToolBlock(u) && IsTextBlock(t)
    ensures TextParts([u, t]) == TextParts([t, u]) == [BlockLine(t)]
    ensures ToolParts([u, t]) == ToolParts([t, u]) == [BlockLine(u)]
  {
    FilterMapPair(u, t, IsTextBlock, BlockLine);
    FilterMapPair(t, u, IsTextBlock, BlockLine);
    FilterMapPair(u, t, IsToolBlock, BlockLine);
    FilterMapPair(t, u, IsToolBlock, BlockLine);
  }

  /** Text lines come before tool lines whatever the block order: a text
      block directly after a tool block renders as if it came first. */
  lemma TextBeforeTools(a: seq<Block>, u: Block, t: Block, c: seq<Block>)
    requires IsToolBlock(u) && IsTextBlock(t)
    ensures ContentText(Blocks(a + [u, t] + c)) == ContentText(Blocks(a + [t, u] + c))
  {
    BlockPartsSplit(a, [u, t], c);
    BlockPartsSplit(a, [t, u], c);
    SwappedPair(u, t);
    assert TextParts(a + [u, t] + c) == TextParts(a + [t, u] + c);
    assert ToolParts(a + [u, t] + c) == ToolParts(a + [t, u] + c);
  }

  // ---------------------------------------------------------------------------
  // The trace
  // ---------------------------------------------------------------------------

  /** The events that decoded, in file order. */
  function Parsed(lines: seq<Option<Message>>): (r: seq<Message>)
    ensures |r| <= |lines|
    ensures forall m :: m in r ==> Some(m) in lines
  {
    if |lines| == 0 then []
    else
      var init := Parsed(lines[..|lines| - 1]);
      assert forall m :: m in init ==> Some(m) in lines[..|lines| - 1];
      match lines[|lines| - 1]
      case Some(m) => init + [m]
      case None => init
  }

  lemma {:induction false} ParsedConcat(a: seq<Option<Message>>, b: seq<Option<Message>>)
    ensures Parsed(a + b) == Parsed(a) + Parsed(b)
  {
    if |b| > 0 {
      assert (a + b)[..|a + b| - 1] == a + b[..|b| - 1];
      ParsedConcat(a, b[..|b| - 1]);
    } else {
      assert a + b == a;
    }
  }

  /** A line that does not decode is passed over: the events around it are
      read as if it were not there. */
  lemma UnparsableSkipped(a: seq<Option<Message>>, b: seq<Option<Message>>)
    ensures Parsed(a + [None] + b) == Parsed(a + b)
  {
    ParsedConcat(a + [None], b);
    ParsedConcat(a, [None]);
    ParsedConcat(a, b);
    assert Parsed([None]) == [] by {
      var none: seq<Option<Message>> := [None];
      assert none[..0] == [];
    }
  }

  /** An event is kept when it is not meta and its rendered content is not
      blank. */
  predicate Kept(m: Message) {
    !m.isMeta && !IsBlank(ContentText(m.content))
  }

  function Label(m: Message): string {
    if m.msgType == Some("user") then "USER" else "ASSISTANT"
  }

  /** The part a kept event contributes: a header naming the speaker, then the
      content. */
  function Part(m: Message): string {
    "=== " + Label(m) + " ===\n" + ContentText(m.content)
  }

  /** The parts of the kept events, in event order. */
  function TraceParts(msgs: seq<Message>): seq<string> {
    MapSeq(Filter(msgs, Kept), Part)
  }

  /** The trace: the parts separated by a blank line. */
  function SessionTrace(lines: seq<Option<Message>>): string {
    Join(TraceParts(Parsed(lines)), "\n\n")
  }

  /** `load_session_trace`'s first loop: the lines that decode, kept in order. */
  method DecodedMessages(lines: seq<Option<Message>>) returns (messages: seq<Message>)
    ensures messages == Parsed(lines)
  {
    messages := [];
    for i := 0 to |lines|
      invariant messages == Parsed(lines[..i])
    {
      assert lines[..i + 1][..i] == lines[..i];
      if lines[i].Some? {
        messages := messages + [lines[i].value];
      }
    }
    assert lines[..|lines|] == lines;
  }

  /** The body of `load_session_trace`'s second loop: the part one event adds,
      if any. */
  method RenderMessage(msg: Message) returns (part: Option<string>)
    ensures part == if Kept(msg) then Some(Part(msg)) else None
  {
    if msg.isMeta {
      return None;
    }
    var content: string;
    match msg.content {
      case Plain(s) =>
        content := s;
      case Blocks(bs) =>
        content := RenderBlocks(bs);
    }
    if content == [] || Strip(content) == [] {
      return None;
    }
    var speaker := if msg.msgType == Some("user") then "USER" else "ASSISTANT";
    part := Some("=== " + speaker + " ===\n" + content);
  }

  /** `load_session_trace`, after the file's lines are read. */
  method LoadSessionTrace(lines: seq<Option<Message>>) returns (trace: string)
    ensures trace == SessionTrace(lines)
  {
    var messages := DecodedMessages(lines);
    var traceParts: seq<string> := [];
    for j := 0 to |messages|
      invariant traceParts == TraceParts(messages[..j])
    {
      FilterMapSnoc(messages, j, Kept, Part);
      var part := RenderMessage(messages[j]);
      if part.Some? {
        traceParts := traceParts + [part.value];
      }
    }
    assert messages[..|messages|] == messages;
    trace := Join(traceParts, "\n\n");
  }

  /** The parts of consecutive runs of events follow each other in order. */
  lemma TracePartsConcat(a: seq<Message>, b: seq<Message>)
    ensures TraceParts(a + b) == TraceParts(a) + TraceParts(b)
  {
    FilterConcat(a, b, Kept);
    MapSeqConcat(Filter(a, Kept), Filter(b, Kept), Part);
  }

  /** A meta event, or one whose content renders blank, adds nothing. */
  lemma DroppedMessage(a: seq<Message>, m: Message, b: seq<Message>)
    requires m.isMeta || IsBlank(ContentText(m.content))
    ensures TraceParts(a + [m] + b) == TraceParts(a + b)
  {
    FilterMapSkip(a, m, b, Kept, Part);
  }

  /** A user event whose content is a single no-break space is blank to
      `str.strip()`, so it leaves no trace. */
  lemma NoBreakSpaceDropped(a: seq<Message>, b: seq<Message>)
    ensures TraceParts(a + [Message(false, Some("user"), Plain("\U{A0}"))] + b) == TraceParts(a + b)
  {
    DroppedMessage(a, Message(false, Some("user"), Plain("\U{A0}")), b);
  }

  /** Any other event adds its part, between the parts of the events before
      and after it. */
  lemma KeptMessage(a: seq<Message>, m: Message, b: seq<Message>)
    requires !m.isMeta && !IsBlank(ContentText(m.content))
    ensures TraceParts(a + [m] + b) == TraceParts(a) + [Part(m)] + TraceParts(b)
  {
    FilterMapKeep(a, m, b, Kept, Part);
  }

  /** `part` is what some non-meta event of `msgs` with non-blank content
      renders to. */
  ghost predicate FromKeptEvent(part: string, msgs: seq<Message>) {
    exists m :: m in msgs && !m.isMeta && !IsBlank(ContentText(m.content)) && part == Part(m)
  }

  /** Every part of the trace comes from a non-meta event of the session
      whose content is not blank. */
  lemma PartsFromKeptEvents(msgs: seq<Message>)
    ensures forall i :: 0 <= i < |TraceParts(msgs)| ==> FromKeptEvent(TraceParts(msgs)[i], msgs)
  {
    var kept := Filter(msgs, Kept);
    FilterSound(msgs, Kept);
    forall i | 0 <= i < |TraceParts(msgs)|
      ensures FromKeptEvent(TraceParts(msgs)[i], msgs)
    {
      var m := kept[i];
      assert m in msgs && Kept(m);
      assert TraceParts(msgs)[i] == Part(m);
    }
  }

  /** A part is headed USER exactly when its event's type is "user"; every
      other type, a missing one included, is headed ASSISTANT. */
  lemma PartLabel(m: Message)
    ensures StartsWith(Part(m), "=== USER ===\n") <==> m.msgType == Some("user")
    ensures m.msgType != Some("user") ==> StartsWith(Part(m), "=== ASSISTANT ===\n")
  {
    var p := Part(m);
    if m.msgType != Some("user") {
      assert p[..18] == "=== ASSISTANT ===\n";
      assert p[4] == 'A';
    } else {
      assert p[..13] == "=== USER ===\n";
    }
  }

  // ---------------------------------------------------------------------------
  // The length cap
  // ---------------------------------------------------------------------------

  /** `extract_from_session`'s cap: a trace longer than `maxChars` is cut to
      `trace[:maxChars]` and marked; Python slicing counts a negative
      `maxChars` from the end. */
  function CapTrace(trace: string, maxChars: int): (r: string)
    ensures |trace| <= maxChars ==> r == trace
  {
    if |trace| > maxChars then SlicePrefix(trace, maxChars) + TruncationMarker else trace
  }

  /** With a non-negative cap, a trace over it keeps exactly its first
      `maxChars` characters, then the marker. */
  lemma CapTraceCut(trace: string, maxChars: nat)
    requires |trace| > maxChars
    ensures var r := CapTrace(trace, maxChars);
      |r| == maxChars + |TruncationMarker|
      && r[..maxChars] == trace[..maxChars] && r[maxChars..] == TruncationMarker
  {
  }

  /** With a non-negative cap, the capped trace is a prefix of the trace,
      marked when something was cut, and never longer than the cap plus the
      marker. */
  lemma CapTraceBounded(trace: string, maxChars: nat)
    ensures var r := CapTrace(trace, maxChars);
      |r| <= maxChars + |TruncationMarker|
      && (r == trace || (StartsWith(trace, r[..maxChars]) && r[maxChars..] == TruncationMarker))
  {
    if |trace| > maxChars {
      CapTraceCut(trace, maxChars);
    }
  }

  /** A negative cap at least as long as the trace leaves only the marker. */
  lemma CapTraceNegative(trace: string, maxChars: int)
    requires maxChars < 0 && |trace| + maxChars <= 0
    ensures CapTrace(trace, maxChars) == TruncationMarker
  {
  }
}
