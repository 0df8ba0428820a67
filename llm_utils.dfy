/** Request shaping for the completion service: the first user message built
    from the thread's turns and attachments, the document test that picks
    the model, the request sent on each round (model, tools, tool choice)
    and the canned reply that replaces a response without a message. The
    Converse call itself is external and enters as a parameter. */
module LlmUtils {
  import opened Blocks
  import Tools

  /** The two models a request may go to. */
  datatype Model = Sonnet3 | Sonnet35

  /** The Bedrock model id of each model. */
  function ModelId(model: Model): string {
    match model
    case Sonnet3 => "anthropic.claude-3-sonnet-20240229-v1:0"
    case Sonnet35 => "anthropic.claude-3-5-sonnet-20240620-v1:0"
  }

  /** Sampling temperature of every request. */
  const Temperature: real := 0.1

  /** Slack file types sent as images, with the image format they are sent as. */
  const ImageTypeMap: map<string, string> := map[
    "jpg" := "jpeg",
    "png" := "png",
    "gif" := "gif",
    "webm" := "webp"
  ]

  /** Slack file types sent as documents, with the document format they are sent as. */
  const DocumentTypeMap: map<string, string> := map[
    "pdf" := "pdf",
    "csv" := "csv",
    "doc" := "doc",
    "docx" := "docx",
    "xls" := "xls",
    "xlsx" := "xlsx",
    "html" := "html",
    "text" := "txt",
    "markdown" := "md"
  ]

  const HeaderText := "Here is the conversation record between User & Support Bot:\n---\n"
  const FooterText := "\n---\nNow reply to the user."
  const FallbackText := "I am unable to generate a response at this time. Please try again later."

  /** A downloaded Slack file. */
  datatype Attachment = Attachment(title: string, mimetype: string, filetype: string, data: Bytes)

  /** One message of the thread: who sent it, its text and its files (a
      message without files has an empty sequence). */
  datatype Turn = Turn(sender: string, message: string, attachments: seq<Attachment>)

  // ---------------------------------------------------------------------
  // construct_converse_messages
  // ---------------------------------------------------------------------

  /** The block one attachment becomes. Every value of both tables is a
      non-empty string, so the walrus tests amount to key membership. */
  function AttachmentBlock(sender: string, a: Attachment): ContentBlock {
    if a.filetype in ImageTypeMap then
      Image(ImageTypeMap[a.filetype], a.data)
    else if a.filetype in DocumentTypeMap then
      Document(DocumentTypeMap[a.filetype], DocumentTypeMap[a.filetype] + " from " + sender, a.data)
    else
      Text("Attachment from " + sender + ": " + a.title + " `" + a.filetype + "`")
  }

  function AttachmentBlocks(sender: string, attachments: seq<Attachment>): seq<ContentBlock> {
    if attachments == [] then []
    else AttachmentBlocks(sender, attachments[..|attachments| - 1]) + [AttachmentBlock(sender, attachments[|attachments| - 1])]
  }

  /** The blocks one turn contributes: its attachments, then its text. */
  function TurnBlocks(t: Turn): seq<ContentBlock> {
    AttachmentBlocks(t.sender, t.attachments) + [Text(t.sender + ": " + t.message)]
  }

  function TurnsBlocks(turns: seq<Turn>): seq<ContentBlock> {
    if turns == [] then [] else TurnsBlocks(turns[..|turns| - 1]) + TurnBlocks(turns[|turns| - 1])
  }

  /** Σ (|attachments| + 1) over the turns. */
  function BlockCount(turns: seq<Turn>): nat {
    if turns == [] then 0 else BlockCount(turns[..|turns| - 1]) + |turns[|turns| - 1].attachments| + 1
  }

  /** The message the thread becomes: the header, every turn's blocks in
      order, the footer. */
  function ConverseMessage(turns: seq<Turn>): Message {
    Message(User, [Text(HeaderText)] + TurnsBlocks(turns) + [Text(FooterText)])
  }

  /** `construct_converse_messages`: appends block after block while walking
      the turns and their attachments. */
  method ConstructConverseMessages(turns: seq<Turn>) returns (m: Message)
    ensures m == ConverseMessage(turns)
  {
    var blocks := [Text(HeaderText)];
    for i := 0 to |turns|
      invariant blocks == [Text(HeaderText)] + TurnsBlocks(turns[..i])
    {
      ghost var before := TurnsBlocks(turns[..i]);
      var sender := turns[i].sender;
      blocks := AppendAttachmentBlocks(blocks, sender, turns[i].attachments);
      blocks := blocks + [Text(sender + ": " + turns[i].message)];
      assert turns[..i + 1][..i] == turns[..i];
      calc {
        blocks;
        ([Text(HeaderText)] + before + AttachmentBlocks(sender, turns[i].attachments)) + [Text(sender + ": " + turns[i].message)];
        [Text(HeaderText)] + (before + TurnBlocks(turns[i]));
        [Text(HeaderText)] + TurnsBlocks(turns[..i + 1]);
      }
    }
    assert turns[..|turns|] == turns;
    blocks := blocks + [Text(FooterText)];
    m := Message(User, blocks);
  }

  /** The inner loop of `construct_converse_messages`: one block per
      attachment of a turn, appended in order. */
  method AppendAttachmentBlocks(blocks: seq<ContentBlock>, sender: string, attachments: seq<Attachment>)
    returns (result: seq<ContentBlock>)
    ensures result == blocks + AttachmentBlocks(sender, attachments)
  {
    result := blocks;
    for j := 0 to |attachments|
      invariant result == blocks + AttachmentBlocks(sender, attachments[..j])
    {
      assert attachments[..j + 1][..j] == attachments[..j];
      var filetype := attachments[j].filetype;
      if filetype in ImageTypeMap {
        result := result + [Image(ImageTypeMap[filetype], attachments[j].data)];
      } else if filetype in DocumentTypeMap {
        var documentType := DocumentTypeMap[filetype];
        result := result + [Document(documentType, documentType + " from " + sender, attachments[j].data)];
      } else {
        result := result + [Text("Attachment from " + sender + ": " + attachments[j].title + " `" + filetype + "`")];
      }
    }
    assert attachments[..|attachments|] == attachments;
  }

  lemma {:induction false} AttachmentBlocksLayout(sender: string, attachments: seq<Attachment>)
    ensures |AttachmentBlocks(sender, attachments)| == |attachments|
    ensures forall j :: 0 <= j < |attachments| ==>
      AttachmentBlocks(sender, attachments)[j] == AttachmentBlock(sender, attachments[j])
  {
    if attachments != [] {
      AttachmentBlocksLayout(sender, attachments[..|attachments| - 1]);
    }
  }

  lemma {:induction false} TurnsBlocksCount(turns: seq<Turn>)
    ensures |TurnsBlocks(turns)| == BlockCount(turns)
  {
    if turns != [] {
      var t := turns[|turns| - 1];
      TurnsBlocksCount(turns[..|turns| - 1]);
      AttachmentBlocksLayout(t.sender, t.attachments);
    }
  }

  lemma {:induction false} TurnsBlocksAppend(a: seq<Turn>, b: seq<Turn>)
    ensures TurnsBlocks(a + b) == TurnsBlocks(a) + TurnsBlocks(b)
  {
    if b == [] {
      assert a + b == a;
    } else {
      var c, t := b[..|b| - 1], b[|b| - 1];
      assert (a + b)[..|a + b| - 1] == a + c && (a + b)[|a + b| - 1] == t;
      var x, y, z := TurnsBlocks(a), TurnsBlocks(c), TurnBlocks(t);
      calc {
        TurnsBlocks(a + b);
        TurnsBlocks(a + c) + z;
        { TurnsBlocksAppend(a, c); }
        (x + y) + z;
        x + (y + z);
        x + TurnsBlocks(b);
      }
    }
  }

  /** The built message is a user message framed by the header and the
      footer, with 2 + Σ (|attachments| + 1) blocks. */
  lemma ConverseMessageShape(turns: seq<Turn>)
    ensures var m := ConverseMessage(turns);
      && m.role == User
      && |m.content| == 2 + BlockCount(turns)
      && m.content[0] == Text(HeaderText)
      && m.content[|m.content| - 1] == Text(FooterText)
  {
    TurnsBlocksCount(turns);
  }

  lemma TurnsBlocksSplit(turns: seq<Turn>, i: nat)
    requires i < |turns|
    ensures TurnsBlocks(turns) == TurnsBlocks(turns[..i]) + TurnBlocks(turns[i]) + TurnsBlocks(turns[i + 1..])
    ensures |TurnsBlocks(turns[..i])| == BlockCount(turns[..i])
  {
    var t := turns[i];
    assert turns == (turns[..i] + [t]) + turns[i + 1..];
    TurnsBlocksAppend(turns[..i] + [t], turns[i + 1..]);
    TurnsBlocksAppend(turns[..i], [t]);
    TurnsBlocksCount(turns[..i]);
    assert [t][..0] == [];
  }

  lemma IndexInMiddle<T>(a: seq<T>, b: seq<T>, c: seq<T>, j: nat)
    requires j < |b|
    ensures (a + b + c)[|a| + j] == b[j]
  {
  }

  /** Turn `i` occupies the blocks from 1 + BlockCount(turns[..i]) on: one
      block per attachment, in order, then its text as '<sender>: <message>'. */
  lemma TurnLayout(turns: seq<Turn>, i: nat)
    requires i < |turns|
    ensures var m := ConverseMessage(turns);
      var offset := 1 + BlockCount(turns[..i]);
      var t := turns[i];
      && offset + |t.attachments| < |m.content|
      && (forall j :: 0 <= j < |t.attachments| ==> m.content[offset + j] == AttachmentBlock(t.sender, t.attachments[j]))
      && m.content[offset + |t.attachments|] == Text(t.sender + ": " + t.message)
  {
    var t := turns[i];
    TurnBlockAt(turns, i, |t.attachments|);
    forall j | 0 <= j < |t.attachments|
      ensures ConverseMessage(turns).content[1 + BlockCount(turns[..i]) + j] == AttachmentBlock(t.sender, t.attachments[j])
    {
      TurnBlockAt(turns, i, j);
    }
  }

  /** Block `j` of turn `i` inside the built message. */
  lemma TurnBlockAt(turns: seq<Turn>, i: nat, j: nat)
    requires i < |turns| && j <= |turns[i].attachments|
    ensures |TurnBlocks(turns[i])| == |turns[i].attachments| + 1
    ensures 1 + BlockCount(turns[..i]) + j < |ConverseMessage(turns).content|
    ensures ConverseMessage(turns).content[1 + BlockCount(turns[..i]) + j] == TurnBlocks(turns[i])[j]
    ensures j < |turns[i].attachments| ==> TurnBlocks(turns[i])[j] == AttachmentBlock(turns[i].sender, turns[i].attachments[j])
    ensures j == |turns[i].attachments| ==> TurnBlocks(turns[i])[j] == Text(turns[i].sender + ": " + turns[i].message)
  {
    var t := turns[i];
    ContentAroundTurn(turns, i);
    AttachmentBlocksLayout(t.sender, t.attachments);
    IndexInMiddle([Text(HeaderText)] + TurnsBlocks(turns[..i]), TurnBlocks(t), TurnsBlocks(turns[i + 1..]) + [Text(FooterText)], j);
  }

  lemma ContentAroundTurn(turns: seq<Turn>, i: nat)
    requires i < |turns|
    ensures ConverseMessage(turns).content
         == ([Text(HeaderText)] + TurnsBlocks(turns[..i])) + TurnBlocks(turns[i]) + (TurnsBlocks(turns[i + 1..]) + [Text(FooterText)])
    ensures |[Text(HeaderText)] + TurnsBlocks(turns[..i])| == 1 + BlockCount(turns[..i])
  {
    TurnsBlocksSplit(turns, i);
    var x, y, z := TurnsBlocks(turns[..i]), TurnBlocks(turns[i]), TurnsBlocks(turns[i + 1..]);
    calc {
      [Text(HeaderText)] + (x + y + z) + [Text(FooterText)];
      ([Text(HeaderText)] + x) + y + (z + [Text(FooterText)]);
    }
  }

  /** Attachments are classified by their file type, the image table first;
      the formats sent are ones the completion service accepts for tool
      results too, and the file's bytes are sent unchanged. */
  lemma AttachmentClassification(sender: string, a: Attachment)
    ensures var b := AttachmentBlock(sender, a);
      && (b.Image? <==> a.filetype in ImageTypeMap)
      && (b.Document? <==> a.filetype !in ImageTypeMap && a.filetype in DocumentTypeMap)
      && (b.Image? ==> b.imageFormat == ImageTypeMap[a.filetype] && b.imageFormat in Tools.ImageFormats && b.source == a.data)
      && (b.Document? ==>
            b.documentFormat == DocumentTypeMap[a.filetype]
            && b.documentFormat in Tools.DocumentFormats + ["txt"] && b.source == a.data
            && b.name == b.documentFormat + " from " + sender)
      && (b.Text? ==> b.text == "Attachment from " + sender + ": " + a.title + " `" + a.filetype + "`")
  {
  }

  // ---------------------------------------------------------------------
  // message_contains_document and the model choice
  // ---------------------------------------------------------------------

  /** `any('document' in block for block in blocks)`. */
  function AnyDocument(blocks: seq<ContentBlock>): (r: bool)
    ensures r <==> exists i :: 0 <= i < |blocks| && blocks[i].Document?
  {
    if blocks == [] then false
    else AnyDocument(blocks[..|blocks| - 1]) || blocks[|blocks| - 1].Document?
  }

  /** Some tool result among the blocks holds a document. */
  function AnyToolResultDocument(blocks: seq<ContentBlock>): (r: bool)
    ensures r <==> exists i :: 0 <= i < |blocks| && blocks[i].ToolResult? && AnyDocument(blocks[i].content)
  {
    if blocks == [] then false
    else
      var last := blocks[|blocks| - 1];
      AnyToolResultDocument(blocks[..|blocks| - 1]) || (last.ToolResult? && AnyDocument(last.content))
  }

  /** `message_contains_document`: a document at the top level or inside
      the content of a tool result; deeper nesting is not looked at. */
  function MessageContainsDocument(m: Message): (r: bool)
    ensures r <==>
      || (exists i :: 0 <= i < |m.content| && m.content[i].Document?)
      || (exists i, j :: 0 <= i < |m.content| && m.content[i].ToolResult?
            && 0 <= j < |m.content[i].content| && m.content[i].content[j].Document?)
  {
    AnyDocument(m.content) || AnyToolResultDocument(m.content)
  }

  function AnyMessageContainsDocument(messages: seq<Message>): (r: bool)
    ensures r <==> exists k :: 0 <= k < |messages| && MessageContainsDocument(messages[k])
  {
    if messages == [] then false
    else AnyMessageContainsDocument(messages[..|messages| - 1]) || MessageContainsDocument(messages[|messages| - 1])
  }

  // ---------------------------------------------------------------------
  // get_completion_response
  // ---------------------------------------------------------------------

  datatype ToolChoice = ChooseAny | ChooseAuto

  /** What one Converse call is sent: the model, the conversation, the
      temperature, the tool catalogue (each spec named by its handler) and
      the tool choice. The system prompt, the same on every call, is not
      stored. */
  datatype Request = Request(
    model: Model,
    messages: seq<Message>,
    temperature: real,
    tools: seq<Tools.Handler>,
    toolChoice: ToolChoice)

  /** The request for one round. */
  function BuildRequest(messages: seq<Message>, forceToolUse: bool): Request {
    Request(
      if AnyMessageContainsDocument(messages) then Sonnet3 else Sonnet35,
      messages,
      Temperature,
      Tools.Catalogue,
      if forceToolUse then ChooseAny else ChooseAuto)
  }

  /** A request goes to the older model exactly when a document is anywhere
      in the conversation, carries the conversation unchanged, offers every
      tool of the catalogue in order, and forces tool use exactly when asked
      to. */
  lemma BuildRequestFacts(messages: seq<Message>, forceToolUse: bool)
    ensures var r := BuildRequest(messages, forceToolUse);
      && (r.model == Sonnet3 <==> exists k :: 0 <= k < |messages| && MessageContainsDocument(messages[k]))
      && ModelId(r.model) == (if AnyMessageContainsDocument(messages) then "anthropic.claude-3-sonnet-20240229-v1:0"
                              else "anthropic.claude-3-5-sonnet-20240620-v1:0")
      && r.messages == messages && r.temperature == Temperature
      && |r.tools| == |Tools.ToolSpecs|
      && (forall i :: 0 <= i < |r.tools| ==> Tools.HandlerName(r.tools[i]) == Tools.ToolSpecs[i].name)
      && (r.toolChoice == ChooseAny <==> forceToolUse)
  {
    Tools.CatalogueFollowsSpecs();
  }

  /** What the Converse call came back with: it raised, or its output holds
      a message or (a refusal, say) does not. */
  datatype ConverseOutcome = ConverseRaised(error: string) | ConverseOutput(message: Option<Message>)

  type Converse = Request -> ConverseOutcome

  const FallbackMessage := Message(Assistant, [Text(FallbackText)])

  /** The message handed back for a Converse outcome. */
  function CompletionOf(outcome: ConverseOutcome): Result<Message> {
    match outcome
    case ConverseRaised(e) => Failure(e)
    case ConverseOutput(Some(m)) => Success(m)
    case ConverseOutput(None) => Success(FallbackMessage)
  }

  /** The output message comes back unchanged, and the canned assistant
      reply when there is none; only an exception from the call itself is a
      failure, and it keeps its message. */
  lemma CompletionOfCases(outcome: ConverseOutcome)
    ensures var r := CompletionOf(outcome);
      && (r.Failure? <==> outcome.ConverseRaised?)
      && (r.Failure? ==> r.error == outcome.error)
      && (outcome.ConverseOutput? && outcome.message.Some? ==> r == Success(outcome.message.value))
      && (outcome == ConverseOutput(None) ==>
            r.Success? && r.value.role == Assistant && |r.value.content| == 1 && r.value.content[0] == Text(FallbackText))
  {
  }

  /** `get_completion_response`. */
  function GetCompletionResponse(messages: seq<Message>, forceToolUse: bool, converse: Converse): Result<Message> {
    CompletionOf(converse(BuildRequest(messages, forceToolUse)))
  }
}
