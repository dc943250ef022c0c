/** Chat messages and the few messages the application itself composes. */
module Chat {
  import opened Prelude
  import opened Vocabulary

  datatype Role = System | User | Assistant | Tool

  datatype ToolCall = ToolCall(id: string, name: string, arguments: string)

  datatype ChatMessage = ChatMessage(
    role: Role,
    content: string,
    images: seq<string>,
    files: seq<string>,
    reasoning: Option<string>,
    toolCallId: Option<string>,
    toolCalls: seq<ToolCall>)

  function TextMessage(role: Role, content: string): ChatMessage {
    ChatMessage(role, content, [], [], None, None, [])
  }

  /** What the model reads of an attachment in the text of the prompt. */
  function Shown(a: Attachment): string {
    match a
    case TextAttachment(name, body) => "\n\n[Attached file " + name + "]\n" + body + "\n[End attached file]"
    case ImageAttachment(name, _) => "\n[Attached image " + name + "]"
    case FileAttachment(_, _) => ""
  }

  /** The message a prompt and its attachments become. */
  function UserMessage(text: string, attachments: seq<Attachment>): (m: ChatMessage)
    ensures m.role == User && m.toolCalls == [] && m.toolCallId == None
  {
    if attachments == [] then TextMessage(User, text)
    else
      var m := UserMessage(text, attachments[..|attachments| - 1]);
      var a := attachments[|attachments| - 1];
      m.(content := m.content + Shown(a),
         images := m.images + (if a.ImageAttachment? then [a.image] else []),
         files := m.files + (if a.FileAttachment? then [a.file] else []))
  }

  predicate HasFiles(m: ChatMessage) {
    m.images != [] || m.files != []
  }

  function TrimStart(text: string): string {
    if text != "" && IsWhitespace(text[0]) then TrimStart(text[1..]) else text
  }

  function TrimEnd(text: string): string {
    if text != "" && IsWhitespace(text[|text| - 1]) then TrimEnd(text[..|text| - 1]) else text
  }

  function Trim(text: string): string {
    TrimEnd(TrimStart(text))
  }

  // The notes the application writes for the model are shortened to their headings here.

  const SUMMARY_OPEN := "[APPLICATION-GENERATED CONTEXT SUMMARY]\n"

  const SUMMARY_CLOSE := "\n[END CONTEXT SUMMARY]"

  /** The two messages that stand for a compacted conversation. */
  function CompactedHistory(system: string, summary: string): seq<ChatMessage> {
    [TextMessage(System, system), TextMessage(User, SUMMARY_OPEN + Trim(summary) + SUMMARY_CLOSE)]
  }

  /** The note left in a history whose turn ended before completion. */
  const INTERRUPTED := TextMessage(System, "[INTERRUPTED TURN]")

  function Untrusted(name: string, content: string): string {
    UNTRUSTED_OPEN + name + "]\n" + content + "\n[END]"
  }

  function ToolReply(callId: string, name: string, content: string): ChatMessage {
    TextMessage(Role.Tool, Untrusted(name, content)).(toolCallId := Some(callId))
  }

  function ImageObservation(callId: string, images: seq<string>): ChatMessage {
    TextMessage(User, "[IMAGE OBSERVATION] " + callId).(images := images)
  }

  // ---------- What these messages say ----------

  predicate OccursAt(text: string, part: string, i: int) {
    0 <= i <= |text| - |part| && text[i..i + |part|] == part
  }

  ghost predicate Contains(text: string, part: string) {
    exists i :: OccursAt(text, part, i)
  }

  lemma ContainsInside(before: string, part: string, after: string)
    ensures Contains(before + part + after, part)
  {
    assert OccursAt(before + part + after, part, |before|);
  }

  lemma ContainsMore(before: string, text: string, after: string, part: string)
    requires Contains(text, part)
    ensures Contains(before + text + after, part)
  {
    var i :| OccursAt(text, part, i);
    var all, j := before + text + after, |before| + i;
    assert all[j..j + |part|] == text[i..i + |part|];
    assert OccursAt(all, part, j);
  }

  /** `part` is `text` without the white space around it. */
  ghost predicate IsTrimOf(part: string, text: string) {
    && (part != "" ==> !IsWhitespace(part[0]) && !IsWhitespace(part[|part| - 1]))
    && exists i ::
         && OccursAt(text, part, i)
         && forall k | 0 <= k < |text| && !(i <= k < i + |part|) :: IsWhitespace(text[k])
  }

  lemma {:induction false} TrimStartDrops(text: string) returns (n: nat)
    ensures n <= |text| && TrimStart(text) == text[n..] && forall k | 0 <= k < n :: IsWhitespace(text[k])
    ensures TrimStart(text) != "" ==> !IsWhitespace(TrimStart(text)[0])
    decreases |text|
  {
    n := 0;
    if text != "" && IsWhitespace(text[0]) {
      n := TrimStartDrops(text[1..]);
      assert forall k | 0 < k < n + 1 :: text[k] == text[1..][k - 1];
      n := n + 1;
    }
  }

  lemma {:induction false} TrimEndDrops(text: string) returns (n: nat)
    ensures n <= |text| && TrimEnd(text) == text[..n] && forall k | n <= k < |text| :: IsWhitespace(text[k])
    ensures TrimEnd(text) != "" ==> !IsWhitespace(TrimEnd(text)[n - 1])
  {
    n := |text|;
    if text != "" && IsWhitespace(text[n - 1]) {
      n := TrimEndDrops(text[..n - 1]);
    }
  }

  lemma TrimTells(text: string)
    ensures IsTrimOf(Trim(text), text)
  {
    var i := TrimStartDrops(text);
    var n := TrimEndDrops(text[i..]);
    assert text[i..i + n] == text[i..][..n] == Trim(text);
    assert OccursAt(text, Trim(text), i);
    forall k | 0 <= k < |text| && !(i <= k < i + n)
      ensures IsWhitespace(text[k])
    {
      if i + n <= k {
        assert text[k] == text[i..][k - i];
      }
    }
  }

  /** Two messages that stand for a conversation: its system text, and its summary for the model. */
  ghost predicate StandsFor(messages: seq<ChatMessage>, system: string, summary: string) {
    && |messages| == 2
    && messages[0] == ChatMessage(System, system, [], [], None, None, [])
    && messages[1] == ChatMessage(User, messages[1].content, [], [], None, None, [])
    && exists part :: IsTrimOf(part, summary) && Contains(messages[1].content, part)
  }

  lemma CompactedHistoryTells(system: string, summary: string)
    ensures StandsFor(CompactedHistory(system, summary), system, summary)
  {
    TrimTells(summary);
    ContainsInside(SUMMARY_OPEN, Trim(summary), SUMMARY_CLOSE);
  }

  function ImagesAttached(attachments: seq<Attachment>): seq<string> {
    if attachments == [] then []
    else
      var a := attachments[|attachments| - 1];
      ImagesAttached(attachments[..|attachments| - 1]) + if a.ImageAttachment? then [a.image] else []
  }

  function FilesAttached(attachments: seq<Attachment>): seq<string> {
    if attachments == [] then []
    else
      var a := attachments[|attachments| - 1];
      FilesAttached(attachments[..|attachments| - 1]) + if a.FileAttachment? then [a.file] else []
  }

  /** The message a user sends: the text first, each attached text in it, images and files beside it. */
  ghost predicate SaysPrompt(m: ChatMessage, text: string, attachments: seq<Attachment>) {
    && m == ChatMessage(User, m.content, ImagesAttached(attachments), FilesAttached(attachments), None, None, [])
    && text <= m.content && (attachments == [] ==> m.content == text)
    && forall i | 0 <= i < |attachments| && attachments[i].TextAttachment? :: Contains(m.content, attachments[i].text)
  }

  lemma ShownTells(a: Attachment)
    requires a.TextAttachment?
    ensures Contains(Shown(a), a.text)
  {
    ContainsInside("\n\n[Attached file " + a.quotedName + "]\n", a.text, "\n[End attached file]");
  }

  lemma {:induction false} UserMessageTells(text: string, attachments: seq<Attachment>)
    ensures SaysPrompt(UserMessage(text, attachments), text, attachments)
  {
    if attachments != [] {
      var n := |attachments| - 1;
      var before, m := UserMessage(text, attachments[..n]), UserMessage(text, attachments);
      UserMessageTells(text, attachments[..n]);
      var added := Shown(attachments[n]);
      assert before.content + added + "" == "" + before.content + added == m.content;
      forall i | 0 <= i <= n && attachments[i].TextAttachment?
        ensures Contains(m.content, attachments[i].text)
      {
        if i < n {
          assert attachments[..n][i] == attachments[i];
          ContainsMore("", before.content, added, attachments[i].text);
        } else {
          ShownTells(attachments[n]);
          ContainsMore(before.content, added, "", attachments[i].text);
        }
      }
    }
  }

  const UNTRUSTED_OPEN := "[UNTRUSTED TOOL RESULT: "

  /** A tool's reply: marked as untrusted under the tool's name, with the output in it. */
  ghost predicate SaysOutput(m: ChatMessage, id: string, name: string, output: string) {
    && m == ChatMessage(Role.Tool, m.content, [], [], None, Some(id), [])
    && UNTRUSTED_OPEN + name + "]\n" <= m.content && Contains(m.content, output)
  }

  /** An image shown to the model, with the call that produced it. */
  ghost predicate ShowsImages(m: ChatMessage, id: string, images: seq<string>) {
    m == ChatMessage(User, m.content, images, [], None, None, []) && Contains(m.content, id)
  }

  lemma UntrustedTells(name: string, output: string)
    ensures UNTRUSTED_OPEN + name + "]\n" <= Untrusted(name, output) && Contains(Untrusted(name, output), output)
  {
    ContainsInside(UNTRUSTED_OPEN + name + "]\n", output, "\n[END]");
  }

  lemma ToolReplyTells(id: string, name: string, output: string)
    ensures SaysOutput(ToolReply(id, name, output), id, name, output)
  {
    UntrustedTells(name, output);
  }

  lemma ImageObservationTells(id: string, images: seq<string>)
    ensures ShowsImages(ImageObservation(id, images), id, images)
  {
    ContainsInside("[IMAGE OBSERVATION] ", id, "");
    assert "[IMAGE OBSERVATION] " + id + "" == "[IMAGE OBSERVATION] " + id;
  }
}
