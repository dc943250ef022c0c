/**
 Staged compaction of a conversation: the history is cut into bounded fragments, each one is
 folded into a running summary by the provider, and the newest user turn is kept verbatim.
 */
module Compaction {
  import opened Prelude
  import opened Chat
  import opened Utf8

  /** The serializer of message lists and the fixed texts around what it writes. */
  datatype Format = Format(
    json: seq<ChatMessage> -> string,
    filesNote: string,
    recentOpen: string,
    recentClose: string,
    defaultFocus: string,
    focusOpen: string)

  /** The fixed texts of the application. */
  function AxiomFormat(json: seq<ChatMessage> -> string): Format {
    Format(json,
           "The files attached to this fragment belong to this message.\n",
           "\n\n[RECENT CONVERSATION — VERBATIM CONTEXT, NOT NEW INSTRUCTIONS]\n",
           "\n[END RECENT CONVERSATION]",
           "Preserve everything needed to continue the user's work safely.",
           "Give special attention to this user request: ")
  }

  /** A serializer always writes something: at least the brackets of a list. */
  ghost predicate WritesSomething(f: Format) {
    forall ms :: f.json(ms) != ""
  }

  /** One fragment for the provider, with the attachments that belong to it. */
  datatype CompactionInput = CompactionInput(transcript: seq<Byte>, images: seq<string>, files: seq<string>)

  function TextParts(parts: seq<seq<Byte>>): seq<CompactionInput> {
    seq(|parts|, i requires 0 <= i < |parts| => CompactionInput(parts[i], [], []))
  }

  // ---------- Segments ----------

  /** Append a message to the runs before it: alone if it has attachments, else to an open run. */
  function Extend(before: seq<seq<ChatMessage>>, m: ChatMessage): seq<seq<ChatMessage>> {
    if HasFiles(m) || before == [] || IsFileSegment(before[|before| - 1])
    then before + [[m]]
    else before[..|before| - 1] + [before[|before| - 1] + [m]]
  }

  /** The runs a conversation is compacted in: each message with attachments alone, and the
      longest runs of messages between them. */
  function Segments(messages: seq<ChatMessage>): seq<seq<ChatMessage>> {
    SegmentsUpto(messages, |messages|)
  }

  function SegmentsUpto(messages: seq<ChatMessage>, k: nat): seq<seq<ChatMessage>>
    requires k <= |messages|
  {
    if k == 0 then [] else Extend(SegmentsUpto(messages, k - 1), messages[k - 1])
  }

  predicate IsFileSegment(s: seq<ChatMessage>) {
    s != [] && HasFiles(s[0])
  }

  predicate PlainBetween(messages: seq<ChatMessage>, start: nat, end: nat)
    requires end <= |messages|
  {
    forall i | start <= i < end :: !HasFiles(messages[i])
  }

  predicate IsPlain(messages: seq<ChatMessage>) {
    forall i | 0 <= i < |messages| :: !HasFiles(messages[i])
  }

  function Joined(segments: seq<seq<ChatMessage>>): seq<ChatMessage> {
    if segments == [] then [] else Joined(segments[..|segments| - 1]) + segments[|segments| - 1]
  }

  /** A segment is one message with attachments, or a run without any. */
  predicate IsSegment(s: seq<ChatMessage>) {
    s != [] && if HasFiles(s[0]) then |s| == 1 else IsPlain(s)
  }

  lemma ExtendJoins(before: seq<seq<ChatMessage>>, m: ChatMessage)
    ensures Joined(Extend(before, m)) == Joined(before) + [m]
  {
    var n := |before| - 1;
    if Extend(before, m) == before + [[m]] {
      assert (before + [[m]])[..|before|] == before;
    } else {
      assert (before[..n] + [before[n] + [m]])[..n] == before[..n];
      assert Joined(before[..n]) + (before[n] + [m]) == Joined(before) + [m];
    }
  }

  lemma ExtendKeepsSegments(before: seq<seq<ChatMessage>>, m: ChatMessage)
    requires forall s | s in before :: IsSegment(s)
    ensures forall s | s in Extend(before, m) :: IsSegment(s)
  {
    assert IsSegment([m]);
    if before != [] {
      var last := before[|before| - 1];
      assert last in before;
      if !HasFiles(m) && !IsFileSegment(last) {
        assert IsSegment(last + [m]);
      }
    }
  }

  lemma PrefixGrows(messages: seq<ChatMessage>, k: nat)
    requires k < |messages|
    ensures messages[..k + 1] == messages[..k] + [messages[k]]
  {
  }

  lemma {:induction false} PrefixJoined(messages: seq<ChatMessage>, k: nat)
    requires k <= |messages|
    ensures Joined(SegmentsUpto(messages, k)) == messages[..k]
  {
    if k > 0 {
      PrefixJoined(messages, k - 1);
      ExtendJoins(SegmentsUpto(messages, k - 1), messages[k - 1]);
      PrefixGrows(messages, k - 1);
    }
  }

  lemma {:induction false} PrefixSegments(messages: seq<ChatMessage>, k: nat)
    requires k <= |messages|
    ensures forall s | s in SegmentsUpto(messages, k) :: IsSegment(s)
  {
    if k > 0 {
      PrefixSegments(messages, k - 1);
      ExtendKeepsSegments(SegmentsUpto(messages, k - 1), messages[k - 1]);
    }
  }

  /** Every message lands in exactly one segment, in order. */
  lemma SegmentsPartition(messages: seq<ChatMessage>)
    ensures Joined(Segments(messages)) == messages
    ensures forall s | s in Segments(messages) :: IsSegment(s)
  {
    PrefixJoined(messages, |messages|);
    PrefixSegments(messages, |messages|);
    assert messages[..|messages|] == messages;
  }

  /** After a message with attachments, or at the start, a new run opens. */
  predicate RunMayOpen(messages: seq<ChatMessage>, start: nat)
    requires start <= |messages|
  {
    start == 0 || HasFiles(messages[start - 1])
  }

  lemma LastIsFile(before: seq<seq<ChatMessage>>, m: ChatMessage)
    requires HasFiles(m)
    ensures Extend(before, m) == before + [[m]]
    ensures IsFileSegment(Extend(before, m)[|Extend(before, m)| - 1])
  {
  }

  lemma RunOpens(messages: seq<ChatMessage>, start: nat)
    requires start < |messages| && RunMayOpen(messages, start)
    ensures SegmentsUpto(messages, start + 1) == SegmentsUpto(messages, start) + [[messages[start]]]
  {
    if start > 0 {
      LastIsFile(SegmentsUpto(messages, start - 1), messages[start - 1]);
    }
  }

  lemma RunGrows(u: seq<seq<ChatMessage>>, run: seq<ChatMessage>, m: ChatMessage, before: seq<seq<ChatMessage>>,
                 longer: seq<ChatMessage>)
    requires before == u + [run] && run != [] && !HasFiles(run[0]) && !HasFiles(m) && longer == run + [m]
    ensures Extend(before, m) == u + [longer]
  {
  }

  lemma RunSlices(messages: seq<ChatMessage>, start: nat, end: nat)
    requires start < end < |messages|
    ensures messages[start..end + 1] == messages[start..end] + [messages[end]]
    ensures messages[start..end][0] == messages[start]
  {
  }

  /** A run without attachments is one segment. */
  lemma {:induction false} RunIsSegment(messages: seq<ChatMessage>, start: nat, end: nat)
    requires start < end <= |messages| && RunMayOpen(messages, start) && PlainBetween(messages, start, end)
    ensures SegmentsUpto(messages, end) == SegmentsUpto(messages, start) + [messages[start..end]]
    decreases end
  {
    if start + 1 < end {
      RunIsSegment(messages, start, end - 1);
      RunSlices(messages, start, end - 1);
      RunGrows(SegmentsUpto(messages, start), messages[start..end - 1], messages[end - 1],
               SegmentsUpto(messages, end - 1), messages[start..end]);
    } else {
      RunOpens(messages, start);
      assert messages[start..end] == [messages[start]];
    }
  }

  // ---------- Inputs ----------

  function Stripped(m: ChatMessage): ChatMessage {
    m.(images := [], files := [])
  }

  /** The text a segment serializes to; attachments travel beside it, never in it. */
  function SegmentText(f: Format, s: seq<ChatMessage>): string {
    if IsFileSegment(s) then f.json([Stripped(s[0])]) else f.json(s)
  }

  function WithFiles(note: seq<Byte>, parts: seq<seq<Byte>>, images: seq<string>, files: seq<string>)
    : seq<CompactionInput>
  {
    if parts == [] then [] else [CompactionInput(note + parts[0], images, files)] + TextParts(parts[1..])
  }

  function SegmentInputs(f: Format, s: seq<ChatMessage>, maxBytes: nat): seq<CompactionInput> {
    var parts := Fragments(Encode(SegmentText(f, s)), Max(maxBytes, 4));
    if IsFileSegment(s) then WithFiles(Encode(f.filesNote), parts, s[0].images, s[0].files) else TextParts(parts)
  }

  function AllInputs(f: Format, segments: seq<seq<ChatMessage>>, maxBytes: nat): seq<CompactionInput> {
    if segments == [] then []
    else AllInputs(f, segments[..|segments| - 1], maxBytes)
         + SegmentInputs(f, segments[|segments| - 1], maxBytes)
  }

  /** The inputs of a conversation; an empty one still has its (empty) serialization. */
  function InputsOf(f: Format, messages: seq<ChatMessage>, maxBytes: nat): seq<CompactionInput> {
    if messages == [] then RunInputs(f, [], maxBytes)
    else AllInputs(f, Segments(messages), maxBytes)
  }

  lemma AllInputsExtends(f: Format, segments: seq<seq<ChatMessage>>, s: seq<ChatMessage>, maxBytes: nat)
    ensures AllInputs(f, segments + [s], maxBytes)
            == AllInputs(f, segments, maxBytes) + SegmentInputs(f, s, maxBytes)
  {
    assert (segments + [s])[..|segments|] == segments;
  }

  /** The inputs of the first `k` messages. */
  function Upto(f: Format, messages: seq<ChatMessage>, k: nat, maxBytes: nat): seq<CompactionInput>
    requires k <= |messages|
  {
    AllInputs(f, SegmentsUpto(messages, k), maxBytes)
  }

  function RunInputs(f: Format, run: seq<ChatMessage>, maxBytes: nat): seq<CompactionInput> {
    TextParts(Fragments(Encode(f.json(run)), Max(maxBytes, 4)))
  }

  lemma RunAppends(f: Format, messages: seq<ChatMessage>, start: nat, end: nat, maxBytes: nat)
    requires start < end <= |messages| && RunMayOpen(messages, start) && PlainBetween(messages, start, end)
    ensures Upto(f, messages, end, maxBytes)
            == Upto(f, messages, start, maxBytes) + RunInputs(f, messages[start..end], maxBytes)
  {
    RunIsSegment(messages, start, end);
    AllInputsExtends(f, SegmentsUpto(messages, start), messages[start..end], maxBytes);
    assert messages[start..end][0] == messages[start];
  }

  lemma FileAppends(f: Format, messages: seq<ChatMessage>, k: nat, maxBytes: nat)
    requires k < |messages| && HasFiles(messages[k])
    ensures Upto(f, messages, k + 1, maxBytes)
            == Upto(f, messages, k, maxBytes) + SegmentInputs(f, [messages[k]], maxBytes)
  {
    LastIsFile(SegmentsUpto(messages, k), messages[k]);
    AllInputsExtends(f, SegmentsUpto(messages, k), [messages[k]], maxBytes);
  }

  /** The fragments of one message with attachments. */
  method FileInputs(f: Format, message: ChatMessage, maxBytes: nat) returns (result: seq<CompactionInput>)
    requires HasFiles(message)
    ensures result == SegmentInputs(f, [message], maxBytes)
  {
    result := [];
    var parts := CompactionTranscripts(f.json([message.(images := [], files := [])]), maxBytes);
    if parts != [] {
      result := [CompactionInput(Encode(f.filesNote) + parts[0], message.images, message.files)];
      result := result + TextParts(parts[1..]);
    }
  }

  /** The fragments of one run without attachments. */
  method TextInputs(f: Format, run: seq<ChatMessage>, maxBytes: nat) returns (result: seq<CompactionInput>)
    ensures result == RunInputs(f, run, maxBytes)
  {
    var parts := CompactionTranscripts(f.json(run), maxBytes);
    result := TextParts(parts);
  }

  /** Append the inputs of the run from `start` and of the message with attachments that ends it. */
  method InputsThrough(f: Format, messages: seq<ChatMessage>, start: nat, index: nat, maxBytes: nat,
                       before: seq<CompactionInput>)
    returns (result: seq<CompactionInput>)
    requires start <= index < |messages| && HasFiles(messages[index])
    requires RunMayOpen(messages, start) && PlainBetween(messages, start, index)
    requires before == Upto(f, messages, start, maxBytes)
    ensures result == Upto(f, messages, index + 1, maxBytes)
  {
    result := before;
    if start < index {
      var parts := TextInputs(f, messages[start..index], maxBytes);
      RunAppends(f, messages, start, index, maxBytes);
      result := result + parts;
    }
    FileAppends(f, messages, index, maxBytes);
    var parts := FileInputs(f, messages[index], maxBytes);
    result := result + parts;
  }

  lemma UptoNone(f: Format, messages: seq<ChatMessage>, maxBytes: nat)
    ensures Upto(f, messages, 0, maxBytes) == []
  {
  }

  lemma UptoAll(f: Format, messages: seq<ChatMessage>, maxBytes: nat)
    requires messages != []
    ensures Upto(f, messages, |messages|, maxBytes) == InputsOf(f, messages, maxBytes)
  {
  }

  /** The inputs of what is left after the last message with attachments. */
  method InputsToEnd(f: Format, messages: seq<ChatMessage>, start: nat, maxBytes: nat, before: seq<CompactionInput>)
    returns (result: seq<CompactionInput>)
    requires start <= |messages| && RunMayOpen(messages, start) && PlainBetween(messages, start, |messages|)
    requires before == Upto(f, messages, start, maxBytes) && WritesSomething(f)
    ensures result == InputsOf(f, messages, maxBytes)
  {
    result := before;
    if start == |messages| > 0 {
      UptoAll(f, messages, maxBytes);
      SomethingToSummarize(f, messages, maxBytes);
    }
    if start < |messages| || before == [] {
      var parts := TextInputs(f, messages[start..], maxBytes);
      if start < |messages| {
        assert messages[start..] == messages[start..|messages|];
        RunAppends(f, messages, start, |messages|, maxBytes);
        UptoAll(f, messages, maxBytes);
      }
      result := result + parts;
    }
  }

  /** The inputs up to the last message with attachments, and where the rest starts. */
  method InputsToLastFile(f: Format, messages: seq<ChatMessage>, maxBytes: nat)
    returns (start: nat, result: seq<CompactionInput>)
    ensures start <= |messages| && RunMayOpen(messages, start) && PlainBetween(messages, start, |messages|)
    ensures result == Upto(f, messages, start, maxBytes)
  {
    result := [];
    UptoNone(f, messages, maxBytes);
    start := 0;
    for index := 0 to |messages|
      invariant start <= index && RunMayOpen(messages, start) && PlainBetween(messages, start, index)
      invariant result == Upto(f, messages, start, maxBytes)
    {
      if HasFiles(messages[index]) {
        result := InputsThrough(f, messages, start, index, maxBytes, result);
        start := index + 1;
      }
    }
  }

  /** Cut a conversation into provider inputs, one segment after another. */
  method CompactionInputs(f: Format, messages: seq<ChatMessage>, maxBytes: nat)
    returns (result: seq<CompactionInput>)
    requires WritesSomething(f)
    ensures result == InputsOf(f, messages, maxBytes)
  {
    var start, before := InputsToLastFile(f, messages, maxBytes);
    result := InputsToEnd(f, messages, start, maxBytes, before);
  }

  lemma EncodesSomething(text: string)
    requires text != ""
    ensures Encode(text) != []
  {
    assert |EncodeChar(text[0])| > 0;
  }

  lemma FragmentsOfSomething(text: string, limit: nat)
    requires text != ""
    ensures Fragments(Encode(text), limit) != []
  {
    EncodesSomething(text);
  }

  lemma SomethingToSummarize(f: Format, messages: seq<ChatMessage>, maxBytes: nat)
    requires messages != [] && WritesSomething(f)
    ensures AllInputs(f, Segments(messages), maxBytes) != []
  {
    var segments := Segments(messages);
    var last := segments[|segments| - 1];
    FragmentsOfSomething(SegmentText(f, last), Max(maxBytes, 4));
  }

  // ---------- What the inputs carry ----------

  /** What each element contributes, in order. */
  function Collected<S, T>(part: S -> seq<T>, xs: seq<S>): seq<T> {
    if xs == [] then [] else Collected(part, xs[..|xs| - 1]) + part(xs[|xs| - 1])
  }

  function ImagesIn(m: ChatMessage): seq<string> {
    m.images
  }

  function FilesIn(m: ChatMessage): seq<string> {
    m.files
  }

  function ImagesBeside(input: CompactionInput): seq<string> {
    input.images
  }

  function FilesBeside(input: CompactionInput): seq<string> {
    input.files
  }

  function ImagesOf(messages: seq<ChatMessage>): seq<string> {
    Collected(ImagesIn, messages)
  }

  function FilesOf(messages: seq<ChatMessage>): seq<string> {
    Collected(FilesIn, messages)
  }

  function InputImages(inputs: seq<CompactionInput>): seq<string> {
    Collected(ImagesBeside, inputs)
  }

  function InputFiles(inputs: seq<CompactionInput>): seq<string> {
    Collected(FilesBeside, inputs)
  }

  /** All the transcript bytes sent for one segment. */
  function InputBytes(inputs: seq<CompactionInput>): seq<Byte> {
    if inputs == [] then [] else inputs[0].transcript + InputBytes(inputs[1..])
  }

  lemma FrontOfSum<T>(a: seq<T>, b: seq<T>)
    requires b != []
    ensures (a + b)[..|a + b| - 1] == a + b[..|b| - 1] && (a + b)[|a + b| - 1] == b[|b| - 1]
  {
  }

  lemma {:induction false} CollectedConcat<S, T>(part: S -> seq<T>, a: seq<S>, b: seq<S>)
    ensures Collected(part, a + b) == Collected(part, a) + Collected(part, b)
  {
    if b == [] {
      assert a + b == a;
    } else {
      FrontOfSum(a, b);
      CollectedConcat(part, a, b[..|b| - 1]);
    }
  }

  lemma CollectedOne<S, T>(part: S -> seq<T>, x: S)
    ensures Collected(part, [x]) == part(x)
  {
    assert Collected(part, [x]) == Collected(part, []) + part(x);
  }

  lemma ImagesConcat(a: seq<ChatMessage>, b: seq<ChatMessage>)
    ensures ImagesOf(a + b) == ImagesOf(a) + ImagesOf(b) && FilesOf(a + b) == FilesOf(a) + FilesOf(b)
  {
    CollectedConcat(ImagesIn, a, b);
    CollectedConcat(FilesIn, a, b);
  }

  lemma InputImagesConcat(a: seq<CompactionInput>, b: seq<CompactionInput>)
    ensures InputImages(a + b) == InputImages(a) + InputImages(b)
    ensures InputFiles(a + b) == InputFiles(a) + InputFiles(b)
  {
    CollectedConcat(ImagesBeside, a, b);
    CollectedConcat(FilesBeside, a, b);
  }

  lemma {:induction false} TextPartsCarryNone(parts: seq<seq<Byte>>)
    ensures InputImages(TextParts(parts)) == [] && InputFiles(TextParts(parts)) == []
  {
    if parts != [] {
      TextPartsCarryNone(parts[..|parts| - 1]);
      assert TextParts(parts)[..|parts| - 1] == TextParts(parts[..|parts| - 1]);
    }
  }

  lemma {:induction false} TextPartsBytes(parts: seq<seq<Byte>>)
    ensures InputBytes(TextParts(parts)) == Flatten(parts)
  {
    if parts != [] {
      TextPartsBytes(parts[1..]);
      assert TextParts(parts)[1..] == TextParts(parts[1..]);
    }
  }

  lemma {:induction false} PlainCarriesNone(messages: seq<ChatMessage>)
    requires IsPlain(messages)
    ensures ImagesOf(messages) == [] && FilesOf(messages) == []
  {
    if messages != [] {
      PlainCarriesNone(messages[..|messages| - 1]);
    }
  }

  lemma OneInput(x: CompactionInput, rest: seq<CompactionInput>)
    ensures InputBytes([x] + rest) == x.transcript + InputBytes(rest)
    ensures InputImages([x]) == x.images && InputFiles([x]) == x.files
  {
    assert ([x] + rest)[1..] == rest;
    CollectedOne(ImagesBeside, x);
    CollectedOne(FilesBeside, x);
  }

  lemma FlattenAfter(note: seq<Byte>, parts: seq<seq<Byte>>)
    requires parts != []
    ensures (note + parts[0]) + Flatten(parts[1..]) == note + Flatten(parts)
  {
  }

  lemma WithFilesBytes(note: seq<Byte>, parts: seq<seq<Byte>>, images: seq<string>, files: seq<string>)
    requires parts != []
    ensures InputBytes(WithFiles(note, parts, images, files)) == note + Flatten(parts)
  {
    OneInput(CompactionInput(note + parts[0], images, files), TextParts(parts[1..]));
    TextPartsBytes(parts[1..]);
    FlattenAfter(note, parts);
  }

  lemma WithFilesCarries(note: seq<Byte>, parts: seq<seq<Byte>>, images: seq<string>, files: seq<string>)
    requires parts != []
    ensures InputImages(WithFiles(note, parts, images, files)) == images
    ensures InputFiles(WithFiles(note, parts, images, files)) == files
  {
    var first := CompactionInput(note + parts[0], images, files);
    TextPartsCarryNone(parts[1..]);
    InputImagesConcat([first], TextParts(parts[1..]));
    OneInput(first, TextParts(parts[1..]));
  }

  /** What comes before the serialization of a segment in its fragments. */
  function NoteFor(f: Format, s: seq<ChatMessage>): seq<Byte> {
    if IsFileSegment(s) then Encode(f.filesNote) else []
  }

  /** The fragments of one segment, in order, are its serialization, after the note that
      attachments belong to it. */
  lemma SegmentIsLossless(f: Format, s: seq<ChatMessage>, maxBytes: nat)
    requires SegmentText(f, s) != ""
    ensures InputBytes(SegmentInputs(f, s, maxBytes)) == NoteFor(f, s) + Encode(SegmentText(f, s))
  {
    var text, limit := SegmentText(f, s), Max(maxBytes, 4);
    var parts := Fragments(Encode(text), limit);
    FragmentsCutText(text, limit);
    FragmentsOfSomething(text, limit);
    if IsFileSegment(s) {
      WithFilesBytes(NoteFor(f, s), parts, s[0].images, s[0].files);
    } else {
      TextPartsBytes(parts);
    }
  }

  lemma OneMessage(m: ChatMessage)
    ensures ImagesOf([m]) == m.images && FilesOf([m]) == m.files
  {
    CollectedOne(ImagesIn, m);
    CollectedOne(FilesIn, m);
  }

  /** The attachments of one segment ride along in order. */
  lemma SegmentCarries(f: Format, s: seq<ChatMessage>, maxBytes: nat)
    requires IsSegment(s) && SegmentText(f, s) != ""
    ensures InputImages(SegmentInputs(f, s, maxBytes)) == ImagesOf(s)
    ensures InputFiles(SegmentInputs(f, s, maxBytes)) == FilesOf(s)
  {
    var parts := Fragments(Encode(SegmentText(f, s)), Max(maxBytes, 4));
    if IsFileSegment(s) {
      assert s == [s[0]];
      OneMessage(s[0]);
      assert parts != [] by {
        FragmentsOfSomething(SegmentText(f, s), Max(maxBytes, 4));
      }
      WithFilesCarries(Encode(f.filesNote), parts, s[0].images, s[0].files);
    } else {
      TextPartsCarryNone(parts);
      PlainCarriesNone(s);
    }
  }

  lemma InputsFit(note: seq<Byte>, parts: seq<seq<Byte>>, images: seq<string>, files: seq<string>, limit: nat)
    requires forall p | p in parts :: |p| <= limit
    ensures forall input | input in TextParts(parts) :: |input.transcript| <= limit
    ensures forall input | input in WithFiles(note, parts, images, files) ::
              |input.transcript| <= limit + |note|
  {
  }

  predicate AllFit(inputs: seq<CompactionInput>, limit: nat) {
    forall i | 0 <= i < |inputs| :: |inputs[i].transcript| <= limit
  }

  lemma SegmentFits(f: Format, s: seq<ChatMessage>, maxBytes: nat, limit: nat)
    requires limit == Max(maxBytes, 4) + ByteLength(f.filesNote)
    ensures AllFit(SegmentInputs(f, s, maxBytes), limit)
  {
    var text := SegmentText(f, s);
    var parts := Fragments(Encode(text), Max(maxBytes, 4));
    FragmentsCutText(text, Max(maxBytes, 4));
    var images, files := if s == [] then [] else s[0].images, if s == [] then [] else s[0].files;
    InputsFit(Encode(f.filesNote), parts, images, files, Max(maxBytes, 4));
  }

  lemma {:induction false} AllInputsFit(f: Format, segments: seq<seq<ChatMessage>>, maxBytes: nat, limit: nat)
    requires limit == Max(maxBytes, 4) + ByteLength(f.filesNote)
    ensures AllFit(AllInputs(f, segments, maxBytes), limit)
  {
    if segments != [] {
      AllInputsFit(f, segments[..|segments| - 1], maxBytes, limit);
      SegmentFits(f, segments[|segments| - 1], maxBytes, limit);
    }
  }

  lemma {:induction false} InputsCarryAttachments(f: Format, segments: seq<seq<ChatMessage>>, maxBytes: nat)
    requires forall s | s in segments :: IsSegment(s)
    requires WritesSomething(f)
    ensures InputImages(AllInputs(f, segments, maxBytes)) == ImagesOf(Joined(segments))
    ensures InputFiles(AllInputs(f, segments, maxBytes)) == FilesOf(Joined(segments))
  {
    if segments != [] {
      var n := |segments| - 1;
      InputsCarryAttachments(f, segments[..n], maxBytes);
      SegmentCarries(f, segments[n], maxBytes);
      InputImagesConcat(AllInputs(f, segments[..n], maxBytes), SegmentInputs(f, segments[n], maxBytes));
      ImagesConcat(Joined(segments[..n]), segments[n]);
    }
  }

  // ---------- The recent tail ----------

  /** The last user message, if there is one. */
  function LastUser(messages: seq<ChatMessage>): (r: Option<nat>)
    ensures r.Some? ==> r.value < |messages| && messages[r.value].role == User
                        && forall i | r.value < i < |messages| :: messages[i].role != User
    ensures r.None? ==> forall i | 0 <= i < |messages| :: messages[i].role != User
  {
    if messages == [] then None
    else if messages[|messages| - 1].role == User then Some(|messages| - 1)
    else LastUser(messages[..|messages| - 1])
  }

  /** Where the verbatim tail starts: the newest user turn when it fits and carries no files. */
  function RecentCompactionStart(f: Format, messages: seq<ChatMessage>, maxBytes: nat): (start: nat)
    ensures start <= |messages| && (messages != [] ==> 0 < start)
    ensures start < |messages| ==>
              && messages[start].role == User
              && ByteLength(f.json(messages[start..])) <= maxBytes
              && IsPlain(messages[start..])
              && forall i | start < i < |messages| :: messages[i].role != User
    ensures forall i | 0 < i < |messages| && messages[i].role == User && start == |messages| ::
              || (exists j :: i < j < |messages| && messages[j].role == User)
              || !IsPlain(messages[i..])
              || ByteLength(f.json(messages[i..])) > maxBytes
  {
    var last := LastUser(messages);
    if last.Some? && 0 < last.value
       && IsPlain(messages[last.value..])
       && ByteLength(f.json(messages[last.value..])) <= maxBytes
    then last.value
    else |messages|
  }

  // ---------- Budgets ----------

  const USIZE_MAX: nat := 0xFFFF_FFFF_FFFF_FFFF
  const BYTES_PER_TOKEN: nat := 3

  function SaturatingMul(a: nat, b: nat): nat {
    Min(a * b, USIZE_MAX)
  }

  function CompactionTranscriptBudget(maxContextBytes: nat, maxContextTokens: nat, threshold: nat): nat {
    var modelBudget := if threshold == 0 then USIZE_MAX else SaturatingMul(threshold, BYTES_PER_TOKEN);
    SaturatingMul(Min(Min(maxContextBytes, SaturatingMul(maxContextTokens, 4)), modelBudget), 3) / 4
  }

  /** The budget is at most three quarters of every limit, saturation included. */
  lemma BudgetFitsLimits(maxContextBytes: nat, maxContextTokens: nat, threshold: nat)
    ensures var budget := CompactionTranscriptBudget(maxContextBytes, maxContextTokens, threshold);
            && 4 * budget <= 3 * maxContextBytes
            && budget <= 3 * maxContextTokens
            && (threshold != 0 ==> 4 * budget <= 9 * threshold)
  {
  }

  /** And it is no less, while nothing saturates. */
  lemma BudgetIsThreeQuarters(maxContextBytes: nat, maxContextTokens: nat, threshold: nat)
    requires maxContextBytes <= USIZE_MAX / 3 && maxContextTokens <= USIZE_MAX / 4 && threshold <= USIZE_MAX / 9
    ensures var smallest := if threshold == 0 then Min(maxContextBytes, 4 * maxContextTokens)
                            else Min(Min(maxContextBytes, 4 * maxContextTokens), 3 * threshold);
            var budget := CompactionTranscriptBudget(maxContextBytes, maxContextTokens, threshold);
            4 * budget <= 3 * smallest < 4 * budget + 4
  {
  }

  // ---------- The whole compaction ----------

  /** What the provider does with one summarizing request. */
  datatype Reply = CancelledReply | FailedReply(error: Error) | SummaryReply(text: string)

  /** The variable parts of a summarizing request. */
  datatype SummaryRequest = SummaryRequest(
    focus: string,
    previous: string,
    input: CompactionInput,
    index: nat,
    total: nat)

  function FocusText(f: Format, focus: Option<string>): string {
    if focus.Some? && !IsBlank(focus.value) then f.focusOpen + focus.value else f.defaultFocus
  }

  function SummaryLimit(budget: nat): nat {
    Max(256, Min(budget / 4, 32 * 1024))
  }

  function ReplyAt(replies: seq<Reply>, i: nat): Reply {
    if i < |replies| then replies[i] else FailedReply(Provider)
  }

  function RequestBytes(q: SummaryRequest): nat {
    ByteLength(q.focus) + ByteLength(q.previous) + |q.input.transcript|
  }

  /** The verbatim tail as it is appended to the summary. */
  function RecentSuffix(f: Format, recent: seq<ChatMessage>): string {
    if recent == [] then "" else f.recentOpen + f.json(recent) + f.recentClose
  }

  /** What one compaction depends on, computed as the method computes it. */
  datatype Plan = Plan(
    system: string,
    older: seq<ChatMessage>,
    recent: seq<ChatMessage>,
    inputs: seq<CompactionInput>,
    budget: nat,
    summaryLimit: nat)

  function PlanAt(history: seq<ChatMessage>, budget: nat, start: nat, inputs: seq<CompactionInput>): Plan
    requires history != [] && start < |history|
  {
    Plan(history[0].content, history[1..][..start], history[1..][start..], inputs, budget, SummaryLimit(budget))
  }

  function TailStart(f: Format, history: seq<ChatMessage>, budget: nat): (start: nat)
    requires history != []
    ensures start < |history|
  {
    RecentCompactionStart(f, history[1..], Min(budget / 8, 16 * 1024))
  }

  function PlanFor(f: Format, history: seq<ChatMessage>, transcriptBudget: nat): Plan
    requires history != []
  {
    var budget := Max(transcriptBudget, 1024);
    var start := TailStart(f, history, budget);
    PlanAt(history, budget, start, InputsOf(f, history[1..][..start], budget / 2))
  }

  /** Request `i` carries the focus, the previous summary, and input `i`. */
  predicate AsksInOrder(requests: seq<SummaryRequest>, replies: seq<Reply>, inputs: seq<CompactionInput>, focus: string)
  {
    && |requests| <= |inputs|
    && |requests| <= |replies| + 1
    && (forall i | 0 <= i < |requests| - 1 :: replies[i].SummaryReply?)
    && (forall i | 0 <= i < |requests| ::
          requests[i] == SummaryRequest(focus, SummaryBefore(replies, i), inputs[i], i, |inputs|))
  }

  function SummaryBefore(replies: seq<Reply>, i: nat): string {
    if 0 < i <= |replies| && replies[i - 1].SummaryReply? then replies[i - 1].text else ""
  }

  predicate RequestsFit(requests: seq<SummaryRequest>, limit: nat) {
    forall i | 0 <= i < |requests| :: RequestBytes(requests[i]) <= limit
  }

  lemma OneMoreRequest(requests: seq<SummaryRequest>, replies: seq<Reply>, inputs: seq<CompactionInput>, focus: string,
                       limit: nat, q: SummaryRequest)
    requires AsksInOrder(requests, replies, inputs, focus) && RequestsFit(requests, limit) && RequestBytes(q) <= limit
    requires |requests| < |inputs| && |requests| <= |replies|
    requires requests != [] ==> replies[|requests| - 1].SummaryReply?
    requires q == SummaryRequest(focus, SummaryBefore(replies, |requests|), inputs[|requests|], |requests|, |inputs|)
    ensures AsksInOrder(requests + [q], replies, inputs, focus) && RequestsFit(requests + [q], limit)
  {
  }

  /** The first `n` replies are summaries that may succeed one another. */
  predicate GoodReplies(replies: seq<Reply>, n: nat, summaryLimit: nat) {
    && n <= |replies|
    && forall i | 0 <= i < n ::
         replies[i].SummaryReply? && !IsBlank(replies[i].text) && ByteLength(replies[i].text) <= summaryLimit
  }

  /** The stages: fold each input into the summary, or stop. It succeeds exactly when every stage
      gets a summary that is not blank and fits. */
  method Summarize(inputs: seq<CompactionInput>, summaryLimit: nat, focus: string, replies: seq<Reply>,
                   ghost inputLimit: nat)
    returns (r: Result<string>, requests: seq<SummaryRequest>)
    requires AllFit(inputs, inputLimit)
    ensures AsksInOrder(requests, replies, inputs, focus)
    ensures RequestsFit(requests, ByteLength(focus) + summaryLimit + inputLimit)
    ensures r.Ok? ==>
              && |requests| == |inputs| <= |replies|
              && (inputs != [] ==> replies[|inputs| - 1] == SummaryReply(r.value) && !IsBlank(r.value))
              && (inputs == [] ==> r.value == "")
              && ByteLength(r.value) <= summaryLimit
    ensures r.Ok? <==> GoodReplies(replies, |inputs|, summaryLimit)
  {
    requests := [];
    var summary := "";
    for i := 0 to |inputs|
      invariant |requests| == i <= |replies| && summary == SummaryBefore(replies, i)
      invariant i > 0 ==> replies[i - 1] == SummaryReply(summary) && !IsBlank(summary)
      invariant AsksInOrder(requests, replies, inputs, focus)
      invariant RequestsFit(requests, ByteLength(focus) + summaryLimit + inputLimit)
      invariant ByteLength(summary) <= summaryLimit && GoodReplies(replies, i, summaryLimit)
    {
      var reply := ReplyAt(replies, i);
      if reply.CancelledReply? {
        return Err(Cancelled), requests;
      }
      OneMoreRequest(requests, replies, inputs, focus, ByteLength(focus) + summaryLimit + inputLimit,
                     SummaryRequest(focus, summary, inputs[i], i, |inputs|));
      requests := requests + [SummaryRequest(focus, summary, inputs[i], i, |inputs|)];
      if reply.FailedReply? {
        return Err(reply.error), requests;
      }
      if IsBlank(reply.text) || ByteLength(reply.text) > summaryLimit {
        return Err(Provider), requests;
      }
      summary := reply.text;
    }
    r := Ok(summary);
  }

  lemma RecentSuffixFits(f: Format, summary: string, recent: seq<ChatMessage>)
    ensures ByteLength(summary + RecentSuffix(f, recent))
            <= ByteLength(summary) + if recent == [] then 0
               else ByteLength(f.recentOpen) + ByteLength(f.json(recent)) + ByteLength(f.recentClose)
  {
    ByteLengthConcat(summary, RecentSuffix(f, recent));
    if recent != [] {
      ByteLengthConcat(f.recentOpen + f.json(recent), f.recentClose);
      ByteLengthConcat(f.recentOpen, f.json(recent));
    }
  }

  lemma PlanSplits(f: Format, history: seq<ChatMessage>, transcriptBudget: nat)
    requires |history| > 1
    ensures var plan := PlanFor(f, history, transcriptBudget);
            && [history[0]] + plan.older + plan.recent == history && plan.older != []
            && plan.system == history[0].content && IsPlain(plan.recent)
            && plan.inputs == AllInputs(f, Segments(plan.older), plan.budget / 2)
  {
    SplitThree(history, TailStart(f, history, Max(transcriptBudget, 1024)));
  }

  lemma SplitThree(history: seq<ChatMessage>, start: nat)
    requires history != [] && start < |history|
    ensures [history[0]] + history[1..][..start] + history[1..][start..] == history
  {
  }

  /** There is something to send, and inputs, summaries and tail keep to their shares of the budget. */
  predicate IsBounded(f: Format, plan: Plan) {
    && plan.inputs != [] && AllFit(plan.inputs, plan.budget / 2 + ByteLength(f.filesNote))
    && plan.summaryLimit == Min(plan.budget / 4, 0x8000)
    && (plan.recent != [] ==> ByteLength(f.json(plan.recent)) <= plan.budget / 8)
  }

  lemma PlanIsBounded(f: Format, history: seq<ChatMessage>, transcriptBudget: nat, plan: Plan)
    requires |history| > 1 && WritesSomething(f) && plan == PlanFor(f, history, transcriptBudget)
    ensures plan.budget == Max(transcriptBudget, 1024) && IsBounded(f, plan)
  {
    AllInputsFit(f, Segments(plan.older), plan.budget / 2, plan.budget / 2 + ByteLength(f.filesNote));
    SomethingToSummarize(f, plan.older, plan.budget / 2);
  }

  /** The last of the stages' summaries, followed by the verbatim tail between its marks; without
      a tail, and only then, the summary alone. */
  predicate SummarizedBy(f: Format, plan: Plan, replies: seq<Reply>, text: string) {
    && 0 < |plan.inputs| <= |replies|
    && replies[|plan.inputs| - 1].SummaryReply?
    && var summary := replies[|plan.inputs| - 1].text;
       && (plan.recent == [] <==> text == summary)
       && (plan.recent != [] ==> text == summary + f.recentOpen + f.json(plan.recent) + f.recentClose)
  }

  lemma TailIsAppended(f: Format, plan: Plan, replies: seq<Reply>, summary: string)
    requires WritesSomething(f) && 0 < |plan.inputs| <= |replies|
    requires replies[|plan.inputs| - 1] == SummaryReply(summary)
    ensures SummarizedBy(f, plan, replies, summary + RecentSuffix(f, plan.recent))
  {
    var tail := RecentSuffix(f, plan.recent);
    if plan.recent != [] {
      assert f.json(plan.recent) != "" && |summary + tail| > |summary|;
      assert summary + tail == summary + f.recentOpen + f.json(plan.recent) + f.recentClose;
    } else {
      assert summary + "" == summary;
    }
  }

  /** The result of a compaction, within three eighths of its budget plus fixed text. */
  lemma ResultFits(f: Format, plan: Plan, replies: seq<Reply>, summary: string)
    requires WritesSomething(f) && 0 < |plan.inputs| <= |replies|
    requires replies[|plan.inputs| - 1] == SummaryReply(summary)
    requires ByteLength(summary) <= plan.budget / 4
    requires plan.recent != [] ==> ByteLength(f.json(plan.recent)) <= plan.budget / 8
    ensures SummarizedBy(f, plan, replies, summary + RecentSuffix(f, plan.recent))
    ensures ByteLength(summary + RecentSuffix(f, plan.recent))
            <= plan.budget / 4 + plan.budget / 8 + ByteLength(f.recentOpen) + ByteLength(f.recentClose)
  {
    RecentSuffixFits(f, summary, plan.recent);
    TailIsAppended(f, plan, replies, summary);
  }

  /** When a compaction succeeds: there is something to compact, the focus fits, and every summary
      fits a quarter of the budget and 32 KiB. */
  predicate MayCompact(f: Format, history: seq<ChatMessage>, transcriptBudget: nat, focus: Option<string>,
                       replies: seq<Reply>)
  {
    && |history| > 1
    && ByteLength(FocusText(f, focus)) <= Max(transcriptBudget, 1024) / 4
    && var plan := PlanFor(f, history, transcriptBudget);
       GoodReplies(replies, |plan.inputs|, Min(Max(transcriptBudget, 1024) / 4, 0x8000))
  }

  /** What the provider is told to look after: the user's own request, if there is one. */
  ghost predicate FocusedOn(f: Format, requests: seq<SummaryRequest>, focus: Option<string>) {
    forall i | 0 <= i < |requests| ::
      if focus.Some? && !IsBlank(focus.value) then Contains(requests[i].focus, focus.value)
      else requests[i].focus == f.defaultFocus
  }

  lemma RequestsAreFocused(f: Format, requests: seq<SummaryRequest>, replies: seq<Reply>,
                           inputs: seq<CompactionInput>, focus: Option<string>)
    requires AsksInOrder(requests, replies, inputs, FocusText(f, focus))
    ensures FocusedOn(f, requests, focus)
  {
    if focus.Some? {
      ContainsInside(f.focusOpen, focus.value, "");
      assert f.focusOpen + focus.value + "" == f.focusOpen + focus.value;
    }
  }

  /** Choose the verbatim tail and cut the rest into inputs. */
  method Prepare(f: Format, history: seq<ChatMessage>, budget: nat) returns (plan: Plan)
    requires history != [] && WritesSomething(f) && 1024 <= budget
    ensures plan == PlanFor(f, history, budget)
  {
    var start := TailStart(f, history, budget);
    var inputs := CompactionInputs(f, history[1..][..start], budget / 2);
    plan := PlanAt(history, budget, start, inputs);
  }

  /** Send the inputs of a plan, stage by stage, and append its tail. */
  method RunStages(f: Format, plan: Plan, focus: string, replies: seq<Reply>)
    returns (r: Result<(seq<ChatMessage>, string)>, requests: seq<SummaryRequest>)
    requires WritesSomething(f) && IsBounded(f, plan) && ByteLength(focus) <= plan.budget / 4
    ensures RequestsFit(requests, plan.budget + ByteLength(f.filesNote))
    ensures AsksInOrder(requests, replies, plan.inputs, focus)
    ensures r.Ok? <==> GoodReplies(replies, |plan.inputs|, Min(plan.budget / 4, 0x8000))
    ensures r.Ok? ==>
              && |requests| == |plan.inputs|
              && SummarizedBy(f, plan, replies, r.value.1)
              && r.value.0 == CompactedHistory(plan.system, r.value.1)
              && ByteLength(r.value.1)
                 <= plan.budget / 4 + plan.budget / 8 + ByteLength(f.recentOpen) + ByteLength(f.recentClose)
  {
    var summary;
    ghost var inputLimit := plan.budget / 2 + ByteLength(f.filesNote);
    summary, requests := Summarize(plan.inputs, plan.summaryLimit, focus, replies, inputLimit);
    if summary.Err? {
      return Err(summary.error), requests;
    }
    ResultFits(f, plan, replies, summary.value);
    var text := summary.value + RecentSuffix(f, plan.recent);
    r := Ok((CompactedHistory(plan.system, text), text));
  }

  lemma SamePlan(f: Format, history: seq<ChatMessage>, transcriptBudget: nat)
    requires history != []
    ensures PlanFor(f, history, Max(transcriptBudget, 1024)) == PlanFor(f, history, transcriptBudget)
  {
  }

  /**
   Compact a history. Every request stays within the budget plus the attachment note; on
   success each input was sent once, in order, with the previous summary, and the result is the
   last summary with the verbatim tail, within three eighths of the budget plus fixed text.
   */
  method CompactMessages(f: Format, history: seq<ChatMessage>, transcriptBudget: nat,
                         focus: Option<string>, replies: seq<Reply>)
    returns (r: Result<(seq<ChatMessage>, string)>, requests: seq<SummaryRequest>)
    requires WritesSomething(f)
    ensures |history| <= 1 || ByteLength(FocusText(f, focus)) > Max(transcriptBudget, 1024) / 4 ==>
              r.Err? && requests == []
    ensures RequestsFit(requests, Max(transcriptBudget, 1024) + ByteLength(f.filesNote))
    ensures history != [] ==>
              AsksInOrder(requests, replies, PlanFor(f, history, transcriptBudget).inputs, FocusText(f, focus))
    ensures r.Ok? <==> MayCompact(f, history, transcriptBudget, focus, replies)
    ensures r.Ok? ==>
              var plan := PlanFor(f, history, transcriptBudget);
              && |requests| == |plan.inputs|
              && SummarizedBy(f, plan, replies, r.value.1)
              && r.value.0 == CompactedHistory(plan.system, r.value.1)
    ensures r.Ok? ==>
              ByteLength(r.value.1) <= Max(transcriptBudget, 1024) / 4 + Max(transcriptBudget, 1024) / 8
                                       + ByteLength(f.recentOpen) + ByteLength(f.recentClose)
  {
    requests := [];
    if |history| <= 1 {
      return Err(InvalidTransition), [];
    }
    var budget := Max(transcriptBudget, 1024);
    var focusText := FocusText(f, focus);
    if ByteLength(focusText) > budget / 4 {
      return Err(Provider), [];
    }
    var prepared := Prepare(f, history, budget);
    SamePlan(f, history, transcriptBudget);
    PlanIsBounded(f, history, transcriptBudget, prepared);
    r, requests := RunStages(f, prepared, focusText, replies);
  }

  /** What one segment says: its serialization, or the note about attachments and the message
      without them. */
  function SegmentSays(f: Format, s: seq<ChatMessage>): string {
    if s != [] && (s[0].images != [] || s[0].files != [])
    then f.filesNote + f.json([s[0].(images := [], files := [])])
    else f.json(s)
  }

  function AllSay(f: Format, segments: seq<seq<ChatMessage>>): string {
    if segments == [] then ""
    else AllSay(f, segments[..|segments| - 1]) + SegmentSays(f, segments[|segments| - 1])
  }

  /** The fragments of a segment, put together, read as what it says. */
  predicate ReachesWhole(f: Format, s: seq<ChatMessage>, maxBytes: nat) {
    Decode(InputBytes(SegmentInputs(f, s, maxBytes))) == Some(SegmentSays(f, s))
  }

  lemma SegmentReads(f: Format, s: seq<ChatMessage>, maxBytes: nat)
    requires SegmentText(f, s) != ""
    ensures InputBytes(SegmentInputs(f, s, maxBytes)) == Encode(SegmentSays(f, s)) && ReachesWhole(f, s, maxBytes)
  {
    SegmentIsLossless(f, s, maxBytes);
    EncodeConcat(f.filesNote, SegmentText(f, s));
    DecodesBack(SegmentSays(f, s));
    assert [] + Encode(SegmentText(f, s)) == Encode(SegmentText(f, s));
  }

  lemma {:induction false} BytesConcat(a: seq<CompactionInput>, b: seq<CompactionInput>)
    ensures InputBytes(a + b) == InputBytes(a) + InputBytes(b)
  {
    if a == [] {
      assert a + b == b;
    } else {
      assert (a + b)[1..] == a[1..] + b;
      BytesConcat(a[1..], b);
    }
  }

  lemma {:induction false} AllReach(f: Format, segments: seq<seq<ChatMessage>>, maxBytes: nat)
    requires WritesSomething(f)
    ensures InputBytes(AllInputs(f, segments, maxBytes)) == Encode(AllSay(f, segments))
  {
    if segments != [] {
      var n := |segments| - 1;
      AllReach(f, segments[..n], maxBytes);
      SegmentReads(f, segments[n], maxBytes);
      BytesConcat(AllInputs(f, segments[..n], maxBytes), SegmentInputs(f, segments[n], maxBytes));
      EncodeConcat(AllSay(f, segments[..n]), SegmentSays(f, segments[n]));
    }
  }

  lemma SegmentsReachWhole(f: Format, segments: seq<seq<ChatMessage>>, maxBytes: nat)
    requires WritesSomething(f)
    ensures forall s | s in segments :: ReachesWhole(f, s, maxBytes)
  {
    forall s | s in segments
      ensures ReachesWhole(f, s, maxBytes)
    {
      SegmentReads(f, s, maxBytes);
    }
  }

  /**
   Nothing is lost on the way in: every message after the system message lies, once and in
   order, in a segment whose fragments are its serialization or in the verbatim tail, and the
   inputs together read as what the segments say.
   */
  lemma CompactionIsLossless(f: Format, history: seq<ChatMessage>, transcriptBudget: nat, plan: Plan)
    requires |history| > 1 && WritesSomething(f) && plan == PlanFor(f, history, transcriptBudget)
    ensures [history[0]] + Joined(Segments(plan.older)) + plan.recent == history
    ensures plan.inputs == AllInputs(f, Segments(plan.older), plan.budget / 2)
    ensures forall s | s in Segments(plan.older) :: IsSegment(s) && ReachesWhole(f, s, plan.budget / 2)
    ensures Decode(InputBytes(plan.inputs)) == Some(AllSay(f, Segments(plan.older)))
  {
    PlanSplits(f, history, transcriptBudget);
    SegmentsPartition(plan.older);
    SegmentsReachWhole(f, Segments(plan.older), plan.budget / 2);
    AllReach(f, Segments(plan.older), plan.budget / 2);
    DecodesBack(AllSay(f, Segments(plan.older)));
  }

  lemma {:induction false} InSomeSegment(segments: seq<seq<ChatMessage>>, m: ChatMessage)
    requires m in Joined(segments)
    ensures exists s :: s in segments && m in s
  {
    if m !in segments[|segments| - 1] {
      InSomeSegment(segments[..|segments| - 1], m);
      var s :| s in segments[..|segments| - 1] && m in s;
      assert s in segments;
    }
  }

  /**
   And nothing is lost on the way out: after a successful compaction every message behind the
   system message was in a segment that reached the provider whole, or stands in the tail whose
   serialization is in the result.
   */
  lemma EveryMessageIsKept(f: Format, history: seq<ChatMessage>, transcriptBudget: nat, plan: Plan,
                           replies: seq<Reply>, text: string, i: nat)
    requires |history| > 1 && WritesSomething(f) && 0 < i < |history|
    requires plan == PlanFor(f, history, transcriptBudget) && SummarizedBy(f, plan, replies, text)
    ensures || (exists s :: s in Segments(plan.older) && history[i] in s && ReachesWhole(f, s, plan.budget / 2))
            || (history[i] in plan.recent && Contains(text, f.json(plan.recent)))
  {
    CompactionIsLossless(f, history, transcriptBudget, plan);
    InOneOf(history, Joined(Segments(plan.older)), plan.recent, i);
    if history[i] in plan.recent {
      TailIsInResult(f, plan, replies, text);
    } else {
      InSomeSegment(Segments(plan.older), history[i]);
    }
  }

  lemma InOneOf(history: seq<ChatMessage>, a: seq<ChatMessage>, b: seq<ChatMessage>, i: nat)
    requires 0 < i < |history| && [history[0]] + a + b == history
    ensures history[i] in a || history[i] in b
  {
    assert history[i] == if i - 1 < |a| then a[i - 1] else b[i - 1 - |a|];
  }

  lemma TailIsInResult(f: Format, plan: Plan, replies: seq<Reply>, text: string)
    requires SummarizedBy(f, plan, replies, text) && plan.recent != []
    ensures Contains(text, f.json(plan.recent))
  {
    ContainsInside(replies[|plan.inputs| - 1].text + f.recentOpen, f.json(plan.recent), f.recentClose);
  }

  /** Message `i` begins the newest user turn; the turn has no attachments and fits the limit. */
  predicate BeginsTail(f: Format, messages: seq<ChatMessage>, limit: nat, i: nat)
    requires i < |messages|
  {
    && messages[i].role == User && (forall j | i < j < |messages| :: messages[j].role != User)
    && (forall j | i <= j < |messages| :: messages[j].images == [] && messages[j].files == [])
    && ByteLength(f.json(messages[i..])) <= limit
  }

  lemma TailStartsThere(f: Format, messages: seq<ChatMessage>, limit: nat)
    ensures var start := RecentCompactionStart(f, messages, limit);
            && (forall i | 1 <= i < |messages| && BeginsTail(f, messages, limit, i) :: start == i)
            && (start < |messages| ==> 1 <= start && BeginsTail(f, messages, limit, start))
  {
    var start := RecentCompactionStart(f, messages, limit);
    if start < |messages| {
      forall j | start <= j < |messages|
        ensures messages[j].images == [] && messages[j].files == []
      {
        assert !HasFiles(messages[start..][j - start]);
      }
    }
    forall i | 1 <= i < |messages| && BeginsTail(f, messages, limit, i)
      ensures start == i
    {
      assert IsPlain(messages[i..]);
    }
  }

  /** The tail is the newest user turn behind at least one other message, when it fits an eighth of
      the budget and 16 KiB and has no attachments; otherwise it is empty. */
  lemma TailIsNewestTurn(f: Format, history: seq<ChatMessage>, transcriptBudget: nat, plan: Plan)
    requires |history| > 1 && plan == PlanFor(f, history, transcriptBudget)
    ensures var messages, limit := history[1..], Min(Max(transcriptBudget, 1024) / 8, 0x4000);
            && (forall i | 1 <= i < |messages| && BeginsTail(f, messages, limit, i) :: plan.recent == messages[i..])
            && (plan.recent != [] ==> exists i | 1 <= i < |messages| :: BeginsTail(f, messages, limit, i))
  {
    TailStartsThere(f, history[1..], Min(Max(transcriptBudget, 1024) / 8, 0x4000));
  }

  lemma TailCarriesNone(inputs: seq<CompactionInput>, older: seq<ChatMessage>, recent: seq<ChatMessage>)
    requires IsPlain(recent) && InputImages(inputs) == ImagesOf(older) && InputFiles(inputs) == FilesOf(older)
    ensures InputImages(inputs) == ImagesOf(older + recent) && InputFiles(inputs) == FilesOf(older + recent)
  {
    PlainCarriesNone(recent);
    ImagesConcat(older, recent);
  }

  lemma OlderCarries(f: Format, older: seq<ChatMessage>, maxBytes: nat)
    requires WritesSomething(f)
    ensures InputImages(AllInputs(f, Segments(older), maxBytes)) == ImagesOf(older)
    ensures InputFiles(AllInputs(f, Segments(older), maxBytes)) == FilesOf(older)
  {
    SegmentsPartition(older);
    InputsCarryAttachments(f, Segments(older), maxBytes);
  }

  lemma TailOf(history: seq<ChatMessage>, older: seq<ChatMessage>, recent: seq<ChatMessage>)
    requires history != [] && [history[0]] + older + recent == history
    ensures history[1..] == older + recent
  {
  }

  /** Every attachment reaches the provider, once and in order. */
  lemma CompactionKeepsAttachments(f: Format, history: seq<ChatMessage>, transcriptBudget: nat, plan: Plan)
    requires |history| > 1 && WritesSomething(f) && plan == PlanFor(f, history, transcriptBudget)
    ensures InputImages(plan.inputs) == ImagesOf(history[1..]) && InputFiles(plan.inputs) == FilesOf(history[1..])
  {
    PlanSplits(f, history, transcriptBudget);
    OlderCarries(f, plan.older, plan.budget / 2);
    TailCarriesNone(plan.inputs, plan.older, plan.recent);
    TailOf(history, plan.older, plan.recent);
  }

  /** The part of the agent engine that compacts on request: the stored conversations. */
  class AgentEngine {
    const format: Format
    var histories: map<string, seq<ChatMessage>>

    constructor (json: seq<ChatMessage> -> string)
      ensures format == AxiomFormat(json) && histories == map[]
    {
      format := AxiomFormat(json);
      histories := map[];
    }

    /** Replace the stored history by its compaction, or leave everything as it was. */
    method Compact(sessionId: string, transcriptBudget: nat, focus: Option<string>, replies: seq<Reply>)
      returns (r: Result<string>)
      requires WritesSomething(format)
      modifies this
      ensures r.Ok? <==> sessionId in old(histories)
                         && MayCompact(format, old(histories)[sessionId], transcriptBudget, focus, replies)
      ensures r.Err? ==> histories == old(histories)
      ensures r.Ok? ==>
                var plan := PlanFor(format, old(histories)[sessionId], transcriptBudget);
                && SummarizedBy(format, plan, replies, r.value)
                && histories == old(histories)[sessionId := CompactedHistory(plan.system, r.value)]
    {
      if sessionId !in histories {
        return Err(InvalidTransition);
      }
      var compacted, requests :=
        CompactMessages(format, histories[sessionId], transcriptBudget, focus, replies);
      if compacted.Err? {
        return Err(compacted.error);
      }
      histories := histories[sessionId := compacted.value.0];
      r := Ok(compacted.value.1);
    }
  }
}
