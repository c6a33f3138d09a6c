/** The server-sent-event lines of the streaming chat call, as read by
    `sendMessage` in `data/repository/ChatRepository.kt` (each "line" is a
    piece `readUtf8Line` returns, see `ChatApi.LineStream`): which lines carry a
    payload, where the `[DONE]` marker ends the stream, and which text each
    event contributes. */
module EventStream {
  import opened Wrappers
  import opened Text

  const DataPrefix: string := "data: "
  const ContentKey: string := "\"content\":\""
  const Done: string := "[DONE]"

  /** The trimmed payload of a `data: ` line; nothing for any other line. */
  function Payload(line: string): (r: Option<string>)
    ensures r.Some? <==> StartsWith(line, DataPrefix)
  {
    if StartsWith(line, DataPrefix) then Some(Trim(RemovePrefix(line, DataPrefix))) else None
  }

  /** The text of one event: from just past the first `"content":"` to the
      next `"`, when that is not empty. */
  function ChunkOf(data: string): (r: Option<string>)
    ensures r.Some? ==> r.value != [] && '"' !in r.value
    ensures r.Some? ==> exists i :: MatchAt(data, ContentKey + r.value + "\"", i)
    ensures IndexOf(data, ContentKey) == -1 ==> r.None?
  {
    var contentStart := IndexOf(data, ContentKey);
    if contentStart == -1 then None
    else
      var start := contentStart + 11;
      var end := IndexOfFrom(data, "\"", start);
      if end > start then
        var c := data[start..end];
        assert '"' !in c by {
          forall k | start <= k < end
            ensures data[k] != '"'
          {
            assert !MatchAt(data, "\"", k);
          }
        }
        assert data[contentStart..start] == ContentKey by {
          assert MatchAt(data, ContentKey, contentStart) && |ContentKey| == 11;
        }
        assert data[end..end + 1] == "\"" by {
          assert MatchAt(data, "\"", end);
        }
        assert data[contentStart..end + 1] == data[contentStart..start] + c + data[end..end + 1];
        assert MatchAt(data, ContentKey + c + "\"", contentStart);
        Some(c)
      else None
  }

  /** The chunks one line contributes when its payload is not `[DONE]`. */
  function LineChunks(line: string): (r: seq<string>)
    ensures |r| <= 1
  {
    match Payload(line)
    case None => []
    case Some(d) => match ChunkOf(d) case Some(c) => [c] case None => []
  }

  /** The chunks of the lines read, in order, up to the first `[DONE]`
      payload. */
  function StreamChunks(lines: seq<string>): seq<string> {
    if lines == [] || Payload(lines[0]) == Some(Done) then []
    else LineChunks(lines[0]) + StreamChunks(lines[1..])
  }

  /** Some line's payload is `[DONE]`, so reading stops before the end. */
  predicate ReachesDone(lines: seq<string>) {
    exists i :: 0 <= i < |lines| && Payload(lines[i]) == Some(Done)
  }

  /** The concatenation of `chunks` in order. */
  function Concat(chunks: seq<string>): string {
    if chunks == [] then "" else Concat(chunks[..|chunks| - 1]) + chunks[|chunks| - 1]
  }

  lemma {:induction false} StreamChunksSplit(done: seq<string>, rest: seq<string>)
    requires !ReachesDone(done)
    ensures StreamChunks(done + rest) == StreamChunks(done) + StreamChunks(rest)
  {
    if done != [] {
      assert (done + rest)[0] == done[0];
      assert (done + rest)[1..] == done[1..] + rest;
      assert Payload(done[0]) != Some(Done);
      assert !ReachesDone(done[1..]);
      StreamChunksSplit(done[1..], rest);
      assert StreamChunks(done + rest)
          == LineChunks(done[0]) + (StreamChunks(done[1..]) + StreamChunks(rest));
    } else {
      assert done + rest == rest;
    }
  }

  /** A `[DONE]` payload ends the stream: nothing after it counts. */
  lemma StreamStopsAtDone(before: seq<string>, line: string, after: seq<string>)
    requires !ReachesDone(before) && Payload(line) == Some(Done)
    ensures StreamChunks(before + [line] + after) == StreamChunks(before)
  {
    assert before + [line] + after == before + ([line] + after);
    StreamChunksSplit(before, [line] + after);
  }

  /** A line that is not a `data: ` line contributes nothing. */
  lemma OtherLinesIgnored(line: string, rest: seq<string>)
    requires !StartsWith(line, DataPrefix)
    ensures StreamChunks([line] + rest) == StreamChunks(rest)
  {
    assert ([line] + rest)[1..] == rest;
  }

  // ---- a worked event ----

  const EventHead: string := "{\"choices\":[{\"delta\":{"
  const EventTail: string := "\"}}]}"
  const DoneLine: string := "data: [DONE]"

  /** The JSON of one streamed event whose delta carries `text`. */
  function EventJson(text: string): string {
    EventHead + ContentKey + text + EventTail
  }

  /** The `data: ` line that carries that event. */
  function EventLine(text: string): string {
    DataPrefix + EventJson(text)
  }

  /** An event line's payload is its whole JSON text: the text starts with
      `{` and ends with `}`, so trimming leaves it alone. */
  lemma EventPayload(text: string)
    ensures Payload(EventLine(text)) == Some(EventJson(text))
  {
    var data := EventJson(text);
    assert data[0] == '{' && data[|data| - 1] == '}';
    PayloadOfData(data);
  }

  /** A `data: ` line whose rest has no surrounding whitespace carries that
      rest as its payload. */
  lemma PayloadOfData(data: string)
    requires data != [] && !IsWhitespace(data[0]) && !IsWhitespace(data[|data| - 1])
    ensures Payload(DataPrefix + data) == Some(data)
  {
    var line := DataPrefix + data;
    assert line[..|DataPrefix|] == DataPrefix;
    assert RemovePrefix(line, DataPrefix) == data;
    assert TrimStart(data) == data;
  }

  /** The key first occurs right after the head, which has no `n`; the key's
      fourth character is one. */
  lemma EventKey(text: string)
    ensures IndexOf(EventJson(text), ContentKey) == |EventHead|
  {
    var data := EventJson(text);
    assert |EventHead| == 22 && 'n' !in EventHead;
    assert data[22..33] == ContentKey;
    assert MatchAt(data, ContentKey, 22);
    forall j | 0 <= j < 22
      ensures !MatchAt(data, ContentKey, j)
    {
      assert data[j + 3] != 'n';
      assert ContentKey[3] == 'n';
    }
  }

  /** The first quote after the key is the one that closes `text`. */
  lemma EventQuote(text: string)
    requires '"' !in text
    ensures IndexOfFrom(EventJson(text), "\"", 33) == 33 + |text|
  {
    var data := EventJson(text);
    var end := 33 + |text|;
    var front := EventHead + ContentKey + text;
    assert |front| == end && data == front + EventTail;
    assert data[end..end + 1] == "\"";
    assert MatchAt(data, "\"", end);
    forall k | 33 <= k < end
      ensures !MatchAt(data, "\"", k)
    {
      assert data[k] == front[k] == text[k - 33];
      assert data[k..k + 1] == [data[k]];
    }
  }

  /** An event line with a non-empty quote-free `text` contributes exactly
      that text. */
  lemma EventChunk(text: string)
    requires text != [] && '"' !in text
    ensures ChunkOf(EventJson(text)) == Some(text)
    ensures LineChunks(EventLine(text)) == [text]
  {
    var data := EventJson(text);
    EventKey(text);
    EventQuote(text);
    ChunkBetween(data, 22, 33 + |text|);
    assert data[33..33 + |text|] == text;
    EventPayload(text);
    PayloadChunk(EventLine(text), data, text);
  }

  lemma PayloadChunk(line: string, data: string, c: string)
    requires Payload(line) == Some(data) && ChunkOf(data) == Some(c)
    ensures LineChunks(line) == [c]
  {
  }

  /** Where the key and the closing quote are found decides the chunk. */
  lemma ChunkBetween(data: string, key: int, end: int)
    requires IndexOf(data, ContentKey) == key >= 0
    requires IndexOfFrom(data, "\"", key + 11) == end > key + 11
    ensures ChunkOf(data) == Some(data[key + 11..end])
  {
  }

  /** `data: [DONE]` is the end marker. */
  lemma DonePayload()
    ensures Payload(DoneLine) == Some(Done)
  {
    assert DoneLine == DataPrefix + Done;
    PayloadOfData(Done);
  }

  /** Two events and the end marker: the two texts arrive as two chunks,
      and the streamed text is their concatenation ("Hel" and "lo" make
      "Hello"). */
  lemma TwoEvents(first: string, second: string)
    requires first != [] && '"' !in first && second != [] && '"' !in second
    ensures StreamChunks([EventLine(first), EventLine(second), DoneLine]) == [first, second]
    ensures Concat([first, second]) == first + second
  {
    EventChunk(first);
    EventChunk(second);
    EventNotDone(first);
    EventNotDone(second);
    DonePayload();
    ThreeLines(EventLine(first), EventLine(second), DoneLine, first, second);
    ConcatTwo(first, second);
  }

  /** An event line is not the end marker. */
  lemma EventNotDone(text: string)
    ensures Payload(EventLine(text)) != Some(Done)
  {
    EventPayload(text);
    assert |EventJson(text)| > |Done|;
  }

  lemma ThreeLines(l1: string, l2: string, l3: string, a: string, b: string)
    requires Payload(l1) != Some(Done) && Payload(l2) != Some(Done) && Payload(l3) == Some(Done)
    requires LineChunks(l1) == [a] && LineChunks(l2) == [b]
    ensures StreamChunks([l1, l2, l3]) == [a, b]
  {
    LastLine(l3);
    SecondLine(l2, l3, b);
    FirstLine(l1, l2, l3, a, b);
  }

  lemma LastLine(l3: string)
    requires Payload(l3) == Some(Done)
    ensures StreamChunks([l3]) == []
  {
  }

  lemma SecondLine(l2: string, l3: string, b: string)
    requires Payload(l2) != Some(Done) && LineChunks(l2) == [b] && StreamChunks([l3]) == []
    ensures StreamChunks([l2, l3]) == [b]
  {
    assert [l2, l3][1..] == [l3];
  }

  lemma FirstLine(l1: string, l2: string, l3: string, a: string, b: string)
    requires Payload(l1) != Some(Done) && LineChunks(l1) == [a] && StreamChunks([l2, l3]) == [b]
    ensures StreamChunks([l1, l2, l3]) == [a, b]
  {
    assert [l1, l2, l3][1..] == [l2, l3];
  }

  lemma ConcatTwo(a: string, b: string)
    ensures Concat([a, b]) == a + b
  {
    assert [a, b][..1] == [a];
    assert [a][..0] == [];
    assert Concat([a]) == Concat([]) + a;
  }

  // ---- the reading loop, one line at a time ----

  /** One step of the reading loop: a `[DONE]` line ends the chunks, any
      other line adds its own. */
  lemma StreamStep(lines: seq<string>, i: nat)
    requires i < |lines|
    ensures Payload(lines[i]) == Some(Done) ==> StreamChunks(lines[i..]) == [] && ReachesDone(lines)
    ensures Payload(lines[i]) != Some(Done) ==>
              StreamChunks(lines[i..]) == LineChunks(lines[i]) + StreamChunks(lines[i + 1..])
  {
    assert lines[i..][0] == lines[i];
    assert lines[i..][1..] == lines[i + 1..];
  }

  /** One line that is not `[DONE]` moves the loop on by its own chunks. */
  lemma Advance(lines: seq<string>, i: nat, chunks: seq<string>, piece: seq<string>)
    requires i < |lines| && Payload(lines[i]) != Some(Done) && piece == LineChunks(lines[i])
    requires StreamChunks(lines) == chunks + StreamChunks(lines[i..])
    ensures StreamChunks(lines) == (chunks + piece) + StreamChunks(lines[i + 1..])
  {
    StreamStep(lines, i);
    Regroup(StreamChunks(lines), chunks, StreamChunks(lines[i..]), piece, StreamChunks(lines[i + 1..]));
  }

  lemma Regroup(total: seq<string>, chunks: seq<string>, here: seq<string>, piece: seq<string>, rest: seq<string>)
    requires total == chunks + here && here == piece + rest
    ensures total == (chunks + piece) + rest
  {
  }

  /** Appending a chunk appends its text. */
  lemma AppendChunk(chunks: seq<string>, content: string)
    ensures Concat(chunks + [content]) == Concat(chunks) + content
  {
    assert (chunks + [content])[..|chunks|] == chunks;
  }
}
