/** The client side of the chat gateway (src/lib/ai/stream-chat.ts): the
    server-sent-event line decoder that turns the response body into text
    deltas, and the error a non-ok response is turned into.

    The response body arrives as already-decoded text chunks. `JSON.parse`
    is not modelled: a payload is mapped to a `JsonField` by a function the
    caller supplies. */
module StreamChat {
  import opened Text
  import opened ChatTypes

  /** What `JSON.parse` of a payload followed by reading one optional string
      field gives: a parse failure, or the field (`None` when it is absent).
      For a data line the field is `choices[0].delta.content`, for the body
      of a failed response it is `error`. */
  datatype JsonField = Malformed | Parsed(field: Option<string>)

  /** One line of the event stream, once its trailing carriage return is gone. */
  datatype LineKind = Ignored | Terminator | Data(json: string)

  /** How a complete line leaves the read loop: the loop goes on, `[DONE]`
      ends the stream, or a payload that does not parse is put back at the
      front of the buffer and the loop waits for the next chunk. */
  datatype Status = Open | Terminated | Stuck

  const DataPrefix: string := "data: "
  const DoneMarker: string := "[DONE]"

  /** `line.endsWith("\r")`, then `line.slice(0, -1)`: one trailing carriage
      return goes, and nothing else. */
  function StripCR(line: string): (r: string)
    ensures |line| - 1 <= |r| <= |line| && r == line[..|r|]
    ensures |r| < |line| <==> |line| > 0 && line[|line| - 1] == '\r'
  {
    if |line| > 0 && line[|line| - 1] == '\r' then line[..|line| - 1] else line
  }

  /** The filters of the read loop, in the order the source applies them:
      a comment (`:` first), a blank line, a line without the `data: `
      prefix; then the trimmed payload, where `[DONE]` ends the stream. */
  function Classify(line: string): LineKind
  {
    if |line| > 0 && line[0] == ':' then Ignored
    else if Trim(line) == [] then Ignored
    else if !StartsWith(line, DataPrefix) then Ignored
    else if Trim(line[|DataPrefix|..]) == DoneMarker then Terminator
    else Data(Trim(line[|DataPrefix|..]))
  }

  /** The payload parsed and its field is truthy: a present, non-empty string. */
  predicate Truthy(f: JsonField) {
    f.Parsed? && f.field.Some? && f.field.value != ""
  }

  /** `if (content) onDelta(content)`: only a truthy content is a delta. */
  function FieldDelta(f: JsonField): (d: seq<string>)
    ensures d != [] <==> Truthy(f)
    ensures Truthy(f) ==> d == [f.field.value]
  {
    match f
    case Parsed(Some(c)) => if c != "" then [c] else []
    case _ => []
  }

  /** The deltas one line of the body yields. */
  function LineDeltas(parse: string -> JsonField, raw: string): (d: seq<string>)
    ensures |d| <= 1 && (d != [] ==> d[0] != "")
  {
    match Classify(StripCR(raw))
    case Data(json) => FieldDelta(parse(json))
    case _ => []
  }

  /** How one complete line leaves the read loop. */
  function LineStatus(parse: string -> JsonField, raw: string): Status
  {
    match Classify(StripCR(raw))
    case Terminator => Terminated
    case Data(json) => if parse(json).Malformed? then Stuck else Open
    case Ignored => Open
  }

  function LineDeltasOf(parse: string -> JsonField): string -> seq<string>
  {
    raw => LineDeltas(parse, raw)
  }

  function LineStatusOf(parse: string -> JsonField): string -> Status
  {
    raw => LineStatus(parse, raw)
  }

  // ---------------------------------------------------------------------
  // Lines of a text, for any meaning of a single line

  /** `f` of every line, concatenated in line order. */
  function FlatMap(f: string -> seq<string>, lines: seq<string>): seq<string>
  {
    if lines == [] then [] else f(lines[0]) + FlatMap(f, lines[1..])
  }

  /** The first status other than `Open` among the complete lines of
      `text`, those followed by `\n`; `Open` when there is none. */
  function FirstStop(st: string -> Status, text: string): Status
    decreases |text|
  {
    var i := IndexOf(text, '\n');
    if i == |text| then Open
    else if st(text[..i]) != Open then st(text[..i])
    else FirstStop(st, text[i + 1..])
  }

  lemma {:induction false} FlatMapAppend(f: string -> seq<string>, lines: seq<string>, last: string)
    ensures FlatMap(f, lines + [last]) == FlatMap(f, lines) + f(last)
  {
    if lines == [] {
      assert [last][1..] == [];
    } else {
      assert (lines + [last])[1..] == lines[1..] + [last];
      FlatMapAppend(f, lines[1..], last);
    }
  }

  lemma {:induction false} FlatMapStep(f: string -> seq<string>, lines: seq<string>, k: nat)
    requires k < |lines|
    ensures FlatMap(f, lines[..k + 1]) == FlatMap(f, lines[..k]) + f(lines[k])
  {
    FlatMapAppend(f, lines[..k], lines[k]);
    assert lines[..k + 1] == lines[..k] + [lines[k]];
  }

  lemma {:induction false} FlatMapCons(f: string -> seq<string>, head: string, rest: string)
    requires '\n' !in head
    ensures FlatMap(f, Split(head + "\n" + rest, '\n')) == f(head) + FlatMap(f, Split(rest, '\n'))
  {
    SplitCons(head, '\n', rest);
    assert ([head] + Split(rest, '\n'))[1..] == Split(rest, '\n');
  }

  lemma {:induction false} FlatMapJoin(f: string -> seq<string>, a: string, b: string)
    ensures FlatMap(f, Split(a + "\n" + b, '\n')) == FlatMap(f, Split(a, '\n')) + FlatMap(f, Split(b, '\n'))
    decreases |a|
  {
    var i := IndexOf(a, '\n');
    if i == |a| {
      FlatMapJoinLast(f, a, b);
    } else {
      JoinAt(a, i, b);
      FlatMapJoin(f, a[i + 1..], b);
      FlatMapJoinStep(f, a[..i], a[i + 1..], b);
    }
  }

  lemma {:induction false} FlatMapJoinLast(f: string -> seq<string>, a: string, b: string)
    requires '\n' !in a
    ensures FlatMap(f, Split(a + "\n" + b, '\n')) == FlatMap(f, Split(a, '\n')) + FlatMap(f, Split(b, '\n'))
  {
    FlatMapCons(f, a, b);
    SplitNoSeparator(a, '\n');
    assert [a][1..] == [];
  }

  lemma {:induction false} FlatMapJoinStep(f: string -> seq<string>, head: string, rest: string, b: string)
    requires '\n' !in head
    requires FlatMap(f, Split(rest + "\n" + b, '\n')) == FlatMap(f, Split(rest, '\n')) + FlatMap(f, Split(b, '\n'))
    ensures FlatMap(f, Split(head + "\n" + (rest + "\n" + b), '\n'))
         == FlatMap(f, Split(head + "\n" + rest, '\n')) + FlatMap(f, Split(b, '\n'))
  {
    FlatMapCons(f, head, rest + "\n" + b);
    FlatMapCons(f, head, rest);
  }

  lemma {:induction false} JoinAt(a: string, i: nat, b: string)
    requires i < |a| && a[i] == '\n'
    ensures a == a[..i] + "\n" + a[i + 1..]
    ensures a + "\n" + b == a[..i] + "\n" + (a[i + 1..] + "\n" + b)
  {
    assert a == a[..i] + [a[i]] + a[i + 1..];
  }

  lemma {:induction false} FlatMapMember(f: string -> seq<string>, lines: seq<string>, d: string)
    requires d in FlatMap(f, lines)
    ensures exists k :: 0 <= k < |lines| && d in f(lines[k])
  {
    if d !in f(lines[0]) {
      FlatMapMember(f, lines[1..], d);
      var k :| 0 <= k < |lines[1..]| && d in f(lines[1..][k]);
      assert lines[1..][k] == lines[k + 1];
    }
  }

  lemma {:induction false} FlatMapNothing(f: string -> seq<string>, lines: seq<string>)
    requires forall k :: 0 <= k < |lines| ==> f(lines[k]) == []
    ensures FlatMap(f, lines) == []
  {
    if lines != [] {
      FlatMapNothing(f, lines[1..]);
    }
  }

  lemma {:induction false} FirstStopCons(st: string -> Status, head: string, rest: string)
    requires '\n' !in head
    ensures FirstStop(st, head + "\n" + rest) == if st(head) != Open then st(head) else FirstStop(st, rest)
  {
    var s := head + "\n" + rest;
    IndexOfFirst(s, '\n', |head|);
    assert s[..|head|] == head;
    assert s[|head| + 1..] == rest;
  }

  lemma {:induction false} FirstStopExtend(st: string -> Status, t: string, u: string)
    requires FirstStop(st, t) != Open
    ensures FirstStop(st, t + u) == FirstStop(st, t)
    decreases |t|
  {
    var i := IndexOf(t, '\n');
    var head, rest := t[..i], t[i + 1..];
    assert t == head + "\n" + rest;
    assert t + u == head + "\n" + (rest + u);
    FirstStopCons(st, head, rest + u);
    FirstStopCons(st, head, rest);
    if st(head) == Open {
      FirstStopExtend(st, rest, u);
    }
  }

  lemma {:induction false} BlankSplit(text: string)
    requires IsBlank(text)
    ensures forall k :: 0 <= k < |Split(text, '\n')| ==> IsBlank(Split(text, '\n')[k])
    decreases |text|
  {
    var i := IndexOf(text, '\n');
    if i < |text| {
      BlankSplit(text[i + 1..]);
    }
  }

  // ---------------------------------------------------------------------
  // The meaning of a body

  /** The reference meaning of a body: every line of the whole text, split
      at `\n`, contributes its deltas in line order. */
  function Deltas(parse: string -> JsonField, text: string): seq<string>
  {
    FlatMap(LineDeltasOf(parse), Split(text, '\n'))
  }

  /** What the read loop meets first among the complete lines of `text`:
      nothing that stops it, `[DONE]`, or a payload that does not parse. */
  function Scan(parse: string -> JsonField, text: string): Status
  {
    FirstStop(LineStatusOf(parse), text)
  }

  /** The text of the first `|chunks|` reads, in order. */
  function Concat(chunks: seq<string>): string
  {
    if chunks == [] then [] else Concat(chunks[..|chunks| - 1]) + chunks[|chunks| - 1]
  }

  /** Number of chunks the reader hands out from the `k`-th on: reading
      stops after the first chunk that completes a `[DONE]` line, or when
      the body ends. */
  function ReadCountFrom(parse: string -> JsonField, chunks: seq<string>, k: nat): (n: nat)
    requires k <= |chunks|
    ensures k <= n <= |chunks|
    ensures n < |chunks| ==> Scan(parse, Concat(chunks[..n])) == Terminated
    decreases |chunks| - k
  {
    if k == |chunks| || Scan(parse, Concat(chunks[..k])) == Terminated then k
    else ReadCountFrom(parse, chunks, k + 1)
  }

  function ReadCount(parse: string -> JsonField, chunks: seq<string>): (n: nat)
    ensures n <= |chunks|
  {
    ReadCountFrom(parse, chunks, 0)
  }

  /** Everything a body that ends normally delivers: the deltas of the text
      that was read, the final flush included. */
  function Answer(parse: string -> JsonField, chunks: seq<string>): seq<string>
  {
    Deltas(parse, Concat(chunks[..ReadCount(parse, chunks)]))
  }

  lemma {:induction false} DeltasCons(parse: string -> JsonField, head: string, rest: string)
    requires '\n' !in head
    ensures Deltas(parse, head + "\n" + rest) == LineDeltas(parse, head) + Deltas(parse, rest)
  {
    FlatMapCons(LineDeltasOf(parse), head, rest);
  }

  lemma {:induction false} ScanCons(parse: string -> JsonField, head: string, rest: string)
    requires '\n' !in head
    ensures Scan(parse, head + "\n" + rest) ==
      if LineStatus(parse, head) != Open then LineStatus(parse, head) else Scan(parse, rest)
  {
    FirstStopCons(LineStatusOf(parse), head, rest);
  }

  // ---------------------------------------------------------------------
  // Facts about single lines

  /** Comments, blank lines and lines without the `data: ` prefix yield no
      delta and never stop the read loop. */
  lemma {:induction false} IgnoredLines(parse: string -> JsonField, raw: string)
    requires var line := StripCR(raw);
      (|line| > 0 && line[0] == ':') || IsBlank(line) || !StartsWith(line, DataPrefix)
    ensures LineDeltas(parse, raw) == [] && LineStatus(parse, raw) == Open
  {
    TrimEmptyIffBlank(StripCR(raw));
  }

  /** A line with the `data: ` prefix is judged by its trimmed payload alone. */
  lemma {:induction false} ClassifyPrefixed(line: string)
    requires StartsWith(line, DataPrefix)
    ensures Classify(line) == if Trim(line[|DataPrefix|..]) == DoneMarker then Terminator else Data(Trim(line[|DataPrefix|..]))
  {
    assert line[0] == 'd';
    TrimEmptyIffBlank(line);
  }

  /** A line whose trimmed payload is `[DONE]` ends the stream and yields nothing. */
  lemma {:induction false} TerminatorLine(parse: string -> JsonField, raw: string)
    requires StartsWith(StripCR(raw), DataPrefix) && Trim(StripCR(raw)[|DataPrefix|..]) == DoneMarker
    ensures LineDeltas(parse, raw) == [] && LineStatus(parse, raw) == Terminated
  {
    ClassifyPrefixed(StripCR(raw));
  }

  /** Any other data line yields the content of its trimmed payload when the
      payload parses and the content is a non-empty string, and nothing
      otherwise; it stops the loop exactly when the payload does not parse. */
  lemma {:induction false} DataLine(parse: string -> JsonField, raw: string)
    requires StartsWith(StripCR(raw), DataPrefix)
    requires Trim(StripCR(raw)[|DataPrefix|..]) != DoneMarker
    ensures var json := Trim(StripCR(raw)[|DataPrefix|..]);
      && LineDeltas(parse, raw) == FieldDelta(parse(json))
      && (LineStatus(parse, raw) == Stuck <==> parse(json).Malformed?)
      && LineStatus(parse, raw) != Terminated
  {
    ClassifyPrefixed(StripCR(raw));
  }

  /** Only lines with the `data: ` prefix carry a payload. */
  lemma {:induction false} PayloadIsPrefixed(line: string)
    requires !Classify(line).Ignored?
    ensures StartsWith(line, DataPrefix)
  {
  }

  lemma {:induction false} ClassifyDropsCR(line: string)
    requires StartsWith(line, DataPrefix)
    ensures Classify(line + ['\r']) == Classify(line)
  {
    var l := line + ['\r'];
    assert l[..6] == line[..6];
    assert l[6..] == line[6..] + ['\r'];
    TrimDropsTrailingSpace(line[6..], '\r');
    ClassifyPrefixed(line);
    ClassifyPrefixed(l);
  }

  /** A `data: ` line keeps its kind when one more trailing carriage
      return is removed, so a line that is put back reads the same. */
  lemma {:induction false} StripCRKeepsPayload(line: string)
    requires StartsWith(line, DataPrefix)
    ensures Classify(StripCR(line)) == Classify(line)
  {
    if |line| > 0 && line[|line| - 1] == '\r' {
      var l2 := line[..|line| - 1];
      assert line == l2 + ['\r'];
      assert line[5] == ' ';
      assert l2[..6] == line[..6];
      ClassifyDropsCR(l2);
    }
  }

  /** Whitespace alone never yields a delta (the flush is skipped for it). */
  lemma {:induction false} BlankYieldsNothing(parse: string -> JsonField, text: string)
    requires IsBlank(text)
    ensures Deltas(parse, text) == []
  {
    var lines := Split(text, '\n');
    BlankSplit(text);
    forall k | 0 <= k < |lines|
      ensures LineDeltasOf(parse)(lines[k]) == []
    {
      IgnoredLines(parse, lines[k]);
    }
    FlatMapNothing(LineDeltasOf(parse), lines);
  }

  // ---------------------------------------------------------------------
  // Properties of the meaning

  /** Only non-empty contents are emitted. */
  lemma {:induction false} DeltasNonEmpty(parse: string -> JsonField, text: string)
    ensures forall d :: d in Deltas(parse, text) ==> d != ""
  {
    forall d | d in Deltas(parse, text)
      ensures d != ""
    {
      FlatMapMember(LineDeltasOf(parse), Split(text, '\n'), d);
    }
  }

  /** Deltas come in line order: the text before a newline contributes
      before the text after it. */
  lemma {:induction false} DeltasOrder(parse: string -> JsonField, a: string, b: string)
    ensures Deltas(parse, a + "\n" + b) == Deltas(parse, a) + Deltas(parse, b)
  {
    FlatMapJoin(LineDeltasOf(parse), a, b);
  }

  /** Once the read loop has met `[DONE]` or a stuck payload among the
      complete lines, more text does not change that. */
  lemma {:induction false} ScanExtend(parse: string -> JsonField, t: string, u: string)
    requires Scan(parse, t) != Open
    ensures Scan(parse, t + u) == Scan(parse, t)
  {
    FirstStopExtend(LineStatusOf(parse), t, u);
  }

  lemma {:induction false} ConcatPrefix(chunks: seq<string>, j: nat)
    requires j <= |chunks|
    ensures Concat(chunks[..j]) <= Concat(chunks)
    decreases |chunks|
  {
    if j < |chunks| {
      assert chunks[..|chunks| - 1][..j] == chunks[..j];
      ConcatPrefix(chunks[..|chunks| - 1], j);
    } else {
      assert chunks[..j] == chunks;
    }
  }

  /** Text that has no `[DONE]` line has none in any prefix either. */
  lemma {:induction false} PrefixNotTerminated(parse: string -> JsonField, p: string, w: string)
    requires p <= w
    requires Scan(parse, w) != Terminated
    ensures Scan(parse, p) != Terminated
  {
    var u := w[|p|..];
    assert w == p + u;
    if Scan(parse, p) != Open {
      ScanExtend(parse, p, u);
    }
  }

  lemma {:induction false} ReadCountAll(parse: string -> JsonField, chunks: seq<string>, k: nat)
    requires k <= |chunks|
    requires Scan(parse, Concat(chunks)) != Terminated
    ensures ReadCountFrom(parse, chunks, k) == |chunks|
    decreases |chunks| - k
  {
    if k < |chunks| {
      ConcatPrefix(chunks, k);
      PrefixNotTerminated(parse, Concat(chunks[..k]), Concat(chunks));
      ReadCountAll(parse, chunks, k + 1);
    }
  }

  /** Without a `[DONE]` line every chunk is read. */
  lemma {:induction false} NoTerminatorReadsAll(parse: string -> JsonField, chunks: seq<string>)
    requires Scan(parse, Concat(chunks)) != Terminated
    ensures ReadCount(parse, chunks) == |chunks|
  {
    ReadCountAll(parse, chunks, 0);
  }

  /** Without a `[DONE]` line the split into chunks does not matter: any two
      chunkings of the same text deliver the deltas of the whole text. */
  lemma {:induction false} ChunkSplitInvariance(parse: string -> JsonField, a: seq<string>, b: seq<string>)
    requires Concat(a) == Concat(b)
    requires Scan(parse, Concat(a)) != Terminated
    ensures Answer(parse, a) == Deltas(parse, Concat(a))
    ensures Answer(parse, a) == Answer(parse, b)
  {
    NoTerminatorReadsAll(parse, a);
    NoTerminatorReadsAll(parse, b);
    assert a[..|a|] == a && b[..|b|] == b;
  }

  lemma {:induction false} ReadCountPrefix(parse: string -> JsonField, chunks: seq<string>, j: nat, k: nat)
    requires k <= j <= |chunks|
    requires Scan(parse, Concat(chunks[..j])) == Terminated
    ensures ReadCountFrom(parse, chunks, k) <= j
    ensures ReadCountFrom(parse, chunks, k) == ReadCountFrom(parse, chunks[..j], k)
    decreases j - k
  {
    assert chunks[..j][..k] == chunks[..k];
    assert chunks[..j][..j] == chunks[..j];
    if k < j && Scan(parse, Concat(chunks[..k])) != Terminated {
      ReadCountPrefix(parse, chunks, j, k + 1);
    }
  }

  /** The reader stops at the chunk that completes the first `[DONE]` line:
      chunks after it contribute nothing. */
  lemma {:induction false} TerminatorStopsReading(parse: string -> JsonField, chunks: seq<string>, j: nat)
    requires j <= |chunks|
    requires Scan(parse, Concat(chunks[..j])) == Terminated
    ensures ReadCount(parse, chunks) <= j
    ensures Answer(parse, chunks) == Answer(parse, chunks[..j])
  {
    ReadCountPrefix(parse, chunks, j, 0);
    assert chunks[..j][..ReadCount(parse, chunks)] == chunks[..ReadCount(parse, chunks)];
  }

  /** Within one chunk `[DONE]` does not hide what follows it: the final
      flush still delivers the data lines after it. */
  lemma {:induction false} OneChunkDeliversAll(parse: string -> JsonField, text: string)
    ensures Answer(parse, [text]) == Deltas(parse, text)
  {
    assert [text][..0] == [];
    assert [text][..1] == [text];
    assert Concat([text]) == text;
    assert Scan(parse, []) == Open;
    assert ReadCountFrom(parse, [text], 1) == 1;
    assert ReadCount(parse, [text]) == 1;
  }

  // ---------------------------------------------------------------------
  // The read loop as a function

  /** What the read loop leaves behind: the buffer, the deltas it emitted
      in order, and whether it met `[DONE]`. */
  datatype Drained = Drained(buffer: string, deltas: seq<string>, done: bool)

  /** The read loop over the complete lines of `buffer`: comments, blank
      and foreign lines are skipped, `[DONE]` ends the stream, a payload
      that parses yields its content, and the first payload that does not
      parse is put back, without its carriage return, and ends the loop. */
  function Drain(parse: string -> JsonField, buffer: string): Drained
    decreases |buffer|
  {
    if '\n' !in buffer then Drained(buffer, [], false)
    else
      var newlineIndex := IndexOf(buffer, '\n');
      var line := StripCR(buffer[..newlineIndex]);
      var rest := buffer[newlineIndex + 1..];
      match Classify(line)
      case Ignored => Drain(parse, rest)
      case Terminator => Drained(rest, [], true)
      case Data(json) =>
        match parse(json)
        case Parsed(content) =>
          var r := Drain(parse, rest);
          Drained(r.buffer, FieldDelta(parse(json)) + r.deltas, r.done)
        case Malformed => Drained(line + "\n" + rest, [], false)
  }

  // ---------------------------------------------------------------------
  // What the read loop preserves

  lemma {:induction false} Associative<T>(a: seq<T>, b: seq<T>, c: seq<T>)
    ensures (a + b) + c == a + (b + c)
  {
  }

  /** Whatever text follows, `text` means the deltas `emitted` followed by
      the meaning of `buffer`. */
  ghost predicate Agrees(parse: string -> JsonField, text: string, emitted: seq<string>, buffer: string) {
    forall rest {:trigger Deltas(parse, text + rest)} :: Deltas(parse, text + rest) == emitted + Deltas(parse, buffer + rest)
  }

  /** Whatever text follows, the read loop meets the same stop in `text` as in `buffer`. */
  ghost predicate ScanAgrees(parse: string -> JsonField, text: string, buffer: string) {
    forall rest {:trigger Scan(parse, text + rest)} :: Scan(parse, text + rest) == Scan(parse, buffer + rest)
  }

  /** The text before the first newline. */
  function HeadLine(buffer: string): string {
    buffer[..IndexOf(buffer, '\n')]
  }

  /** The text after the first newline. */
  function Tail(buffer: string): string
    requires '\n' in buffer
  {
    buffer[IndexOf(buffer, '\n') + 1..]
  }

  /** The buffer starts with a complete line whose payload does not parse. */
  predicate Stalled(parse: string -> JsonField, buffer: string) {
    '\n' in buffer && LineStatus(parse, HeadLine(buffer)) == Stuck
  }

  /** The decoder state (`emitted`, `buffer`, `done`) is faithful to all the
      text `received` so far: nothing is lost, the end flag is up exactly
      when a `[DONE]` line was read, and a complete line is left in the
      buffer only when the loop is stuck on it. */
  ghost predicate Inv(parse: string -> JsonField, received: string, emitted: seq<string>, buffer: string, done: bool) {
    && Agrees(parse, received, emitted, buffer)
    && (done <==> Scan(parse, received) == Terminated)
    && (!done ==> ScanAgrees(parse, received, buffer) && ('\n' in buffer ==> Stalled(parse, buffer)))
  }

  lemma {:induction false} AgreesNow(parse: string -> JsonField, text: string, emitted: seq<string>, buffer: string)
    requires Agrees(parse, text, emitted, buffer)
    ensures Deltas(parse, text) == emitted + Deltas(parse, buffer)
  {
    assert text + [] == text && buffer + [] == buffer;
  }

  lemma {:induction false} ScanAgreesNow(parse: string -> JsonField, text: string, buffer: string)
    requires ScanAgrees(parse, text, buffer)
    ensures Scan(parse, text) == Scan(parse, buffer)
  {
    assert text + [] == text && buffer + [] == buffer;
  }

  lemma {:induction false} AgreesExtend(parse: string -> JsonField, text: string, emitted: seq<string>, buffer: string, chunk: string)
    requires Agrees(parse, text, emitted, buffer)
    ensures Agrees(parse, text + chunk, emitted, buffer + chunk)
  {
    forall rest
      ensures Deltas(parse, (text + chunk) + rest) == emitted + Deltas(parse, (buffer + chunk) + rest)
    {
      Associative(text, chunk, rest);
      Associative(buffer, chunk, rest);
    }
  }

  lemma {:induction false} ScanAgreesExtend(parse: string -> JsonField, text: string, buffer: string, chunk: string)
    requires ScanAgrees(parse, text, buffer)
    ensures ScanAgrees(parse, text + chunk, buffer + chunk)
  {
    forall rest
      ensures Scan(parse, (text + chunk) + rest) == Scan(parse, (buffer + chunk) + rest)
    {
      Associative(text, chunk, rest);
      Associative(buffer, chunk, rest);
    }
  }

  /** Handing one complete line over to the caller. */
  lemma {:induction false} AgreesConsume(parse: string -> JsonField, text: string, emitted: seq<string>, line: string, buffer: string)
    requires '\n' !in line
    requires Agrees(parse, text, emitted, line + "\n" + buffer)
    ensures Agrees(parse, text, emitted + LineDeltas(parse, line), buffer)
  {
    forall rest
      ensures Deltas(parse, text + rest) == (emitted + LineDeltas(parse, line)) + Deltas(parse, buffer + rest)
    {
      Associative(line + "\n", buffer, rest);
      DeltasCons(parse, line, buffer + rest);
      Associative(emitted, LineDeltas(parse, line), Deltas(parse, buffer + rest));
    }
  }

  lemma {:induction false} ScanAgreesConsume(parse: string -> JsonField, text: string, line: string, buffer: string)
    requires '\n' !in line
    requires ScanAgrees(parse, text, line + "\n" + buffer)
    ensures LineStatus(parse, line) != Open ==> Scan(parse, text) == LineStatus(parse, line)
    ensures LineStatus(parse, line) == Open ==> ScanAgrees(parse, text, buffer)
  {
    forall rest
      ensures Scan(parse, text + rest) ==
        if LineStatus(parse, line) != Open then LineStatus(parse, line) else Scan(parse, buffer + rest)
    {
      Associative(line + "\n", buffer, rest);
      ScanCons(parse, line, buffer + rest);
    }
    assert text + [] == text;
  }

  /** A `data: ` line and the same line without its carriage return mean the same. */
  lemma {:induction false} StripCRSameLine(parse: string -> JsonField, line: string)
    requires StartsWith(StripCR(line), DataPrefix)
    ensures LineDeltas(parse, StripCR(line)) == LineDeltas(parse, line)
    ensures LineStatus(parse, StripCR(line)) == LineStatus(parse, line)
  {
    StripCRKeepsPayload(StripCR(line));
  }

  /** Putting a line back without its carriage return changes nothing. */
  lemma {:induction false} AgreesRebuffer(parse: string -> JsonField, text: string, emitted: seq<string>, line: string, buffer: string)
    requires '\n' !in line && StartsWith(StripCR(line), DataPrefix)
    requires Agrees(parse, text, emitted, line + "\n" + buffer)
    requires ScanAgrees(parse, text, line + "\n" + buffer)
    ensures Agrees(parse, text, emitted, StripCR(line) + "\n" + buffer)
    ensures ScanAgrees(parse, text, StripCR(line) + "\n" + buffer)
  {
    var short := StripCR(line);
    assert short == line[..|short|];
    assert '\n' !in short;
    StripCRSameLine(parse, line);
    forall rest
      ensures Deltas(parse, text + rest) == emitted + Deltas(parse, short + "\n" + buffer + rest)
      ensures Scan(parse, text + rest) == Scan(parse, short + "\n" + buffer + rest)
    {
      Associative(line + "\n", buffer, rest);
      Associative(short + "\n", buffer, rest);
      DeltasCons(parse, line, buffer + rest);
      DeltasCons(parse, short, buffer + rest);
      ScanCons(parse, line, buffer + rest);
      ScanCons(parse, short, buffer + rest);
    }
  }

  lemma {:induction false} CutAtNewline(buffer: string)
    requires '\n' in buffer
    ensures buffer == HeadLine(buffer) + "\n" + Tail(buffer)
    ensures '\n' !in HeadLine(buffer)
  {
    var i := IndexOf(buffer, '\n');
    assert buffer == buffer[..i] + [buffer[i]] + buffer[i + 1..];
  }

  lemma {:induction false} HeadLineOf(line: string, rest: string)
    requires '\n' !in line
    ensures '\n' in line + "\n" + rest
    ensures HeadLine(line + "\n" + rest) == line && Tail(line + "\n" + rest) == rest
  {
    var t := line + "\n" + rest;
    assert t[..|line|] == line;
    assert t[|line| + 1..] == rest;
    IndexOfFirst(t, '\n', |line|);
  }

  lemma {:induction false} HeadLineExtend(buffer: string, chunk: string)
    requires '\n' in buffer
    ensures '\n' in buffer + chunk
    ensures HeadLine(buffer + chunk) == HeadLine(buffer) && Tail(buffer + chunk) == Tail(buffer) + chunk
  {
    var i := IndexOf(buffer, '\n');
    assert (buffer + chunk)[..i] == buffer[..i];
    assert (buffer + chunk)[i + 1..] == buffer[i + 1..] + chunk;
    IndexOfFirst(buffer + chunk, '\n', i);
  }

  lemma {:induction false} NoLineNoStop(parse: string -> JsonField, buffer: string)
    requires '\n' !in buffer
    ensures Scan(parse, buffer) == Open
  {
  }

  /** The loop's stop on a line whose payload does not parse. */
  lemma {:induction false} StuckLine(parse: string -> JsonField, raw: string)
    requires LineStatus(parse, raw) == Stuck
    ensures var line := StripCR(raw);
      && Classify(line).Data? && parse(Classify(line).json).Malformed?
      && StartsWith(line, DataPrefix) && LineStatus(parse, line) == Stuck
  {
    PayloadIsPrefixed(StripCR(raw));
    StripCRKeepsPayload(StripCR(raw));
  }

  /** The read loop keeps the decoder faithful to the text read. */
  lemma {:induction false} DrainMeaning(parse: string -> JsonField, received: string, emitted: seq<string>, buffer: string)
    requires Agrees(parse, received, emitted, buffer) && ScanAgrees(parse, received, buffer)
    ensures var d := Drain(parse, buffer);
      Inv(parse, received, emitted + d.deltas, d.buffer, d.done)
    decreases |buffer|
  {
    if '\n' !in buffer {
      ScanAgreesNow(parse, received, buffer);
      NoLineNoStop(parse, buffer);
      assert emitted + [] == emitted;
    } else {
      CutAtNewline(buffer);
      var raw, rest := HeadLine(buffer), Tail(buffer);
      var line := StripCR(raw);
      ScanAgreesConsume(parse, received, raw, rest);
      AgreesConsume(parse, received, emitted, raw, rest);
      match Classify(line)
      case Ignored =>
        assert emitted + [] == emitted;
        DrainMeaning(parse, received, emitted, rest);
      case Terminator =>
        assert emitted + [] == emitted;
      case Data(json) =>
        match parse(json)
        case Parsed(content) =>
          var r := Drain(parse, rest);
          DrainMeaning(parse, received, emitted + FieldDelta(parse(json)), rest);
          Associative(emitted, FieldDelta(parse(json)), r.deltas);
        case Malformed =>
          PayloadIsPrefixed(line);
          StripCRKeepsPayload(line);
          AgreesRebuffer(parse, received, emitted, raw, rest);
          HeadLineOf(line, rest);
          assert emitted + [] == emitted;
    }
  }

  /** Appending a chunk and running the read loop keeps the decoder faithful. */
  lemma {:induction false} PushMeaning(parse: string -> JsonField, received: string, emitted: seq<string>, buffer: string, chunk: string)
    requires Inv(parse, received, emitted, buffer, false)
    ensures var d := Drain(parse, buffer + chunk);
      Inv(parse, received + chunk, emitted + d.deltas, d.buffer, d.done)
  {
    AgreesExtend(parse, received, emitted, buffer, chunk);
    ScanAgreesExtend(parse, received, buffer, chunk);
    DrainMeaning(parse, received + chunk, emitted, buffer + chunk);
  }

  /** A decoder stuck on a payload that does not parse stays stuck and
      emits nothing, whatever arrives next. */
  lemma {:induction false} StalledEmitsNothing(parse: string -> JsonField, buffer: string, chunk: string)
    requires Stalled(parse, buffer)
    ensures var d := Drain(parse, buffer + chunk);
      d.deltas == [] && !d.done && Stalled(parse, d.buffer)
  {
    HeadLineExtend(buffer, chunk);
    var raw, rest := HeadLine(buffer), Tail(buffer) + chunk;
    StuckLine(parse, raw);
    HeadLineOf(StripCR(raw), rest);
  }

  /** What the final flush delivers is the meaning of everything read. */
  lemma {:induction false} FlushMeaning(parse: string -> JsonField, received: string, emitted: seq<string>, buffer: string, done: bool)
    requires Inv(parse, received, emitted, buffer, done)
    ensures emitted + Deltas(parse, buffer) == Deltas(parse, received)
  {
    AgreesNow(parse, received, emitted, buffer);
  }

  /** The decoder after the reader handed out `chunks`, one `Push` each;
      once `[DONE]` was met the state no longer changes. */
  function Run(parse: string -> JsonField, chunks: seq<string>): Drained
    decreases |chunks|
  {
    if chunks == [] then Drained([], [], false)
    else
      var s := Run(parse, chunks[..|chunks| - 1]);
      if s.done then s
      else
        var d := Drain(parse, s.buffer + chunks[|chunks| - 1]);
        Drained(d.buffer, s.deltas + d.deltas, d.done)
  }

  /** Before the reader meets `[DONE]`, the decoder is faithful to the text read. */
  lemma {:induction false} RunMeaning(parse: string -> JsonField, chunks: seq<string>)
    requires chunks == [] || Scan(parse, Concat(chunks[..|chunks| - 1])) != Terminated
    ensures var s := Run(parse, chunks);
      Inv(parse, Concat(chunks), s.deltas, s.buffer, s.done)
    decreases |chunks|
  {
    if chunks == [] {
      NoLineNoStop(parse, []);
    } else {
      var init, last := chunks[..|chunks| - 1], chunks[|chunks| - 1];
      if init != [] {
        assert init[..|init| - 1] == chunks[..|chunks| - 2];
        ConcatPrefix(init, |init| - 1);
        PrefixNotTerminated(parse, Concat(init[..|init| - 1]), Concat(init));
      }
      RunMeaning(parse, init);
      var s := Run(parse, init);
      PushMeaning(parse, Concat(init), s.deltas, s.buffer, last);
    }
  }

  /** What the reader relies on: the end flag is up exactly when the text
      read holds a `[DONE]` line, and the deltas emitted followed by those
      the final flush would emit are the meaning of the text read. */
  lemma {:induction false} RunFacts(parse: string -> JsonField, chunks: seq<string>)
    requires chunks == [] || Scan(parse, Concat(chunks[..|chunks| - 1])) != Terminated
    ensures Run(parse, chunks).done <==> Scan(parse, Concat(chunks)) == Terminated
    ensures Run(parse, chunks).deltas + Deltas(parse, Run(parse, chunks).buffer) == Deltas(parse, Concat(chunks))
  {
    RunMeaning(parse, chunks);
    var s := Run(parse, chunks);
    FlushMeaning(parse, Concat(chunks), s.deltas, s.buffer, s.done);
  }

  // ---------------------------------------------------------------------
  // The decoder

  /** The state `streamChat` keeps while it reads the body: the text
      buffer, the end flag, and the deltas handed to `onDelta` so far. */
  class SseDecoder {
    const parse: string -> JsonField
    var textBuffer: string
    var streamDone: bool
    var emitted: seq<string>

    constructor (parse: string -> JsonField)
      ensures this.parse == parse
      ensures textBuffer == [] && !streamDone && emitted == []
    {
      this.parse := parse;
      textBuffer := [];
      streamDone := false;
      emitted := [];
    }

    /** One successful `reader.read()`: the chunk is appended to the buffer
        and the complete lines are handled until `[DONE]` or a payload that
        does not parse. */
    method Push(chunk: string)
      requires !streamDone
      modifies this
      ensures var d := Drain(parse, old(textBuffer) + chunk);
        textBuffer == d.buffer && emitted == old(emitted) + d.deltas && streamDone == d.done
    {
      textBuffer := textBuffer + chunk;
      ghost var goal := Drain(parse, textBuffer);
      ghost var before := emitted;

      while '\n' in textBuffer
        invariant !streamDone
        invariant Drain(parse, textBuffer).buffer == goal.buffer
        invariant Drain(parse, textBuffer).done == goal.done
        invariant emitted + Drain(parse, textBuffer).deltas == before + goal.deltas
        decreases |textBuffer|
      {
        ghost var whole := textBuffer;
        var newlineIndex := IndexOf(textBuffer, '\n');
        var line := textBuffer[..newlineIndex];
        textBuffer := textBuffer[newlineIndex + 1..];
        line := StripCR(line);
        match Classify(line)
        case Ignored =>
        case Terminator =>
          assert emitted + [] == emitted;
          streamDone := true;
          break;
        case Data(json) =>
          match parse(json)
          case Parsed(content) =>
            Associative(emitted, FieldDelta(parse(json)), Drain(parse, textBuffer).deltas);
            if content.Some? && content.value != "" {
              emitted := emitted + [content.value];
            } else {
              assert emitted + [] == emitted;
            }
          case Malformed =>
            assert emitted + [] == emitted;
            textBuffer := line + "\n" + textBuffer;
            break;
      }
      if !streamDone && '\n' !in textBuffer {
        assert emitted + [] == emitted;
      }
    }

    /** The end-of-body flush: every line left in the buffer, in order. */
    method Flush()
      modifies this`emitted
      ensures emitted == old(emitted) + Deltas(parse, textBuffer)
    {
      if Trim(textBuffer) == [] {
        TrimEmptyIffBlank(textBuffer);
        BlankYieldsNothing(parse, textBuffer);
        return;
      }
      FlushLines(Split(textBuffer, '\n'));
    }

    /** The loop of the final flush, over the lines of the buffer. */
    method FlushLines(pieces: seq<string>)
      modifies this`emitted
      ensures emitted == old(emitted) + FlatMap(LineDeltasOf(parse), pieces)
    {
      for k := 0 to |pieces|
        invariant emitted == old(emitted) + FlatMap(LineDeltasOf(parse), pieces[..k])
      {
        FlatMapStep(LineDeltasOf(parse), pieces, k);
        FlushLine(pieces[k]);
      }
      assert pieces[..|pieces|] == pieces;
    }

    /** One line of the final flush: it goes through the same filters as in
        the read loop, but `[DONE]` and a payload that does not parse are
        only skipped. */
    method FlushLine(raw: string)
      modifies this`emitted
      ensures emitted == old(emitted) + LineDeltas(parse, raw)
    {
      if raw == [] {
        return;
      }
      var line := StripCR(raw);
      match Classify(line)
      case Ignored =>
      case Terminator =>
      case Data(json) =>
        match parse(json)
        case Parsed(content) =>
          if content.Some? && content.value != "" {
            emitted := emitted + [content.value];
          }
        case Malformed =>
    }
  }

  // ---------------------------------------------------------------------
  // The response

  /** How the body ends after its last chunk: it closes, or the pending
      `reader.read()` rejects (an abort, a dropped connection). */
  datatype StreamEnd = Closed | Interrupted(error: ChatError)

  datatype Body = Body(chunks: seq<string>, end: StreamEnd)

  /** `status`, the text of the body for a failed response, and the body
      stream (`None` when `resp.body` is null). */
  datatype Response = Response(status: nat, errorText: string, body: Option<Body>)

  /** One request: either `fetch` rejects, or a response arrives. */
  datatype Exchange = FetchFailed(error: ChatError) | Answered(response: Response)

  /** What `streamChat` throws: an `AbortError`, an error carrying the HTTP
      status, or any other error with its message. */
  datatype ChatError = AbortError | HttpError(status: nat, message: string) | Failure(message: string)

  predicate IsOk(status: nat) {
    200 <= status <= 299
  }

  /** `Request failed (<status>)`. */
  function FallbackMessage(status: nat): string
  {
    "Request failed (" + NatToString(status) + ")"
  }

  /** The message of the error thrown for a response that is not ok: the
      body's `error` field when the body parses and the field is truthy (a
      non-empty string), otherwise the fallback naming the status. */
  function ErrorMessage(parseError: string -> JsonField, status: nat, text: string): (msg: string)
    ensures msg != []
    ensures Truthy(parseError(text)) ==> msg == parseError(text).field.value
    ensures !Truthy(parseError(text)) ==> msg == FallbackMessage(status)
  {
    match parseError(text)
    case Parsed(Some(e)) => if e != [] then e else FallbackMessage(status)
    case _ => FallbackMessage(status)
  }

  /** Where the reader stops: after the last chunk, or after the chunk
      that completes a `[DONE]` line. */
  lemma {:induction false} ReadEnd(parse: string -> JsonField, chunks: seq<string>, read: nat)
    requires read <= |chunks|
    requires read == |chunks| || Scan(parse, Concat(chunks[..read])) == Terminated
    requires read == 0 || Scan(parse, Concat(chunks[..read - 1])) != Terminated
    requires ReadCountFrom(parse, chunks, read) == ReadCount(parse, chunks)
    ensures read == ReadCount(parse, chunks)
    ensures var s := Run(parse, chunks[..read]);
      && (s.done <==> Scan(parse, Concat(chunks)) == Terminated)
      && s.deltas + Deltas(parse, s.buffer) == Answer(parse, chunks)
      && (!s.done ==> read == |chunks| && s.deltas + Deltas(parse, s.buffer) == Deltas(parse, Concat(chunks)))
      && (!s.done ==> s == Run(parse, chunks))
  {
    if read > 0 {
      assert chunks[..read][..read - 1] == chunks[..read - 1];
    }
    RunFacts(parse, chunks[..read]);
    ConcatPrefix(chunks, read);
    if Scan(parse, Concat(chunks)) != Terminated {
      PrefixNotTerminated(parse, Concat(chunks[..read]), Concat(chunks));
    }
    if read == |chunks| {
      assert chunks[..read] == chunks;
    }
  }

  /** The read loop of `streamChat`: chunks are pushed into a new decoder
      until the body ends or `[DONE]` was met. `read` is the number of
      chunks taken from the reader. */
  method ReadChunks(parse: string -> JsonField, chunks: seq<string>) returns (decoder: SseDecoder, read: nat)
    ensures fresh(decoder) && decoder.parse == parse
    ensures read == ReadCount(parse, chunks)
    ensures decoder.streamDone <==> Scan(parse, Concat(chunks)) == Terminated
    ensures decoder.emitted + Deltas(parse, decoder.textBuffer) == Answer(parse, chunks)
    ensures !decoder.streamDone ==>
      read == |chunks| && decoder.emitted + Deltas(parse, decoder.textBuffer) == Deltas(parse, Concat(chunks))
    ensures !decoder.streamDone ==> decoder.emitted == Run(parse, chunks).deltas
  {
    decoder := new SseDecoder(parse);
    read := 0;
    while read < |chunks| && !decoder.streamDone
      invariant decoder.parse == parse
      invariant read <= |chunks|
      invariant decoder.textBuffer == Run(parse, chunks[..read]).buffer
      invariant decoder.emitted == Run(parse, chunks[..read]).deltas
      invariant decoder.streamDone == Run(parse, chunks[..read]).done
      invariant read == 0 || Scan(parse, Concat(chunks[..read - 1])) != Terminated
      invariant decoder.streamDone <==> Scan(parse, Concat(chunks[..read])) == Terminated
      invariant ReadCountFrom(parse, chunks, read) == ReadCount(parse, chunks)
      decreases |chunks| - read
    {
      decoder.Push(chunks[read]);
      assert chunks[..read + 1][..read] == chunks[..read];
      read := read + 1;
      RunFacts(parse, chunks[..read]);
    }
    ReadEnd(parse, chunks, read);
  }

  /** The read loop and the final flush: the deltas handed to `onDelta`,
      and the error of a read that rejects. */
  method ReadBody(parse: string -> JsonField, body: Body) returns (deltas: seq<string>, read: nat, err: Option<ChatError>)
    ensures read == ReadCount(parse, body.chunks)
    ensures err.None? ==> deltas == Answer(parse, body.chunks)
    ensures err.Some? <==> body.end.Interrupted? && Scan(parse, Concat(body.chunks)) != Terminated
    ensures err.Some? ==> err.value == body.end.error && read == |body.chunks|
    ensures err.Some? ==> deltas <= Deltas(parse, Concat(body.chunks))
    ensures err.Some? ==> deltas == Run(parse, body.chunks).deltas
  {
    var decoder;
    decoder, read := ReadChunks(parse, body.chunks);
    if !decoder.streamDone && body.end.Interrupted? {
      deltas, err := decoder.emitted, Some(body.end.error);
      return;
    }
    decoder.Flush();
    deltas, err := decoder.emitted, None;
  }

  /** What one call of `streamChat` hands to `onDelta`, in order, and the
      error it throws, if any. */
  datatype Reply = Reply(deltas: seq<string>, error: Option<ChatError>)

  /** The reply to one exchange: a rejected fetch or a response that is not
      ok throws before any delta; a missing body throws `Stream start
      failed`; otherwise the answer of the body, unless the body breaks off
      before `[DONE]`, in which case the deltas of the chunks read are
      followed by the reader's error. */
  function Expected(exchange: Exchange, parse: string -> JsonField, parseError: string -> JsonField): Reply {
    match exchange
    case FetchFailed(e) => Reply([], Some(e))
    case Answered(resp) =>
      if !IsOk(resp.status) then
        Reply([], Some(HttpError(resp.status, ErrorMessage(parseError, resp.status, resp.errorText))))
      else match resp.body
        case None => Reply([], Some(Failure("Stream start failed")))
        case Some(b) =>
          if b.end.Interrupted? && Scan(parse, Concat(b.chunks)) != Terminated then
            Reply(Run(parse, b.chunks).deltas, Some(b.end.error))
          else Reply(Answer(parse, b.chunks), None)
  }

  /** `streamChat` for one request: the deltas handed to `onDelta`, in
      order, and the error it throws, if any. */
  method Stream(exchange: Exchange, parse: string -> JsonField, parseError: string -> JsonField)
    returns (deltas: seq<string>, err: Option<ChatError>)
    ensures exchange.FetchFailed? ==> deltas == [] && err == Some(exchange.error)
    ensures exchange.Answered? && !IsOk(exchange.response.status) ==>
      var r := exchange.response;
      deltas == [] && err == Some(HttpError(r.status, ErrorMessage(parseError, r.status, r.errorText)))
    ensures exchange.Answered? && IsOk(exchange.response.status) && exchange.response.body.None? ==>
      deltas == [] && err == Some(Failure("Stream start failed"))
    ensures exchange.Answered? && IsOk(exchange.response.status) && exchange.response.body.Some? ==>
      var b := exchange.response.body.value;
      && (err.None? ==> deltas == Answer(parse, b.chunks))
      && (err.Some? <==> b.end.Interrupted? && Scan(parse, Concat(b.chunks)) != Terminated)
      && (err.Some? ==> err.value == b.end.error && deltas <= Deltas(parse, Concat(b.chunks)))
    ensures Reply(deltas, err) == Expected(exchange, parse, parseError)
  {
    match exchange
    case FetchFailed(e) =>
      deltas, err := [], Some(e);
    case Answered(resp) =>
      if !IsOk(resp.status) {
        deltas := [];
        err := Some(HttpError(resp.status, ErrorMessage(parseError, resp.status, resp.errorText)));
        return;
      }
      match resp.body
      case None =>
        deltas, err := [], Some(Failure("Stream start failed"));
      case Some(b) =>
        var read;
        deltas, read, err := ReadBody(parse, b);
  }
}
