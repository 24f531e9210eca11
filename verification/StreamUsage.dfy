/**
 * Usage collected from a stream of server-sent events, chunk by chunk. The stream is a sequence of one-byte characters;
 * what one complete event says is given by a reader.
 */
module StreamUsage {
  import opened Money

  /** What one event tells: that the response is complete, and perhaps a usage report. */
  datatype Reading = Reading(done: bool, report: Report)

  datatype State = State(buffer: string, receivedBytes: nat, collected: Usage, completed: bool)

  // ----- events and what separates them

  /** Where the separator that starts at i ends: two line ends, each with or without a carriage return. */
  function SeparatorEnd(s: string, i: nat): (end: Option<nat>)
    ensures end.Some? ==> i + 2 <= end.value <= |s| && end.value <= i + 4
  {
    var j := if i < |s| && s[i] == '\r' then i + 1 else i;
    if j >= |s| || s[j] != '\n' then None
    else
      var k := if j + 1 < |s| && s[j + 1] == '\r' then j + 2 else j + 1;
      if k >= |s| || s[k] != '\n' then None else Some(k + 1)
  }

  /** A separator is two line ends, each of them a line feed or a carriage return and a line feed. */
  lemma SeparatorsAre(s: string, i: nat, end: nat)
    ensures SeparatorEnd(s, i) == Some(end)
            <==> i <= end <= |s| && s[i..end] in {"\n\n", "\r\n\n", "\n\r\n", "\r\n\r\n"}
  {
    if i <= end <= |s| && s[i..end] in {"\n\n", "\r\n\n", "\n\r\n", "\r\n\r\n"} {
      assert forall k :: i <= k < end ==> s[k] == s[i..end][k - i];
    }
    if SeparatorEnd(s, i) == Some(end) {
      assert |s[i..end]| == end - i && forall k :: 0 <= k < end - i ==> s[i..end][k] == s[i + k];
      if end == i + 2 { assert s[i..end] == "\n\n"; }
      else if end == i + 4 { assert s[i..end] == "\r\n\r\n"; }
      else if s[i] == '\r' { assert s[i..end] == "\r\n\n"; }
      else { assert s[i..end] == "\n\r\n"; }
    }
  }

  /** The leftmost separator at or after i. */
  function FindSeparator(s: string, i: nat): (found: Option<nat>)
    requires i <= |s|
    ensures found.Some? ==> i <= found.value < |s| && SeparatorEnd(s, found.value).Some?
    ensures found.Some? ==> forall j :: i <= j < found.value ==> SeparatorEnd(s, j).None?
    ensures found.None? ==> forall j :: i <= j < |s| ==> SeparatorEnd(s, j).None?
    decreases |s| - i
  {
    if i == |s| then None
    else if SeparatorEnd(s, i).Some? then Some(i)
    else FindSeparator(s, i + 1)
  }

  datatype Pieces = Pieces(events: seq<string>, rest: string)

  /** The complete events of a text and what is left over. */
  function Split(s: string): Pieces
    decreases |s|
  {
    var at := FindSeparator(s, 0);
    if at.None? then Pieces([], s)
    else
      var tail := Split(s[SeparatorEnd(s, at.value).value..]);
      Pieces([s[..at.value]] + tail.events, tail.rest)
  }

  // A separator found in a text stays where it is when the text goes on.
  lemma SeparatorStays(s: string, t: string, i: nat)
    requires SeparatorEnd(s, i).Some?
    ensures SeparatorEnd(s + t, i) == SeparatorEnd(s, i)
  {
  }

  /** More text never opens a separator further left: the one already there would have to be a part of it. */
  lemma LeftmostStays(s: string, t: string)
    requires FindSeparator(s, 0).Some?
    ensures FindSeparator(s + t, 0) == FindSeparator(s, 0)
  {
    var i := FindSeparator(s, 0).value;
    SeparatorStays(s, t, i);
    forall j | 0 <= j < i ensures SeparatorEnd(s + t, j).None? {
      assert SeparatorEnd(s, j).None?;
      if j + 4 <= |s| {
        assert forall k :: j <= k < j + 4 ==> (s + t)[k] == s[k];
      } else {
        assert i == |s| - 2 && j == |s| - 3;
        assert s[i] == '\n' && s[i + 1] == '\n';
      }
    }
  }

  lemma SplitOff(s: string)
    requires FindSeparator(s, 0).Some?
    ensures var i := FindSeparator(s, 0).value;
            var tail := Split(s[SeparatorEnd(s, i).value..]);
            Split(s) == Pieces([s[..i]] + tail.events, tail.rest)
  {
    hide SeparatorEnd, FindSeparator;
  }

  /** Splitting a longer text goes on where splitting the shorter one left off. */
  lemma {:induction false} SplitContinues(s: string, t: string)
    ensures Split(s + t) == Pieces(Split(s).events + Split(Split(s).rest + t).events, Split(Split(s).rest + t).rest)
    decreases |s|
  {
    hide SeparatorEnd, FindSeparator;
    if FindSeparator(s, 0).None? {
      assert Split(s) == Pieces([], s);
    } else {
      hide Split;
      var i := FindSeparator(s, 0).value;
      LeftmostStays(s, t);
      SeparatorStays(s, t, i);
      var end := SeparatorEnd(s, i).value;
      assert (s + t)[end..] == s[end..] + t && (s + t)[..i] == s[..i];
      SplitOff(s);
      SplitOff(s + t);
      SplitContinues(s[end..], t);
    }
  }

  // ----- collecting

  function Combined(a: Usage, b: Usage): Usage {
    Usage(Max(a.inputTokens, b.inputTokens), Max(a.outputTokens, b.outputTokens), Max(a.cachedTokens, b.cachedTokens),
          Max(a.reasoningTokens, b.reasoningTokens), a.upstream || b.upstream, Max(a.unpricedTokens, b.unpricedTokens))
  }

  function WithReport(usage: Usage, report: Report): Usage {
    if report.Missing? then usage else Combined(usage, Normalised(report))
  }

  function Collect(usage: Usage, events: seq<string>, read: string -> Reading): Usage
    decreases events
  {
    if events == [] then usage
    else
      Collect(WithReport(usage, read(events[0]).report), events[1..], read)
  }

  predicate AnyDone(events: seq<string>, read: string -> Reading) {
    exists i :: 0 <= i < |events| && read(events[i]).done
  }

  /** What a chunk does to a collector. */
  function Pushed(s: State, chunk: string, read: string -> Reading): State {
    var pieces := Split(s.buffer + chunk);
    State(pieces.rest, s.receivedBytes + |chunk|, Collect(s.collected, pieces.events, read),
          s.completed || AnyDone(pieces.events, read))
  }

  lemma {:induction false} CollectAppends(usage: Usage, first: seq<string>, second: seq<string>, read: string -> Reading)
    ensures Collect(usage, first + second, read) == Collect(Collect(usage, first, read), second, read)
    decreases first
  {
    if first == [] {
      assert first + second == second;
    } else {
      assert (first + second)[1..] == first[1..] + second;
      CollectAppends(WithReport(usage, read(first[0]).report), first[1..], second, read);
    }
  }

  lemma AnyDoneAppends(first: seq<string>, second: seq<string>, read: string -> Reading)
    ensures AnyDone(first + second, read) <==> AnyDone(first, read) || AnyDone(second, read)
  {
    var both := first + second;
    if AnyDone(first, read) {
      var i :| 0 <= i < |first| && read(first[i]).done;
      assert both[i] == first[i];
    }
    if AnyDone(second, read) {
      var i :| 0 <= i < |second| && read(second[i]).done;
      assert both[|first| + i] == second[i];
    }
  }

  /** Two chunks are as good as one. */
  lemma ChunksJoin(s: State, a: string, b: string, read: string -> Reading)
    ensures Pushed(Pushed(s, a, read), b, read) == Pushed(s, a + b, read)
  {
    hide Split, Collect, AnyDone;
    var first := Split(s.buffer + a);
    var second := Split(first.rest + b);
    assert s.buffer + (a + b) == (s.buffer + a) + b;
    SplitContinues(s.buffer + a, b);
    CollectAppends(s.collected, first.events, second.events, read);
    AnyDoneAppends(first.events, second.events, read);
  }

  function Concat(chunks: seq<string>): string {
    if chunks == [] then "" else Concat(chunks[..|chunks| - 1]) + chunks[|chunks| - 1]
  }

  const START := State("", 0, NO_USAGE, false)

  // ----- what is collected

  predicate Below(a: Usage, b: Usage) {
    a.inputTokens <= b.inputTokens && a.outputTokens <= b.outputTokens && a.cachedTokens <= b.cachedTokens
    && a.reasoningTokens <= b.reasoningTokens && a.unpricedTokens <= b.unpricedTokens && (a.upstream ==> b.upstream)
  }

  predicate IsUpperBound(bound: Usage, from: Usage, events: seq<string>, read: string -> Reading) {
    Below(from, bound)
    && forall i :: 0 <= i < |events| && !read(events[i]).report.Missing? ==> Below(Normalised(read(events[i]).report), bound)
  }

  /** The collected usage is the least one above every report: field by field, the maximum over the complete events. */
  lemma {:induction false} CollectedIsTheMaximum(from: Usage, events: seq<string>, read: string -> Reading, bound: Usage)
    ensures IsUpperBound(Collect(from, events, read), from, events, read)
    ensures IsUpperBound(bound, from, events, read) ==> Below(Collect(from, events, read), bound)
    decreases events
  {
    if events != [] {
      var report := read(events[0]).report;
      var next := WithReport(from, report);
      CollectedIsTheMaximum(next, events[1..], read, bound);
      var collected := Collect(next, events[1..], read);
      forall i | 0 <= i < |events| && !read(events[i]).report.Missing? ensures Below(Normalised(read(events[i]).report), collected) {
        if i > 0 { assert events[i] == events[1..][i - 1]; }
      }
      if IsUpperBound(bound, from, events, read) {
        assert Below(next, bound) by { assert !report.Missing? ==> Below(Normalised(report), bound); }
        forall i | 0 <= i < |events[1..]| && !read(events[1..][i]).report.Missing?
          ensures Below(Normalised(read(events[1..][i]).report), bound)
        {
          assert events[1..][i] == events[i + 1];
        }
      }
    }
  }

  // ----- the collector

  class StreamUsageCollector {
    const read: string -> Reading
    var buffer: string
    var receivedBytes: nat
    var collected: Usage
    var completed: bool

    function Value(): State
      reads this
    {
      State(buffer, receivedBytes, collected, completed)
    }

    constructor (read: string -> Reading)
      ensures this.read == read && Value() == START
    {
      this.read := read;
      buffer, receivedBytes, collected, completed := "", 0, NO_USAGE, false;
    }

    /** The loop over the complete events of a chunk. */
    method TakeEvents(events: seq<string>)
      modifies this`collected, this`completed
      ensures collected == Collect(old(collected), events, read) && completed == (old(completed) || AnyDone(events, read))
    {
      hide Combined, Normalised, AnyDone;
      var i := 0;
      NoneDone(read);
      while i < |events|
        invariant 0 <= i <= |events|
        invariant Collect(collected, events[i..], read) == Collect(old(collected), events, read)
        invariant completed == (old(completed) || AnyDone(events[..i], read))
      {
        assert events[i..][1..] == events[i + 1..];
        assert events[..i + 1] == events[..i] + [events[i]];
        AnyDoneAppends(events[..i], [events[i]], read);
        OneDone(events[i], read);
        var reading := read(events[i]);
        if reading.done { completed := true; }
        if !reading.report.Missing? { collected := Combined(collected, Normalised(reading.report)); }
        i := i + 1;
      }
      assert events[..i] == events;
    }

    method Push(chunk: string)
      modifies this
      ensures Value() == Pushed(old(Value()), chunk, read)
    {
      hide Split, Collect, AnyDone;
      receivedBytes := receivedBytes + |chunk|;
      buffer := buffer + chunk;
      var pieces := Split(buffer);
      buffer := pieces.rest;
      TakeEvents(pieces.events);
    }

    /** However a stream is cut into chunks, the collector ends up as if it had come in one piece. */
    method PushAll(chunks: seq<string>)
      modifies this
      ensures Value() == if chunks == [] then old(Value()) else Pushed(old(Value()), Concat(chunks), read)
    {
      var i := 0;
      while i < |chunks|
        invariant 0 <= i <= |chunks|
        invariant Value() == if i == 0 then old(Value()) else Pushed(old(Value()), Concat(chunks[..i]), read)
      {
        hide Pushed;
        if i > 0 { ChunksJoin(old(Value()), Concat(chunks[..i]), chunks[i], read); }
        assert chunks[..i + 1][..i] == chunks[..i];
        if i == 0 { assert Concat(chunks[..1]) == "" + chunks[0] == chunks[0]; }
        Push(chunks[i]);
        i := i + 1;
      }
      assert chunks[..i] == chunks;
    }

    /** A whole stream, from the start. */
    method PushWhole(chunks: seq<string>)
      requires Value() == START
      modifies this
      ensures Value() == Streamed(chunks, read)
    {
      hide Split, Collect, AnyDone;
      EmptyChunk(read);
      PushAll(chunks);
    }

    /** The reported usage, or without any report tokens guessed from the bytes received. */
    method Usage(estimatedInputTokens: int) returns (usage: Usage)
      ensures usage == UsageOf(Value(), estimatedInputTokens)
    {
      if collected.upstream { return collected; }
      usage := Money.Usage(Max(1, estimatedInputTokens), Max(1, CeilDiv(receivedBytes, 4)), 0, 0, false, 0);
    }
  }

  function UsageOf(s: State, estimatedInputTokens: int): Usage {
    if s.collected.upstream then s.collected else GuessedUsage(estimatedInputTokens, s.receivedBytes)
  }

  /** The state after a whole stream. */
  function Streamed(chunks: seq<string>, read: string -> Reading): State {
    Pushed(START, Concat(chunks), read)
  }

  predicate Reports(stream: string, read: string -> Reading, report: Report) {
    exists i :: 0 <= i < |Split(stream).events| && read(Split(stream).events[i]).report == report
  }

  lemma StreamedIs(chunks: seq<string>, read: string -> Reading)
    ensures Streamed(chunks, read).collected == Collect(NO_USAGE, Split(Concat(chunks)).events, read)
    ensures Streamed(chunks, read).receivedBytes == |Concat(chunks)|
  {
    hide Split, Collect, Concat, AnyDone;
    assert "" + Concat(chunks) == Concat(chunks);
  }

  /** The usage of a stream is an upstream's exactly if a complete event reports counts; otherwise it is a guess from all its bytes. */
  lemma StreamedUsageMeans(chunks: seq<string>, read: string -> Reading, estimatedInputTokens: int)
    ensures var usage := UsageOf(Streamed(chunks, read), estimatedInputTokens);
            usage.upstream <==> exists report: Report :: report.Reported? && Reports(Concat(chunks), read, report)
    ensures var usage := UsageOf(Streamed(chunks, read), estimatedInputTokens);
            !usage.upstream ==> usage == GuessedUsage(estimatedInputTokens, |Concat(chunks)|)
  {
    hide Split, Concat, Collect, Streamed;
    StreamedIs(chunks, read);
    var stream := Concat(chunks);
    var events := Split(stream).events;
    UpstreamMeans(NO_USAGE, events, read);
    if i :| 0 <= i < |events| && read(events[i]).report.Reported? {
      assert Reports(stream, read, read(events[i]).report);
    }
  }

  lemma {:induction false} UpstreamMeans(from: Usage, events: seq<string>, read: string -> Reading)
    ensures Collect(from, events, read).upstream
            <==> from.upstream || exists i :: 0 <= i < |events| && read(events[i]).report.Reported?
    decreases events
  {
    if events != [] {
      UpstreamMeans(WithReport(from, read(events[0]).report), events[1..], read);
      forall i | 0 < i < |events| ensures events[i] == events[1..][i - 1] {
      }
      if i :| 0 <= i < |events[1..]| && read(events[1..][i]).report.Reported? {
        assert read(events[i + 1]).report.Reported?;
      }
    }
  }

  /** A stream is complete exactly if one of its complete events says so; what follows the last separator says nothing. */
  lemma CompletedMeans(chunks: seq<string>, read: string -> Reading)
    ensures Streamed(chunks, read).completed
            <==> exists i :: 0 <= i < |Split(Concat(chunks)).events| && read(Split(Concat(chunks)).events[i]).done
    ensures Streamed(chunks, read).buffer == Split(Concat(chunks)).rest
  {
    hide Split, Collect, Concat;
    assert "" + Concat(chunks) == Concat(chunks);
  }

  /** Every report of a stream is within token bounds. */
  ghost predicate ReportsWithin(stream: string, read: string -> Reading, inputTokens: nat, outputTokens: nat) {
    forall report: Report :: Reports(stream, read, report) ==> Within(Normalised(report), inputTokens, outputTokens)
  }

  lemma CollectWithin(events: seq<string>, read: string -> Reading, inputTokens: nat, outputTokens: nat)
    requires forall i :: 0 <= i < |events| ==> Within(Normalised(read(events[i]).report), inputTokens, outputTokens)
    ensures Within(Collect(NO_USAGE, events, read), inputTokens, outputTokens)
  {
    hide Normalised;
    var collected := Collect(NO_USAGE, events, read);
    var bound := Usage(inputTokens, outputTokens, inputTokens, outputTokens, true, collected.unpricedTokens);
    CollectedIsTheMaximum(NO_USAGE, events, read, bound);
    hide Collect;
  }

  /** Then so is what is collected from it. */
  lemma CollectedWithin(chunks: seq<string>, read: string -> Reading, inputTokens: nat, outputTokens: nat)
    requires ReportsWithin(Concat(chunks), read, inputTokens, outputTokens)
    ensures Within(Streamed(chunks, read).collected, inputTokens, outputTokens)
  {
    hide Split, Concat, Collect, Streamed, Within, Normalised;
    StreamedIs(chunks, read);
    var stream := Concat(chunks);
    var events := Split(stream).events;
    forall i | 0 <= i < |events| ensures Within(Normalised(read(events[i]).report), inputTokens, outputTokens) {
      assert Reports(stream, read, read(events[i]).report);
    }
    CollectWithin(events, read, inputTokens, outputTokens);
  }

  lemma EmptyChunk(read: string -> Reading)
    ensures Pushed(START, "", read) == START
  {
    assert "" + "" == "";
  }

  lemma NoneDone(read: string -> Reading)
    ensures !AnyDone([], read)
  {
  }

  lemma OneDone(event: string, read: string -> Reading)
    ensures AnyDone([event], read) <==> read(event).done
  {
    if read(event).done { assert read([event][0]).done; }
  }
}
