/** Recognition result batches: what the `onresult` callback reads from an
    event and how it splits the batch into final and interim text. */
module Results {

  /** One entry of the event's result list, reduced to the text of its first
      alternative and its finality flag. */
  datatype Segment = Segment(transcript: string, isFinal: bool)

  /** One `onresult` event: the whole result list and the index of the first changed entry. */
  datatype Batch = Batch(results: seq<Segment>, resultIndex: nat)

  /** The entries a callback visits: `results[resultIndex..]`, none when the index is past the end. */
  function Fresh(b: Batch): seq<Segment>
  {
    if b.resultIndex <= |b.results| then b.results[b.resultIndex..] else []
  }

  /** The transcripts of the segments whose finality is `final`, concatenated in order. */
  function Joined(segs: seq<Segment>, final: bool): string
  {
    if segs == [] then ""
    else
      var last := segs[|segs| - 1];
      Joined(segs[..|segs| - 1], final) + (if last.isFinal == final then last.transcript else "")
  }

  /** Every transcript, final or not, concatenated in order. */
  function Spoken(segs: seq<Segment>): string
  {
    if segs == [] then "" else Spoken(segs[..|segs| - 1]) + segs[|segs| - 1].transcript
  }

  /** Selecting one kind of segment distributes over concatenation of segment lists. */
  lemma {:induction false} JoinedAppend(a: seq<Segment>, b: seq<Segment>, final: bool)
    ensures Joined(a + b, final) == Joined(a, final) + Joined(b, final)
    decreases |b|
  {
    if b == [] {
      assert a + b == a;
    } else {
      var init, last := b[..|b| - 1], b[|b| - 1];
      var tail := if last.isFinal == final then last.transcript else "";
      assert (a + b)[..|a + b| - 1] == a + init;
      assert (a + b)[|a + b| - 1] == last;
      JoinedAppend(a, init, final);
      var left, right := Joined(a, final), Joined(init, final);
      assert (left + right) + tail == left + (right + tail);
    }
  }

  /** The selected text is empty exactly when every segment of that kind has an empty transcript. */
  lemma {:induction false} JoinedEmpty(segs: seq<Segment>, final: bool)
    ensures Joined(segs, final) == "" <==>
      forall i :: 0 <= i < |segs| && segs[i].isFinal == final ==> segs[i].transcript == ""
  {
    if segs != [] {
      var init := segs[..|segs| - 1];
      JoinedEmpty(init, final);
      assert forall i :: 0 <= i < |init| ==> init[i] == segs[i];
    }
  }

  /** Splitting a batch into final and interim text loses no character. */
  lemma {:induction false} SplitKeepsEverything(segs: seq<Segment>)
    ensures |Joined(segs, true)| + |Joined(segs, false)| == |Spoken(segs)|
  {
    if segs != [] {
      SplitKeepsEverything(segs[..|segs| - 1]);
    }
  }

  /** The loop of `onresult`: scans the fresh entries once, in order, collecting
      final and interim transcripts separately. */
  method ScanBatch(b: Batch) returns (finalText: string, interimText: string)
    ensures finalText == Joined(Fresh(b), true)
    ensures interimText == Joined(Fresh(b), false)
  {
    finalText, interimText := "", "";
    var i := b.resultIndex;
    while i < |b.results|
      invariant b.resultIndex <= i
      invariant i <= |b.results| || i == b.resultIndex
      invariant i <= |b.results| ==> finalText == Joined(b.results[b.resultIndex..i], true)
      invariant i <= |b.results| ==> interimText == Joined(b.results[b.resultIndex..i], false)
      invariant i > |b.results| ==> finalText == "" && interimText == ""
    {
      var segment := b.results[i];
      assert b.results[b.resultIndex..i + 1][..i - b.resultIndex] == b.results[b.resultIndex..i];
      if segment.isFinal {
        finalText := finalText + segment.transcript;
      } else {
        interimText := interimText + segment.transcript;
      }
      i := i + 1;
    }
    assert b.resultIndex <= |b.results| ==> b.results[b.resultIndex..i] == Fresh(b);
  }

  /** The segments delivered by a series of events, in delivery order. */
  function Delivered(batches: seq<Batch>): seq<Segment>
  {
    if batches == [] then [] else Delivered(batches[..|batches| - 1]) + Fresh(batches[|batches| - 1])
  }

  /** The transcript after a series of `onresult` events: each appends its final text, if any. */
  function Accumulated(transcript: string, batches: seq<Batch>): string
  {
    if batches == [] then transcript
    else
      var finalText := Joined(Fresh(batches[|batches| - 1]), true);
      var before := Accumulated(transcript, batches[..|batches| - 1]);
      if finalText != "" then before + finalText else before
  }

  /** The translation requests a series of events issues: one per event with non-empty final text. */
  function Requests(batches: seq<Batch>): seq<string>
  {
    if batches == [] then []
    else
      var finalText := Joined(Fresh(batches[|batches| - 1]), true);
      Requests(batches[..|batches| - 1]) + (if finalText != "" then [finalText] else [])
  }

  /** The strings of `parts` concatenated in order. */
  function Concat(parts: seq<string>): string
  {
    if parts == [] then "" else Concat(parts[..|parts| - 1]) + parts[|parts| - 1]
  }

  /** One more event appends its final text (possibly empty) to the transcript. */
  lemma AccumulatedStep(transcript: string, batches: seq<Batch>)
    requires batches != []
    ensures Accumulated(transcript, batches)
      == Accumulated(transcript, batches[..|batches| - 1]) + Joined(Fresh(batches[|batches| - 1]), true)
  {
    var before, added := Accumulated(transcript, batches[..|batches| - 1]), Joined(Fresh(batches[|batches| - 1]), true);
    if added == "" {
      assert before + added == before;
    }
  }

  /** The transcript grows by exactly the final segments of every delivery, in delivery order. */
  lemma {:induction false} AccumulatedIsFinalText(transcript: string, batches: seq<Batch>)
    ensures Accumulated(transcript, batches) == transcript + Joined(Delivered(batches), true)
  {
    if batches != [] {
      var init, newest := batches[..|batches| - 1], Fresh(batches[|batches| - 1]);
      AccumulatedStep(transcript, batches);
      AccumulatedIsFinalText(transcript, init);
      assert Delivered(batches) == Delivered(init) + newest;
      JoinedAppend(Delivered(init), newest, true);
      var before, added := Joined(Delivered(init), true), Joined(newest, true);
      assert (transcript + before) + added == transcript + (before + added);
    }
  }

  /** The translation requests are all non-empty and, put together, spell out
      the final text of every delivery. */
  lemma {:induction false} RequestsSpellFinalText(batches: seq<Batch>)
    ensures forall i :: 0 <= i < |Requests(batches)| ==> Requests(batches)[i] != ""
    ensures Concat(Requests(batches)) == Joined(Delivered(batches), true)
  {
    if batches != [] {
      var init := batches[..|batches| - 1];
      var finalText := Joined(Fresh(batches[|batches| - 1]), true);
      RequestsSpellFinalText(init);
      JoinedAppend(Delivered(init), Fresh(batches[|batches| - 1]), true);
      if finalText != "" {
        assert (Requests(init) + [finalText])[..|Requests(init)|] == Requests(init);
      } else {
        assert Requests(init) + [] == Requests(init);
      }
    }
  }
}
