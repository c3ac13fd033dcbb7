/**
 * How the speech hook turns recognition results into text: the `onresult`
 * handler splits the new results of an event into final and interim text,
 * final text is committed (append-only), interim text replaces the pending
 * buffer, and the end of a session flushes what is pending.
 *
 * The state is a pair (committed, interim); the displayed transcript is
 * always committed followed by interim.
 */
module SpeechTranscript {

  /** One result of a `SpeechRecognitionEvent`, as the handler reads it:
      the transcript of alternative 0 and the result's `isFinal` flag. */
  datatype SpeechResult = SpeechResult(text: string, isFinal: bool)

  /** A `SpeechRecognitionEvent`: `results` holds every result of the session
      so far, and those from `resultIndex` on are the ones not yet seen. */
  datatype ResultEvent = ResultEvent(resultIndex: nat, results: seq<SpeechResult>)

  /** The hook's `transcript` (committed) and `currentInterimTranscript` (interim). */
  datatype Transcript = Transcript(committed: string, interim: string)

  // ---------------------------------------------------------------------------
  // Splitting results into final and interim text

  /** The texts of the final results of `rs`, concatenated in order. */
  function FinalText(rs: seq<SpeechResult>): string
  {
    if rs == [] then ""
    else FinalText(rs[..|rs| - 1]) + (if rs[|rs| - 1].isFinal then rs[|rs| - 1].text else "")
  }

  /** The texts of the non-final results of `rs`, concatenated in order. */
  function InterimText(rs: seq<SpeechResult>): string
  {
    if rs == [] then ""
    else InterimText(rs[..|rs| - 1]) + (if rs[|rs| - 1].isFinal then "" else rs[|rs| - 1].text)
  }

  /** The texts of all results of `rs`, concatenated in order. */
  function AllText(rs: seq<SpeechResult>): string
  {
    if rs == [] then "" else AllText(rs[..|rs| - 1]) + rs[|rs| - 1].text
  }

  predicate AllFinal(rs: seq<SpeechResult>)
  {
    forall i :: 0 <= i < |rs| ==> rs[i].isFinal
  }

  predicate NoneFinal(rs: seq<SpeechResult>)
  {
    forall i :: 0 <= i < |rs| ==> !rs[i].isFinal
  }

  /** The results of an event that the handler looks at: indices
      `resultIndex` up to `results.length`; none when the index is past the end. */
  function NewResults(ev: ResultEvent): seq<SpeechResult>
  {
    if ev.resultIndex <= |ev.results| then ev.results[ev.resultIndex..] else []
  }

  /**
   * The loop of the `onresult` handler: walks the results from `resultIndex`
   * to the end and appends each one's text to `final` or to `interim`
   * according to its `isFinal` flag. Results before `resultIndex` are never read.
   */
  method CollectResults(ev: ResultEvent) returns (interim: string, final: string)
    ensures final == FinalText(NewResults(ev))
    ensures interim == InterimText(NewResults(ev))
  {
    interim, final := "", "";
    var i := ev.resultIndex;
    while i < |ev.results|
      invariant ev.resultIndex <= |ev.results| ==> ev.resultIndex <= i <= |ev.results|
      invariant ev.resultIndex <= |ev.results| ==> final == FinalText(ev.results[ev.resultIndex..i])
      invariant ev.resultIndex <= |ev.results| ==> interim == InterimText(ev.results[ev.resultIndex..i])
      invariant ev.resultIndex > |ev.results| ==> i == ev.resultIndex && final == "" && interim == ""
    {
      var result := ev.results[i];
      assert ev.results[ev.resultIndex..i + 1][..i - ev.resultIndex] == ev.results[ev.resultIndex..i];
      if result.isFinal {
        final := final + result.text;
      } else {
        interim := interim + result.text;
      }
      i := i + 1;
    }
    if ev.resultIndex <= |ev.results| {
      assert ev.results[ev.resultIndex..i] == ev.results[ev.resultIndex..];
    }
  }

  lemma {:induction false} FinalTextConcat(a: seq<SpeechResult>, b: seq<SpeechResult>)
    ensures FinalText(a + b) == FinalText(a) + FinalText(b)
  {
    if b == [] {
      assert a + b == a;
    } else {
      assert (a + b)[..|a + b| - 1] == a + b[..|b| - 1];
      FinalTextConcat(a, b[..|b| - 1]);
    }
  }

  lemma {:induction false} InterimTextConcat(a: seq<SpeechResult>, b: seq<SpeechResult>)
    ensures InterimText(a + b) == InterimText(a) + InterimText(b)
  {
    if b == [] {
      assert a + b == a;
    } else {
      assert (a + b)[..|a + b| - 1] == a + b[..|b| - 1];
      InterimTextConcat(a, b[..|b| - 1]);
    }
  }

  /** A single result is final text or interim text, never both. */
  lemma SingleResultText(r: SpeechResult)
    ensures FinalText([r]) == (if r.isFinal then r.text else "")
    ensures InterimText([r]) == (if r.isFinal then "" else r.text)
  {
    assert [r][..0] == [];
  }

  /** Final and interim text together account for every result: when all
      results are final the final text is all of it and nothing is interim,
      and the other way round when none is final. */
  lemma {:induction false} FinalInterimPartition(rs: seq<SpeechResult>)
    ensures AllFinal(rs) ==> FinalText(rs) == AllText(rs) && InterimText(rs) == ""
    ensures NoneFinal(rs) ==> InterimText(rs) == AllText(rs) && FinalText(rs) == ""
  {
    if rs != [] {
      FinalInterimPartition(rs[..|rs| - 1]);
    }
  }

  // ---------------------------------------------------------------------------
  // The transcript state and its transitions

  /** The transcript state `onstart` establishes: both buffers empty. */
  function AfterStart(): Transcript
  {
    Transcript("", "")
  }

  /**
   * The state update of `onresult` once the event's `final` and `interim`
   * texts are known: non-empty final text is committed followed by one space
   * and clears the interim buffer; non-empty interim text then replaces the
   * interim buffer, but only when interim results are enabled.
   */
  function AfterTexts(t: Transcript, final: string, interim: string, interimResults: bool): Transcript
  {
    var committed := if final != "" then Transcript(t.committed + final + " ", "") else t;
    if interim != "" && interimResults then committed.(interim := interim) else committed
  }

  /** The state update of `onresult` for a whole event. */
  function AfterEvent(t: Transcript, ev: ResultEvent, interimResults: bool): Transcript
  {
    AfterTexts(t, FinalText(NewResults(ev)), InterimText(NewResults(ev)), interimResults)
  }

  /** The state update of `onend`: pending interim text is committed followed by one space. */
  function AfterEnd(t: Transcript): Transcript
  {
    if t.interim != "" then Transcript(t.committed + t.interim + " ", "") else t
  }

  /** `onend` as the source runs it: the handler tests and flushes the
      interim value `captured` when the handler was installed instead of the
      live buffer. That value is the buffer's initial empty string. */
  function AfterEndAsWritten(t: Transcript, captured: string): Transcript
  {
    if captured != "" then Transcript(t.committed + captured + " ", "") else t
  }

  /** With the captured empty string, the end of a session flushes nothing:
      "wor" stays pending after "hello " instead of being committed, where
      the live-buffer flush commits it and empties the buffer. */
  lemma StaleEndKeepsInterim()
    ensures var t := Transcript("hello ", "wor");
      && AfterEndAsWritten(t, "") == t && AfterEndAsWritten(t, "").interim == "wor"
      && AfterEnd(t) == Transcript("hello wor ", "")
  {
  }

  /** The transcript the hook returns to its consumer. */
  function Display(t: Transcript): string
  {
    t.committed + t.interim
  }

  /** Every non-empty committed transcript ends in the space that separates utterances. */
  predicate EndsWithSpace(s: string)
  {
    s == [] || s[|s| - 1] == ' '
  }

  /** Committed text after an event is the old committed text followed by
      the event's final text and one space, or unchanged when there is none:
      an append, never a rewrite. */
  lemma EventAppendsCommitted(t: Transcript, ev: ResultEvent, interimResults: bool)
    ensures var r := AfterEvent(t, ev, interimResults);
      r.committed == t.committed + (if FinalText(NewResults(ev)) == "" then "" else FinalText(NewResults(ev)) + " ")
    ensures EndsWithSpace(t.committed) ==> EndsWithSpace(AfterEvent(t, ev, interimResults).committed)
  {
  }

  /** The interim buffer after an event: the event's interim text when it is
      non-empty and interim results are enabled; otherwise emptied by final
      text, or kept. It never holds the old buffer with new text appended. */
  lemma EventReplacesInterim(t: Transcript, ev: ResultEvent, interimResults: bool)
    ensures var r := AfterEvent(t, ev, interimResults);
      var final, interim := FinalText(NewResults(ev)), InterimText(NewResults(ev));
      r.interim == (if interim != "" && interimResults then interim
                    else if final != "" then "" else t.interim)
  {
  }

  /** An event that brings no new final and no new interim text changes nothing. */
  lemma {:induction false} EmptyEventChangesNothing(t: Transcript, ev: ResultEvent, interimResults: bool)
    requires forall i :: 0 <= i < |NewResults(ev)| ==> NewResults(ev)[i].text == ""
    ensures AfterEvent(t, ev, interimResults) == t
  {
    EmptyTexts(NewResults(ev));
  }

  lemma {:induction false} EmptyTexts(rs: seq<SpeechResult>)
    requires forall i :: 0 <= i < |rs| ==> rs[i].text == ""
    ensures FinalText(rs) == "" && InterimText(rs) == ""
  {
    if rs != [] {
      EmptyTexts(rs[..|rs| - 1]);
    }
  }

  /** With interim results disabled, the interim text of an event never
      reaches the buffer: the buffer is kept or emptied. */
  lemma InterimDroppedWhenDisabled(t: Transcript, ev: ResultEvent)
    ensures AfterEvent(t, ev, false).interim in {t.interim, ""}
  {
  }

  /** Two interim-only events in a row leave exactly the second one's text
      pending (for example "wor" then "world" gives "world") and commit nothing. */
  lemma {:induction false} InterimReplacedNotAccumulated(t: Transcript, ev1: ResultEvent, ev2: ResultEvent)
    requires NoneFinal(NewResults(ev1)) && NoneFinal(NewResults(ev2))
    requires InterimText(NewResults(ev2)) != ""
    ensures AfterEvent(AfterEvent(t, ev1, true), ev2, true) == Transcript(t.committed, InterimText(NewResults(ev2)))
  {
    FinalInterimPartition(NewResults(ev1));
    FinalInterimPartition(NewResults(ev2));
  }

  /** Flushing at the end of a session empties the interim buffer, and a
      second flush changes nothing. */
  lemma EndFlushIdempotent(t: Transcript)
    ensures AfterEnd(t).interim == ""
    ensures AfterEnd(AfterEnd(t)) == AfterEnd(t)
  {
  }

  /** The end of a session does not change what is displayed, except for the
      separating space after flushed interim text. */
  lemma EndKeepsDisplay(t: Transcript)
    ensures Display(AfterEnd(t)) == Display(t) + (if t.interim != "" then " " else "")
  {
  }

  // ---------------------------------------------------------------------------
  // Several events in a row

  /** The state after the `onresult` handler has run on each event in turn. */
  function Replay(t: Transcript, evs: seq<ResultEvent>, interimResults: bool): Transcript
    decreases |evs|
  {
    if evs == [] then t else Replay(AfterEvent(t, evs[0], interimResults), evs[1..], interimResults)
  }

  /** What one event commits: its final text followed by one space, if any. */
  function CommittedByEvent(ev: ResultEvent): string
  {
    var final := FinalText(NewResults(ev));
    if final == "" then "" else final + " "
  }

  /** What a run of events commits, event by event. */
  function CommittedBy(evs: seq<ResultEvent>): string
    decreases |evs|
  {
    if evs == [] then "" else CommittedByEvent(evs[0]) + CommittedBy(evs[1..])
  }

  /**
   * Committed text is append-only across events: after any run of events
   * it is the old committed text followed by exactly what the events
   * committed, each event's final text with one trailing space, in order.
   */
  lemma {:induction false} ReplayAppends(t: Transcript, evs: seq<ResultEvent>, interimResults: bool)
    ensures Replay(t, evs, interimResults).committed == t.committed + CommittedBy(evs)
    decreases |evs|
  {
    if evs != [] {
      var t' := AfterEvent(t, evs[0], interimResults);
      EventAppendsCommitted(t, evs[0], interimResults);
      ReplayAppends(t', evs[1..], interimResults);
      var a, b, c := t.committed, CommittedByEvent(evs[0]), CommittedBy(evs[1..]);
      if FinalText(NewResults(evs[0])) == "" {
        assert b == "" && a + b == a;
      }
      assert t'.committed == a + b;
      assert (a + b) + c == a + (b + c);
      calc {
        Replay(t, evs, interimResults).committed;
        Replay(t', evs[1..], interimResults).committed;
        (a + b) + c;
        a + (b + c);
        t.committed + CommittedBy(evs);
      }
    }
  }

  /** When every event brings only final results, nothing is pending after
      them: final text never leaves an interim remainder behind. */
  lemma {:induction false} FinalOnlyReplay(t: Transcript, evs: seq<ResultEvent>, interimResults: bool)
    requires forall k :: 0 <= k < |evs| ==> AllFinal(NewResults(evs[k]))
    requires t.interim == ""
    ensures Replay(t, evs, interimResults) == Transcript(t.committed + CommittedBy(evs), "")
    decreases |evs|
  {
    ReplayAppends(t, evs, interimResults);
    if evs != [] {
      FinalInterimPartition(NewResults(evs[0]));
      var t' := AfterEvent(t, evs[0], interimResults);
      assert t'.interim == "";
      FinalOnlyReplay(t', evs[1..], interimResults);
      assert Replay(t, evs, interimResults) == Replay(t', evs[1..], interimResults);
    }
  }

  /** The committed text a session builds from events that each bring one
      new final result: every result's text followed by one space. */
  function Utterances(texts: seq<string>): string
  {
    if texts == [] then "" else texts[0] + " " + Utterances(texts[1..])
  }

  lemma {:induction false} OneFinalPerEvent(evs: seq<ResultEvent>, texts: seq<string>)
    requires |texts| == |evs|
    requires forall k :: 0 <= k < |evs| ==> NewResults(evs[k]) == [SpeechResult(texts[k], true)] && texts[k] != ""
    ensures CommittedBy(evs) == Utterances(texts)
    decreases |evs|
  {
    if evs != [] {
      var rs := NewResults(evs[0]);
      assert rs[..|rs| - 1] == [];
      assert FinalText(rs) == texts[0];
      OneFinalPerEvent(evs[1..], texts[1..]);
    }
  }
}
