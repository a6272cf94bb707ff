/** The poll loop that watches the clipboard on Unix systems: which of its readings it reports. */
module ClipboardWatch {
  import opened Options

  /** One reading of the clipboard: nothing there, an error with its message, or a text. */
  datatype Reading = NoText | Failure(message: string) | Content(text: string)

  datatype Event = TextEvent(text: string) | ErrorEvent(message: string)

  /** The text of the latest successful reading. */
  function LastText(readings: seq<Reading>): Option<string> {
    if readings == [] then None
    else
      var n := |readings| - 1;
      if readings[n].Content? then Some(readings[n].text) else LastText(readings[..n])
  }

  /** The message of the latest reading that was not empty, if that was an error; otherwise "". */
  function LastError(readings: seq<Reading>): string {
    if readings == [] then ""
    else
      var n := |readings| - 1;
      match readings[n]
      case NoText => LastError(readings[..n])
      case Failure(message) => message
      case Content(_) => ""
  }

  /** A reading is reported if it differs from the latest one of its kind; the first text is only the baseline. */
  function Report(before: seq<Reading>, r: Reading): seq<Event> {
    match r
    case NoText => []
    case Failure(message) => if message == LastError(before) then [] else [ErrorEvent(message)]
    case Content(text) => if LastText(before).None? || text == LastText(before).value then [] else [TextEvent(text)]
  }

  function Reports(readings: seq<Reading>): seq<Event> {
    if readings == [] then []
    else
      var n := |readings| - 1;
      Reports(readings[..n]) + Report(readings[..n], readings[n])
  }

  /** The loop, over the readings made before it is cancelled. */
  method WatchText(readings: seq<Reading>) returns (out: seq<Event>)
    ensures out == Reports(readings)
  {
    out := [];
    var lastText, haveBaseline, lastErr := "", false, "";
    for i := 0 to |readings|
      invariant out == Reports(readings[..i])
      invariant haveBaseline <==> LastText(readings[..i]).Some?
      invariant haveBaseline ==> LastText(readings[..i]) == Some(lastText)
      invariant lastErr == LastError(readings[..i])
    {
      assert readings[..i + 1][..i] == readings[..i];
      match readings[i]
      case NoText =>
        continue;
      case Failure(message) =>
        if message == lastErr {
          continue;
        }
        lastErr := message;
        out := out + [ErrorEvent(message)];
      case Content(text) =>
        lastErr := "";
        if !haveBaseline {
          haveBaseline := true;
          lastText := text;
          continue;
        }
        if text == lastText {
          continue;
        }
        lastText := text;
        out := out + [TextEvent(text)];
    }
    assert readings[..|readings|] == readings;
  }

  // ---------------------------------------------------------------- the sequence of texts

  function Contents(readings: seq<Reading>): seq<string> {
    if readings == [] then []
    else
      var n := |readings| - 1;
      Contents(readings[..n]) + if readings[n].Content? then [readings[n].text] else []
  }

  /** Runs of equal texts reduced to one. */
  function Merged(texts: seq<string>): seq<string> {
    if texts == [] then []
    else
      var n := |texts| - 1;
      var before := Merged(texts[..n]);
      if n > 0 && texts[n - 1] == texts[n] then before else before + [texts[n]]
  }

  function TextsOf(events: seq<Event>): seq<string> {
    if events == [] then []
    else
      var n := |events| - 1;
      TextsOf(events[..n]) + if events[n].TextEvent? then [events[n].text] else []
  }

  lemma TextsOfAppend(events: seq<Event>, more: seq<Event>)
    requires |more| <= 1
    ensures TextsOf(events + more) == TextsOf(events) + TextsOf(more)
  {
    if more == [] {
      assert events + more == events;
    } else {
      assert (events + more)[..|events|] == events;
      assert more[..0] == [];
    }
  }

  lemma TextsOfReport(before: seq<Reading>, r: Reading)
    ensures TextsOf(Report(before, r)) == if r.Content? && Report(before, r) != [] then [r.text] else []
  {
    if Report(before, r) != [] { assert Report(before, r)[..0] == []; }
  }

  lemma {:induction false} LastTextIs(readings: seq<Reading>)
    ensures var texts := Contents(readings);
            LastText(readings) == if texts == [] then None else Some(texts[|texts| - 1])
  {
    if readings != [] { LastTextIs(readings[..|readings| - 1]); }
  }

  lemma {:induction false} MergedEnds(texts: seq<string>)
    requires texts != []
    ensures Merged(texts) != [] && Merged(texts)[|Merged(texts)| - 1] == texts[|texts| - 1]
  {
    var n := |texts| - 1;
    if n > 0 { MergedEnds(texts[..n]); }
  }

  /** The merged texts after the first. */
  function Later(texts: seq<string>): seq<string> {
    if Merged(texts) == [] then [] else Merged(texts)[1..]
  }

  lemma OneMoreText(texts: seq<string>, x: string)
    ensures Later(texts + [x]) == Later(texts) + if texts == [] || texts[|texts| - 1] == x then [] else [x]
  {
    assert (texts + [x])[..|texts|] == texts;
    if texts != [] { MergedEnds(texts); }
  }

  /** The texts reported are the texts read, runs of equal ones reduced to one, without the baseline. */
  lemma {:induction false} ReportedTexts(readings: seq<Reading>)
    ensures TextsOf(Reports(readings)) == Later(Contents(readings))
  {
    hide Later, TextsOf;
    if readings == [] {
      NothingLater();
    } else {
      var n := |readings| - 1;
      var before, r := readings[..n], readings[n];
      ReportedTexts(before);
      LastTextIs(before);
      TextsOfAppend(Reports(before), Report(before, r));
      TextsOfReport(before, r);
      if r.Content? {
        OneMoreText(Contents(before), r.text);
      } else {
        assert Contents(before) + [] == Contents(before);
      }
    }
  }

  lemma NothingLater()
    ensures Later([]) == TextsOf([]) == []
  {
  }

  lemma {:induction false} MergedAdjacent(texts: seq<string>, k: nat)
    requires k + 1 < |Merged(texts)|
    ensures Merged(texts)[k] != Merged(texts)[k + 1]
  {
    var n := |texts| - 1;
    var before := Merged(texts[..n]);
    if k + 1 < |before| {
      MergedAdjacent(texts[..n], k);
    } else {
      MergedEnds(texts[..n]);
    }
  }

  /** So a text that stays on the clipboard, or is written again over itself, is reported at most once. */
  lemma NoRepeatedReport(readings: seq<Reading>, k: nat)
    requires k + 1 < |TextsOf(Reports(readings))|
    ensures TextsOf(Reports(readings))[k] != TextsOf(Reports(readings))[k + 1]
  {
    ReportedTexts(readings);
    MergedAdjacent(Contents(readings), k + 1);
  }

  lemma OneMore(readings: seq<Reading>, r: Reading)
    ensures Reports(readings + [r]) == Reports(readings) + Report(readings, r)
    ensures LastText(readings + [r]) == if r.Content? then Some(r.text) else LastText(readings)
    ensures LastError(readings + [r]) == if r.NoText? then LastError(readings) else if r.Failure? then r.message else ""
  {
    assert (readings + [r])[..|readings|] == readings;
  }

  /** An empty reading changes nothing that is reported later; in particular it does not repeat an error. */
  lemma {:induction false} EmptyReadingsAreSkipped(before: seq<Reading>, after: seq<Reading>)
    ensures Reports(before + [NoText] + after) == Reports(before + after)
    ensures LastText(before + [NoText] + after) == LastText(before + after)
    ensures LastError(before + [NoText] + after) == LastError(before + after)
  {
    hide Reports, LastText, LastError;
    if after == [] {
      OneMore(before, NoText);
      assert before + [NoText] + after == before + [NoText] && before + after == before;
      assert Reports(before) + [] == Reports(before);
    } else {
      var n := |after| - 1;
      EmptyReadingsAreSkipped(before, after[..n]);
      OneMore(before + [NoText] + after[..n], after[n]);
      OneMore(before + after[..n], after[n]);
      assert before + [NoText] + after == before + [NoText] + after[..n] + [after[n]];
      assert before + after == before + after[..n] + [after[n]];
    }
  }
}
