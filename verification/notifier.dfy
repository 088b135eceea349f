/**
 * `TelegramNotifier._format_message` (services/telegram_notifier.py): the
 * text of the prediction notice, built line by line and joined by "\n".
 */
module Notifier {
  import opened Errors
  import opened Text

  const Header: string := "🎰 로또 예측 결과 🎰"
  const Footer: string := "행운을 빕니다! 🍀"
  const TimestampLabel: string := "생성 시각: "

  /** `number_emojis`: keycap markers for the first twenty predictions. */
  const NumberEmojis: seq<string> := [
    "1️⃣", "2️⃣", "3️⃣", "4️⃣", "5️⃣", "6️⃣", "7️⃣", "8️⃣", "9️⃣", "🔟",
    "1️⃣1️⃣", "1️⃣2️⃣", "1️⃣3️⃣", "1️⃣4️⃣", "1️⃣5️⃣", "1️⃣6️⃣", "1️⃣7️⃣", "1️⃣8️⃣", "1️⃣9️⃣", "2️⃣0️⃣"]

  /** A timestamp is written when it is given and not empty (Python truthiness). */
  predicate HasTimestamp(timestamp: Option<string>)
  {
    timestamp.Some? && timestamp.value != ""
  }

  /** The keycap emoji of a digit: the digit, a variation selector and the enclosing keycap. */
  function Keycap(d: char): string
  {
    [d, '\U{FE0F}', '\U{20E3}']
  }

  /**
   * The marker of the `idx`-th prediction, counting from 1: the table's
   * entry up to twenty (keycap digits, with the single "keycap ten" for
   * 10), then the number and a dot.
   */
  function Marker(idx: int): (m: string)
    requires idx >= 1
    ensures idx > 20 ==> m == IntToString(idx) + "."
  {
    if idx < 10 then Keycap(DigitChar(idx))
    else if idx == 10 then "🔟"
    else if idx <= 20 then Keycap(DigitChar(idx / 10)) + Keycap(DigitChar(idx % 10))
    else IntToString(idx) + "."
  }

  /** The markers up to twenty are the entries of `number_emojis`. */
  lemma MarkersAreTable()
    ensures |NumberEmojis| == 20
    ensures forall idx :: 1 <= idx <= 20 ==> Marker(idx) == NumberEmojis[idx - 1]
  {
  }

  /** One prediction's line: its marker and its numbers in the given order. */
  function PredictionLine(idx: int, prediction: seq<int>): string
    requires idx >= 1
  {
    Marker(idx) + " [" + Join(", ", MapToString(prediction)) + "]"
  }

  /** The lines before the predictions. */
  function Opening(timestamp: Option<string>): (lines: seq<string>)
    ensures |lines| == if HasTimestamp(timestamp) then 4 else 2
  {
    [Header, ""] + (if HasTimestamp(timestamp) then [TimestampLabel + timestamp.value, ""] else [])
  }

  /** The lines of the first `n` predictions. */
  function PredictionLines(predictions: seq<seq<int>>, n: nat): (lines: seq<string>)
    requires n <= |predictions|
    ensures |lines| == n
    ensures forall k :: 0 <= k < n ==> lines[k] == PredictionLine(k + 1, predictions[k])
  {
    if n == 0 then [] else PredictionLines(predictions, n - 1) + [PredictionLine(n, predictions[n - 1])]
  }

  /** The lines of the notice. */
  function MessageLines(predictions: seq<seq<int>>, timestamp: Option<string>): seq<string>
  {
    Opening(timestamp) + PredictionLines(predictions, |predictions|) + ["", Footer]
  }

  /** `_format_message`: the lines appended one by one, then joined by "\n". */
  method FormatMessage(predictions: seq<seq<int>>, timestamp: Option<string>) returns (message: string)
    ensures message == Join("\n", MessageLines(predictions, timestamp))
  {
    var lines := [Header, ""];
    if timestamp.Some? && timestamp.value != "" {
      lines := lines + [TimestampLabel + timestamp.value];
      lines := lines + [""];
    }
    assert lines == Opening(timestamp);
    for idx := 1 to |predictions| + 1
      invariant lines == Opening(timestamp) + PredictionLines(predictions, idx - 1)
    {
      var emoji := Marker(idx);
      var numbersStr := Join(", ", MapToString(predictions[idx - 1]));
      LinesSnoc(Opening(timestamp), PredictionLines(predictions, idx - 1), PredictionLine(idx, predictions[idx - 1]));
      lines := lines + [emoji + " [" + numbersStr + "]"];
    }
    ClosingLines(lines, "", Footer);
    lines := lines + [""];
    lines := lines + [Footer];
    message := Join("\n", lines);
  }

  /** Appending one line after the opening and the earlier prediction lines. */
  lemma LinesSnoc(opening: seq<string>, earlier: seq<string>, line: string)
    ensures opening + earlier + [line] == opening + (earlier + [line])
  {
  }

  /** Appending the two closing lines one at a time. */
  lemma ClosingLines(body: seq<string>, blank: string, footer: string)
    ensures body + [blank] + [footer] == body + [blank, footer]
  {
  }

  /**
   * The shape of the notice: the header first and the footer last, the
   * timestamp line and a blank line exactly when a timestamp is given, then
   * one line per prediction in order, and 4 + n lines in all (two more with
   * a timestamp).
   */
  lemma MessageLinesShape(predictions: seq<seq<int>>, timestamp: Option<string>)
    ensures var lines := MessageLines(predictions, timestamp);
      var start := if HasTimestamp(timestamp) then 4 else 2;
      && |lines| == |predictions| + start + 2
      && lines[0] == Header && lines[1] == ""
      && lines[|lines| - 1] == Footer && lines[|lines| - 2] == ""
      && (HasTimestamp(timestamp) ==> lines[2] == TimestampLabel + timestamp.value && lines[3] == "")
      && (forall k :: 0 <= k < |predictions| ==> lines[start + k] == PredictionLine(k + 1, predictions[k]))
  {
  }

  /** A prediction line starts with a digit or the keycap ten and has no line break. */
  lemma PredictionLineChars(idx: int, prediction: seq<int>)
    requires idx >= 1
    ensures var line := PredictionLine(idx, prediction);
      && line != [] && (IsDigit(line[0]) || line[0] == '🔟') && '\n' !in line
  {
    MarkerChars(idx);
    NoBreakInNumbers(prediction);
    BracketedAfter(Marker(idx), Join(", ", MapToString(prediction)));
  }

  /** A line made of a marker and bracketed numbers starts with the marker and has no line break. */
  lemma BracketedAfter(m: string, ns: string)
    requires m != [] && '\n' !in m && '\n' !in ns
    ensures var line := m + " [" + ns + "]";
      line != [] && line[0] == m[0] && '\n' !in line
  {
    var tail := " [" + ns + "]";
    assert '\n' !in tail by {
      assert tail == [' ', '['] + ns + [']'];
    }
    assert m + " [" + ns + "]" == m + tail;
  }

  /** A marker starts with a digit or the keycap ten and has no line break. */
  lemma MarkerChars(idx: int)
    requires idx >= 1
    ensures var m := Marker(idx);
      m != [] && (IsDigit(m[0]) || m[0] == '🔟') && '\n' !in m
  {
    if idx > 20 {
      var m := Marker(idx);
      IntToStringCharset(idx);
      assert m[0] == IntToString(idx)[0];
    }
  }

  /** Without a timestamp no line carries the timestamp label. */
  lemma NoTimestampNoLabel(predictions: seq<seq<int>>, timestamp: Option<string>)
    requires !HasTimestamp(timestamp)
    ensures forall i :: 0 <= i < |MessageLines(predictions, timestamp)| ==>
      !(|MessageLines(predictions, timestamp)[i]| >= |TimestampLabel| && MessageLines(predictions, timestamp)[i][..|TimestampLabel|] == TimestampLabel)
  {
    var lines := MessageLines(predictions, timestamp);
    MessageLinesShape(predictions, timestamp);
    forall i | 0 <= i < |lines| && |lines[i]| >= |TimestampLabel|
      ensures lines[i][..|TimestampLabel|] != TimestampLabel
    {
      if 2 <= i < |lines| - 2 {
        PredictionLineChars(i - 1, predictions[i - 2]);
      }
      assert lines[i][0] != TimestampLabel[0];
    }
  }

  /** The line count: four lines and one per prediction, two more with a timestamp. */
  lemma LineCount(predictions: seq<seq<int>>, timestamp: Option<string>)
    ensures |MessageLines(predictions, timestamp)| == 4 + |predictions| + (if HasTimestamp(timestamp) then 2 else 0)
  {
  }

  /** A timestamp without a line break: splitting the notice at "\n" gives its lines back. */
  lemma MessageSplitsIntoLines(predictions: seq<seq<int>>, timestamp: Option<string>)
    requires timestamp.Some? ==> '\n' !in timestamp.value
    ensures SplitOn(Join("\n", MessageLines(predictions, timestamp)), '\n') == MessageLines(predictions, timestamp)
  {
    NoBreakInLines(predictions, timestamp);
    assert "\n" == ['\n'];
    SplitOnJoin(MessageLines(predictions, timestamp), '\n');
  }

  predicate NoBreaks(lines: seq<string>)
  {
    forall i :: 0 <= i < |lines| ==> '\n' !in lines[i]
  }

  lemma NoBreakInLines(predictions: seq<seq<int>>, timestamp: Option<string>)
    requires timestamp.Some? ==> '\n' !in timestamp.value
    ensures NoBreaks(MessageLines(predictions, timestamp))
  {
    var opening := Opening(timestamp);
    var body := PredictionLines(predictions, |predictions|);
    var closing := ["", Footer];
    OpeningHasNoBreaks(timestamp);
    PredictionLinesHaveNoBreaks(predictions, |predictions|);
    assert NoBreaks(closing) by {
      assert '\n' !in Footer;
    }
    NoBreaksConcat(opening, body);
    NoBreaksConcat(opening + body, closing);
  }

  lemma OpeningHasNoBreaks(timestamp: Option<string>)
    requires timestamp.Some? ==> '\n' !in timestamp.value
    ensures NoBreaks(Opening(timestamp))
  {
    assert '\n' !in Header;
    assert '\n' !in TimestampLabel;
  }

  lemma PredictionLinesHaveNoBreaks(predictions: seq<seq<int>>, n: nat)
    requires n <= |predictions|
    ensures NoBreaks(PredictionLines(predictions, n))
  {
    var body := PredictionLines(predictions, n);
    forall k | 0 <= k < |body| ensures '\n' !in body[k] {
      PredictionLineChars(k + 1, predictions[k]);
    }
  }

  lemma NoBreaksConcat(a: seq<string>, b: seq<string>)
    requires NoBreaks(a) && NoBreaks(b)
    ensures NoBreaks(a + b)
  {
    forall i | 0 <= i < |a + b| ensures '\n' !in (a + b)[i] {
      if i >= |a| {
        assert (a + b)[i] == b[i - |a|];
      }
    }
  }

  lemma NoBreakInNumbers(s: seq<int>)
    ensures '\n' !in Join(", ", MapToString(s))
  {
    var parts := MapToString(s);
    forall i | 0 <= i < |parts| ensures '\n' !in parts[i] {
      IntToStringCharset(s[i]);
    }
    NoBreakInJoin(parts);
  }

  lemma {:induction false} NoBreakInJoin(parts: seq<string>)
    requires forall i :: 0 <= i < |parts| ==> '\n' !in parts[i]
    ensures '\n' !in Join(", ", parts)
    decreases |parts|
  {
    if |parts| > 1 {
      NoBreakInJoin(parts[1..]);
      assert Join(", ", parts) == parts[0] + ", " + Join(", ", parts[1..]);
    }
  }
}
