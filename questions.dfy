/**
 * The question store and the answer checker of questions.py.
 *
 * The JSON question file becomes an in-memory `Bank`; `random.choice` becomes
 * the question `pick` that the caller's random source chose.
 */
module Questions {
  import opened Wrappers

  /** Question text to raw answer text, as the question file maps them. */
  type Bank = map<string, string>

  /** Why a lookup in the question store fails. */
  datatype StoreError =
    | DataUnavailable   // random.choice on an empty key list
    | UnknownQuestion   // KeyError: the question is not a key of the bank

  /** get_random_question: a key of the bank, chosen by the random source as `pick`. */
  function GetRandomQuestion(bank: Bank, pick: string): (r: Result<string, StoreError>)
    requires bank == map[] || pick in bank
    ensures r.Success? <==> bank != map[]
    ensures r.Success? ==> r.value in bank && r.value == pick
    ensures r.Failure? ==> r.error == DataUnavailable
  {
    if bank == map[] then Failure(DataUnavailable) else Success(pick)
  }

  /** get_answer: the raw answer stored for exactly this question. */
  function GetAnswer(bank: Bank, question: string): (r: Result<string, StoreError>)
    ensures r.Success? <==> question in bank
    ensures r.Success? ==> r.value == bank[question]
    ensures r.Failure? ==> r.error == UnknownQuestion
  {
    if question in bank then Success(bank[question]) else Failure(UnknownQuestion)
  }

  /** The characters Python's `str.isspace` accepts, which `str.rstrip()` removes. */
  predicate IsWhitespace(c: char) {
    || c == ' '
    || '\t' <= c <= '\r'                     // tab, line feed, vertical tab, form feed, carriage return
    || '\U{001C}' <= c <= '\U{001F}'         // file, group, record and unit separators
    || c == '\U{0085}' || c == '\U{00A0}'
    || c == '\U{1680}'
    || '\U{2000}' <= c <= '\U{200A}'
    || c == '\U{2028}' || c == '\U{2029}' || c == '\U{202F}' || c == '\U{205F}' || c == '\U{3000}'
  }

  /** Index of the first `c` in `s`, or `|s|` when `s` has none. */
  function FirstIndex(s: string, c: char): (k: nat)
    ensures k <= |s|
    ensures k < |s| <==> c in s
    ensures k < |s| ==> s[k] == c
    ensures c !in s[..k]
  {
    if s == [] then 0
    else if s[0] == c then 0
    else
      var k' := FirstIndex(s[1..], c);
      assert s[..k' + 1] == [s[0]] + s[1..][..k'];
      k' + 1
  }

  /** `s.split(c)[0]`: the part of `s` before its first `c`, all of `s` when it has none. */
  function SplitHead(s: string, c: char): (r: string)
    ensures r <= s
    ensures c !in r
    ensures c in s ==> |r| < |s| && s[|r|] == c
    ensures c !in s ==> r == s
  {
    s[..FirstIndex(s, c)]
  }

  /** `s.rstrip()`: `s` without its trailing whitespace. */
  function RStrip(s: string): (r: string)
    ensures r <= s
    ensures r == [] || !IsWhitespace(r[|r| - 1])
    ensures forall i :: |r| <= i < |s| ==> IsWhitespace(s[i])
  {
    if s == [] || !IsWhitespace(s[|s| - 1]) then s else RStrip(s[..|s| - 1])
  }

  /** Reference definition of right-stripping: `r` is `s` cut just after its last non-whitespace character. */
  ghost predicate IsRStripOf(r: string, s: string) {
    && r <= s
    && (r == [] || !IsWhitespace(r[|r| - 1]))
    && (forall i :: |r| <= i < |s| ==> IsWhitespace(s[i]))
  }

  /** `k` is the position of the first `c` in `s`. */
  ghost predicate FirstAt(s: string, c: char, k: int) {
    0 <= k < |s| && s[k] == c && c !in s[..k]
  }

  /**
   * The exact answer that is_correct_answer derives from a stored answer.
   * As written, both tests look at the ORIGINAL answer, and a `.` anywhere in
   * it replaces whatever the `(` step produced.
   */
  function ExactAnswer(trueAnswer: string): (r: string)
    ensures r <= trueAnswer
    ensures '.' !in r
    ensures r == [] || !IsWhitespace(r[|r| - 1])
  {
    var afterParen := if '(' in trueAnswer then SplitHead(trueAnswer, '(') else trueAnswer;
    var afterPeriod := if '.' in trueAnswer then SplitHead(trueAnswer, '.') else afterParen;
    RStrip(afterPeriod)
  }

  /** is_correct_answer: case- and whitespace-sensitive equality with the exact answer. */
  predicate IsCorrectAnswer(userAnswer: string, trueAnswer: string)
    ensures IsCorrectAnswer(userAnswer, trueAnswer) ==>
      && userAnswer <= trueAnswer
      && '.' !in userAnswer
      && (userAnswer == [] || !IsWhitespace(userAnswer[|userAnswer| - 1]))
  {
    userAnswer == ExactAnswer(trueAnswer)
  }

  /** RStrip meets the reference definition, and nothing else does. */
  lemma RStripIsTheRStrip(r: string, s: string)
    ensures IsRStripOf(r, s) <==> r == RStrip(s)
  {
  }

  /** FirstIndex finds exactly the first occurrence. */
  lemma FirstIndexIsFirstAt(s: string, c: char, k: int)
    ensures FirstAt(s, c, k) <==> c in s && k == FirstIndex(s, c)
  {
  }

  /** A `.` in the stored answer decides alone: cut before the first `.` and right-strip, even when a `(` comes earlier. */
  lemma ExactAnswerWithPeriod(trueAnswer: string, k: int)
    requires FirstAt(trueAnswer, '.', k)
    ensures IsRStripOf(ExactAnswer(trueAnswer), trueAnswer[..k])
  {
    FirstIndexIsFirstAt(trueAnswer, '.', k);
    RStripIsTheRStrip(ExactAnswer(trueAnswer), trueAnswer[..k]);
  }

  /** With a `(` and no `.`: cut before the first `(` and right-strip. */
  lemma ExactAnswerWithParenOnly(trueAnswer: string, k: int)
    requires '.' !in trueAnswer
    requires FirstAt(trueAnswer, '(', k)
    ensures IsRStripOf(ExactAnswer(trueAnswer), trueAnswer[..k])
  {
    FirstIndexIsFirstAt(trueAnswer, '(', k);
    RStripIsTheRStrip(ExactAnswer(trueAnswer), trueAnswer[..k]);
  }

  /** With neither `(` nor `.`: the stored answer right-stripped. */
  lemma ExactAnswerPlain(trueAnswer: string)
    requires '.' !in trueAnswer && '(' !in trueAnswer
    ensures IsRStripOf(ExactAnswer(trueAnswer), trueAnswer)
  {
    RStripIsTheRStrip(ExactAnswer(trueAnswer), trueAnswer);
  }

  /**
   * The code agrees with "strip the parenthetical, then strip at the period of
   * what is left" except when the first `(` comes before the first `.`.
   */
  lemma ParenFirstReadingAgrees(trueAnswer: string)
    requires !('(' in trueAnswer && '.' in trueAnswer && FirstIndex(trueAnswer, '(') < FirstIndex(trueAnswer, '.'))
    ensures ExactAnswer(trueAnswer) == RStrip(SplitHead(SplitHead(trueAnswer, '('), '.'))
  {
    if '.' in trueAnswer {
      PeriodCutSurvivesParenCut(trueAnswer);
    } else {
      var p := SplitHead(trueAnswer, '(');
      assert SplitHead(p, '.') == p;
    }
  }

  /** When no `(` precedes the first `.`, cutting at `(` and then at `.` is the cut at `.` alone. */
  lemma PeriodCutSurvivesParenCut(s: string)
    requires '.' in s
    requires !('(' in s && FirstIndex(s, '(') < FirstIndex(s, '.'))
    ensures SplitHead(SplitHead(s, '('), '.') == SplitHead(s, '.')
  {
    var p := SplitHead(s, '(');
    var i := FirstIndex(s, '.');
    assert i < |p| by {
      if '(' in s {
        assert s[i] != '(';
      }
    }
    assert FirstAt(p, '.', i) by {
      assert p[..i] == s[..i];
    }
    SplitHeadAt(p, '.', i);
    assert p[..i] == s[..i];
  }

  /** When a `(` precedes the first `.`, the code keeps that `(`, and the parenthesis-first reading cannot. */
  lemma ParenFirstReadingDisagrees(trueAnswer: string)
    requires '(' in trueAnswer && '.' in trueAnswer && FirstIndex(trueAnswer, '(') < FirstIndex(trueAnswer, '.')
    ensures ExactAnswer(trueAnswer) != RStrip(SplitHead(SplitHead(trueAnswer, '('), '.'))
  {
    var j := FirstIndex(trueAnswer, '(');
    var r := ExactAnswer(trueAnswer);
    var cut := SplitHead(trueAnswer, '.');
    assert r == RStrip(cut);
    assert cut[j] == '(' && !IsWhitespace(cut[j]);
    assert j < |r|;
    assert r[j] == '(';
    var q := RStrip(SplitHead(SplitHead(trueAnswer, '('), '.'));
    assert '(' !in q by {
      var p := SplitHead(trueAnswer, '(');
      assert q <= SplitHead(p, '.') <= p;
    }
  }

  /** Cutting at a known first occurrence. */
  lemma SplitHeadAt(s: string, c: char, k: int)
    requires FirstAt(s, c, k)
    ensures SplitHead(s, c) == s[..k]
  {
    FirstIndexIsFirstAt(s, c, k);
  }

  /** Right-stripping a string that ends in whitespace, then in a non-whitespace character. */
  lemma RStripOneTrailing(s: string)
    requires |s| >= 2 && IsWhitespace(s[|s| - 1]) && !IsWhitespace(s[|s| - 2])
    ensures RStrip(s) == s[..|s| - 1]
  {
    assert RStrip(s) == RStrip(s[..|s| - 1]);
  }

  /** As written, a `.` inside the parentheses wins over the `(`. */
  lemma PeriodInsideParenthesis(s: string)
    requires s == "Paris (capital.)"
    ensures ExactAnswer(s) == "Paris (capital"
  {
    assert FirstAt(s, '.', 14);
    SplitHeadAt(s, '.', 14);
    var p := SplitHead(s, '.');
    assert p == "Paris (capital";
    assert !IsWhitespace(p[|p| - 1]);
  }

  /** Read parenthesis-first, the same answer would have normalised to "Paris". */
  lemma ParenFirstReadingDiffers(s: string)
    requires s == "Paris (capital.)"
    ensures RStrip(SplitHead(SplitHead(s, '('), '.')) == "Paris"
  {
    assert FirstAt(s, '.', 14);
    assert FirstAt(s, '(', 6);
    SplitHeadAt(s, '(', 6);
    var h := SplitHead(s, '(');
    assert h == s[..14][..6];
    assert SplitHead(h, '.') == h;
    assert h[5] == ' ' && h[4] == 's';
    RStripOneTrailing(h);
    assert h[..5] == "Paris";
  }

  /** is_correct_answer holds exactly for the right-stripped prefix that the rules above describe. */
  lemma IsCorrectAnswerMeaning(userAnswer: string, trueAnswer: string)
    ensures IsCorrectAnswer(userAnswer, trueAnswer) <==>
      (if '.' in trueAnswer then IsRStripOf(userAnswer, trueAnswer[..FirstIndex(trueAnswer, '.')])
       else if '(' in trueAnswer then IsRStripOf(userAnswer, trueAnswer[..FirstIndex(trueAnswer, '(')])
       else IsRStripOf(userAnswer, trueAnswer))
  {
    var cut := if '.' in trueAnswer then trueAnswer[..FirstIndex(trueAnswer, '.')]
               else if '(' in trueAnswer then trueAnswer[..FirstIndex(trueAnswer, '(')]
               else trueAnswer;
    RStripIsTheRStrip(userAnswer, cut);
  }

  /** Reflexivity: the exact answer itself is always accepted. */
  lemma ExactAnswerIsCorrect(trueAnswer: string)
    ensures IsCorrectAnswer(ExactAnswer(trueAnswer), trueAnswer)
  {
  }

  /** The user's text is not trimmed: an answer ending in whitespace, or holding a `.`, is never accepted. */
  lemma UntrimmedAnswerRejected(userAnswer: string, trueAnswer: string)
    requires (|userAnswer| > 0 && IsWhitespace(userAnswer[|userAnswer| - 1])) || '.' in userAnswer
    ensures !IsCorrectAnswer(userAnswer, trueAnswer)
  {
  }

  /** Applying the normaliser twice changes nothing when the exact answer has no `(`. */
  lemma ExactAnswerIdempotent(trueAnswer: string)
    requires '(' !in ExactAnswer(trueAnswer)
    ensures ExactAnswer(ExactAnswer(trueAnswer)) == ExactAnswer(trueAnswer)
  {
  }

  /** Worked example: the parenthetical is dropped. */
  lemma ParenthesisDropped(s: string)
    requires s == "Paris (largest city)"
    ensures ExactAnswer(s) == "Paris"
  {
    var h := s[..6];
    assert RStrip(h) == "Paris" by {
      assert h[5] == ' ' && h[4] == 's';
      RStripOneTrailing(h);
      assert h[..5] == "Paris";
    }
    assert '.' !in s;
    assert FirstAt(s, '(', 6);
    SplitHeadAt(s, '(', 6);
  }

  /** Worked example: the comparison is case-sensitive. */
  lemma CaseSensitive(s: string)
    requires s == "Paris (largest city)"
    ensures IsCorrectAnswer("Paris", s) && !IsCorrectAnswer("paris", s)
  {
    ParenthesisDropped(s);
    assert "paris"[0] != "Paris"[0];
  }

  /** Worked example: a decimal answer is cut at its point. */
  lemma DecimalCut(s: string)
    requires s == "3.14."
    ensures ExactAnswer(s) == "3"
  {
    assert FirstAt(s, '.', 1);
    FirstIndexIsFirstAt(s, '.', 1);
    var p := SplitHead(s, '.');
    assert p == s[..1];
    assert !IsWhitespace(p[0]);
  }

  /** Worked example: an answer without annotations is accepted as stored. */
  lemma PlainAnswer(s: string)
    requires s == "4"
    ensures IsCorrectAnswer("4", s)
  {
    assert '.' !in s && '(' !in s;
    assert !IsWhitespace(s[0]);
  }
}
