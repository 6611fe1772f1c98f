/**
 * The question bank (`QUIZ_DATA`) and the keyboard the bot shows for one
 * question: one button per option, lettered A, B, C, ... in option order and
 * carrying the token `answer_<i>`, followed by a cancel button.
 */
module Questions {
  import opened Wrappers
  import Tokens

  /** One entry of `QUIZ_DATA`: `question`, `options` and `correct`. */
  datatype Question = Question(text: string, options: seq<string>, correct: int)

  /** Option letters are `chr(65 + i)`; a Dafny char cannot reach the surrogate range. */
  const MaxOptions: nat := 0xD800 - 65

  /** A question the bot can show and grade: `correct` indexes one of its options. */
  predicate WellFormed(q: Question)
  {
    0 <= q.correct < |q.options| <= MaxOptions
  }

  predicate BankWellFormed(bank: seq<Question>)
  {
    forall k :: 0 <= k < |bank| ==> WellFormed(bank[k])
  }

  /** The text of the correct option, revealed after a wrong answer. */
  function CorrectText(q: Question): (t: string)
    requires WellFormed(q)
    ensures t in q.options
  {
    q.options[q.correct]
  }

  /** The Latin capitals, in order. */
  const Alphabet: string := "ABCDEFGHIJKLMNOPQRSTUVWXYZ"

  /**
   * The letter `chr(65 + i)` that prefixes the text of option `i`: the
   * `i`-th capital for the first 26 options, and the code points after `Z`
   * beyond them.
   */
  function OptionLetter(i: nat): (c: char)
    requires i < MaxOptions
    ensures c as int == 'A' as int + i
    ensures i < |Alphabet| ==> c == Alphabet[i]
    ensures i >= |Alphabet| ==> c > 'Z'
  {
    (65 + i) as char
  }

  /** Letters follow option order in both directions, so no two options share a letter. */
  lemma OptionLetterOrder(i: nat, j: nat)
    requires i < MaxOptions && j < MaxOptions
    ensures i < j <==> OptionLetter(i) < OptionLetter(j)
    ensures i == j <==> OptionLetter(i) == OptionLetter(j)
  {
  }

  const CancelToken: string := "cancel_quiz"
  const CancelLabel: string := "Cancel quiz"

  datatype Button = Button(text: string, token: string)

  /** The button of option `i`: text `"<letter>. <option>"`, token `answer_<i>`. */
  function OptionButton(i: nat, option: string): (b: Button)
    requires i < MaxOptions
    ensures |b.text| > 0 && b.text[0] == OptionLetter(i)
    ensures Tokens.ParseAnswer(b.token) == Some(i as int)
  {
    Button([OptionLetter(i)] + ". " + option, Tokens.EncodeAnswer(i))
  }

  /** The option buttons for `options[from..]`, numbered from `from`. */
  function OptionButtons(options: seq<string>, from: nat): (r: seq<Button>)
    requires from <= |options| <= MaxOptions
    ensures |r| == |options| - from
    ensures forall k :: 0 <= k < |r| ==> r[k] == OptionButton(from + k, options[from + k])
    decreases |options| - from
  {
    if from == |options| then []
    else [OptionButton(from, options[from])] + OptionButtons(options, from + 1)
  }

  /**
   * The inline keyboard of one question. Pressing button `i < |options|`
   * sends a token that parses back to `i`; the labels' letters are A, B, C, ...
   * strictly increasing in option order; the last button cancels.
   */
  function Keyboard(q: Question): (r: seq<Button>)
    requires |q.options| <= MaxOptions
    ensures |r| == |q.options| + 1
    ensures forall i :: 0 <= i < |q.options| ==>
      Tokens.ParseAnswer(r[i].token) == Some(i) && |r[i].text| > 0 && r[i].text[0] as int == 'A' as int + i
    ensures forall i, j :: 0 <= i < j < |q.options| ==> r[i].text[0] < r[j].text[0]
    ensures r[|q.options|] == Button(CancelLabel, CancelToken)
  {
    OptionButtons(q.options, 0) + [Button(CancelLabel, CancelToken)]
  }

  /**
   * The cancel button's token is not an answer. The dispatcher already
   * routes `cancel_quiz` to its own handler (patterns `^answer_` and
   * `^cancel_quiz$`); should it reach the answer handler anyway, it does
   * not parse, so it is rejected rather than graded.
   */
  lemma CancelTokenIsNotAnAnswer()
    ensures Tokens.ParseAnswer(CancelToken) == None
  {
    var fields := ["cancel", "quiz"];
    assert Tokens.Join(fields, Tokens.Separator) == CancelToken;
    Tokens.SplitJoin(fields, Tokens.Separator);
    assert !Tokens.IsDigit(fields[1][0]);
  }
}
