/** What the console answers mean: `toLowerCase` and the yes/no and letter tests built on it. */
module Answers {

  /** Lower-cases one ASCII letter; every other character is left as it is. */
  function LowerChar(c: char): char {
    if 'A' <= c <= 'Z' then (c as int + 32) as char else c
  }

  /** `String.prototype.toLowerCase`, restricted to ASCII. */
  function Lower(s: string): (r: string)
    ensures |r| == |s|
    ensures forall i :: 0 <= i < |s| ==> r[i] == LowerChar(s[i])
  {
    if s == [] then [] else [LowerChar(s[0])] + Lower(s[1..])
  }

  /** The upper-case partner of a lower-case ASCII letter. */
  function Upper(c: char): char
    requires 'a' <= c <= 'z'
  {
    (c as int - 32) as char
  }

  /** An answer lower-cases to the single letter `c` exactly when it is `c` or its capital. */
  lemma LowerIsLetter(answer: string, c: char)
    requires 'a' <= c <= 'z'
    ensures Lower(answer) == [c] <==> answer == [c] || answer == [Upper(c)]
  {
    if |answer| == 1 {
      assert Lower(answer)[0] == LowerChar(answer[0]);
    }
  }

  /** The test `answer.toLowerCase() === c` for a lower-case ASCII letter `c`. */
  function AnswersLetter(answer: string, c: char): (matches: bool)
    requires 'a' <= c <= 'z'
    ensures matches <==> answer == [c] || answer == [Upper(c)]
  {
    LowerIsLetter(answer, c);
    Lower(answer) == [c]
  }

  /** The answer to a `(o/N)` prompt: only "o" or "O" is a yes; everything else, "" included, is a no. */
  function IsYes(answer: string): (yes: bool)
    ensures yes <==> answer == "o" || answer == "O"
  {
    AnswersLetter(answer, 'o')
  }

  /** The "all commands" choice of the deletion prompt: "t" or "T". */
  function ChoosesAll(choice: string): (all: bool)
    ensures all <==> choice == "t" || choice == "T"
  {
    AnswersLetter(choice, 't')
  }

  /** The "one specific command" choice of the deletion prompt: "s" or "S". */
  function ChoosesOne(choice: string): (one: bool)
    ensures one <==> choice == "s" || choice == "S"
  {
    AnswersLetter(choice, 's')
  }
}
