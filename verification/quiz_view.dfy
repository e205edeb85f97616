/** Correct-option marking in the quiz tab (the same rule in index.tsx and
    App.tsx): an option is highlighted when its text equals the question's
    `correctAnswer`. */
module QuizView {
  import opened Seqs
  import opened Types

  /** The highlight flag of each option, in option order. */
  function MarkOptions(options: seq<string>, answer: string): (marks: seq<bool>)
    ensures |marks| == |options|
    ensures forall i :: 0 <= i < |options| ==> (marks[i] <==> options[i] == answer)
  {
    if |options| == 0 then []
    else [options[0] == answer] + MarkOptions(options[1..], answer)
  }

  /** The marks of a question. */
  function Marks(q: QuizQuestion): seq<bool> {
    MarkOptions(q.options, q.correctAnswer)
  }

  /** As many options are highlighted as there are copies of the answer
      among the options: none when it is missing, several when it is
      duplicated. */
  lemma {:induction false} MarkedCountIsOccurrences(options: seq<string>, answer: string)
    ensures Count(MarkOptions(options, answer), true) == Count(options, answer)
  {
    if |options| > 0 {
      var marks := MarkOptions(options, answer);
      assert marks[1..] == MarkOptions(options[1..], answer);
      MarkedCountIsOccurrences(options[1..], answer);
    }
  }

  /** A well-formed question (its answer is exactly one of its options)
      highlights exactly one option; an answer outside the options
      highlights none, and rendering goes on. */
  lemma HighlightedOptions(q: QuizQuestion)
    ensures Count(q.options, q.correctAnswer) == 1 ==> Count(Marks(q), true) == 1
    ensures q.correctAnswer !in q.options ==> true !in Marks(q)
  {
    MarkedCountIsOccurrences(q.options, q.correctAnswer);
  }
}
