/**
 * The saved mistake cards of src/data/mistakeData.ts that the home and review
 * screens list and filter.
 */
module MistakeData {

  datatype Mistake = Mistake(
    id: string,
    question: string,
    myAnswer: string,
    correctAnswer: string,
    topic: string,
    errorType: string,
    explanation: string,
    dueDate: string,
    exam: string)

  /** The due-date text that marks a card as due. */
  const DueToday: string := "Due today"

  /** The demo cards, with their topic, error type and due date; the worked
      explanations are not part of this model. */
  const Mistakes: seq<Mistake> := [
    Mistake("1", "Calculate 3/4 + 2/5", "5/9", "23/20 or 1 3/20",
            "Fractions", "Calculation slip", "", "Due today", "GCSE Math"),
    Mistake("2", "Solve for x: 2x + 5 = 13", "x = 9", "x = 4",
            "Algebra basics", "Concept misunderstanding", "", "Due tomorrow", "GCSE Math"),
    Mistake("3", "What is 15% of 80?", "15", "12",
            "Percentages", "Method selection", "", "Due in 3 days", "GCSE Math")
  ]
}
