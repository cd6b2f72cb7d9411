/** The server-owned records the pages list and edit, with the fields the model uses. */
module Entities {
  import opened Common

  datatype Role = UserRole | AdminRole

  datatype Difficulty = Easy | Medium | Hard

  datatype User = User(id: int, email: string, role: Role)

  datatype Lesson = Lesson(id: int, topic: string, category: string, summary: string)

  /** `options` is typed as an array, but the edit form still guards against it being
      absent, so the model lets it be absent. */
  datatype Quiz = Quiz(
    id: int,
    question: string,
    options: Option<seq<string>>,
    correctAnswer: string,
    explanation: Option<string>,
    category: Option<string>,
    difficulty: Difficulty,
    isActive: bool)

  datatype QuizAttempt = QuizAttempt(
    id: int,
    userId: int,
    quizId: int,
    selectedAnswer: string,
    isCorrect: bool)
}
