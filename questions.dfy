/**
  The questions tab: a list of quiz questions with numeric ids allocated as
  the largest id plus one, a question draft, and an editing flag.
 */
module Questions {
  import opened Collections
  import opened Forms

  /** A question, or the draft of one (whose id is null until it is added). */
  datatype Question = Question(
    id: Option<int>, text: string, category: string, difficulty: string, answer: string)

  function QuestionKey(q: Question): Option<int> { q.id }

  /** An id as `Math.max` reads it: null counts as 0. */
  function NumericId(q: Question): (n: int)
    ensures q.id.Some? ==> n == q.id.value
    ensures q.id.None? ==> n == 0
  {
    match q.id
    case Some(n) => n
    case None => 0
  }

  const FillAlert := "Please fill all required fields"

  /** The question draft after a reset. */
  const EmptyQuestion := Question(None, "", "", "Easy", "")

  const InitialQuestions := [
    Question(Some(1), "What is the capital of France?", "Geography", "Easy", "Paris"),
    Question(Some(2), "Who wrote \"Romeo and Juliet\"?", "Literature", "Medium", "William Shakespeare"),
    Question(Some(3), "What is the chemical symbol for gold?", "Science", "Easy", "Au")
  ]

  /** A draft is complete when text, category and answer are all non-empty; difficulty is not checked. */
  function IsComplete(q: Question): (complete: bool)
    ensures !complete <==> q.text == "" || q.category == "" || q.answer == ""
  {
    q.text != "" && q.category != "" && q.answer != ""
  }

  /** The id a new question receives: one more than the largest id, or 1 for an empty list. */
  function AllocateQuestionId(questions: seq<Question>): (id: Option<int>)
    ensures id.Some?
    ensures !AnyWithKey(questions, QuestionKey, id)
    ensures |questions| == 0 ==> id == Some(1)
    ensures |questions| > 0 ==> exists i :: 0 <= i < |questions| && NumericId(questions[i]) == id.value - 1
    ensures forall i :: 0 <= i < |questions| && questions[i].id.Some? ==> questions[i].id.value < id.value
  {
    var n := NextId(questions, NumericId);
    assert forall i :: 0 <= i < |questions| ==> NumericId(questions[i]) < n;
    Some(n)
  }

  class QuestionsTab {
    var questions: seq<Question>
    var isEditing: bool
    var currentQuestion: Question

    /** Question ids are pairwise distinct. */
    ghost predicate Valid()
      reads this
    {
      DistinctKeys(questions, QuestionKey)
    }

    constructor ()
      ensures Valid()
      ensures questions == InitialQuestions && !isEditing && currentQuestion == EmptyQuestion
    {
      questions := InitialQuestions;
      isEditing := false;
      currentQuestion := EmptyQuestion;
    }

    /** Clear the draft and leave edit mode (also the Cancel button). */
    method ResetForm()
      requires Valid()
      modifies this
      ensures Valid()
      ensures currentQuestion == EmptyQuestion && !isEditing
      ensures questions == old(questions)
    {
      currentQuestion := EmptyQuestion;
      isEditing := false;
    }

    /**
      Submit the question form: reject a missing text, category or answer; in
      edit mode replace the question with the draft's id; otherwise append the
      draft under a newly allocated id. A saved submit resets the form.
     */
    method HandleSubmit() returns (outcome: Outcome)
      requires Valid()
      modifies this
      ensures Valid()
      ensures outcome == Saved <==> old(IsComplete(currentQuestion))
      ensures outcome.Rejected? ==>
                && outcome == Rejected(FillAlert)
                && questions == old(questions) && currentQuestion == old(currentQuestion)
                && isEditing == old(isEditing)
      ensures outcome == Saved ==> currentQuestion == EmptyQuestion && !isEditing
      ensures outcome == Saved && old(isEditing) ==>
                questions == ReplaceByKey(old(questions), QuestionKey, old(currentQuestion.id), old(currentQuestion))
      ensures outcome == Saved && !old(isEditing) ==>
                questions == old(questions) + [old(currentQuestion).(id := AllocateQuestionId(old(questions)))]
    {
      if currentQuestion.text == "" || currentQuestion.category == "" || currentQuestion.answer == "" {
        outcome := Rejected(FillAlert);
        return;
      }
      if isEditing {
        ReplaceKeepsKeys(questions, QuestionKey, currentQuestion.id, currentQuestion);
        questions := ReplaceByKey(questions, QuestionKey, currentQuestion.id, currentQuestion);
      } else {
        var newQuestion := currentQuestion.(id := AllocateQuestionId(questions));
        AppendFreshKeepsDistinct(questions, QuestionKey, newQuestion);
        questions := questions + [newQuestion];
      }
      ResetForm();
      outcome := Saved;
    }

    /** Load `question` into the draft and enter edit mode. */
    method EditQuestion(question: Question)
      requires Valid()
      modifies this
      ensures Valid()
      ensures isEditing && currentQuestion == question
      ensures questions == old(questions)
    {
      isEditing := true;
      currentQuestion := question;
    }

    /** Delete, once confirmed, every question with id `id`. */
    method DeleteQuestion(id: Option<int>, confirmed: bool)
      requires Valid()
      modifies this
      ensures Valid()
      ensures questions == if confirmed then RemoveByKey(old(questions), QuestionKey, id) else old(questions)
      ensures currentQuestion == old(currentQuestion) && isEditing == old(isEditing)
    {
      if confirmed {
        RemoveKeepsDistinct(questions, QuestionKey, id);
        questions := RemoveByKey(questions, QuestionKey, id);
      }
    }
  }

  /** A client of the specifications above: a question without an answer is rejected, then completed and added. */
  method AddQuestionScenario() {
    var tab := new QuestionsTab();
    tab.currentQuestion := Question(None, "2+2?", "Maths", "Easy", "");
    var missing := tab.HandleSubmit();
    assert missing == Rejected(FillAlert);

    tab.currentQuestion := tab.currentQuestion.(answer := "4");
    var added := tab.HandleSubmit();
    assert added == Saved;
    assert tab.questions[3].id.value > 3 by {
      assert InitialQuestions[2].id == Some(3);
    }
  }
}
