/** The "Why Voices Are Different" lesson: six slides, then a one-question
    quiz whose answer awards the lesson's reward. */
module LessonVoices {
  import opened Wrappers
  import opened AppContext
  import opened SeqUtil

  const SlideCount := 6
  const LastSlide := SlideCount - 1
  const VoiceExplorer := "voice-explorer"
  const VoicesPoints := 50

  /** The partial record the quiz answer passes to `updateKid`: 50 more points,
      one more lesson and the badge appended, with no check for either. */
  function VoicesUpdate(k: Kid): (u: KidUpdate)
    ensures u.(points := None, lessonsCompleted := None, badges := None) == NoFields
    ensures KeepsId(u, k.id)
    ensures Merge(k, u).points == k.points + VoicesPoints
    ensures Merge(k, u).lessonsCompleted == k.lessonsCompleted + 1
    ensures Merge(k, u).badges == k.badges + [VoiceExplorer]
  {
    NoFields.(
      points := Some(k.points + VoicesPoints),
      lessonsCompleted := Some(k.lessonsCompleted + 1),
      badges := Some(k.badges + [VoiceExplorer]))
  }

  /** The reward changes points, lessons and badges and no other field. */
  lemma VoicesRewardEffect(k: Kid)
    ensures var r := Merge(k, VoicesUpdate(k));
      && r.points == k.points + 50
      && r.lessonsCompleted == k.lessonsCompleted + 1
      && r.badges == k.badges + ["voice-explorer"]
      && r.(points := k.points, lessonsCompleted := k.lessonsCompleted, badges := k.badges) == k
  {
  }

  /** Unlike the other two lessons, answering the quiz a second time counts the
      lesson again and appends a second copy of the badge. */
  lemma VoicesRepeated(k: Kid)
    ensures var once := Merge(k, VoicesUpdate(k));
      var twice := Merge(once, VoicesUpdate(once));
      && twice.lessonsCompleted == k.lessonsCompleted + 2
      && twice.points == k.points + 100
      && Count(twice.badges, VoiceExplorer) == Count(k.badges, VoiceExplorer) + 2
  {
    var once := Merge(k, VoicesUpdate(k));
    CountAppend(k.badges, VoiceExplorer, VoiceExplorer);
    CountAppend(once.badges, VoiceExplorer, VoiceExplorer);
  }

  /** Completing the lesson from scratch: no lessons yields one, points rise by 50
      and the badge is held. */
  lemma VoicesFirstCompletion(k: Kid)
    requires k.lessonsCompleted == 0
    ensures var r := Merge(k, VoicesUpdate(k));
      r.lessonsCompleted == 1 && r.points == k.points + 50 && VoiceExplorer in r.badges
  {
  }

  /** The page's own state: slide index and quiz flags. */
  class VoicesPage {
    var currentSlide: int
    var showQuiz: bool
    var quizComplete: bool
    var selectedAnswer: Option<int>

    /** The slide index stays on a slide. */
    predicate Valid()
      reads this
    {
      0 <= currentSlide <= LastSlide
    }

    constructor ()
      ensures Valid()
      ensures currentSlide == 0 && !showQuiz && !quizComplete && selectedAnswer.None?
    {
      currentSlide := 0;
      showQuiz := false;
      quizComplete := false;
      selectedAnswer := None;
    }

    /** Next slide, or the quiz from the last one. */
    method HandleNext()
      requires Valid()
      modifies this
      ensures Valid()
      ensures old(currentSlide) < LastSlide ==> currentSlide == old(currentSlide) + 1 && showQuiz == old(showQuiz)
      ensures old(currentSlide) == LastSlide ==> currentSlide == LastSlide && showQuiz
      ensures quizComplete == old(quizComplete) && selectedAnswer == old(selectedAnswer)
    {
      if currentSlide < SlideCount - 1 {
        currentSlide := currentSlide + 1;
      } else if !showQuiz {
        showQuiz := true;
      }
    }

    /** Previous slide; nothing on the first one. */
    method HandlePrev()
      requires Valid()
      modifies this
      ensures Valid()
      ensures currentSlide == if old(currentSlide) > 0 then old(currentSlide) - 1 else 0
      ensures showQuiz == old(showQuiz) && quizComplete == old(quizComplete) && selectedAnswer == old(selectedAnswer)
    {
      if currentSlide > 0 {
        currentSlide := currentSlide - 1;
      }
    }

    /** Any answer completes the quiz and rewards the current kid, if there is one. */
    method HandleQuizAnswer(store: Store, index: int)
      requires Valid()
      modifies this, store
      ensures Valid()
      ensures selectedAnswer == Some(index) && quizComplete
      ensures currentSlide == old(currentSlide) && showQuiz == old(showQuiz)
      ensures store.State() == RewardCurrentKid(old(store.State()), VoicesUpdate)
    {
      selectedAnswer := Some(index);
      quizComplete := true;
      if store.currentKid.Some? {
        var k := store.currentKid.value;
        store.UpdateKid(k.id, VoicesUpdate(k));
      }
    }

    /** The quiz's back button: back to the slides, still on the last one. */
    method QuizBack()
      requires Valid()
      modifies this
      ensures Valid()
      ensures !showQuiz
      ensures currentSlide == old(currentSlide) && quizComplete == old(quizComplete) && selectedAnswer == old(selectedAnswer)
    {
      showQuiz := false;
    }
  }

  /** The quiz is only reachable from the last slide, and backing out of it
      returns there. */
  method QuizRoundTrip(page: VoicesPage)
    requires page.Valid() && page.currentSlide == LastSlide && !page.showQuiz
    modifies page
    ensures page.Valid() && page.currentSlide == LastSlide && !page.showQuiz
  {
    page.HandleNext();
    assert page.showQuiz;
    page.QuizBack();
  }
}
