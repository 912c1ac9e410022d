/** The "Brave Speaking Practice" lesson: a simulated five-second recording,
    delete or submit, and a reward on submit. */
module LessonBraveSpeaking {
  import opened Wrappers
  import opened AppContext
  import opened SeqUtil

  const MaxSeconds := 5
  const BraveSpeaker := "brave-speaker"
  const BravePoints := 100
  const BraveLessons := 3

  /** The counter after one tick of the recording timer. */
  function TickTime(t: int): (r: int)
    ensures 0 <= t <= MaxSeconds ==> 0 <= r <= MaxSeconds
    ensures r == t <==> t >= MaxSeconds
    ensures t < MaxSeconds ==> r == t + 1
  {
    if t >= MaxSeconds then t else t + 1
  }

  /** The counter after `n` ticks. */
  function Ticks(t: int, n: nat): int
    decreases n
  {
    if n == 0 then t else Ticks(TickTime(t), n - 1)
  }

  /** From any counter in [0, 5] the ticks count up one per second and stop at 5:
      the counter never passes five seconds. */
  lemma {:induction false} TicksStopAtMax(t: int, n: nat)
    requires 0 <= t <= MaxSeconds
    ensures Ticks(t, n) == if t + n <= MaxSeconds then t + n else MaxSeconds
    ensures 0 <= Ticks(t, n) <= MaxSeconds
    decreases n
  {
    if n > 0 {
      TicksStopAtMax(TickTime(t), n - 1);
    }
  }

  /** The partial record `submitRecording` passes to `updateKid`. */
  function BraveUpdate(k: Kid): (u: KidUpdate)
    ensures u.(points := None, lessonsCompleted := None, badges := None) == NoFields
    ensures KeepsId(u, k.id)
    ensures Merge(k, u).points == k.points + BravePoints
    ensures Merge(k, u).lessonsCompleted >= BraveLessons && Merge(k, u).lessonsCompleted >= k.lessonsCompleted
    ensures BraveSpeaker in Merge(k, u).badges && |k.badges| <= |Merge(k, u).badges| && Merge(k, u).badges[..|k.badges|] == k.badges
  {
    NoFields.(
      points := Some(k.points + BravePoints),
      lessonsCompleted := Some(Max(k.lessonsCompleted, BraveLessons)),
      badges := Some(AppendIfAbsent(k.badges, BraveSpeaker)))
  }

  /** The reward: 100 more points, at least three lessons, the badge held, the old
      badges kept, and no other field touched. */
  lemma BraveRewardEffect(k: Kid)
    ensures var r := Merge(k, BraveUpdate(k));
      && r.points == k.points + 100
      && r.lessonsCompleted >= 3 && r.lessonsCompleted >= k.lessonsCompleted
      && (r.lessonsCompleted == 3 || r.lessonsCompleted == k.lessonsCompleted)
      && "brave-speaker" in r.badges
      && (BraveSpeaker in k.badges ==> r.badges == k.badges)
      && (BraveSpeaker !in k.badges ==> r.badges == k.badges + [BraveSpeaker])
      && r.(points := k.points, lessonsCompleted := k.lessonsCompleted, badges := k.badges) == k
  {
  }

  /** Submitting again only adds points. */
  lemma BraveRepeated(k: Kid)
    ensures var once := Merge(k, BraveUpdate(k));
      var twice := Merge(once, BraveUpdate(once));
      && twice.badges == once.badges
      && twice.lessonsCompleted == once.lessonsCompleted
      && twice.points == k.points + 200
  {
    AppendIfAbsentIdempotent(k.badges, BraveSpeaker);
  }

  /** Like the famous-people lesson, this reward never duplicates a badge. */
  lemma BraveKeepsBadgesDistinct(k: Kid)
    requires Distinct(k.badges)
    ensures Distinct(Merge(k, BraveUpdate(k)).badges)
  {
    AppendIfAbsentDistinct(k.badges, BraveSpeaker);
  }

  /** The page's own state. */
  class BravePage {
    var isRecording: bool
    var hasRecording: bool
    var recordingTime: int
    var showCompletion: bool

    /** The counter starts at 0 and is only ever reset or ticked. */
    predicate Valid()
      reads this
    {
      0 <= recordingTime <= MaxSeconds
    }

    constructor ()
      ensures Valid() && !isRecording && !hasRecording && recordingTime == 0 && !showCompletion
    {
      isRecording := false;
      hasRecording := false;
      recordingTime := 0;
      showCompletion := false;
    }

    /** The state changes of `startRecording`; the one-second timer it starts is
        modelled by `Tick`. */
    method StartRecording()
      requires Valid()
      modifies this
      ensures Valid()
      ensures isRecording && recordingTime == 0
      ensures hasRecording == old(hasRecording) && showCompletion == old(showCompletion)
    {
      isRecording := true;
      recordingTime := 0;
    }

    /** One timer tick: count up, or at five seconds stop and keep the recording. */
    method Tick()
      requires Valid()
      modifies this
      ensures Valid()
      ensures recordingTime == TickTime(old(recordingTime))
      ensures old(recordingTime) >= MaxSeconds ==> !isRecording && hasRecording
      ensures old(recordingTime) < MaxSeconds ==> isRecording == old(isRecording) && hasRecording == old(hasRecording)
      ensures showCompletion == old(showCompletion)
    {
      if recordingTime >= MaxSeconds {
        isRecording := false;
        hasRecording := true;
      } else {
        recordingTime := recordingTime + 1;
      }
    }

    method StopRecording()
      requires Valid()
      modifies this
      ensures Valid()
      ensures !isRecording && hasRecording
      ensures recordingTime == old(recordingTime) && showCompletion == old(showCompletion)
    {
      isRecording := false;
      hasRecording := true;
    }

    method DeleteRecording()
      requires Valid()
      modifies this
      ensures Valid()
      ensures !hasRecording && recordingTime == 0
      ensures isRecording == old(isRecording) && showCompletion == old(showCompletion)
    {
      hasRecording := false;
      recordingTime := 0;
    }

    /** Reward the current kid, if any, and show the completion screen either way. */
    method SubmitRecording(store: Store)
      requires Valid()
      modifies this, store
      ensures Valid()
      ensures showCompletion
      ensures isRecording == old(isRecording) && hasRecording == old(hasRecording) && recordingTime == old(recordingTime)
      ensures store.State() == RewardCurrentKid(old(store.State()), BraveUpdate)
    {
      if store.currentKid.Some? {
        var k := store.currentKid.value;
        store.UpdateKid(k.id, BraveUpdate(k));
      }
      showCompletion := true;
    }

    /** "Do another exercise": back to an empty recorder. */
    method DoAnother()
      requires Valid()
      modifies this
      ensures Valid()
      ensures !showCompletion && !hasRecording && recordingTime == 0
      ensures isRecording == old(isRecording)
    {
      showCompletion := false;
      hasRecording := false;
      recordingTime := 0;
    }
  }
}
