/** The lesson screen (components/LessonView.tsx): the tab bar and its tier
    locks, the "Complete Class" flag, the listen tab driving the browser's
    speech engine, and the tutor chat. */
module LessonView {
  import opened Types
  import opened Text

  datatype Tab = Learn | Review | Ask | Exam | Voice | Next

  datatype Role = User | Model

  datatype ChatMessage = ChatMessage(role: Role, text: string)

  /** What a handler asks of the browser's speech engine. */
  datatype SpeechCommand =
    | PauseSpeech
    | ResumeSpeech
    | CancelSpeech
    | Speak(text: string, rateQuarters: nat)

  /** A question handed to the tutor service together with the history it is sent with. */
  datatype TutorRequest = TutorRequest(question: string, history: seq<ChatMessage>)

  /** The model message shown when the call to the tutor service throws.
      The service catches the errors of its own request and answers with an
      apology of its own, which arrives as an ordinary reply; only a failure
      before that, such as constructing its client, reaches this text. */
  const FallbackReply: string := "Connectivity lost. Retrying brain link..."

  /** The exam needs PREMIUM or better, the listen tab needs PRO, the other tabs are open to all. */
  function IsTabLocked(tier: SubscriptionTier, tab: Tab): (locked: bool)
    ensures tab == Exam ==> (locked <==> tier == Free)
    ensures tab == Voice ==> (locked <==> tier != Pro)
    ensures tab != Exam && tab != Voice ==> !locked
  {
    if tab == Exam && tier == Free then true
    else if tab == Voice && tier != Pro then true
    else false
  }

  /** A higher tier unlocks every tab a lower one does. */
  lemma TabLockMonotone(lower: SubscriptionTier, higher: SubscriptionTier, tab: Tab)
    requires Rank(lower) <= Rank(higher)
    ensures IsTabLocked(higher, tab) ==> IsTabLocked(lower, tab)
  {
  }

  /** The upgrade a click on a tab asks for: none for an open tab, otherwise a
      strictly higher tier that opens it. */
  function UpgradeFor(tier: SubscriptionTier, tab: Tab): (r: Option<SubscriptionTier>)
    ensures r.None? <==> !IsTabLocked(tier, tab)
    ensures r.Some? ==> !IsTabLocked(r.value, tab) && Rank(r.value) > Rank(tier)
    ensures r.Some? && tab == Exam ==> r.value == Premium
    ensures r.Some? && tab == Voice ==> r.value == Pro
  {
    if tab == Exam && tier == Free then Some(Premium)
    else if tab == Voice && tier != Pro then Some(Pro)
    else None
  }

  /** The rate button, in quarters of normal speed: 1 -> 1.25 -> 1.5 -> 1. */
  function NextRate(q: nat): (r: nat)
    ensures 4 <= q <= 6 ==> 4 <= r <= 6 && r != q
  {
    if q == 6 then 4 else q + 1
  }

  /** Three presses bring the rate back to where it was. */
  lemma RateCycles(q: nat)
    requires 4 <= q <= 6
    ensures NextRate(NextRate(NextRate(q))) == q
  {
  }

  /** Messages alternate, the learner's first; a learner's message is never empty. */
  predicate Alternates(history: seq<ChatMessage>)
  {
    forall i :: 0 <= i < |history| ==>
      history[i].role == (if i % 2 == 0 then User else Model) &&
      (history[i].role == User ==> history[i].text != [])
  }

  /** Appending a message of the role whose turn it is keeps the alternation. */
  lemma AlternatesAppend(history: seq<ChatMessage>, m: ChatMessage)
    requires Alternates(history)
    requires m.role == (if |history| % 2 == 0 then User else Model)
    requires m.role == User ==> m.text != []
    ensures Alternates(history + [m])
  {
    var h := history + [m];
    forall i | 0 <= i < |h|
      ensures h[i].role == (if i % 2 == 0 then User else Model)
      ensures h[i].role == User ==> h[i].text != []
    {
      if i < |history| {
        assert h[i] == history[i];
      }
    }
  }

  class LessonState {
    var content: LessonContent
    var tier: SubscriptionTier
    var activeTab: Tab
    var quizFinished: bool
    var lessonCompleted: bool
    var quizScore: nat
    var chatHistory: seq<ChatMessage>
    var chatInput: string
    var isTyping: bool
    var isSpeaking: bool
    var isPaused: bool
    var speechRate: nat

    /** What the handlers keep true: the rate is one of its three settings,
        only a running utterance is paused, the open tab is one the tier
        unlocks, and an answer is awaited exactly after a learner's message. */
    ghost predicate Valid()
      reads this
    {
      4 <= speechRate <= 6 &&
      (isPaused ==> isSpeaking) &&
      !IsTabLocked(tier, activeTab) &&
      Alternates(chatHistory) &&
      (isTyping <==> |chatHistory| % 2 == 1)
    }

    constructor (content: LessonContent, tier: SubscriptionTier)
      ensures Valid()
      ensures this.content == content && this.tier == tier && activeTab == Learn
      ensures !quizFinished && !lessonCompleted && quizScore == 0
      ensures chatHistory == [] && chatInput == [] && !isTyping
      ensures !isSpeaking && !isPaused && speechRate == 4
    {
      this.content := content;
      this.tier := tier;
      activeTab := Learn;
      quizFinished := false;
      lessonCompleted := false;
      quizScore := 0;
      chatHistory := [];
      chatInput := [];
      isTyping := false;
      isSpeaking := false;
      isPaused := false;
      speechRate := 4;
    }

    /** A click on a tab: an open tab becomes active; a locked one stays shut
        and the upgrade that opens it is returned for the upgrade dialog. */
    method HandleTabClick(id: Tab) returns (upgrade: Option<SubscriptionTier>)
      requires Valid()
      modifies this`activeTab
      ensures Valid()
      ensures upgrade == UpgradeFor(tier, id)
      ensures upgrade.None? ==> activeTab == id
      ensures upgrade.Some? ==> activeTab == old(activeTab)
      ensures tier == old(tier) && chatHistory == old(chatHistory) && isTyping == old(isTyping)
      ensures isSpeaking == old(isSpeaking) && isPaused == old(isPaused) && speechRate == old(speechRate)
      ensures lessonCompleted == old(lessonCompleted) && quizFinished == old(quizFinished)
      ensures quizScore == old(quizScore) && chatInput == old(chatInput)
    {
      upgrade := UpgradeFor(tier, id);
      if upgrade.None? {
        activeTab := id;
      }
    }

    /** A new lesson passed down, as after a click on a next topic: the
        screen stays mounted, so the open tab, the completion flags, the
        exam score and the chat all carry over to the new lesson. */
    method SetContent(c: LessonContent)
      requires Valid()
      modifies this`content
      ensures Valid() && content == c
    {
      content := c;
    }

    /** The tier passed down after an upgrade; the open tab stays open. */
    method SetTier(t: SubscriptionTier)
      requires Valid() && Rank(tier) <= Rank(t)
      modifies this`tier
      ensures Valid() && tier == t
    {
      TabLockMonotone(tier, t, activeTab);
      tier := t;
    }

    /** The play/pause button: pauses a running utterance, resumes a paused
        one, and otherwise speaks the lesson without its markup at the
        current rate. */
    method ToggleSpeech() returns (cmd: SpeechCommand)
      requires Valid()
      modifies this`isPaused
      ensures Valid()
      ensures old(isSpeaking) && !old(isPaused) ==> cmd == PauseSpeech && isPaused
      ensures old(isPaused) ==> cmd == ResumeSpeech && !isPaused
      ensures !old(isSpeaking) ==>
        cmd == Speak(StripMarkup(content.lesson), speechRate) && isPaused == old(isPaused)
    {
      if isSpeaking && !isPaused {
        cmd := PauseSpeech;
        isPaused := true;
      } else if isPaused {
        cmd := ResumeSpeech;
        isPaused := false;
      } else {
        cmd := Speak(StripMarkup(content.lesson), speechRate);
      }
    }

    /** The utterance's start event. */
    method OnSpeechStart()
      requires Valid()
      modifies this`isSpeaking
      ensures Valid() && isSpeaking
    {
      isSpeaking := true;
    }

    /** The utterance's end event clears both flags. */
    method OnSpeechEnd()
      requires Valid()
      modifies this`isSpeaking, this`isPaused
      ensures Valid() && !isSpeaking && !isPaused
    {
      isSpeaking := false;
      isPaused := false;
    }

    /** The stop button only asks the engine to cancel; the flags change with
        the end event. */
    method StopSpeech() returns (cmd: SpeechCommand)
      requires Valid()
      ensures cmd == CancelSpeech
    {
      cmd := CancelSpeech;
    }

    /** The rate button, for the next utterance. */
    method CycleRate()
      requires Valid()
      modifies this`speechRate
      ensures Valid()
      ensures old(speechRate) == 6 ==> speechRate == 4
      ensures old(speechRate) < 6 ==> speechRate == old(speechRate) + 1
    {
      speechRate := NextRate(speechRate);
    }

    /** Typing in the chat box. */
    method TypeInput(text: string)
      requires Valid()
      modifies this`chatInput
      ensures Valid() && chatInput == text
    {
      chatInput := text;
    }

    /** Sending a question: ignored when the box is blank or an answer is
        awaited; otherwise the box is cleared, the trimmed question appended,
        and the question is sent with the history from before it. */
    method SubmitMessage() returns (request: Option<TutorRequest>)
      requires Valid()
      modifies this`chatInput, this`chatHistory, this`isTyping
      ensures Valid()
      ensures request.None? <==> IsBlank(old(chatInput)) || old(isTyping)
      ensures request.None? ==>
        chatInput == old(chatInput) && chatHistory == old(chatHistory) && isTyping == old(isTyping)
      ensures request.Some? ==>
        request.value == TutorRequest(Trim(old(chatInput)), old(chatHistory)) &&
        chatInput == [] && isTyping &&
        chatHistory == old(chatHistory) + [ChatMessage(User, Trim(old(chatInput)))]
    {
      var question := Trim(chatInput);
      if question == [] || isTyping {
        request := None;
      } else {
        var sent := ChatMessage(User, question);
        AlternatesAppend(chatHistory, sent);
        request := Some(TutorRequest(question, chatHistory));
        chatInput, chatHistory, isTyping := [], chatHistory + [sent], true;
      }
    }

    /** The tutor's answer, or `None` when the call threw: exactly one model
        message is appended and the wait ends. */
    method ReceiveReply(reply: Option<string>)
      requires Valid() && isTyping
      modifies this`chatHistory, this`isTyping
      ensures Valid() && !isTyping
      ensures chatHistory ==
        old(chatHistory) + [ChatMessage(Model, if reply.Some? then reply.value else FallbackReply)]
    {
      var text := if reply.Some? then reply.value else FallbackReply;
      AlternatesAppend(chatHistory, ChatMessage(Model, text));
      chatHistory := chatHistory + [ChatMessage(Model, text)];
      isTyping := false;
    }

    /** "Complete Class"; pressing it again changes nothing. */
    method CompleteClass()
      requires Valid()
      modifies this`lessonCompleted
      ensures Valid() && lessonCompleted
    {
      lessonCompleted := true;
    }

    /** The delayed switch to the summary after "Complete Class". */
    method ShowReview()
      requires Valid()
      modifies this`activeTab
      ensures Valid() && activeTab == Review
    {
      activeTab := Review;
    }

    /** The exam's completion callback keeps the score and marks the exam done. */
    method QuizCompleted(score: nat)
      requires Valid()
      modifies this`quizScore, this`quizFinished
      ensures Valid() && quizScore == score && quizFinished
    {
      quizScore := score;
      quizFinished := true;
    }
  }

  /** Pressing play twice while speaking pauses and then resumes the same utterance. */
  method PauseThenResume(lesson: LessonContent) returns (play: SpeechCommand, pause: SpeechCommand, resume: SpeechCommand)
    ensures play == Speak(StripMarkup(lesson.lesson), 4)
    ensures pause == PauseSpeech && resume == ResumeSpeech
  {
    var view := new LessonState(lesson, Pro);
    play := view.ToggleSpeech();
    view.OnSpeechStart();
    pause := view.ToggleSpeech();
    resume := view.ToggleSpeech();
  }

  /** A question asked on the free tier: the learner's trimmed message is
      followed by the fallback when the call to the tutor throws. */
  method AskWhenTutorThrows(lesson: LessonContent, question: string) returns (history: seq<ChatMessage>)
    requires !IsBlank(question)
    ensures history == [ChatMessage(User, Trim(question)), ChatMessage(Model, FallbackReply)]
  {
    var view := new LessonState(lesson, Free);
    view.TypeInput(question);
    var request := view.SubmitMessage();
    assert view.chatHistory == [ChatMessage(User, Trim(question))];
    view.ReceiveReply(None);
    history := view.chatHistory;
  }

  /** Completing a lesson, asking a question and following a next topic:
      the new lesson opens on the "next" tab, already marked completed, with
      the old conversation. */
  method NextTopicKeepsState(first: LessonContent, second: LessonContent, question: string, reply: string)
    returns (tab: Tab, completed: bool, history: seq<ChatMessage>)
    requires !IsBlank(question)
    ensures tab == Next && completed
    ensures history == [ChatMessage(User, Trim(question)), ChatMessage(Model, reply)]
  {
    var view := new LessonState(first, Free);
    view.CompleteClass();
    view.TypeInput(question);
    var request := view.SubmitMessage();
    assert view.chatHistory == [ChatMessage(User, Trim(question))];
    view.ReceiveReply(Some(reply));
    assert view.lessonCompleted && view.chatHistory == [ChatMessage(User, Trim(question)), ChatMessage(Model, reply)];
    var upgrade := view.HandleTabClick(Next);
    view.SetContent(second);
    tab, completed, history := view.activeTab, view.lessonCompleted, view.chatHistory;
  }
}
