/**
 * The health chat assistant: a canned responder that classifies a message by
 * keywords and answers from a short or a detailed table, and the message log
 * the chat screen keeps.  The delayed reply is a completion method the caller
 * invokes; the reply pending for each send is remembered with what it captured.
 */
module HealthChatbot {

  import opened Wrappers
  import JsString
  import Lists

  /** The keys of the response tables. */
  datatype Category = Medication | Exercise | Nutrition | Sleep | Mental | Labs | Default

  /** The categories the classifier tests, in the order it tests them. */
  const Priority: seq<Category> := [Medication, Exercise, Nutrition, Sleep, Mental, Labs]

  /** The substrings that select each category. */
  function Keywords(c: Category): seq<string> {
    match c
    case Medication => ["medication", "pill", "drug"]
    case Exercise => ["exercise", "workout", "fitness"]
    case Nutrition => ["nutrition", "diet", "food"]
    case Sleep => ["sleep", "insomnia", "tired"]
    case Mental => ["mental", "stress", "anxiety", "depression"]
    case Labs => ["lab", "test", "result"]
    case Default => []
  }

  /** Some keyword of the list occurs in `m`. */
  function AnyOccurs(m: string, keywords: seq<string>): (b: bool)
    ensures b <==> exists i :: 0 <= i < |keywords| && JsString.Contains(m, keywords[i])
  {
    if keywords == [] then false
    else
      var rest := AnyOccurs(m, keywords[1..]);
      assert forall i :: 1 <= i < |keywords| ==> keywords[i] == keywords[1..][i - 1];
      JsString.Contains(m, keywords[0]) || rest
  }

  /** `m` mentions one of the category's keywords. */
  predicate Mentions(m: string, c: Category) {
    AnyOccurs(m, Keywords(c))
  }

  /**
   * The category `generateResponse` picks: the message lowercased, then the
   * keyword tests category by category, first hit wins.
   */
  function Classify(userMessage: string): (c: Category)
    ensures c != Default ==> Mentions(JsString.ToLower(userMessage), c)
  {
    var message := JsString.ToLower(userMessage);
    AnyOccursOfThree(message, "medication", "pill", "drug");
    AnyOccursOfThree(message, "exercise", "workout", "fitness");
    AnyOccursOfThree(message, "nutrition", "diet", "food");
    AnyOccursOfThree(message, "sleep", "insomnia", "tired");
    AnyOccursOfFour(message, "mental", "stress", "anxiety", "depression");
    AnyOccursOfThree(message, "lab", "test", "result");
    if JsString.Contains(message, "medication") || JsString.Contains(message, "pill")
       || JsString.Contains(message, "drug") then Medication
    else if JsString.Contains(message, "exercise") || JsString.Contains(message, "workout")
       || JsString.Contains(message, "fitness") then Exercise
    else if JsString.Contains(message, "nutrition") || JsString.Contains(message, "diet")
       || JsString.Contains(message, "food") then Nutrition
    else if JsString.Contains(message, "sleep") || JsString.Contains(message, "insomnia")
       || JsString.Contains(message, "tired") then Sleep
    else if JsString.Contains(message, "mental") || JsString.Contains(message, "stress")
       || JsString.Contains(message, "anxiety") || JsString.Contains(message, "depression") then Mental
    else if JsString.Contains(message, "lab") || JsString.Contains(message, "test")
       || JsString.Contains(message, "result") then Labs
    else Default
  }

  /** Reference definition: the first category of `cats` for which `hit` holds, or the default. */
  function FirstHit(cats: seq<Category>, hit: Category -> bool): Category {
    if cats == [] then Default
    else if hit(cats[0]) then cats[0]
    else FirstHit(cats[1..], hit)
  }

  /** The test the classifier applies to each category. */
  function MentionedIn(m: string): Category -> bool {
    c => Mentions(m, c)
  }

  /** The first category of `cats` that `m` mentions, or the default. */
  function FirstMentioned(cats: seq<Category>, m: string): Category {
    FirstHit(cats, MentionedIn(m))
  }

  /** The reference picks the default or one of the listed categories. */
  lemma {:induction false} FirstHitIn(cats: seq<Category>, hit: Category -> bool)
    ensures FirstHit(cats, hit) == Default || FirstHit(cats, hit) in cats
  {
    if cats != [] && !hit(cats[0]) {
      FirstHitIn(cats[1..], hit);
    }
  }

  /** Over a list without the default, the default is picked exactly when nothing hits. */
  lemma {:induction false} FirstHitDefault(cats: seq<Category>, hit: Category -> bool)
    requires Default !in cats
    ensures FirstHit(cats, hit) == Default <==> forall i :: 0 <= i < |cats| ==> !hit(cats[i])
  {
    if cats != [] && !hit(cats[0]) {
      FirstHitDefault(cats[1..], hit);
      assert forall i :: 1 <= i < |cats| ==> cats[i] == cats[1..][i - 1];
    } else if cats != [] {
      assert cats[0] != Default;
    }
  }

  /** In a list without repeats or the default, `cats[k]` is picked iff it hits and no earlier entry does. */
  lemma {:induction false} FirstHitAt(cats: seq<Category>, hit: Category -> bool, k: nat)
    requires Lists.NoDuplicates(cats) && Default !in cats && k < |cats|
    ensures FirstHit(cats, hit) == cats[k] <==> hit(cats[k]) && forall j :: 0 <= j < k ==> !hit(cats[j])
  {
    if !hit(cats[0]) {
      FirstHitIn(cats[1..], hit);
      if k == 0 {
        assert cats[0] !in cats[1..];
      } else {
        assert Lists.NoDuplicates(cats[1..]);
        FirstHitAt(cats[1..], hit, k - 1);
        assert cats[1..][k - 1] == cats[k];
        forall j | 0 < j < k ensures cats[j] == cats[1..][j - 1] {}
      }
    } else if k > 0 {
      assert cats[0] != cats[k];
    }
  }

  lemma AnyOccursOfThree(m: string, a: string, b: string, c: string)
    ensures AnyOccurs(m, [a, b, c])
      == (JsString.Contains(m, a) || JsString.Contains(m, b) || JsString.Contains(m, c))
  {
    assert [c][1..] == [];
    assert AnyOccurs(m, [c]) == JsString.Contains(m, c);
    assert [b, c][1..] == [c];
    assert AnyOccurs(m, [b, c]) == (JsString.Contains(m, b) || AnyOccurs(m, [c]));
    assert [a, b, c][1..] == [b, c];
  }

  lemma AnyOccursOfFour(m: string, a: string, b: string, c: string, d: string)
    ensures AnyOccurs(m, [a, b, c, d])
      == (JsString.Contains(m, a) || JsString.Contains(m, b) || JsString.Contains(m, c)
          || JsString.Contains(m, d))
  {
    AnyOccursOfThree(m, b, c, d);
    assert [a, b, c, d][1..] == [b, c, d];
  }

  /** The if-chain is the first-mentioned category in priority order, on the lowercased message. */
  lemma ClassifyIsFirstMentioned(userMessage: string)
    ensures Classify(userMessage) == FirstMentioned(Priority, JsString.ToLower(userMessage))
  {
    var m := JsString.ToLower(userMessage);
    AnyOccursOfThree(m, "medication", "pill", "drug");
    AnyOccursOfThree(m, "exercise", "workout", "fitness");
    AnyOccursOfThree(m, "nutrition", "diet", "food");
    AnyOccursOfThree(m, "sleep", "insomnia", "tired");
    AnyOccursOfFour(m, "mental", "stress", "anxiety", "depression");
    AnyOccursOfThree(m, "lab", "test", "result");
    PriorityChain(MentionedIn(m));
  }

  /** `FirstHit` over the priority list, unfolded one category at a time. */
  lemma PriorityChain(hit: Category -> bool)
    ensures FirstHit(Priority, hit)
      == if hit(Medication) then Medication
         else if hit(Exercise) then Exercise
         else if hit(Nutrition) then Nutrition
         else if hit(Sleep) then Sleep
         else if hit(Mental) then Mental
         else if hit(Labs) then Labs
         else Default
  {
    assert FirstHit([], hit) == Default;
    assert [Labs][1..] == [];
    assert FirstHit([Labs], hit) == if hit(Labs) then Labs else Default;
    assert [Mental, Labs][1..] == [Labs];
    assert FirstHit([Mental, Labs], hit) == if hit(Mental) then Mental else FirstHit([Labs], hit);
    assert [Sleep, Mental, Labs][1..] == [Mental, Labs];
    assert FirstHit([Sleep, Mental, Labs], hit)
      == if hit(Sleep) then Sleep else FirstHit([Mental, Labs], hit);
    assert [Nutrition, Sleep, Mental, Labs][1..] == [Sleep, Mental, Labs];
    assert FirstHit([Nutrition, Sleep, Mental, Labs], hit)
      == if hit(Nutrition) then Nutrition else FirstHit([Sleep, Mental, Labs], hit);
    assert [Exercise, Nutrition, Sleep, Mental, Labs][1..] == [Nutrition, Sleep, Mental, Labs];
    assert FirstHit([Exercise, Nutrition, Sleep, Mental, Labs], hit)
      == if hit(Exercise) then Exercise else FirstHit([Nutrition, Sleep, Mental, Labs], hit);
    assert Priority[1..] == [Exercise, Nutrition, Sleep, Mental, Labs];
  }

  /** Over the priority list, `Priority[k]` is the first mentioned iff `m` mentions it and nothing earlier. */
  lemma FirstMentionedAt(m: string, k: nat)
    requires k < |Priority|
    ensures FirstMentioned(Priority, m) == Priority[k] <==>
      Mentions(m, Priority[k]) && forall j :: 0 <= j < k ==> !Mentions(m, Priority[j])
  {
    var hit := MentionedIn(m);
    FirstHitAt(Priority, hit, k);
    assert forall j :: 0 <= j < |Priority| ==> hit(Priority[j]) == Mentions(m, Priority[j]);
  }

  /** Over the priority list, the default is the first mentioned iff `m` mentions no category. */
  lemma FirstMentionedDefault(m: string)
    ensures FirstMentioned(Priority, m) == Default <==>
      forall j :: 0 <= j < |Priority| ==> !Mentions(m, Priority[j])
  {
    var hit := MentionedIn(m);
    FirstHitDefault(Priority, hit);
    assert forall j :: 0 <= j < |Priority| ==> hit(Priority[j]) == Mentions(m, Priority[j]);
  }

  /**
   * A category is chosen exactly when the lowercased message mentions it and
   * none of the categories tested before it.
   */
  lemma ClassifyPicks(userMessage: string, k: nat)
    requires k < |Priority|
    ensures Classify(userMessage) == Priority[k] <==>
      Mentions(JsString.ToLower(userMessage), Priority[k])
      && forall j :: 0 <= j < k ==> !Mentions(JsString.ToLower(userMessage), Priority[j])
  {
    ClassifyIsFirstMentioned(userMessage);
    FirstMentionedAt(JsString.ToLower(userMessage), k);
  }

  /** The default reply is chosen exactly when the lowercased message mentions no category. */
  lemma ClassifyDefault(userMessage: string)
    ensures Classify(userMessage) == Default <==>
      forall j :: 0 <= j < |Priority| ==> !Mentions(JsString.ToLower(userMessage), Priority[j])
  {
    ClassifyIsFirstMentioned(userMessage);
    FirstMentionedDefault(JsString.ToLower(userMessage));
  }

  /** Matching ignores the case of ASCII letters. */
  lemma ClassifyIgnoresCase(userMessage: string)
    ensures Classify(JsString.ToLower(userMessage)) == Classify(userMessage)
  {
    var low := JsString.ToLower(userMessage);
    JsString.ToLowerIdempotent(userMessage);
    ClassifyIsFirstMentioned(userMessage);
    ClassifyIsFirstMentioned(low);
  }

  /** The `mockResponses` tables: `detailed` picks the detailed one. */
  function ResponseText(c: Category, detailed: bool): string {
    if detailed then
      match c
      case Medication => "Medication management is crucial for your health. Here's what you need to know:\n\n• **Timing**: Take medications at the same time each day to maintain consistent levels\n• **Storage**: Keep medications in a cool, dry place away from direct sunlight\n• **Interactions**: Always inform all healthcare providers about all medications you're taking\n• **Side Effects**: Monitor for any unusual symptoms and report them to your doctor\n• **Adherence**: Use pill organizers or phone reminders to stay consistent\n\nNever stop medications suddenly without consulting your healthcare provider."
      case Exercise => "Exercise is one of the best investments in your health. Here's a comprehensive approach:\n\n**Cardiovascular Health:**\n• 150 minutes of moderate cardio per week\n• Activities like brisk walking, swimming, cycling\n\n**Strength Training:**\n• 2-3 sessions per week targeting all major muscle groups\n• Use bodyweight, resistance bands, or weights\n\n**Flexibility & Mobility:**\n• Daily stretching or yoga\n• Focus on areas that feel tight\n\n**Getting Started:**\n• Start slowly and gradually increase intensity\n• Listen to your body and rest when needed\n• Consider working with a fitness professional initially"
      case Nutrition => "Nutrition is the foundation of good health. Here's a comprehensive guide:\n\n**Macronutrients:**\n• **Proteins**: 20-30% of calories from lean sources\n• **Carbohydrates**: 45-55% from whole grains, fruits, vegetables\n• **Fats**: 25-35% from healthy sources like nuts, olive oil, avocados\n\n**Micronutrients:**\n• Aim for colorful variety in fruits and vegetables\n• Consider a multivitamin if diet is limited\n\n**Hydration:**\n• 8-10 glasses of water daily\n• More if you're active or in hot climates\n\n**Meal Timing:**\n• Regular meal schedule helps metabolism\n• Don't skip breakfast\n• Light dinner 2-3 hours before bed"
      case Sleep => "Quality sleep is essential for physical and mental health:\n\n**Sleep Hygiene:**\n• Consistent bedtime and wake time, even on weekends\n• Create a relaxing pre-sleep routine (reading, gentle stretches)\n• Keep bedroom temperature around 65-68°F (18-20°C)\n\n**Environment:**\n• Dark, quiet room (consider blackout curtains, white noise)\n• Comfortable mattress and pillows\n• Remove electronic devices or use blue light filters\n\n**Lifestyle Factors:**\n• Limit caffeine after 2 PM\n• Avoid large meals close to bedtime\n• Regular exercise, but not close to bedtime\n• Manage stress through relaxation techniques\n\n**When to Seek Help:**\n• Persistent insomnia or sleep disturbances\n• Loud snoring or breathing interruptions\n• Excessive daytime sleepiness"
      case Mental => "Mental health is just as important as physical health:\n\n**Stress Management:**\n• Practice mindfulness meditation (start with 5-10 minutes daily)\n• Deep breathing exercises during stressful moments\n• Regular physical activity to reduce stress hormones\n\n**Social Connection:**\n• Maintain relationships with family and friends\n• Join clubs or groups with shared interests\n• Consider volunteer work for sense of purpose\n\n**Professional Support:**\n• Therapy can be helpful for everyone, not just during crises\n• Don't hesitate to reach out if you're struggling\n• Many resources are available: counselors, support groups, hotlines\n\n**Daily Practices:**\n• Gratitude journaling\n• Adequate sleep and nutrition\n• Limit negative media consumption\n• Engage in activities you enjoy"
      case Labs => "Understanding lab results is important for managing your health:\n\n**Common Tests:**\n• **CBC (Complete Blood Count)**: Checks for anemia, infections, blood disorders\n• **CMP (Comprehensive Metabolic Panel)**: Kidney function, liver function, blood sugar\n• **Lipid Panel**: Cholesterol levels and heart disease risk\n• **A1C**: Average blood sugar over 2-3 months\n\n**Important Notes:**\n• Reference ranges can vary between labs\n• Results should always be interpreted by your healthcare provider\n• Trends over time are often more important than single values\n• Discuss any concerning results and next steps with your doctor\n\n**Preparation:**\n• Follow fasting instructions if required\n• Inform your provider about medications and supplements\n• Ask questions about what tests are being done and why"
      case Default => "I'm your comprehensive health assistant, ready to help with any wellness questions you have. I can provide information about:\n\n• **Medical Conditions**: Symptoms, causes, treatments\n• **Medications**: Usage, side effects, interactions\n• **Lifestyle**: Diet, exercise, sleep, stress management\n• **Preventive Care**: Screenings, vaccinations, health maintenance\n• **Mental Health**: Stress management, emotional wellness\n\nWhat specific area would you like to explore? I can provide both quick answers and detailed explanations based on your preference."
    else
      match c
      case Medication => "Always take medications as prescribed. Store them properly and never share. Check with your doctor about interactions. Set reminders to stay consistent."
      case Exercise => "Start with 30 minutes of moderate activity daily. Include cardio, strength training, and flexibility. Listen to your body and progress gradually."
      case Nutrition => "Focus on whole foods, fruits, vegetables, lean proteins, and whole grains. Stay hydrated and limit processed foods. Practice portion control."
      case Sleep => "Maintain a consistent sleep schedule. Create a relaxing bedtime routine. Keep your bedroom cool and dark. Limit screens before bed."
      case Mental => "Practice stress management techniques like meditation or deep breathing. Stay connected with loved ones. Consider professional help if needed."
      case Labs => "Lab results should be reviewed with your healthcare provider. They can explain what the numbers mean for your specific health situation."
      case Default => "I'm here to help with your health questions! Could you be more specific about what you'd like to know?"
  }

  /** `generateResponse`: the message picks the category, the flag only picks the table. */
  function GenerateResponse(userMessage: string, detailed: bool): (r: string)
    ensures r == ResponseText(Classify(JsString.ToLower(userMessage)), detailed)
  {
    ClassifyIgnoresCase(userMessage);
    ResponseText(Classify(userMessage), detailed)
  }

  /** The detailed flag never changes the category a reply is drawn from; it only picks the table. */
  lemma CategoryIgnoresFlag(input: string, d1: bool, d2: bool)
    ensures ReplyFor(PendingReply(input, d1)).content == Canned(Classify(input), d1)
    ensures ReplyFor(PendingReply(input, d1)).content.category == ReplyFor(PendingReply(input, d2)).content.category
    ensures ReplyFor(PendingReply(input, d1)).isDetailed == Some(d1)
  {
  }

  // ---------------------------------------------------------------------------
  // The chat screen.

  datatype Sender = User | Bot

  /**
   * What a logged message displays: typed text, or the table entry a reply
   * was answered from (shown as `ResponseText` of it).
   */
  datatype Content = Typed(text: string) | Canned(category: Category, detailed: bool)

  function ContentText(c: Content): string {
    match c
    case Typed(t) => t
    case Canned(category, detailed) => ResponseText(category, detailed)
  }

  /** A logged message; only bot replies carry the detailed flag. */
  datatype Message = Message(sender: Sender, content: Content, isDetailed: Option<bool>)

  const Greeting := Message(Bot, Typed("Hi! I'm your AI health assistant 🤖 I can help you with wellness advice, explain health concepts, and answer your questions. What would you like to know?"), None)

  /** A scheduled reply, with the input and the flag its callback closed over at send time. */
  datatype PendingReply = PendingReply(input: string, detailed: bool)

  /** The number of messages from `s` in the log. */
  function CountFrom(messages: seq<Message>, s: Sender): nat {
    if messages == [] then 0
    else CountFrom(messages[..|messages| - 1], s) + (if messages[|messages| - 1].sender == s then 1 else 0)
  }

  /** The bot reply a pending callback appends. */
  function ReplyFor(p: PendingReply): Message {
    Message(Bot, Canned(Classify(p.input), p.detailed), Some(p.detailed))
  }

  class Chat {
    var messages: seq<Message>
    var inputMessage: string
    var isDetailed: bool
    var isLoading: bool
    /** Replies scheduled and not yet delivered, oldest first (all share one delay). */
    var pending: seq<PendingReply>

    /**
     * The log opens with the greeting, and every user message is answered by
     * one bot message, delivered or pending.
     */
    ghost predicate Valid()
      reads this
    {
      && |messages| > 0 && messages[0] == Greeting
      && CountFrom(messages, User) + 1 == CountFrom(messages, Bot) + |pending|
    }

    /** The send button: disabled when the input is blank or a reply is loading. */
    predicate SendEnabled()
      reads this
      ensures SendEnabled() <==> !JsString.IsBlank(inputMessage) && !isLoading
    {
      JsString.TrimEmptyIffBlank(inputMessage);
      JsString.Trim(inputMessage) != "" && !isLoading
    }

    constructor ()
      ensures Valid()
      ensures messages == [Greeting] && inputMessage == "" && !isDetailed && !isLoading && pending == []
    {
      messages := [Greeting];
      inputMessage := "";
      isDetailed := false;
      isLoading := false;
      pending := [];
    }

    /**
     * `handleSendMessage`: blank input (after trimming) does nothing; otherwise
     * the raw input is logged as a user message, the input cleared, loading
     * set, and one reply scheduled with the input and flag of this moment.
     */
    method HandleSendMessage()
      requires Valid()
      modifies this
      ensures Valid()
      ensures JsString.IsBlank(old(inputMessage)) ==>
        messages == old(messages) && inputMessage == old(inputMessage)
        && isLoading == old(isLoading) && pending == old(pending)
      ensures !JsString.IsBlank(old(inputMessage)) ==>
        && messages == old(messages) + [Message(User, Typed(old(inputMessage)), None)]
        && inputMessage == "" && isLoading
        && pending == old(pending) + [PendingReply(old(inputMessage), old(isDetailed))]
      ensures isDetailed == old(isDetailed)
    {
      JsString.TrimEmptyIffBlank(inputMessage);
      if JsString.Trim(inputMessage) == "" {
        return;
      }
      CountFromAppend(messages, Message(User, Typed(inputMessage), None));
      messages := messages + [Message(User, Typed(inputMessage), None)];
      pending := pending + [PendingReply(inputMessage, isDetailed)];
      inputMessage := "";
      isLoading := true;
    }

    /**
     * The reply callback of the oldest pending send: its reply is appended and
     * loading cleared, even if later replies are still pending.
     */
    method CompleteReply()
      requires Valid() && pending != []
      modifies this
      ensures Valid()
      ensures messages == old(messages) + [ReplyFor(old(pending[0]))]
      ensures pending == old(pending[1..]) && !isLoading
      ensures inputMessage == old(inputMessage) && isDetailed == old(isDetailed)
    {
      CountFromAppend(messages, ReplyFor(pending[0]));
      messages := messages + [ReplyFor(pending[0])];
      pending := pending[1..];
      isLoading := false;
    }

    /** `handleQuickAction`: only the input text changes. */
    method HandleQuickAction(message: string)
      requires Valid()
      modifies this
      ensures Valid()
      ensures inputMessage == message
      ensures messages == old(messages) && pending == old(pending)
      ensures isDetailed == old(isDetailed) && isLoading == old(isLoading)
    {
      inputMessage := message;
    }

    /** The input's change handler. */
    method SetInput(text: string)
      requires Valid()
      modifies this
      ensures Valid()
      ensures inputMessage == text
      ensures messages == old(messages) && pending == old(pending)
      ensures isDetailed == old(isDetailed) && isLoading == old(isLoading)
    {
      inputMessage := text;
    }

    /** The response-mode button. */
    method ToggleDetailed()
      requires Valid()
      modifies this
      ensures Valid()
      ensures isDetailed == !old(isDetailed)
      ensures messages == old(messages) && pending == old(pending)
      ensures inputMessage == old(inputMessage) && isLoading == old(isLoading)
    {
      isDetailed := !isDetailed;
    }

    /**
     * `handleKeyPress`: Enter without Shift sends, with no loading check;
     * any other key does nothing.
     */
    method HandleKeyPress(key: string, shiftKey: bool)
      requires Valid()
      modifies this
      ensures Valid()
      ensures key == "Enter" && !shiftKey && !JsString.IsBlank(old(inputMessage)) ==>
        && messages == old(messages) + [Message(User, Typed(old(inputMessage)), None)]
        && inputMessage == "" && isLoading
        && pending == old(pending) + [PendingReply(old(inputMessage), old(isDetailed))]
      ensures key != "Enter" || shiftKey || JsString.IsBlank(old(inputMessage)) ==>
        messages == old(messages) && inputMessage == old(inputMessage)
        && isLoading == old(isLoading) && pending == old(pending)
      ensures isDetailed == old(isDetailed)
    {
      if key == "Enter" && !shiftKey {
        HandleSendMessage();
      }
    }
  }

  lemma CountFromAppend(messages: seq<Message>, m: Message)
    ensures CountFrom(messages + [m], User) == CountFrom(messages, User) + (if m.sender == User then 1 else 0)
    ensures CountFrom(messages + [m], Bot) == CountFrom(messages, Bot) + (if m.sender == Bot then 1 else 0)
  {
    assert (messages + [m])[..|messages|] == messages;
  }

  /**
   * A worked instance of the `HandleKeyPress` and `CompleteReply` contracts.
   * Enter skips the loading check: two sends in a row schedule two replies,
   * and the first to arrive clears loading while the second is still pending.
   */
  method LoadingClearedEarly() returns (loading: bool, stillPending: nat, logged: nat)
    ensures !loading && stillPending == 1 && logged == 4
  {
    var chat := new Chat();
    chat.SetInput("hello");
    assert !JsString.IsWhitespace("hello"[0]);
    chat.HandleKeyPress("Enter", false);
    chat.SetInput("again");
    assert !JsString.IsWhitespace("again"[0]);
    chat.HandleKeyPress("Enter", false);
    chat.CompleteReply();
    loading, stillPending, logged := chat.isLoading, |chat.pending|, |chat.messages|;
  }
}
