/**
 * The entities of the support inbox and its fixed sample data set
 * (three agents, five customers, five conversations and the canned
 * AI reply suggestions per conversation). Nothing here is ever mutated.
 * Avatar image URLs are left out of the records.
 */
module MockData {
  import opened Wrappers

  datatype UserStatus = Online | Offline | Away

  datatype ConversationStatus = Open | Closed | Pending | Assigned

  datatype ConversationTag = Billing | BugReport | FeatureRequest | Question | Urgent | PositiveSentiment

  datatype Sender = UserSender | AdminSender | SystemSender | AiSender

  /** A customer; `company`, `plan` and `location` are optional. */
  datatype User = User(
    id: string,
    name: string,
    email: string,
    status: UserStatus,
    lastActive: string,
    company: Option<string>,
    plan: Option<string>,
    location: Option<string>)

  /** One message of a thread; `isAiSuggestion` is optional and absent on ordinary messages. */
  datatype Message = Message(
    id: string,
    sender: Sender,
    content: string,
    timestamp: string,
    isAiSuggestion: Option<bool>)

  /** A support conversation; `assignedTo` is an optional agent id. */
  datatype Conversation = Conversation(
    id: string,
    user: User,
    status: ConversationStatus,
    assignedTo: Option<string>,
    tags: seq<ConversationTag>,
    subject: string,
    lastMessage: string,
    lastMessageTime: string,
    messages: seq<Message>,
    unread: bool)

  /** A support agent. */
  datatype Admin = Admin(id: string, name: string, role: string)

  /** The wire spelling of a customer's presence status. */
  function UserStatusText(s: UserStatus): string {
    match s
    case Online => "online"
    case Offline => "offline"
    case Away => "away"
  }

  /** A message the thread does not show: `isAiSuggestion` is present and true. */
  predicate IsAiSuggestion(m: Message) {
    m.isAiSuggestion == Some(true)
  }

  const MockAdmins: seq<Admin> := [
    Admin("admin-1", "Sarah Johnson", "Support Lead"),
    Admin("admin-2", "Michael Chen", "Customer Support"),
    Admin("admin-3", "Alex Rodriguez", "Technical Support")
  ]

  const Emma := User("user-1", "Emma Wilson", "emma.wilson@example.com", Online, "2 minutes ago",
                     Some("TechCorp Inc."), Some("Premium"), Some("New York, USA"))
  const John := User("user-2", "John Doe", "john.doe@example.com", Offline, "3 hours ago",
                     Some("Marketing Experts"), Some("Basic"), Some("London, UK"))
  const Sophia := User("user-3", "Sophia Martinez", "sophia.m@example.com", Away, "1 day ago",
                       Some("Design Studio"), Some("Standard"), Some("Berlin, Germany"))
  const David := User("user-4", "David Kim", "david.kim@example.com", Online, "Just now",
                      Some("Startup Labs"), Some("Premium Plus"), Some("San Francisco, USA"))
  const Olivia := User("user-5", "Olivia Taylor", "olivia.t@example.com", Offline, "5 days ago",
                       Some("Creative Solutions"), Some("Trial"), Some("Toronto, Canada"))

  const MockUsers: seq<User> := [Emma, John, Sophia, David, Olivia]

  /** Canned replies offered under the thread, by conversation id. */
  const MockAiSuggestions: map<string, seq<string>> := map[
    "conv-1" := [
      "I'd be hap" + "py to help" + " troublesh" + "oot that e" + "rror messa" + "ge. Could " +
        "you please" + " share a s" + "creenshot " + "of the exa" + "ct error y" + "ou're seei" +
        "ng?",
      "I understa" + "nd your fr" + "ustration " + "with the b" + "illing err" + "or. Let me" +
        " look into" + " your acco" + "unt right " + "away and g" + "et this re" + "solved for" +
        " you.",
      "That's def" + "initely no" + "t the expe" + "rience we " + "want you t" + "o have. I'" +
        "ll make su" + "re our tec" + "hnical tea" + "m addresse" + "s this iss" + "ue immedia" +
        "tely."
    ],
    "conv-2" := [
      "I can see " + "you're on " + "our Basic " + "plan. Upgr" + "ading to P" + "remium wou" +
        "ld give yo" + "u access t" + "o the feat" + "ures you'r" + "e looking " + "for, and I" +
        " can offer" + " a 15% dis" + "count for " + "the first " + "3 months.",
      "Thank you " + "for your i" + "nterest in" + " our premi" + "um feature" + "s. I'd be " +
        "happy to s" + "et up a de" + "mo call to" + " show you " + "how they w" + "ork.",
      "I apprecia" + "te your qu" + "estion abo" + "ut pricing" + ". Our Prem" + "ium plan i" +
        "s $29/mont" + "h, but we " + "do offer a" + "nnual disc" + "ounts that" + " bring it " +
        "down to $2" + "4/month."
    ],
    "conv-3" := [
      "Great news" + "! The feat" + "ure you're" + " requestin" + "g is actua" + "lly alread" +
        "y availabl" + "e. Go to S" + "ettings > " + "Preference" + "s > Advanc" + "ed to enab" +
        "le it.",
      "I've noted" + " your feat" + "ure reques" + "t and subm" + "itted it t" + "o our prod" +
        "uct team. " + "This is va" + "luable fee" + "dback that" + " helps us " + "improve.",
      "While we d" + "on't curre" + "ntly have " + "that speci" + "fic featur" + "e, there's" +
        " a workaro" + "und you mi" + "ght find h" + "elpful. Wo" + "uld you li" + "ke me to e" +
        "xplain how" + " it works?"
    ],
    "conv-4" := [
      "I'm sorry " + "to hear yo" + "u're havin" + "g trouble " + "with the i" + "ntegration" +
        ". Let's tr" + "oubleshoot" + " this step" + " by step.",
      "Based on y" + "our descri" + "ption, it " + "sounds lik" + "e there mi" + "ght be an " +
        "API key is" + "sue. Could" + " you verif" + "y that you" + "r key is s" + "till activ" +
        "e in your " + "account se" + "ttings?",
      "Our latest" + " update ma" + "y have aff" + "ected some" + " integrati" + "ons. Let m" +
        "e check if" + " there are" + " any known" + " issues wi" + "th the spe" + "cific serv" +
        "ice you're" + " trying to" + " connect."
    ],
    "conv-5" := [
      "Welcome to" + " our platf" + "orm! I'd b" + "e happy to" + " help you " + "get starte" +
        "d. What sp" + "ecific asp" + "ect would " + "you like t" + "o learn ab" + "out first?",
      "Thank you " + "for signin" + "g up! I no" + "tice you h" + "aven't com" + "pleted you" +
        "r profile " + "setup yet." + " Would you" + " like me t" + "o guide yo" + "u through " +
        "that proce" + "ss?",
      "As a new u" + "ser, you m" + "ight find " + "our quick-" + "start guid" + "e helpful." +
        " I can sen" + "d you a li" + "nk to that" + " along wit" + "h our most" + " popular t" +
        "utorials."
    ]
  ]

  /** The messages of conv-1, oldest first. */
  function Conv1Message1(): Message {
    Message("msg-1-1", UserSender,
      "Hi there, " + "I'm having" + " a problem" + " with my b" + "illing. Wh" + "en I try t" +
        "o update m" + "y credit c" + "ard, I kee" + "p getting " + "an error m" + "essage.",
      "2023-05-18T09:30:00Z", None)
  }
  function Conv1Message2(): Message {
    Message("msg-1-2", AdminSender,
      "I'm sorry " + "to hear th" + "at! Can yo" + "u tell me " + "what error" + " message y" +
        "ou're seei" + "ng?",
      "2023-05-18T09:35:00Z", None)
  }
  function Conv1Message3(): Message {
    Message("msg-1-3", UserSender,
      "It says 'U" + "nable to p" + "rocess pay" + "ment metho" + "d. Please " + "try again " +
        "later.' I'" + "ve tried m" + "ultiple ti" + "mes over t" + "he past da" + "y.",
      "2023-05-18T09:37:00Z", None)
  }
  function Conv1Message4(): Message {
    Message("msg-1-4", UserSender,
      "I'm seeing" + " an error " + "when tryin" + "g to updat" + "e my payme" + "nt method," +
        " and my se" + "rvice is a" + "bout to be" + " suspended" + ". Can you " + "help ASAP?",
      "2023-05-18T09:38:00Z", None)
  }
  function Conv1Message5(): Message {
    Message("msg-1-5", AiSender,
      "I'd be hap" + "py to help" + " troublesh" + "oot that e" + "rror messa" + "ge. Could " +
        "you please" + " share a s" + "creenshot " + "of the exa" + "ct error y" + "ou're seei" +
        "ng?",
      "2023-05-18T09:39:00Z", Some(true))
  }
  function Conv1Message6(): Message {
    Message("msg-1-6", AiSender,
      "I understa" + "nd your fr" + "ustration " + "with the b" + "illing err" + "or. Let me" +
        " look into" + " your acco" + "unt right " + "away and g" + "et this re" + "solved for" +
        " you.",
      "2023-05-18T09:39:05Z", Some(true))
  }
  function Conv1Message7(): Message {
    Message("msg-1-7", AiSender,
      "That's def" + "initely no" + "t the expe" + "rience we " + "want you t" + "o have. I'" +
        "ll make su" + "re our tec" + "hnical tea" + "m addresse" + "s this iss" + "ue immedia" +
        "tely.",
      "2023-05-18T09:39:10Z", Some(true))
  }

  function Conv1Messages(): seq<Message> {
    [Conv1Message1(), Conv1Message2(), Conv1Message3(), Conv1Message4(), Conv1Message5(), Conv1Message6(), Conv1Message7()]
  }

  const Conv1 := Conversation(
    "conv-1", Emma, Open, Some("admin-1"), [Billing, Urgent],
    "Billing Issue",
    "I'm seeing an error when trying to update my payment method",
    "5m ago",
    Conv1Messages(),
    true)

  /** The messages of conv-2, oldest first. */
  function Conv2Message1(): Message {
    Message("msg-2-1", UserSender,
      "Hi, I'm cu" + "rrently on" + " the basic" + " plan but " + "I'm intere" + "sted in so" +
        "me of the " + "premium fe" + "atures. Co" + "uld you te" + "ll me more" + " about the" +
        "m?",
      "2023-05-18T08:00:00Z", None)
  }
  function Conv2Message2(): Message {
    Message("msg-2-2", AdminSender,
      "Of course!" + " Our premi" + "um plan in" + "cludes adv" + "anced anal" + "ytics, pri" +
        "ority supp" + "ort, and u" + "nlimited e" + "xports. Wa" + "s there a " + "specific f" +
        "eature you" + " were inte" + "rested in?",
      "2023-05-18T08:15:00Z", None)
  }
  function Conv2Message3(): Message {
    Message("msg-2-3", UserSender,
      "Thanks for" + " the quick" + " response." + " I'm parti" + "cularly in" + "terested i" +
        "n the adva" + "nced analy" + "tics. How " + "much more " + "detailed a" + "re they co" +
        "mpared to " + "the basic " + "plan?",
      "2023-05-18T08:30:00Z", None)
  }

  function Conv2Messages(): seq<Message> {
    [Conv2Message1(), Conv2Message2(), Conv2Message3()]
  }

  const Conv2 := Conversation(
    "conv-2", John, Open, None, [FeatureRequest],
    "Premium Features",
    "Could you tell me more about your premium plans?",
    "30m ago",
    Conv2Messages(),
    false)

  /** The messages of conv-3, oldest first. */
  function Conv3Message1(): Message {
    Message("msg-3-1", UserSender,
      "Hello, I'm" + " trying to" + " use the d" + "ata export" + " feature t" + "hat was me" +
        "ntioned in" + " your last" + " newslette" + "r, but I c" + "an't find " + "it anywher" +
        "e in the d" + "ashboard.",
      "2023-05-17T14:00:00Z", None)
  }
  function Conv3Message2(): Message {
    Message("msg-3-2", AdminSender,
      "Hi Sophia," + " thanks fo" + "r reaching" + " out. The " + "export fea" + "ture shoul" +
        "d be avail" + "able under" + " 'Reports " + "> Data > E" + "xport'. Ca" + "n you chec" +
        "k if you s" + "ee it ther" + "e?",
      "2023-05-17T14:30:00Z", None)
  }
  function Conv3Message3(): Message {
    Message("msg-3-3", UserSender,
      "I've looke" + "d there, b" + "ut there's" + " no Export" + " option. I" + " only see " +
        "'Save' and" + " 'Share' b" + "uttons.",
      "2023-05-17T15:00:00Z", None)
  }
  function Conv3Message4(): Message {
    Message("msg-3-4", AdminSender,
      "I apologiz" + "e for the " + "confusion." + " Could you" + " tell me w" + "hich subsc" +
        "ription pl" + "an you're " + "currently " + "on? The ex" + "port featu" + "re is only" +
        " available" + " on Premiu" + "m and high" + "er plans.",
      "2023-05-17T15:15:00Z", None)
  }
  function Conv3Message5(): Message {
    Message("msg-3-5", UserSender,
      "Oh, I see." + " I'm on th" + "e Standard" + " plan. Is " + "there any " + "way to get" +
        " access to" + " just the " + "export fea" + "ture witho" + "ut upgradi" + "ng to Prem" +
        "ium? It's " + "the only P" + "remium fea" + "ture I nee" + "d.",
      "2023-05-17T15:30:00Z", None)
  }

  function Conv3Messages(): seq<Message> {
    [Conv3Message1(), Conv3Message2(), Conv3Message3(), Conv3Message4(), Conv3Message5()]
  }

  const Conv3 := Conversation(
    "conv-3", Sophia, Pending, None, [BugReport, FeatureRequest],
    "Feature Not Working",
    "I can't seem to find the export function you mentioned",
    "2h ago",
    Conv3Messages(),
    true)

  /** The messages of conv-4, oldest first. */
  function Conv4Message1(): Message {
    Message("msg-4-1", UserSender,
      "Hello supp" + "ort team, " + "we're havi" + "ng an issu" + "e with the" + " Salesforc" +
        "e integrat" + "ion. It wa" + "s working " + "yesterday," + " but today" + " all of ou" +
        "r data syn" + "c attempts" + " are faili" + "ng.",
      "2023-05-16T10:00:00Z", None)
  }
  function Conv4Message2(): Message {
    Message("msg-4-2", AdminSender,
      "Hi David, " + "I'm sorry " + "to hear ab" + "out the in" + "tegration " + "issues. Le" +
        "t me check" + " if there " + "are any kn" + "own servic" + "e disrupti" + "ons. Have " +
        "you made a" + "ny changes" + " to your S" + "alesforce " + "configurat" + "ion recent" +
        "ly?",
      "2023-05-16T10:15:00Z", None)
  }
  function Conv4Message3(): Message {
    Message("msg-4-3", UserSender,
      "No changes" + " on our en" + "d. We're g" + "etting an " + "authentica" + "tion error" +
        ", but our " + "API keys s" + "hould be v" + "alid. This" + " is affect" + "ing our en" +
        "tire sales" + " team righ" + "t now.",
      "2023-05-16T10:20:00Z", None)
  }

  function Conv4Messages(): seq<Message> {
    [Conv4Message1(), Conv4Message2(), Conv4Message3()]
  }

  const Conv4 := Conversation(
    "conv-4", David, Assigned, Some("admin-2"), [BugReport, Urgent],
    "Integration Problem",
    "The API integration with Salesforce isn't working",
    "1d ago",
    Conv4Messages(),
    false)

  /** The messages of conv-5, oldest first. */
  function Conv5Message1(): Message {
    Message("msg-5-1", UserSender,
      "Hi there! " + "I just sig" + "ned up for" + " your serv" + "ice and I'" + "m excited " +
        "to get sta" + "rted. Do y" + "ou have an" + "y beginner" + " guides or" + " tutorials" +
        " you could" + " point me " + "to?",
      "2023-05-15T09:00:00Z", None)
  }
  function Conv5Message2(): Message {
    Message("msg-5-2", AdminSender,
      "Welcome to" + " our platf" + "orm, Olivi" + "a! We're g" + "lad to hav" + "e you. Yes" +
        ", we have " + "several re" + "sources fo" + "r new user" + "s. Here's " + "a link to " +
        "our Gettin" + "g Started " + "guide: htt" + "ps://examp" + "le.com/get" + "ting-start" +
        "ed. Is the" + "re a speci" + "fic featur" + "e you're m" + "ost intere" + "sted in le" +
        "arning abo" + "ut?",
      "2023-05-15T09:30:00Z", None)
  }
  function Conv5Message3(): Message {
    Message("msg-5-3", UserSender,
      "Thank you " + "for the qu" + "ick respon" + "se! I'm pa" + "rticularly" + " intereste" +
        "d in setti" + "ng up the " + "automated " + "reports. I" + "'ll check " + "out the gu" +
        "ide you se" + "nt.",
      "2023-05-15T10:00:00Z", None)
  }
  function Conv5Message4(): Message {
    Message("msg-5-4", AdminSender,
      "You're wel" + "come! For " + "automated " + "reports, y" + "ou might w" + "ant to als" +
        "o check ou" + "t this spe" + "cific tuto" + "rial: http" + "s://exampl" + "e.com/auto" +
        "mated-repo" + "rts. Let m" + "e know if " + "you have a" + "ny questio" + "ns after r" +
        "eviewing t" + "hese resou" + "rces.",
      "2023-05-15T10:15:00Z", None)
  }
  function Conv5Message5(): Message {
    Message("msg-5-5", UserSender,
      "Perfect, t" + "hanks for " + "all your h" + "elp! I'll " + "go through" + " these mat" +
        "erials and" + " reach out" + " if I have" + " any quest" + "ions.",
      "2023-05-15T10:30:00Z", None)
  }

  function Conv5Messages(): seq<Message> {
    [Conv5Message1(), Conv5Message2(), Conv5Message3(), Conv5Message4(), Conv5Message5()]
  }

  const Conv5 := Conversation(
    "conv-5", Olivia, Open, None, [Question, PositiveSentiment],
    "Getting Started",
    "Thanks for the quick onboarding information",
    "2d ago",
    Conv5Messages(),
    false)

  const MockConversations: seq<Conversation> := [Conv1, Conv2, Conv3, Conv4, Conv5]

  /** Conversation ids, the list's React keys, are unique in the sample list `cs`. */
  lemma ConversationIdsDistinct(cs: seq<Conversation>)
    requires cs == MockConversations
    ensures forall i, j :: 0 <= i < j < |cs| ==> cs[i].id != cs[j].id
  {
    assert Conv1.id == "conv-1" && Conv2.id == "conv-2" && Conv3.id == "conv-3";
    assert Conv4.id == "conv-4" && Conv5.id == "conv-5";
    FiveIdsDistinct(cs, Conv1, Conv2, Conv3, Conv4, Conv5);
  }

  /** Five conversations whose ids are conv-1 to conv-5 have pairwise different ids. */
  lemma FiveIdsDistinct(cs: seq<Conversation>, c1: Conversation, c2: Conversation, c3: Conversation,
                        c4: Conversation, c5: Conversation)
    requires cs == [c1, c2, c3, c4, c5]
    requires c1.id == "conv-1" && c2.id == "conv-2" && c3.id == "conv-3" && c4.id == "conv-4" && c5.id == "conv-5"
    ensures forall i, j :: 0 <= i < j < |cs| ==> cs[i].id != cs[j].id
  {
  }

  /** Customer ids and agent ids, the latter the drop-down's item keys and values, are unique. */
  lemma UserAndAdminIdsDistinct()
    ensures |MockUsers| == 5 && |MockAdmins| == 3
    ensures forall i, j :: 0 <= i < j < |MockUsers| ==> MockUsers[i].id != MockUsers[j].id
    ensures forall i, j :: 0 <= i < j < |MockAdmins| ==> MockAdmins[i].id != MockAdmins[j].id
  {
  }
}
