/**
 * Facts about the sample data that the thread, the suggestion block and the
 * agent drop-down rely on: which messages each sample thread shows, where the
 * AI suggestions of conv-1 come from, the shape of the suggestion table, the
 * agents the sample conversations are assigned to, and the order of the
 * message timestamps.
 *
 * Each sample conversation is first tied to its parts by a one-fact lemma,
 * and the general lemmas are then applied to those parts.
 */
module SampleScenarios {
  import opened Wrappers
  import opened Text
  import opened MockData
  import opened ConversationView
  import opened UserDetails

  lemma Conv1Thread() ensures Conv1.messages == Conv1Messages() {}
  lemma Conv2Thread() ensures Conv2.messages == Conv2Messages() {}
  lemma Conv3Thread() ensures Conv3.messages == Conv3Messages() {}
  lemma Conv4Thread() ensures Conv4.messages == Conv4Messages() {}
  lemma Conv5Thread() ensures Conv5.messages == Conv5Messages() {}

  /** Conv-1 shows the four messages that precede its three AI suggestions. */
  lemma Conv1ThreadHidesSuggestions()
    ensures |Conv1.messages| == 7
    ensures Thread(Conv1.messages) == Conv1.messages[..4]
  {
    Conv1Thread();
    var ms := Conv1Messages();
    assert ms == ms[..4] + ms[4..];
    ThreadOfOpeningThenSuggestions(ms[..4], ms[4..]);
  }

  /**
   * The hidden messages of conv-1 are AI suggestions sent by the assistant,
   * and they are the three replies of its table entry, in the same order.
   */
  lemma Conv1SuggestionsMatchTable()
    ensures forall i :: 4 <= i < 7 ==> IsAiSuggestion(Conv1.messages[i]) && Conv1.messages[i].sender == AiSender
    ensures [Conv1.messages[4].content, Conv1.messages[5].content, Conv1.messages[6].content] == MockAiSuggestions["conv-1"]
  {
    Conv1Thread();
  }

  /** No message of `messages` is an AI suggestion. */
  ghost predicate NoSuggestions(messages: seq<Message>) {
    forall m :: m in messages ==> !IsAiSuggestion(m)
  }

  /** Every AI suggestion in `messages` is sent by the assistant. */
  ghost predicate SuggestionsFromAssistant(messages: seq<Message>) {
    forall m :: m in messages && IsAiSuggestion(m) ==> m.sender == AiSender
  }

  lemma Conv1SuggestionsFromAssistant() ensures SuggestionsFromAssistant(Conv1.messages) { Conv1Thread(); }
  lemma Conv2NoSuggestions() ensures NoSuggestions(Conv2.messages) { Conv2Thread(); }
  lemma Conv3NoSuggestions() ensures NoSuggestions(Conv3.messages) { Conv3Thread(); }
  lemma Conv4NoSuggestions() ensures NoSuggestions(Conv4.messages) { Conv4Thread(); }
  lemma Conv5NoSuggestions() ensures NoSuggestions(Conv5.messages) { Conv5Thread(); }
  lemma SampleConversations() ensures MockConversations == [Conv1, Conv2, Conv3, Conv4, Conv5] {}

  /**
   * Five conversations of which only the first may hold suggestions, and those
   * from the assistant: every suggestion is the assistant's, and the threads
   * of the other four are shown whole.
   */
  lemma OnlyFirstHasSuggestions(cs: seq<Conversation>, c1: Conversation, c2: Conversation, c3: Conversation, c4: Conversation, c5: Conversation)
    requires cs == [c1, c2, c3, c4, c5]
    requires SuggestionsFromAssistant(c1.messages)
    requires NoSuggestions(c2.messages) && NoSuggestions(c3.messages)
    requires NoSuggestions(c4.messages) && NoSuggestions(c5.messages)
    ensures forall c, m :: c in cs && m in c.messages && IsAiSuggestion(m) ==> m.sender == AiSender
    ensures forall c :: c in cs[1..] ==> Thread(c.messages) == c.messages
  {
    assert cs[1..] == [c2, c3, c4, c5];
    ThreadWithoutSuggestions(c2.messages);
    ThreadWithoutSuggestions(c3.messages);
    ThreadWithoutSuggestions(c4.messages);
    ThreadWithoutSuggestions(c5.messages);
  }

  /**
   * Only conv-1 holds AI suggestions, every suggestion in the sample data is
   * sent by the assistant, and every other thread is shown whole.
   */
  lemma SuggestionsOnlyInConv1()
    ensures forall c, m :: c in MockConversations && m in c.messages && IsAiSuggestion(m) ==> m.sender == AiSender
    ensures forall c :: c in MockConversations[1..] ==> Thread(c.messages) == c.messages
  {
    Conv1SuggestionsFromAssistant();
    Conv2NoSuggestions();
    Conv3NoSuggestions();
    Conv4NoSuggestions();
    Conv5NoSuggestions();
    SampleConversations();
    OnlyFirstHasSuggestions(MockConversations, Conv1, Conv2, Conv3, Conv4, Conv5);
  }

  /** The suggestion table has three replies for each of conv-1 to conv-5 and nothing else. */
  lemma SuggestionTableShape()
    ensures MockAiSuggestions.Keys == {"conv-1", "conv-2", "conv-3", "conv-4", "conv-5"}
    ensures forall id :: id in MockAiSuggestions ==> |MockAiSuggestions[id]| == 3
  {
  }

  lemma Conv1Assignee() ensures Conv1.assignedTo == Some("admin-1") {}
  lemma Conv2Assignee() ensures Conv2.assignedTo == None {}
  lemma Conv3Assignee() ensures Conv3.assignedTo == None {}
  lemma Conv4Assignee() ensures Conv4.assignedTo == Some("admin-2") {}
  lemma Conv5Assignee() ensures Conv5.assignedTo == None {}

  /** The two agent ids in use name the first and the second agent of the table. */
  lemma AgentIdsResolve()
    ensures AssignedAdmin(MockAdmins, Some("admin-1")) == Some(MockAdmins[0])
    ensures AssignedAdmin(MockAdmins, Some("admin-2")) == Some(MockAdmins[1])
  {
  }

  /** The agents assigned to conv-1 and conv-4 are the first and the second agent of the table. */
  lemma AssignedAdminsResolve()
    ensures AssignedAdmin(MockAdmins, Conv1.assignedTo) == Some(MockAdmins[0])
    ensures AssignedAdmin(MockAdmins, Conv4.assignedTo) == Some(MockAdmins[1])
  {
    Conv1Assignee();
    Conv4Assignee();
    AgentIdsResolve();
  }

  /** Conversations assigned only to the agents with ids admin-1 and admin-2. */
  lemma AssignmentsResolve(cs: seq<Conversation>, c1: Conversation, c2: Conversation, c3: Conversation, c4: Conversation, c5: Conversation)
    requires cs == [c1, c2, c3, c4, c5]
    requires c1.assignedTo == Some("admin-1") && c4.assignedTo == Some("admin-2")
    requires c2.assignedTo.None? && c3.assignedTo.None? && c5.assignedTo.None?
    ensures forall c :: c in cs && c.assignedTo.Some? ==> AssignedAdmin(MockAdmins, c.assignedTo).Some?
  {
    AgentIdsResolve();
  }

  /** Every agent id used by a sample conversation resolves to an agent of the table. */
  lemma EveryAssignmentResolves()
    ensures forall c :: c in MockConversations && c.assignedTo.Some? ==> AssignedAdmin(MockAdmins, c.assignedTo).Some?
  {
    Conv1Assignee();
    Conv2Assignee();
    Conv3Assignee();
    Conv4Assignee();
    Conv5Assignee();
    AgentIdsResolve();
    SampleConversations();
    AssignmentsResolve(MockConversations, Conv1, Conv2, Conv3, Conv4, Conv5);
  }

  /** The timestamps of `messages`, in message order. */
  function Timestamps(messages: seq<Message>): (stamps: seq<string>)
    ensures |stamps| == |messages|
    ensures forall i :: 0 <= i < |messages| ==> stamps[i] == messages[i].timestamp
  {
    seq(|messages|, i requires 0 <= i < |messages| => messages[i].timestamp)
  }

  /** Each timestamp comes, as a string, strictly before every later one. */
  ghost predicate StrictlyIncreasing(stamps: seq<string>) {
    forall i, j :: 0 <= i < j < |stamps| ==> Less(stamps[i], stamps[j])
  }

  /** Timestamps that increase from each to the next increase throughout. */
  lemma {:induction false} IncreasingFromNeighbours(stamps: seq<string>)
    requires forall i :: 0 <= i < |stamps| - 1 ==> Less(stamps[i], stamps[i + 1])
    ensures StrictlyIncreasing(stamps)
  {
    if |stamps| > 1 {
      IncreasingFromNeighbours(stamps[1..]);
      forall j | 1 < j < |stamps|
        ensures Less(stamps[0], stamps[j])
      {
        assert stamps[1..][j - 1] == stamps[j];
        LessTransitive(stamps[0], stamps[1], stamps[j]);
      }
      forall i, j | 0 < i < j < |stamps|
        ensures Less(stamps[i], stamps[j])
      {
        assert stamps[1..][i - 1] == stamps[i] && stamps[1..][j - 1] == stamps[j];
      }
    }
  }

  lemma Conv1Timestamps()
    ensures Timestamps(Conv1.messages) == [
      "2023-05-18T09:30:00Z",
      "2023-05-18T09:35:00Z",
      "2023-05-18T09:37:00Z",
      "2023-05-18T09:38:00Z",
      "2023-05-18T09:39:00Z",
      "2023-05-18T09:39:05Z",
      "2023-05-18T09:39:10Z"]
  {
    Conv1Thread();
  }

  /** The messages of conv-1 carry strictly increasing timestamps. */
  lemma Conv1TimestampsIncrease()
    ensures StrictlyIncreasing(Timestamps(Conv1.messages))
  {
    var stamps := Timestamps(Conv1.messages);
    Conv1Timestamps();
    Conv1Neighbours(stamps[0], stamps[1], stamps[2], stamps[3], stamps[4], stamps[5], stamps[6]);
    IncreasingFromNeighbours(stamps);
  }

  lemma Conv1Neighbours(t0: string, t1: string, t2: string, t3: string, t4: string, t5: string, t6: string)
    requires t0 == "2023-05-18T09:30:00Z"
    requires t1 == "2023-05-18T09:35:00Z"
    requires t2 == "2023-05-18T09:37:00Z"
    requires t3 == "2023-05-18T09:38:00Z"
    requires t4 == "2023-05-18T09:39:00Z"
    requires t5 == "2023-05-18T09:39:05Z"
    requires t6 == "2023-05-18T09:39:10Z"
    ensures Less(t0, t1)
    ensures Less(t1, t2)
    ensures Less(t2, t3)
    ensures Less(t3, t4)
    ensures Less(t4, t5)
    ensures Less(t5, t6)
  {
    LessAtFirstDifference(t0, t1, 15);
    LessAtFirstDifference(t1, t2, 15);
    LessAtFirstDifference(t2, t3, 15);
    LessAtFirstDifference(t3, t4, 15);
    LessAtFirstDifference(t4, t5, 18);
    LessAtFirstDifference(t5, t6, 17);
  }

  lemma Conv2Timestamps()
    ensures Timestamps(Conv2.messages) == [
      "2023-05-18T08:00:00Z",
      "2023-05-18T08:15:00Z",
      "2023-05-18T08:30:00Z"]
  {
    Conv2Thread();
  }

  /** The messages of conv-2 carry strictly increasing timestamps. */
  lemma Conv2TimestampsIncrease()
    ensures StrictlyIncreasing(Timestamps(Conv2.messages))
  {
    var stamps := Timestamps(Conv2.messages);
    Conv2Timestamps();
    Conv2Neighbours(stamps[0], stamps[1], stamps[2]);
    IncreasingFromNeighbours(stamps);
  }

  lemma Conv2Neighbours(t0: string, t1: string, t2: string)
    requires t0 == "2023-05-18T08:00:00Z"
    requires t1 == "2023-05-18T08:15:00Z"
    requires t2 == "2023-05-18T08:30:00Z"
    ensures Less(t0, t1)
    ensures Less(t1, t2)
  {
    LessAtFirstDifference(t0, t1, 14);
    LessAtFirstDifference(t1, t2, 14);
  }

  lemma Conv3Timestamps()
    ensures Timestamps(Conv3.messages) == [
      "2023-05-17T14:00:00Z",
      "2023-05-17T14:30:00Z",
      "2023-05-17T15:00:00Z",
      "2023-05-17T15:15:00Z",
      "2023-05-17T15:30:00Z"]
  {
    Conv3Thread();
  }

  /** The messages of conv-3 carry strictly increasing timestamps. */
  lemma Conv3TimestampsIncrease()
    ensures StrictlyIncreasing(Timestamps(Conv3.messages))
  {
    var stamps := Timestamps(Conv3.messages);
    Conv3Timestamps();
    Conv3Neighbours(stamps[0], stamps[1], stamps[2], stamps[3], stamps[4]);
    IncreasingFromNeighbours(stamps);
  }

  lemma Conv3Neighbours(t0: string, t1: string, t2: string, t3: string, t4: string)
    requires t0 == "2023-05-17T14:00:00Z"
    requires t1 == "2023-05-17T14:30:00Z"
    requires t2 == "2023-05-17T15:00:00Z"
    requires t3 == "2023-05-17T15:15:00Z"
    requires t4 == "2023-05-17T15:30:00Z"
    ensures Less(t0, t1)
    ensures Less(t1, t2)
    ensures Less(t2, t3)
    ensures Less(t3, t4)
  {
    LessAtFirstDifference(t0, t1, 14);
    LessAtFirstDifference(t1, t2, 12);
    LessAtFirstDifference(t2, t3, 14);
    LessAtFirstDifference(t3, t4, 14);
  }

  lemma Conv4Timestamps()
    ensures Timestamps(Conv4.messages) == [
      "2023-05-16T10:00:00Z",
      "2023-05-16T10:15:00Z",
      "2023-05-16T10:20:00Z"]
  {
    Conv4Thread();
  }

  /** The messages of conv-4 carry strictly increasing timestamps. */
  lemma Conv4TimestampsIncrease()
    ensures StrictlyIncreasing(Timestamps(Conv4.messages))
  {
    var stamps := Timestamps(Conv4.messages);
    Conv4Timestamps();
    Conv4Neighbours(stamps[0], stamps[1], stamps[2]);
    IncreasingFromNeighbours(stamps);
  }

  lemma Conv4Neighbours(t0: string, t1: string, t2: string)
    requires t0 == "2023-05-16T10:00:00Z"
    requires t1 == "2023-05-16T10:15:00Z"
    requires t2 == "2023-05-16T10:20:00Z"
    ensures Less(t0, t1)
    ensures Less(t1, t2)
  {
    LessAtFirstDifference(t0, t1, 14);
    LessAtFirstDifference(t1, t2, 14);
  }

  lemma Conv5Timestamps()
    ensures Timestamps(Conv5.messages) == [
      "2023-05-15T09:00:00Z",
      "2023-05-15T09:30:00Z",
      "2023-05-15T10:00:00Z",
      "2023-05-15T10:15:00Z",
      "2023-05-15T10:30:00Z"]
  {
    Conv5Thread();
  }

  /** The messages of conv-5 carry strictly increasing timestamps. */
  lemma Conv5TimestampsIncrease()
    ensures StrictlyIncreasing(Timestamps(Conv5.messages))
  {
    var stamps := Timestamps(Conv5.messages);
    Conv5Timestamps();
    Conv5Neighbours(stamps[0], stamps[1], stamps[2], stamps[3], stamps[4]);
    IncreasingFromNeighbours(stamps);
  }

  lemma Conv5Neighbours(t0: string, t1: string, t2: string, t3: string, t4: string)
    requires t0 == "2023-05-15T09:00:00Z"
    requires t1 == "2023-05-15T09:30:00Z"
    requires t2 == "2023-05-15T10:00:00Z"
    requires t3 == "2023-05-15T10:15:00Z"
    requires t4 == "2023-05-15T10:30:00Z"
    ensures Less(t0, t1)
    ensures Less(t1, t2)
    ensures Less(t2, t3)
    ensures Less(t3, t4)
  {
    LessAtFirstDifference(t0, t1, 14);
    LessAtFirstDifference(t1, t2, 11);
    LessAtFirstDifference(t2, t3, 14);
    LessAtFirstDifference(t3, t4, 14);
  }
}
