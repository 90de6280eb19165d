/**
 * The sample inbox run through the conversation filter: the list the
 * "open" status tab shows, and the list a search for "billing" shows.
 *
 * The filter is first evaluated on five conversations given as parameters,
 * and each sample conversation is then tied to the field values that matter
 * by lemmas that state one fact each.
 */
module FilterScenarios {
  import opened Text
  import opened MockData
  import opened ConversationList

  /** A passing conversation in front of a filtered rest is kept ahead of it. */
  lemma KeepHead(c: Conversation, rest: seq<Conversation>, f: StatusFilter, q: string, r: seq<Conversation>)
    requires Matches(c, f, q) && FilterConversations(rest, f, q) == r
    ensures FilterConversations([c] + rest, f, q) == [c] + r
  {
    FilterStep(c, rest, f, q);
  }

  /** A failing conversation in front of a filtered rest is dropped. */
  lemma DropHead(c: Conversation, rest: seq<Conversation>, f: StatusFilter, q: string, r: seq<Conversation>)
    requires !Matches(c, f, q) && FilterConversations(rest, f, q) == r
    ensures FilterConversations([c] + rest, f, q) == r
  {
    FilterStep(c, rest, f, q);
  }

  /**
   * Prepending one element to a display is the longer display. This models
   * nothing of the page: it only spares the verifier that step in the
   * five-conversation filter lemmas below.
   */
  lemma ConsDisplays<T>(a: T, b: T, c: T, d: T, e: T)
    ensures [a] + [b, c, d, e] == [a, b, c, d, e]
    ensures [a] + [b, e] == [a, b, e]
    ensures [a] + [] == [a]
  {
  }

  /** Of five conversations, exactly the first, second and fifth pass. */
  lemma FilterFirstSecondFifth(c1: Conversation, c2: Conversation, c3: Conversation, c4: Conversation,
                               c5: Conversation, f: StatusFilter, q: string)
    requires Matches(c1, f, q) && Matches(c2, f, q) && !Matches(c3, f, q) && !Matches(c4, f, q) && Matches(c5, f, q)
    ensures FilterConversations([c1, c2, c3, c4, c5], f, q) == [c1, c2, c5]
  {
    FilterOnlyLast(c3, c4, c5, f, q);
    KeepHead(c2, [c3, c4, c5], f, q, [c5]);
    KeepHead(c1, [c2, c3, c4, c5], f, q, [c2, c5]);
    ConsDisplays(c1, c2, c3, c4, c5);
  }

  /** Of three conversations, only the last passes. */
  lemma FilterOnlyLast(c3: Conversation, c4: Conversation, c5: Conversation, f: StatusFilter, q: string)
    requires !Matches(c3, f, q) && !Matches(c4, f, q) && Matches(c5, f, q)
    ensures FilterConversations([c3, c4, c5], f, q) == [c5]
  {
    KeepHead(c5, [], f, q, []);
    DropHead(c4, [c5], f, q, [c5]);
    DropHead(c3, [c4, c5], f, q, [c5]);
  }

  /** Of five conversations, only the first passes. */
  lemma FilterFirstOnly(c1: Conversation, c2: Conversation, c3: Conversation, c4: Conversation,
                        c5: Conversation, f: StatusFilter, q: string)
    requires Matches(c1, f, q) && !Matches(c2, f, q) && !Matches(c3, f, q) && !Matches(c4, f, q) && !Matches(c5, f, q)
    ensures FilterConversations([c1, c2, c3, c4, c5], f, q) == [c1]
  {
    DropHead(c5, [], f, q, []);
    DropHead(c4, [c5], f, q, []);
    DropHead(c3, [c4, c5], f, q, []);
    DropHead(c2, [c3, c4, c5], f, q, []);
    KeepHead(c1, [c2, c3, c4, c5], f, q, []);
    ConsDisplays(c1, c2, c3, c4, c5);
  }

  /*
   * The sample field values the scenarios read, one fact per lemma: each
   * unfolds a single conversation constant and nothing else.
   */

  lemma Conv1Status() ensures Conv1.status == Open {}
  lemma Conv2Status() ensures Conv2.status == Open {}
  lemma Conv3Status() ensures Conv3.status == Pending {}
  lemma Conv4Status() ensures Conv4.status == Assigned {}
  lemma Conv5Status() ensures Conv5.status == Open {}
  lemma Conv1Subject() ensures Conv1.subject == "Billing Issue" {}
  lemma Conv2Name() ensures Conv2.user.name == "John Doe" {}
  lemma Conv2Subject() ensures Conv2.subject == "Premium Features" {}
  lemma Conv2Preview() ensures Conv2.lastMessage == "Could you tell me more about your premium plans?" {}
  lemma Conv3Name() ensures Conv3.user.name == "Sophia Martinez" {}
  lemma Conv3Subject() ensures Conv3.subject == "Feature Not Working" {}
  lemma Conv3Preview() ensures Conv3.lastMessage == "I can't seem to find the export function you mentioned" {}
  lemma Conv4Name() ensures Conv4.user.name == "David Kim" {}
  lemma Conv4Subject() ensures Conv4.subject == "Integration Problem" {}
  lemma Conv4Preview() ensures Conv4.lastMessage == "The API integration with Salesforce isn't working" {}
  lemma Conv5Name() ensures Conv5.user.name == "Olivia Taylor" {}
  lemma Conv5Subject() ensures Conv5.subject == "Getting Started" {}
  lemma Conv5Preview() ensures Conv5.lastMessage == "Thanks for the quick onboarding information" {}

  /** Filtering on "open" with an empty query lists conv-1, conv-2 and conv-5, in that order. */
  lemma OpenFilter()
    ensures FilterConversations(MockConversations, Only(Open), "") == [Conv1, Conv2, Conv5]
  {
    Conv1Status(); Conv2Status(); Conv3Status(); Conv4Status(); Conv5Status();
    OpenFilterOf(Conv1, Conv2, Conv3, Conv4, Conv5);
  }

  /** The "open" filter over conversations with the sample statuses. */
  lemma OpenFilterOf(c1: Conversation, c2: Conversation, c3: Conversation, c4: Conversation, c5: Conversation)
    requires c1.status == Open && c2.status == Open && c3.status == Pending
    requires c4.status == Assigned && c5.status == Open
    ensures FilterConversations([c1, c2, c3, c4, c5], Only(Open), "") == [c1, c2, c5]
  {
    FilterFirstSecondFifth(c1, c2, c3, c4, c5, Only(Open), "");
  }

  /** The search box text of the second scenario. */
  const BillingQuery := "billing"

  /** A field that lacks, in both cases, one letter of "billing" does not match it. */
  lemma LacksBillingLetter(s: string, chunks: string, c: char)
    requires s == chunks
    requires 'a' <= c <= 'z' && c in BillingQuery
    requires c !in chunks && UpperChar(c) !in chunks
    ensures !Includes(ToLower(s), BillingQuery)
  {
    AbsentLetterExcludes(s, BillingQuery, c);
  }

  /** A query equal to the start of the lower-cased field is included in it. */
  lemma LowerPrefixIncluded(s: string, q: string)
    requires |q| <= |s| && ToLower(s)[..|q|] == q
    ensures Includes(ToLower(s), q)
  {
    IncludesIffOccurs(ToLower(s), q);
    assert OccursAt(ToLower(s), q, 0);
  }

  /** A lower-case query found in none of the three lower-cased fields rejects the conversation. */
  lemma MissesQuery(c: Conversation, q: string)
    requires q != "" && ToLower(q) == q
    requires !Includes(ToLower(c.user.name), q)
    requires !Includes(ToLower(c.subject), q)
    requires !Includes(ToLower(c.lastMessage), q)
    ensures !Matches(c, All, q)
  {
  }

  lemma LowerBillingQuery()
    ensures ToLower(BillingQuery) == BillingQuery
  {
  }

  /** "Billing Issue" lower-cases to a string that starts with "billing". */
  lemma Conv1SubjectHasBilling(s: string)
    requires s == "Billing Issue"
    ensures Includes(ToLower(s), BillingQuery)
  {
    var t := ToLower(s);
    assert t[..7] == BillingQuery;
    LowerPrefixIncluded(s, BillingQuery);
  }

  /** Searching "billing" over every status lists conv-1 alone. */
  lemma BillingSearch()
    ensures FilterConversations(MockConversations, All, BillingQuery) == [Conv1]
  {
    Conv1Subject();
    Conv1HasBilling(Conv1);
    SampleLacksBilling2();
    SampleLacksBilling3();
    SampleLacksBilling4();
    SampleLacksBilling5();
    FilterFirstOnly(Conv1, Conv2, Conv3, Conv4, Conv5, All, BillingQuery);
  }

  /*
   * The lemmas from here to the end of the billing scenario only split the
   * work for the verifier: each keeps one sample conversation's long texts in
   * a small proof context of its own. This includes every per-field
   * `...LacksBilling` lemma and the `Preview` `Pieces`, `Halves` and `Letters`
   * lemmas, which rewrite a long preview into 10-character pieces. They model
   * nothing and state nothing beyond `BillingSearch`.
   */

  lemma SampleLacksBilling2()
    ensures !Matches(Conv2, All, BillingQuery)
  {
    Conv2Name(); Conv2Subject(); Conv2Preview();
    Conv2LacksBilling(Conv2);
  }

  lemma SampleLacksBilling3()
    ensures !Matches(Conv3, All, BillingQuery)
  {
    Conv3Name(); Conv3Subject(); Conv3Preview();
    Conv3LacksBilling(Conv3);
  }

  lemma SampleLacksBilling4()
    ensures !Matches(Conv4, All, BillingQuery)
  {
    Conv4Name(); Conv4Subject(); Conv4Preview();
    Conv4LacksBilling(Conv4);
  }

  lemma SampleLacksBilling5()
    ensures !Matches(Conv5, All, BillingQuery)
  {
    Conv5Name(); Conv5Subject(); Conv5Preview();
    Conv5LacksBilling(Conv5);
  }

  lemma Conv1HasBilling(c: Conversation)
    requires c.subject == "Billing Issue"
    ensures Matches(c, All, BillingQuery)
  {
    LowerBillingQuery();
    Conv1SubjectHasBilling(c.subject);
  }

  lemma Conv2LacksBilling(c: Conversation)
    requires c.user.name == "John Doe" && c.subject == "Premium Features"
    requires c.lastMessage == "Could you tell me more about your premium plans?"
    ensures !Matches(c, All, BillingQuery)
  {
    LowerBillingQuery();
    Conv2NameLacksBilling(c.user.name);
    Conv2SubjectLacksBilling(c.subject);
    Conv2PreviewLacksBilling(c.lastMessage);
    MissesQuery(c, BillingQuery);
  }

  lemma Conv3LacksBilling(c: Conversation)
    requires c.user.name == "Sophia Martinez" && c.subject == "Feature Not Working"
    requires c.lastMessage == "I can't seem to find the export function you mentioned"
    ensures !Matches(c, All, BillingQuery)
  {
    LowerBillingQuery();
    Conv3NameLacksBilling(c.user.name);
    Conv3SubjectLacksBilling(c.subject);
    Conv3PreviewLacksBilling(c.lastMessage);
    MissesQuery(c, BillingQuery);
  }

  lemma Conv4LacksBilling(c: Conversation)
    requires c.user.name == "David Kim" && c.subject == "Integration Problem"
    requires c.lastMessage == "The API integration with Salesforce isn't working"
    ensures !Matches(c, All, BillingQuery)
  {
    LowerBillingQuery();
    Conv4NameLacksBilling(c.user.name);
    Conv4SubjectLacksBilling(c.subject);
    Conv4PreviewLacksBilling(c.lastMessage);
    MissesQuery(c, BillingQuery);
  }

  lemma Conv5LacksBilling(c: Conversation)
    requires c.user.name == "Olivia Taylor" && c.subject == "Getting Started"
    requires c.lastMessage == "Thanks for the quick onboarding information"
    ensures !Matches(c, All, BillingQuery)
  {
    LowerBillingQuery();
    Conv5NameLacksBilling(c.user.name);
    Conv5SubjectLacksBilling(c.subject);
    Conv5PreviewLacksBilling(c.lastMessage);
    MissesQuery(c, BillingQuery);
  }

  lemma Conv2NameLacksBilling(s: string)
    requires s == "John Doe"
    ensures !Includes(ToLower(s), BillingQuery)
  {
    LacksBillingLetter(s, "John Doe", 'b');
  }

  lemma Conv2SubjectLacksBilling(s: string)
    requires s == "Premium Features"
    ensures !Includes(ToLower(s), BillingQuery)
  {
    LacksBillingLetter(s, "Premium Fe" + "atures", 'b');
  }

  lemma Conv2PreviewLacksBilling(s: string)
    requires s == "Could you tell me more about your premium plans?"
    ensures !Includes(ToLower(s), BillingQuery)
  {
    Conv2PreviewPieces(s);
    Conv2PreviewLetters();
    LacksBillingLetter(s, ("Could you " + "tell me mo" + "re ") + ("about your" + " premium p" + "lans?"), 'g');
  }

  lemma Conv2PreviewPieces(s: string)
    requires s == "Could you tell me more about your premium plans?"
    ensures s == ("Could you " + "tell me mo" + "re ") + ("about your" + " premium p" + "lans?")
  {
    Conv2PreviewHalves(s);
    Conv2PreviewFirstHalf();
    Conv2PreviewSecondHalf();
  }

  lemma Conv2PreviewHalves(s: string)
    requires s == "Could you tell me more about your premium plans?"
    ensures s == "Could you tell me more " + "about your premium plans?"
  {
  }

  lemma Conv2PreviewFirstHalf()
    ensures "Could you tell me more " == "Could you " + "tell me mo" + "re "
  {
  }

  lemma Conv2PreviewSecondHalf()
    ensures "about your premium plans?" == "about your" + " premium p" + "lans?"
  {
  }

  lemma Conv2PreviewLetters()
    ensures var pieces := ("Could you " + "tell me mo" + "re ") + ("about your" + " premium p" + "lans?");
            'g' !in pieces && 'G' !in pieces
  {
  }

  lemma Conv3NameLacksBilling(s: string)
    requires s == "Sophia Martinez"
    ensures !Includes(ToLower(s), BillingQuery)
  {
    LacksBillingLetter(s, "Sophia Mar" + "tinez", 'b');
  }

  lemma Conv3SubjectLacksBilling(s: string)
    requires s == "Feature Not Working"
    ensures !Includes(ToLower(s), BillingQuery)
  {
    LacksBillingLetter(s, "Feature No" + "t Working", 'b');
  }

  lemma Conv3PreviewLacksBilling(s: string)
    requires s == "I can't seem to find the export function you mentioned"
    ensures !Includes(ToLower(s), BillingQuery)
  {
    Conv3PreviewPieces(s);
    Conv3PreviewLetters();
    LacksBillingLetter(s, ("I can't se" + "em to find" + " the ") + ("export fun" + "ction you " + "mentioned"), 'b');
  }

  lemma Conv3PreviewPieces(s: string)
    requires s == "I can't seem to find the export function you mentioned"
    ensures s == ("I can't se" + "em to find" + " the ") + ("export fun" + "ction you " + "mentioned")
  {
    Conv3PreviewHalves(s);
    Conv3PreviewFirstHalf();
    Conv3PreviewSecondHalf();
  }

  lemma Conv3PreviewHalves(s: string)
    requires s == "I can't seem to find the export function you mentioned"
    ensures s == "I can't seem to find the " + "export function you mentioned"
  {
  }

  lemma Conv3PreviewFirstHalf()
    ensures "I can't seem to find the " == "I can't se" + "em to find" + " the "
  {
  }

  lemma Conv3PreviewSecondHalf()
    ensures "export function you mentioned" == "export fun" + "ction you " + "mentioned"
  {
  }

  lemma Conv3PreviewLetters()
    ensures var pieces := ("I can't se" + "em to find" + " the ") + ("export fun" + "ction you " + "mentioned");
            'b' !in pieces && 'B' !in pieces
  {
  }

  lemma Conv4NameLacksBilling(s: string)
    requires s == "David Kim"
    ensures !Includes(ToLower(s), BillingQuery)
  {
    LacksBillingLetter(s, "David Kim", 'b');
  }

  lemma Conv4SubjectLacksBilling(s: string)
    requires s == "Integration Problem"
    ensures !Includes(ToLower(s), BillingQuery)
  {
    SingleLetterExcludes(s, "Integratio" + "n Prob", 'l', "em", BillingQuery, 'l');
  }

  lemma Conv4PreviewLacksBilling(s: string)
    requires s == "The API integration with Salesforce isn't working"
    ensures !Includes(ToLower(s), BillingQuery)
  {
    Conv4PreviewPieces(s);
    Conv4PreviewLetters();
    LacksBillingLetter(s, ("The API in" + "tegration " + "with ") + ("Salesforce" + " isn't wor" + "king"), 'b');
  }

  lemma Conv4PreviewPieces(s: string)
    requires s == "The API integration with Salesforce isn't working"
    ensures s == ("The API in" + "tegration " + "with ") + ("Salesforce" + " isn't wor" + "king")
  {
    Conv4PreviewHalves(s);
    Conv4PreviewFirstHalf();
    Conv4PreviewSecondHalf();
  }

  lemma Conv4PreviewHalves(s: string)
    requires s == "The API integration with Salesforce isn't working"
    ensures s == "The API integration with " + "Salesforce isn't working"
  {
  }

  lemma Conv4PreviewFirstHalf()
    ensures "The API integration with " == "The API in" + "tegration " + "with "
  {
  }

  lemma Conv4PreviewSecondHalf()
    ensures "Salesforce isn't working" == "Salesforce" + " isn't wor" + "king"
  {
  }

  lemma Conv4PreviewLetters()
    ensures var pieces := ("The API in" + "tegration " + "with ") + ("Salesforce" + " isn't wor" + "king");
            'b' !in pieces && 'B' !in pieces
  {
  }

  lemma Conv5NameLacksBilling(s: string)
    requires s == "Olivia Taylor"
    ensures !Includes(ToLower(s), BillingQuery)
  {
    LacksBillingLetter(s, "Olivia Tay" + "lor", 'b');
  }

  lemma Conv5SubjectLacksBilling(s: string)
    requires s == "Getting Started"
    ensures !Includes(ToLower(s), BillingQuery)
  {
    LacksBillingLetter(s, "Getting St" + "arted", 'b');
  }

  lemma Conv5PreviewLacksBilling(s: string)
    requires s == "Thanks for the quick onboarding information"
    ensures !Includes(ToLower(s), BillingQuery)
  {
    Conv5PreviewPieces(s);
    Conv5PreviewLetters();
    LacksBillingLetter(s, ("Thanks for" + " the quick") + (" onboardin" + "g informat" + "ion"), 'l');
  }

  lemma Conv5PreviewPieces(s: string)
    requires s == "Thanks for the quick onboarding information"
    ensures s == ("Thanks for" + " the quick") + (" onboardin" + "g informat" + "ion")
  {
    Conv5PreviewHalves(s);
    Conv5PreviewFirstHalf();
    Conv5PreviewSecondHalf();
  }

  lemma Conv5PreviewHalves(s: string)
    requires s == "Thanks for the quick onboarding information"
    ensures s == "Thanks for the quick" + " onboarding information"
  {
  }

  lemma Conv5PreviewFirstHalf()
    ensures "Thanks for the quick" == "Thanks for" + " the quick"
  {
  }

  lemma Conv5PreviewSecondHalf()
    ensures " onboarding information" == " onboardin" + "g informat" + "ion"
  {
  }

  lemma Conv5PreviewLetters()
    ensures var pieces := ("Thanks for" + " the quick") + (" onboardin" + "g informat" + "ion");
            'l' !in pieces && 'L' !in pieces
  {
  }
}
