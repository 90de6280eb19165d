/**
 * The conversation list: a status drop-down and a search box whose values
 * select which conversations are listed. The status gate and the text gate
 * are both required; the text gate is off only for the empty query.
 */
module ConversationList {
  import opened Text
  import opened Seqs
  import opened MockData

  /** The status drop-down: "all", or one conversation status. */
  datatype StatusFilter = All | Only(status: ConversationStatus)

  /** The status gate: "all" lets everything through, otherwise the status must be equal. */
  predicate PassesStatus(c: Conversation, filter: StatusFilter) {
    filter.All? || c.status == filter.status
  }

  /** The text gate: the lower-cased query occurs in the lower-cased name, subject or preview. */
  predicate PassesQuery(c: Conversation, query: string) {
    var q := ToLower(query);
    || Includes(ToLower(c.user.name), q)
    || Includes(ToLower(c.subject), q)
    || Includes(ToLower(c.lastMessage), q)
  }

  /**
   * The callback handed to `conversations.filter`: a status mismatch rejects
   * before the query is looked at, and a non-empty query (untrimmed) must match.
   */
  function Matches(c: Conversation, filter: StatusFilter, query: string): (keep: bool)
    ensures keep <==> PassesStatus(c, filter) && (query != "" ==> PassesQuery(c, query))
  {
    if !PassesStatus(c, filter) then false
    else if query != "" then PassesQuery(c, query)
    else true
  }

  /** The conversations the list shows, in their given order. */
  function FilterConversations(conversations: seq<Conversation>, filter: StatusFilter, query: string)
    : (shown: seq<Conversation>)
    ensures forall c :: c in shown ==> c in conversations && PassesStatus(c, filter)
    ensures query != "" ==> forall c :: c in shown ==> PassesQuery(c, query)
    ensures forall i :: 0 <= i < |conversations| && PassesStatus(conversations[i], filter)
                        && (query != "" ==> PassesQuery(conversations[i], query))
                        ==> conversations[i] in shown
  {
    Keep(conversations, c => Matches(c, filter, query))
  }

  /** Filtering looks at the conversations one at a time, front to back. */
  lemma FilterStep(c: Conversation, rest: seq<Conversation>, filter: StatusFilter, query: string)
    ensures FilterConversations([c] + rest, filter, query)
            == (if Matches(c, filter, query) then [c] else []) + FilterConversations(rest, filter, query)
  {
    assert ([c] + rest)[1..] == rest;
  }

  /**
   * The list is the input with the failing conversations deleted: order is kept,
   * and each passing conversation appears exactly as often as in the input.
   */
  lemma FilterIsOrderedSelection(conversations: seq<Conversation>, filter: StatusFilter, query: string, c: Conversation)
    ensures IsSubsequence(FilterConversations(conversations, filter, query), conversations)
    ensures multiset(FilterConversations(conversations, filter, query))[c]
            == if Matches(c, filter, query) then multiset(conversations)[c] else 0
  {
    KeepIsSubsequence(conversations, c => Matches(c, filter, query));
    KeepCount(conversations, c => Matches(c, filter, query), c);
  }

  /** Filtering the shown list again with the same settings shows the same list. */
  lemma FilterIdempotent(conversations: seq<Conversation>, filter: StatusFilter, query: string)
    ensures var shown := FilterConversations(conversations, filter, query);
            FilterConversations(shown, filter, query) == shown
  {
    KeepIdempotent(conversations, c => Matches(c, filter, query));
  }

  /** With "all" and an empty query every conversation is listed, in order. */
  lemma FilterAllWithoutQuery(conversations: seq<Conversation>)
    ensures FilterConversations(conversations, All, "") == conversations
  {
    KeepAllPass(conversations, c => Matches(c, All, ""));
  }

  /** A non-empty query that occurs in `s` begins with a character of `s`. */
  lemma IncludedFirstCharOccurs(s: string, q: string)
    requires q != [] && Includes(s, q)
    ensures q[0] in s
  {
    IncludesIffOccurs(s, q);
    var i :| OccursAt(s, q, i);
    assert s[i] == s[i..i + |q|][0];
  }

  /** Lower-casing leaves whitespace untouched, so a lower-cased string with no whitespace has none. */
  lemma LowerHasNoWhitespace(s: string, c: char)
    requires forall i :: 0 <= i < |s| ==> !IsWhitespace(s[i])
    requires IsWhitespace(c)
    ensures c !in ToLower(s)
  {
  }

  /**
   * The query is not trimmed: a query of only whitespace still filters, and
   * drops every conversation whose name, subject and preview hold no whitespace.
   */
  lemma WhitespaceQueryStillFilters(c: Conversation, filter: StatusFilter, query: string)
    requires query != "" && AllWhitespace(query)
    requires forall i :: 0 <= i < |c.user.name| ==> !IsWhitespace(c.user.name[i])
    requires forall i :: 0 <= i < |c.subject| ==> !IsWhitespace(c.subject[i])
    requires forall i :: 0 <= i < |c.lastMessage| ==> !IsWhitespace(c.lastMessage[i])
    ensures !Matches(c, filter, query)
    ensures FilterConversations([c], filter, query) == []
  {
    var q := ToLower(query);
    assert IsWhitespace(q[0]);
    if Includes(ToLower(c.user.name), q) {
      IncludedFirstCharOccurs(ToLower(c.user.name), q);
      LowerHasNoWhitespace(c.user.name, q[0]);
    }
    if Includes(ToLower(c.subject), q) {
      IncludedFirstCharOccurs(ToLower(c.subject), q);
      LowerHasNoWhitespace(c.subject, q[0]);
    }
    if Includes(ToLower(c.lastMessage), q) {
      IncludedFirstCharOccurs(ToLower(c.lastMessage), q);
      LowerHasNoWhitespace(c.lastMessage, q[0]);
    }
  }

  /** The list component's own state: the chosen status and the search text. */
  class ListControls {
    var filterStatus: StatusFilter
    var searchQuery: string

    /** The drop-down starts on "all" and the search box empty. */
    constructor ()
      ensures filterStatus == All && searchQuery == ""
    {
      filterStatus := All;
      searchQuery := "";
    }

    /** A choice in the status drop-down. */
    method SetFilterStatus(filter: StatusFilter)
      modifies this
      ensures filterStatus == filter && searchQuery == old(searchQuery)
    {
      filterStatus := filter;
    }

    /** An edit of the search box; the text is stored as typed. */
    method SetSearchQuery(query: string)
      modifies this
      ensures searchQuery == query && filterStatus == old(filterStatus)
    {
      searchQuery := query;
    }

    /** The conversations currently listed. */
    function Shown(conversations: seq<Conversation>): (shown: seq<Conversation>)
      reads this
      ensures |shown| <= |conversations|
      ensures forall c :: c in shown <==> c in conversations && Matches(c, filterStatus, searchQuery)
    {
      FilterConversations(conversations, filterStatus, searchQuery)
    }

    /** "No conversations match your filters" shows exactly when no conversation passes both gates. */
    function ShowsNoMatchMessage(conversations: seq<Conversation>): (shown: bool)
      reads this
      ensures shown <==> forall i :: 0 <= i < |conversations| ==> !Matches(conversations[i], filterStatus, searchQuery)
    {
      var shown := Shown(conversations);
      assert shown != [] ==> shown[0] in conversations && Matches(shown[0], filterStatus, searchQuery);
      |shown| == 0
    }
  }
}
