/**
 * The drawer's history list: a search over the fixed sample conversations.
 */
module DrawerHistory {
  import opened JsText
  import opened Seqs

  datatype Conversation = Conversation(id: string, title: string, date: string)

  const SampleConversations: seq<Conversation> := [
    Conversation("1", "Professional WhatsApp Message Revision for Sponsors", "Monday"),
    Conversation("2", "University Sponsorship: Early Graduation Options", "Monday"),
    Conversation("3", "Solana Blockchain Technical Architecture Explained", "Oct 14"),
    Conversation("4", "University Senate Election Career Guidance", "Oct 02"),
    Conversation("5", "Financial Struggles and Solutions", "Sep 26")
  ]

  /** The title contains the query, letter case ignored; the empty query matches every title. */
  predicate TitleMatches(c: Conversation, query: string): (b: bool)
    ensures b <==> exists i :: OccursAt(Lower(c.title), Lower(query), i)
    ensures query == "" ==> b
  {
    var hay, needle := Lower(c.title), Lower(query);
    assert forall i :: OccursAt(Lower(c.title), Lower(query), i) <==> OccursAt(hay, needle, i);
    Includes(hay, needle)
  }

  /** `filteredConversations`: the conversations whose lower-cased title contains the
      lower-cased query, in their original order. The drawer applies it to
      `SampleConversations`. */
  function FilteredConversations(conversations: seq<Conversation>, query: string): (r: seq<Conversation>)
    ensures forall c :: c in r <==> c in conversations && TitleMatches(c, query)
    ensures IsSubsequence(r, conversations)
  {
    Filter(conversations, c => TitleMatches(c, query))
  }

  /** The empty query shows every conversation, in order; for the drawer, all five. */
  lemma {:induction false} EmptyQueryShowsAll(conversations: seq<Conversation>)
    ensures FilteredConversations(conversations, "") == conversations
    ensures conversations == SampleConversations ==> |FilteredConversations(conversations, "")| == 5
  {
    forall c | c in conversations ensures TitleMatches(c, "") {
      IncludesEmpty(Lower(c.title));
    }
    FilterAll(conversations, c => TitleMatches(c, ""));
  }

  /** Two queries that differ only in letter case show the same conversations. */
  lemma {:induction false} QueryCaseIrrelevant(conversations: seq<Conversation>, q1: string, q2: string)
    requires Lower(q1) == Lower(q2)
    ensures FilteredConversations(conversations, q1) == FilteredConversations(conversations, q2)
  {
    FilterCongruent(conversations, c => TitleMatches(c, q1), c => TitleMatches(c, q2));
  }
}
