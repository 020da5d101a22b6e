/** The in-memory part of the chat-history store (store/useChatStore.ts): the
    list of session summaries shown in the history screen, the id of the
    session being written, and how saving and deleting reshape the list. */
module ChatStore {
  import opened Wrappers
  import opened Text
  import opened Seqs
  import opened PromptFormat

  /** `ChatSession`: one entry of the history index. */
  datatype ChatSession = ChatSession(
    id: string,
    title: string,
    preview: string,
    lastUpdated: int,
    messages: seq<Message>)

  const TitleLimit: nat := 30
  const PreviewLimit: nat := 50
  const NewChatTitle := "New Chat"
  const Ellipsis := "..."

  // ---------------------------------------------------------------------------
  // Title and preview

  predicate IsUserMessage(m: Message) {
    m.role == User
  }

  /** The title for a conversation whose first user message reads `content`:
      its first 30 characters, trimmed, with `...` when something was cut. */
  function TitleFrom(content: string): (r: string)
    ensures |content| <= TitleLimit ==> r == Trim(content)
    ensures |content| > TitleLimit ==> r == Trim(content[..TitleLimit]) + Ellipsis
    ensures |r| <= TitleLimit + |Ellipsis|
  {
    Trim(Take(content, TitleLimit)) + (if |content| > TitleLimit then Ellipsis else "")
  }

  /** The title of a saved conversation: taken from the first user message,
      or `New Chat` when the user has not spoken. */
  function Title(messages: seq<Message>): (r: string)
    ensures (forall i :: 0 <= i < |messages| ==> !IsUserMessage(messages[i])) ==> r == NewChatTitle
    ensures forall i :: 0 <= i < |messages| && IsUserMessage(messages[i]) && FirstAt(messages, IsUserMessage, i) ==>
      r == TitleFrom(messages[i].content)
  {
    match Find(messages, IsUserMessage)
    case None => NewChatTitle
    case Some(m) =>
      FirstIsUnique(messages, IsUserMessage, m);
      TitleFrom(m.content)
  }

  /** The first element satisfying `p` is the one `Find` returns. */
  lemma FirstIsUnique<T>(s: seq<T>, p: T -> bool, x: T)
    requires Find(s, p) == Some(x)
    ensures forall i :: 0 <= i < |s| && p(s[i]) && FirstAt(s, p, i) ==> s[i] == x
  {
    var k :| 0 <= k < |s| && s[k] == x && p(s[k]) && FirstAt(s, p, k);
    forall i | 0 <= i < |s| && p(s[i]) && FirstAt(s, p, i)
      ensures s[i] == x
    {
      assert i <= k;
      assert k <= i;
    }
  }

  /** `s.replace(/\n/g, ' ')`: every line feed becomes a space and nothing
      else changes. */
  function NewlinesToSpaces(s: string): (r: string)
    ensures |r| == |s| && '\n' !in r
    ensures forall i :: 0 <= i < |s| && s[i] != '\n' ==> r[i] == s[i]
    ensures forall i :: 0 <= i < |s| && s[i] == '\n' ==> r[i] == ' '
  {
    seq(|s|, i requires 0 <= i < |s| => if s[i] == '\n' then ' ' else s[i])
  }

  /** The preview of a saved conversation: the first 50 characters of its
      last message on one line, then `...` whether or not anything was cut.
      Only called with at least one message. */
  function Preview(messages: seq<Message>): (r: string)
    requires |messages| > 0
    ensures var last := messages[|messages| - 1].content;
      && |r| == (if |last| <= PreviewLimit then |last| else PreviewLimit) + |Ellipsis|
      && EndsWith(r, Ellipsis)
      && '\n' !in r
      && (forall i :: 0 <= i < |r| - |Ellipsis| && last[i] != '\n' ==> r[i] == last[i])
      && (forall i :: 0 <= i < |r| - |Ellipsis| && last[i] == '\n' ==> r[i] == ' ')
  {
    var last := messages[|messages| - 1].content;
    var line := NewlinesToSpaces(Take(last, PreviewLimit));
    assert forall i :: 0 <= i < |line| ==> Take(last, PreviewLimit)[i] == last[i];
    assert (line + Ellipsis)[|line|..] == Ellipsis;
    line + Ellipsis
  }

  // ---------------------------------------------------------------------------
  // The session list

  /** `sessions.filter(s => s.id !== id)`. */
  function WithoutId(sessions: seq<ChatSession>, id: string): (r: seq<ChatSession>)
    ensures |r| <= |sessions|
    ensures forall i :: 0 <= i < |r| ==> r[i].id != id && r[i] in sessions
    ensures forall i :: 0 <= i < |sessions| && sessions[i].id != id ==> sessions[i] in r
    ensures Subsequence(r, sessions)
  {
    FilterSubsequence(sessions, (s: ChatSession) => s.id != id);
    Filter(sessions, (s: ChatSession) => s.id != id)
  }

  /** The id a save files the conversation under: the current one, or the
      decimal text of the clock when there is none (null or empty). */
  function SessionIdFor(current: Option<string>, now: nat): (id: string)
    ensures current.Some? && current.value != "" ==> id == current.value
    ensures current.None? || current.value == "" ==> id == NatToString(now)
    ensures id != ""
  {
    OrElse(current, NatToString(now))
  }

  /** The summary a save puts at the head of the list; the messages
      themselves are kept out of the index. */
  function Summary(id: string, messages: seq<Message>, now: nat): (r: ChatSession)
    requires |messages| > 0
    ensures r.id == id && r.lastUpdated == now && r.messages == []
    ensures r.title == Title(messages) && r.preview == Preview(messages)
  {
    ChatSession(id, Title(messages), Preview(messages), now, [])
  }

  /** The list after saving `summary`: the summary first, then every other
      session. */
  function SavedSessions(sessions: seq<ChatSession>, summary: ChatSession): (r: seq<ChatSession>)
    ensures |r| > 0 && r[0] == summary
    ensures forall i :: 1 <= i < |r| ==> r[i].id != summary.id && r[i] in sessions
    ensures forall s :: s in sessions && s.id != summary.id ==> s in r
    ensures |r| <= |sessions| + 1
  {
    [summary] + WithoutId(sessions, summary.id)
  }

  /** The list's store: its fields are replaced as a whole by each
      operation. */
  class Store {
    var sessions: seq<ChatSession>
    var currentSessionId: Option<string>

    constructor ()
      ensures sessions == [] && currentSessionId == None
    {
      sessions := [];
      currentSessionId := None;
    }

    /** `startNewSession`: the next save opens a new entry. */
    method StartNewSession()
      modifies this
      ensures currentSessionId == None && sessions == old(sessions)
    {
      currentSessionId := None;
    }

    /** `saveCurrentSession`, without the file writes: nothing happens for an
        empty conversation; otherwise the conversation is filed under the
        current id (a fresh one from the clock if there is none) and its
        summary moves to the top of the list. */
    method SaveCurrentSession(messages: seq<Message>, now: nat)
      modifies this
      ensures |messages| == 0 ==> sessions == old(sessions) && currentSessionId == old(currentSessionId)
      ensures |messages| > 0 ==>
        var id := SessionIdFor(old(currentSessionId), now);
        && currentSessionId == Some(id)
        && sessions == SavedSessions(old(sessions), Summary(id, messages, now))
    {
      if |messages| == 0 {
        return;
      }
      var id := currentSessionId;
      var title := Title(messages);
      var preview := Preview(messages);
      var newId: string;
      if id.None? || id.value == "" {
        newId := NatToString(now);
      } else {
        newId := id.value;
      }
      var summary := ChatSession(newId, title, preview, now, []);
      var otherSessions := WithoutId(sessions, newId);
      currentSessionId := Some(newId);
      sessions := [summary] + otherSessions;
    }

    /** `deleteSession`, without the file removal: every entry with the id
        goes, and the current id is cleared when it was that one. */
    method DeleteSession(id: string)
      modifies this
      ensures sessions == WithoutId(old(sessions), id)
      ensures currentSessionId == if old(currentSessionId) == Some(id) then None else old(currentSessionId)
    {
      sessions := WithoutId(sessions, id);
      if currentSessionId == Some(id) {
        currentSessionId := None;
      }
    }
  }

  // ---------------------------------------------------------------------------
  // Properties

  /** Deleting keeps the remaining sessions in their order: it acts on each
      part of the list separately. */
  lemma DeleteKeepsOrder(sessions: seq<ChatSession>, more: seq<ChatSession>, id: string)
    ensures WithoutId(sessions + more, id) == WithoutId(sessions, id) + WithoutId(more, id)
  {
    FilterConcat(sessions, more, (s: ChatSession) => s.id != id);
  }

  /** Deleting an id no session carries changes nothing. */
  lemma DeleteAbsentId(sessions: seq<ChatSession>, id: string)
    requires forall i :: 0 <= i < |sessions| ==> sessions[i].id != id
    ensures WithoutId(sessions, id) == sessions
  {
    FilterAll(sessions, (s: ChatSession) => s.id != id);
  }

  /** Saving the same session again replaces its summary in place at the
      head and leaves the rest of the list as it was. */
  lemma ResaveReplacesSummary(sessions: seq<ChatSession>, first: ChatSession, second: ChatSession)
    requires second.id == first.id
    ensures SavedSessions(SavedSessions(sessions, first), second) == SavedSessions(sessions, second)
  {
    var rest := WithoutId(sessions, first.id);
    assert SavedSessions(sessions, first) == [first] + rest;
    DeleteKeepsOrder([first], rest, first.id);
    assert WithoutId([first], first.id) == [] by {
      FilterNone([first], (s: ChatSession) => s.id != first.id);
    }
    DeleteAbsentId(rest, first.id);
    assert [] + rest == rest;
  }

  /** Deleting the session just saved leaves what deleting it beforehand
      would have left. */
  lemma DeleteUndoesSave(sessions: seq<ChatSession>, summary: ChatSession)
    ensures WithoutId(SavedSessions(sessions, summary), summary.id) == WithoutId(sessions, summary.id)
  {
    var rest := WithoutId(sessions, summary.id);
    DeleteKeepsOrder([summary], rest, summary.id);
    assert WithoutId([summary], summary.id) == [] by {
      FilterNone([summary], (s: ChatSession) => s.id != summary.id);
    }
    DeleteAbsentId(rest, summary.id);
    assert [] + rest == rest;
  }

  /** A save never files the conversation under the empty id, and a save
      with no current id uses the clock's decimal text, which is distinct
      for distinct clock readings. */
  lemma FreshIdsFollowTheClock(now: nat, later: nat)
    requires now != later
    ensures SessionIdFor(None, now) != SessionIdFor(None, later)
  {
    NatToStringRoundTrip(now);
    NatToStringRoundTrip(later);
  }

  /** A first user message of at most 30 characters is the title, trimmed;
      a longer one is cut to 30 and marked with `...`. */
  lemma TitleOfFirstUserMessage(messages: seq<Message>, i: nat)
    requires i < |messages| && IsUserMessage(messages[i])
    requires forall j :: 0 <= j < i ==> !IsUserMessage(messages[j])
    ensures |messages[i].content| <= TitleLimit ==> Title(messages) == Trim(messages[i].content)
    ensures |messages[i].content| > TitleLimit ==> EndsWith(Title(messages), Ellipsis)
  {
    assert FirstAt(messages, IsUserMessage, i);
    var c := messages[i].content;
    if |c| > TitleLimit {
      var t := Trim(c[..TitleLimit]);
      assert (t + Ellipsis)[|t|..] == Ellipsis;
    }
  }
}
