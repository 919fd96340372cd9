/**
 * Per-session conversation history: a store from session id to the
 * session's chat history, created on first use and cleared in place.
 */
module History {
  import Text

  datatype Message = HumanMessage(content: string) | AiMessage(content: string)

  /** One session's list of messages, appended to and cleared in place. */
  class ChatHistory {
    var messages: seq<Message>

    constructor ()
      ensures messages == []
    {
      messages := [];
    }

    method AddUserMessage(content: string)
      modifies this
      ensures messages == old(messages) + [HumanMessage(content)]
    {
      messages := messages + [HumanMessage(content)];
    }

    method AddAiMessage(content: string)
      modifies this
      ensures messages == old(messages) + [AiMessage(content)]
    {
      messages := messages + [AiMessage(content)];
    }

    method Clear()
      modifies this
      ensures messages == []
    {
      messages := [];
    }
  }

  class ConversationHistoryManager {
    /** The session store. */
    var store: map<string, ChatHistory>
    /** The store's keys in insertion order, which is the order a dictionary lists them in. */
    var order: seq<string>

    /** Each session has its own history object; `order` lists every key once. */
    ghost predicate Valid()
      reads this
    {
      && Text.Distinct(order)
      && (forall id :: id in store <==> id in order)
      && (forall a, b :: a in store && b in store && a != b ==> store[a] != store[b])
    }

    constructor ()
      ensures Valid()
      ensures store == map[] && order == []
    {
      store := map[];
      order := [];
    }

    /**
     * The session's history, created empty on the first use of the id;
     * every other session is left as it was.
     */
    method GetSessionHistory(sessionId: string) returns (h: ChatHistory)
      requires Valid()
      modifies this
      ensures Valid()
      ensures sessionId in store && h == store[sessionId]
      ensures sessionId in old(store) ==> store == old(store) && order == old(order)
      ensures sessionId !in old(store) ==>
                fresh(h) && store == old(store)[sessionId := h] && order == old(order) + [sessionId]
      ensures h.messages == old(GetSessionMessages(sessionId))
      ensures forall id :: GetSessionMessages(id) == old(GetSessionMessages(id))
    {
      if sessionId !in store {
        h := new ChatHistory();
        store := store[sessionId := h];
        order := order + [sessionId];
      }
      h := store[sessionId];
    }

    /** The session's messages; an unknown id has none and is not added. */
    function GetSessionMessages(sessionId: string): (r: seq<Message>)
      reads this, store.Values
      ensures sessionId !in store ==> r == []
      ensures sessionId in store ==> r == store[sessionId].messages
    {
      if sessionId in store then store[sessionId].messages else []
    }

    /** Empties the session's messages but keeps the session; an unknown id changes nothing. */
    method ClearSession(sessionId: string)
      requires Valid()
      modifies store.Values
      ensures store == old(store) && order == old(order)
      ensures Valid()
      ensures GetSessionMessages(sessionId) == []
      ensures forall id :: id != sessionId ==> GetSessionMessages(id) == old(GetSessionMessages(id))
    {
      if sessionId in store {
        store[sessionId].Clear();
      }
    }

    /** The ids of all sessions, each once, in the order they were created. */
    function ListSessions(): (r: seq<string>)
      requires Valid()
      reads this
      ensures Text.Distinct(r)
      ensures forall id :: id in r <==> id in store
    {
      order
    }

    /** "Session <id>: <n> messages", where n is the session's message count. */
    function GetSessionSummary(sessionId: string): (r: string)
      reads this, store.Values
      ensures Text.IsPrefix("Session " + sessionId + ": ", r)
      ensures Text.EndsWith(r, " messages")
      ensures |r| >= |"Session " + sessionId + ": "| + |" messages"|
      ensures var count := r[|"Session " + sessionId + ": "|..|r| - |" messages"|];
              && (forall i :: 0 <= i < |count| ==> Text.IsDigit(count[i]))
              && count != [] && (|count| == 1 || count[0] != '0')
              && Text.ParseDecimal(count) == |GetSessionMessages(sessionId)|
    {
      var head := "Session " + sessionId + ": ";
      var count := Text.DecimalString(|GetSessionMessages(sessionId)|);
      var r := head + count + " messages";
      assert r[..|head|] == head;
      assert r[|head|..|r| - |" messages"|] == count;
      Text.ParseDecimalString(|GetSessionMessages(sessionId)|);
      r
    }

    /**
     * A question and its answer recorded at the end of the session, user
     * message first; no other session changes.
     */
    method RecordTurn(sessionId: string, question: string, answer: string)
      requires Valid()
      modifies this, store.Values
      ensures Valid()
      ensures order == if sessionId in old(store) then old(order) else old(order) + [sessionId]
      ensures store.Keys == old(store.Keys) + {sessionId}
      ensures GetSessionMessages(sessionId) == old(GetSessionMessages(sessionId)) + [HumanMessage(question), AiMessage(answer)]
      ensures forall id :: id != sessionId ==> GetSessionMessages(id) == old(GetSessionMessages(id))
    {
      var h := GetSessionHistory(sessionId);
      assert forall id :: id in store && id != sessionId ==> store[id] != h;
      h.AddUserMessage(question);
      h.AddAiMessage(answer);
    }
  }

  const PreviewLength := 100

  /** A message as shown in the session listing: at most 100 characters, then "..." if it was longer. */
  function Preview(content: string): (r: string)
    ensures |content| <= PreviewLength ==> r == content
    ensures |content| > PreviewLength ==> |r| == PreviewLength + 3 && Text.IsPrefix(r[..PreviewLength], content)
    ensures |content| > PreviewLength ==> r == content[..PreviewLength] + "..."
    ensures |r| <= PreviewLength + 3
  {
    if |content| > PreviewLength then content[..PreviewLength] + "..." else content
  }
}
