/** The in-memory conversation store.  Conversations are kept per
    "platform:userId" key; each holds at most the twenty most recent
    messages, and an hourly sweep drops conversations idle for more than a
    day.  The clock reading each operation takes (`new Date()`) is the
    parameter `now`, in milliseconds; the sweep's timer is not modelled. */
module Conversation {
  import opened Common

  const MaxHistoryLength: int := 20
  /** One hour, in milliseconds. */
  const CleanupInterval: int := 3600000
  /** 24 hours, in milliseconds. */
  const RetentionWindow: int := 86400000
  const DefaultHistoryLimit: int := 10

  datatype Message = Message(role: string, content: string, timestamp: int)

  datatype Conversation = Conversation(messages: seq<Message>, createdAt: int, lastActivity: int)

  type Store = map<string, Conversation>

  /** `getConversationKey(platform, userId)`. */
  function ConversationKey(platform: string, userId: string): (k: string)
    ensures |k| == |platform| + 1 + |userId|
    ensures k[..|platform|] == platform && k[|platform|] == ':' && k[|platform| + 1..] == userId
  {
    platform + ":" + userId
  }

  /** Platform names contain no ':', so the key determines the platform and
      the user: two users never share a conversation. */
  lemma ConversationKeyInjective(p1: string, u1: string, p2: string, u2: string)
    requires ':' !in p1 && ':' !in p2
    requires ConversationKey(p1, u1) == ConversationKey(p2, u2)
    ensures p1 == p2 && u1 == u2
  {
  }

  /** A conversation that has not been stored yet. */
  function Fresh(now: int): (c: Conversation)
    ensures c.messages == [] && c.createdAt == now && c.lastActivity == now
  {
    Conversation([], now, now)
  }

  /** The stored conversation under `key`, or a fresh one (not stored). */
  function Lookup(store: Store, key: string, now: int): (c: Conversation)
    ensures key in store ==> c == store[key]
    ensures key !in store ==> c == Fresh(now)
  {
    if key in store then store[key] else Fresh(now)
  }

  /** The message list after pushing `m` and keeping the most recent
      `MaxHistoryLength` (`slice(-20)` when the list has grown past it). */
  function Push(messages: seq<Message>, m: Message): (r: seq<Message>)
    ensures |r| == Min(|messages| + 1, MaxHistoryLength)
    ensures r == (messages + [m])[|messages| + 1 - |r|..]
    ensures r[|r| - 1] == m
  {
    var all := messages + [m];
    if |all| > MaxHistoryLength then SliceFrom(all, -MaxHistoryLength) else all
  }

  /** The messages stored under `key`; none when nothing is stored. */
  function StoredMessages(store: Store, key: string): (m: seq<Message>)
    ensures m == Lookup(store, key, 0).messages
  {
    if key in store then store[key].messages else []
  }

  /** `addMessage` on the store as a value. */
  function Added(store: Store, platform: string, userId: string, role: string, content: string, now: int): (s: Store)
    ensures var key := ConversationKey(platform, userId);
            var before := Lookup(store, key, now);
            && s.Keys == store.Keys + {key}
            && s[key].messages == Push(before.messages, Message(role, content, now))
            && s[key].createdAt == before.createdAt
            && s[key].lastActivity == now
            && (forall k :: k in store && k != key ==> s[k] == store[k])
  {
    var key := ConversationKey(platform, userId);
    var c := Lookup(store, key, now);
    store[key := Conversation(Push(c.messages, Message(role, content, now)), c.createdAt, now)]
  }

  /** Projects messages onto their role and content. */
  function Turns(messages: seq<Message>): (t: seq<Turn>)
    ensures |t| == |messages|
    ensures forall i :: 0 <= i < |t| ==> t[i] == Turn(messages[i].role, messages[i].content)
  {
    if messages == [] then []
    else Turns(messages[..|messages| - 1]) + [Turn(messages[|messages| - 1].role, messages[|messages| - 1].content)]
  }

  /** `getHistory(platform, userId, limit)` on the store as a value: the last
      `limit` messages (all of them for limit 0, as `slice(-0)` is
      `slice(0)`), as role/content pairs. */
  function History(store: Store, platform: string, userId: string, limit: int): (h: seq<Turn>)
  {
    Turns(SliceFrom(StoredMessages(store, ConversationKey(platform, userId)), -limit))
  }

  /** The conversations `cleanup` keeps: those whose last activity is not
      before the cutoff one day ago. */
  function Retained(store: Store, now: int): (s: Store)
    ensures s.Keys <= store.Keys
    ensures forall k :: k in s ==> s[k] == store[k]
    ensures forall k :: k in store ==> (k in s <==> store[k].lastActivity >= now - RetentionWindow)
  {
    map k | k in store && !(store[k].lastActivity < now - RetentionWindow) :: store[k]
  }

  // ---------------------------------------------------------------------
  // Properties

  /** Adding a message keeps every stored conversation within twenty
      messages, and the one added to is not empty. */
  lemma AddedBounded(store: Store, platform: string, userId: string, role: string, content: string, now: int)
    requires forall k :: k in store ==> |store[k].messages| <= MaxHistoryLength
    ensures var s := Added(store, platform, userId, role, content, now);
            && (forall k :: k in s ==> |s[k].messages| <= MaxHistoryLength)
            && |StoredMessages(s, ConversationKey(platform, userId))| >= 1
  {
  }

  /** After adding a message, a history of any positive limit ends with it. */
  lemma HistoryEndsWithAdded(store: Store, platform: string, userId: string, role: string, content: string, now: int, limit: int)
    requires limit >= 1
    ensures var h := History(Added(store, platform, userId, role, content, now), platform, userId, limit);
            |h| >= 1 && h[|h| - 1] == Turn(role, content)
  {
    AddedIsLast(store, platform, userId, role, content, now);
    TurnsEndWithLast(StoredMessages(Added(store, platform, userId, role, content, now), ConversationKey(platform, userId)), limit);
  }

  /** The message just added is the last one stored. */
  lemma AddedIsLast(store: Store, platform: string, userId: string, role: string, content: string, now: int)
    ensures var msgs := StoredMessages(Added(store, platform, userId, role, content, now), ConversationKey(platform, userId));
            |msgs| >= 1 && msgs[|msgs| - 1] == Message(role, content, now)
  {
    var key := ConversationKey(platform, userId);
    var s := Added(store, platform, userId, role, content, now);
    assert Lookup(s, key, 0) == s[key];
  }

  /** The last `limit` turns of a non-empty list end with its last message. */
  lemma TurnsEndWithLast(msgs: seq<Message>, limit: int)
    requires limit >= 1 && |msgs| >= 1
    ensures var h := Turns(SliceFrom(msgs, -limit));
            |h| >= 1 && h[|h| - 1] == Turn(msgs[|msgs| - 1].role, msgs[|msgs| - 1].content)
  {
    var tail := SliceFrom(msgs, -limit);
    SliceLast(msgs, limit);
    assert tail[|tail| - 1] == msgs[|msgs| - 1];
  }

  /** Adding a message pushes it onto the stored list. */
  lemma AddedPushes(store: Store, platform: string, userId: string, role: string, content: string, now: int)
    ensures var key := ConversationKey(platform, userId);
            StoredMessages(Added(store, platform, userId, role, content, now), key)
            == Push(StoredMessages(store, key), Message(role, content, now))
  {
    var key := ConversationKey(platform, userId);
    var s := Added(store, platform, userId, role, content, now);
    assert Lookup(s, key, 0) == s[key];
  }

  /** A push onto a non-empty list keeps its last message just before the
      new one. */
  lemma PushKeepsLast(messages: seq<Message>, m: Message)
    requires |messages| >= 1
    ensures var r := Push(messages, m);
            |r| >= 2 && r[|r| - 2] == messages[|messages| - 1] && r[|r| - 1] == m
  {
    var r := Push(messages, m);
    assert r[|r| - 2] == (messages + [m])[|messages| - 1];
  }

  /** The last two messages of a conversation after two additions are the
      two added, in order. */
  lemma LastTwoAdded(store: Store, platform: string, userId: string, first: Message, second: Message)
    ensures var key := ConversationKey(platform, userId);
            var s := Added(Added(store, platform, userId, first.role, first.content, first.timestamp),
                           platform, userId, second.role, second.content, second.timestamp);
            var m := StoredMessages(s, key);
            |m| >= 2 && m[|m| - 2] == first && m[|m| - 1] == second
  {
    var s1 := Added(store, platform, userId, first.role, first.content, first.timestamp);
    AddedIsLast(store, platform, userId, first.role, first.content, first.timestamp);
    AddedPushes(s1, platform, userId, second.role, second.content, second.timestamp);
    PushKeepsLast(StoredMessages(s1, ConversationKey(platform, userId)), second);
  }

  /** A history has at most `limit` entries when limit >= 1 and holds the
      whole conversation when limit is 0. */
  lemma HistoryLength(store: Store, platform: string, userId: string, limit: int)
    requires limit >= 0
    ensures var msgs := StoredMessages(store, ConversationKey(platform, userId));
            var h := History(store, platform, userId, limit);
            && (limit >= 1 ==> |h| == Min(limit, |msgs|))
            && (limit == 0 ==> |h| == |msgs|)
  {
    SliceLast(StoredMessages(store, ConversationKey(platform, userId)), limit);
  }

  /** A history is the role/content projection of the most recent stored
      messages, in their stored order. */
  lemma HistoryIsRecentTurns(store: Store, platform: string, userId: string, limit: int)
    ensures var msgs := StoredMessages(store, ConversationKey(platform, userId));
            var h := History(store, platform, userId, limit);
            && |h| <= |msgs|
            && forall i :: 0 <= i < |h| ==> h[i] == Turn(msgs[|msgs| - |h| + i].role, msgs[|msgs| - |h| + i].content)
  {
  }

  /** Adding a message to one user's conversation leaves every other user's
      history as it was. */
  lemma AddedIsolated(store: Store, platform: string, userId: string, role: string, content: string, now: int,
                      platform2: string, userId2: string, limit: int)
    requires ConversationKey(platform2, userId2) != ConversationKey(platform, userId)
    ensures History(Added(store, platform, userId, role, content, now), platform2, userId2, limit) == History(store, platform2, userId2, limit)
  {
  }

  /** Adding messages one after another: `n` messages make the stored
      conversation exactly the last min(n + |before|, 20) of all of them. */
  function AddedAll(store: Store, platform: string, userId: string, role: string, contents: seq<string>, now: int): Store
    decreases |contents|
  {
    if contents == [] then store
    else Added(AddedAll(store, platform, userId, role, contents[..|contents| - 1], now), platform, userId, role, contents[|contents| - 1], now)
  }

  function Messages(role: string, contents: seq<string>, now: int): (m: seq<Message>)
    ensures |m| == |contents|
    ensures forall i :: 0 <= i < |m| ==> m[i] == Message(role, contents[i], now)
  {
    if contents == [] then []
    else Messages(role, contents[..|contents| - 1], now) + [Message(role, contents[|contents| - 1], now)]
  }

  /** A window of `all`: a suffix of it that is either all of it or at least
      `MaxHistoryLength` long. */
  ghost predicate WindowOf(w: seq<Message>, all: seq<Message>)
  {
    |w| <= |all| && w == all[|all| - |w|..] && (|w| == |all| || |w| >= MaxHistoryLength)
  }

  /** Pushing onto a window of a list gives a window of the extended list, of
      at most `MaxHistoryLength` messages. */
  lemma PushKeepsWindow(pm: seq<Message>, allPrev: seq<Message>, m: Message)
    requires WindowOf(pm, allPrev)
    ensures WindowOf(Push(pm, m), allPrev + [m]) && |Push(pm, m)| <= MaxHistoryLength
  {
    var r := Push(pm, m);
    var all := allPrev + [m];
    assert pm + [m] == all[|all| - |pm| - 1..];
    assert (pm + [m])[|pm| + 1 - |r|..] == all[|all| - |r|..];
  }

  /** The messages stored under `key` after `Added`. */
  lemma AddedMessages(store: Store, platform: string, userId: string, role: string, content: string, now: int)
    ensures var key := ConversationKey(platform, userId);
            var s := Added(store, platform, userId, role, content, now);
            StoredMessages(s, key) == Push(StoredMessages(store, key), Message(role, content, now))
  {
  }

  /** After any number of additions, the stored conversation is a window of
      everything ever added to it, never longer than twenty messages when it
      started that way. */
  lemma {:induction false} AddedAllKeepsWindow(store: Store, platform: string, userId: string, role: string, contents: seq<string>, now: int)
    ensures var key := ConversationKey(platform, userId);
            var before := StoredMessages(store, key);
            var m := StoredMessages(AddedAll(store, platform, userId, role, contents, now), key);
            WindowOf(m, before + Messages(role, contents, now)) &&
            (|before| <= MaxHistoryLength ==> |m| <= MaxHistoryLength)
    decreases |contents|
  {
    var key := ConversationKey(platform, userId);
    var before := StoredMessages(store, key);
    if contents == [] {
      assert before + Messages(role, contents, now) == before;
    } else {
      var init := contents[..|contents| - 1];
      var last := Message(role, contents[|contents| - 1], now);
      var allPrev := before + Messages(role, init, now);
      assert before + Messages(role, contents, now) == allPrev + [last] by {
        assert Messages(role, contents, now) == Messages(role, init, now) + [last];
      }
      var prev := AddedAll(store, platform, userId, role, init, now);
      var pm := StoredMessages(prev, key);
      assert WindowOf(pm, allPrev) && (|before| <= MaxHistoryLength ==> |pm| <= MaxHistoryLength) by {
        AddedAllKeepsWindow(store, platform, userId, role, init, now);
      }
      assert StoredMessages(AddedAll(store, platform, userId, role, contents, now), key) == Push(pm, last) by {
        AddedMessages(prev, platform, userId, role, contents[|contents| - 1], now);
      }
      PushKeepsWindow(pm, allPrev, last);
    }
  }

  /** The twenty-five message case of the tests: the store keeps the last
      twenty messages and the default history returns the last ten. */
  lemma TwentyFiveMessages(platform: string, userId: string, contents: seq<string>, now: int)
    requires |contents| == 25
    ensures var s := AddedAll(map[], platform, userId, "user", contents, now);
            var key := ConversationKey(platform, userId);
            |StoredMessages(s, key)| == MaxHistoryLength &&
            History(s, platform, userId, DefaultHistoryLimit) == Turns(Messages("user", contents[15..], now))
  {
    var all := Messages("user", contents, now);
    LastTwentyKept(platform, userId, contents, now);
    LastTenOfTwenty(all);
    MessagesSuffix("user", contents, 15, now);
  }

  /** The last ten of the last twenty of twenty-five are the last ten. */
  lemma LastTenOfTwenty(all: seq<Message>)
    requires |all| == 25
    ensures SliceFrom(all[5..], -DefaultHistoryLimit) == all[15..]
  {
    SliceLast(all[5..], DefaultHistoryLimit);
  }

  /** A suffix of the messages is the messages of the suffix. */
  lemma MessagesSuffix(role: string, contents: seq<string>, k: nat, now: int)
    requires k <= |contents|
    ensures Messages(role, contents, now)[k..] == Messages(role, contents[k..], now)
  {
  }

  /** Of twenty-five messages added to an empty store, the last twenty are
      kept. */
  lemma LastTwentyKept(platform: string, userId: string, contents: seq<string>, now: int)
    requires |contents| == 25
    ensures StoredMessages(AddedAll(map[], platform, userId, "user", contents, now), ConversationKey(platform, userId))
            == Messages("user", contents, now)[5..]
  {
    var all := Messages("user", contents, now);
    AddedAllKeepsWindow(map[], platform, userId, "user", contents, now);
    assert StoredMessages(map[], ConversationKey(platform, userId)) == [];
    assert [] + all == all;
  }

  /** The two-message case of the tests: the history lists both turns in
      order. */
  lemma TwoMessages(platform: string, userId: string, now: int)
    ensures var s := Added(Added(map[], platform, userId, "user", "Hello", now), platform, userId, "assistant", "Hi there!", now);
            History(s, platform, userId, DefaultHistoryLimit) == [Turn("user", "Hello"), Turn("assistant", "Hi there!")]
  {
    var key := ConversationKey(platform, userId);
    var s1 := Added(map[], platform, userId, "user", "Hello", now);
    assert s1[key].messages == [Message("user", "Hello", now)];
    var s := Added(s1, platform, userId, "assistant", "Hi there!", now);
    assert s[key].messages == [Message("user", "Hello", now), Message("assistant", "Hi there!", now)];
  }

  /** The sweep keeps exactly the recently active conversations, and a second
      sweep at the same time removes nothing more. */
  lemma RetainedIdempotent(store: Store, now: int)
    ensures Retained(Retained(store, now), now) == Retained(store, now)
  {
  }

  /** A conversation the sweep drops was idle for more than a day, and one
      active within the day survives every sweep in that day. */
  lemma RecentConversationSurvives(store: Store, key: string, now: int, later: int)
    requires key in store && store[key].lastActivity == now
    requires later <= now + RetentionWindow
    ensures key in Retained(store, later) && Retained(store, later)[key] == store[key]
  {
  }

  // ---------------------------------------------------------------------
  // The service object

  class ConversationService {
    var conversations: Store
    const maxHistoryLength: int
    const cleanupInterval: int

    constructor ()
      ensures conversations == map[]
      ensures maxHistoryLength == MaxHistoryLength && cleanupInterval == CleanupInterval
    {
      conversations := map[];
      maxHistoryLength := MaxHistoryLength;
      cleanupInterval := CleanupInterval;
    }

    /** `getConversation`: the stored conversation, or a fresh one that is
        not stored. */
    function GetConversation(platform: string, userId: string, now: int): (c: Conversation)
      reads this
      ensures ConversationKey(platform, userId) !in conversations ==> c.messages == []
      ensures ConversationKey(platform, userId) in conversations ==> c == conversations[ConversationKey(platform, userId)]
    {
      Lookup(conversations, ConversationKey(platform, userId), now)
    }

    /** `addMessage`, returning the updated conversation. */
    method AddMessage(platform: string, userId: string, role: string, content: string, now: int) returns (c: Conversation)
      requires maxHistoryLength == MaxHistoryLength
      modifies this
      ensures conversations == Added(old(conversations), platform, userId, role, content, now)
      ensures c == conversations[ConversationKey(platform, userId)]
    {
      var key := ConversationKey(platform, userId);
      var conversation := if key in conversations then conversations[key] else Conversation([], now, now);
      var messages := conversation.messages + [Message(role, content, now)];
      if |messages| > maxHistoryLength {
        messages := SliceFrom(messages, -maxHistoryLength);
      }
      c := Conversation(messages, conversation.createdAt, now);
      conversations := conversations[key := c];
    }

    /** `getHistory(platform, userId, limit)`. */
    function GetHistory(platform: string, userId: string, limit: int): (h: seq<Turn>)
      reads this
      ensures h == History(conversations, platform, userId, limit)
      ensures limit >= 1 ==> |h| <= limit
    {
      var h := History(conversations, platform, userId, limit);
      assert limit >= 1 ==> |h| <= limit by {
        if limit >= 1 {
          HistoryLength(conversations, platform, userId, limit);
        }
      }
      h
    }

    /** `clearConversation`. */
    method ClearConversation(platform: string, userId: string)
      modifies this
      ensures conversations == old(conversations) - {ConversationKey(platform, userId)}
    {
      conversations := conversations - {ConversationKey(platform, userId)};
    }

    /** `cleanup()` at time `now`: deletes, one entry at a time, every
        conversation idle since before the cutoff; `cleaned` is the number
        deleted. */
    method Cleanup(now: int) returns (cleaned: nat)
      modifies this
      ensures conversations == Retained(old(conversations), now)
      ensures cleaned == |old(conversations).Keys| - |conversations.Keys|
    {
      var cutoff := now - RetentionWindow;
      var pending := conversations.Keys;
      cleaned := 0;
      while pending != {}
        invariant pending <= old(conversations).Keys
        invariant conversations.Keys <= old(conversations).Keys
        invariant forall k :: k in conversations ==> conversations[k] == old(conversations)[k]
        invariant forall k :: k in pending ==> k in conversations
        invariant forall k :: k in old(conversations) && k !in pending ==>
                    (k in conversations <==> old(conversations)[k].lastActivity >= cutoff)
        invariant cleaned == |old(conversations).Keys| - |conversations.Keys|
        decreases |pending|
      {
        var key :| key in pending;
        if conversations[key].lastActivity < cutoff {
          conversations := conversations - {key};
          cleaned := cleaned + 1;
        }
        pending := pending - {key};
      }
    }

    /** `totalConversations` of `getStats()`. */
    function TotalConversations(): (n: nat)
      reads this
      ensures n == |conversations.Keys|
    {
      |conversations|
    }
  }

  /** The tests' clear case: after clearing, the conversation reads back
      empty. */
  lemma ClearedConversationIsEmpty(store: Store, platform: string, userId: string, now: int)
    ensures Lookup(store - {ConversationKey(platform, userId)}, ConversationKey(platform, userId), now).messages == []
  {
  }
}
