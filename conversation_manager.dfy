/**
 * The conversation registry of the CDI container: a table from conversations to
 * their conversation contexts, with lookups by conversation id (and session id)
 * and bulk removals that destroy the contexts they remove.
 */
module Conversations {
  import opened Wrappers

  /**
   * A conversation as the registry sees it. `handle` stands for the object's
   * identity, so two conversations that share an id are still two keys; `timeout`
   * and `activeTime` are milliseconds, a timeout of 0 meaning "never expires".
   */
  datatype Conversation = Conversation(handle: nat, id: string, sessionId: string, timeout: int, activeTime: int)

  /** A conversation context object; its identity is all the registry needs. */
  type ContextRef = nat

  /** The exception an argument check throws. */
  datatype Failure = NullArgument(message: string)

  /** The entries of `m` whose key is in `keys`. */
  function Restrict(m: map<Conversation, ContextRef>, keys: set<Conversation>): map<Conversation, ContextRef>
  {
    map c | c in m && c in keys :: m[c]
  }

  /** The conversations of `m` that belong to session `sid`. */
  function SessionKeys(m: map<Conversation, ContextRef>, sid: string): set<Conversation>
  {
    set c | c in m && c.sessionId == sid
  }

  /** A conversation has timed out at time `now` when it has a timeout and has been idle longer. */
  predicate Expired(c: Conversation, now: int)
  {
    c.timeout != 0 && now - c.activeTime > c.timeout
  }

  /** The conversations of `m` that have timed out at time `now`. */
  function ExpiredKeys(m: map<Conversation, ContextRef>, now: int): set<Conversation>
  {
    set c | c in m && Expired(c, now)
  }

  /**
   * A record of one `destroy()` call: the context destroyed and the conversation
   * it was stored under.
   */
  datatype Destruction = Destruction(conversation: Conversation, context: ContextRef)

  /** One destruction per entry of `m`. */
  function Destructions(m: map<Conversation, ContextRef>): set<Destruction>
  {
    set c | c in m :: Destruction(c, m[c])
  }

  /** The destructions of a table's entries, as a bag of `destroy()` calls. */
  function Destroys(m: map<Conversation, ContextRef>): multiset<Destruction>
  {
    multiset(Destructions(m))
  }

  /**
   * One step of a bulk removal that walks the keys in `todo` and removes those in
   * `gone`: visiting `c` removes it and destroys its context exactly when `c` is in `gone`.
   */
  lemma SweepStep(m: map<Conversation, ContextRef>, gone: set<Conversation>, todo: set<Conversation>, c: Conversation)
    requires c in todo && todo <= m.Keys
    ensures c in gone ==>
      && c in m - (gone - todo)
      && (m - (gone - todo)) - {c} == m - (gone - (todo - {c}))
      && Destroys(Restrict(m, gone - (todo - {c}))) == Destroys(Restrict(m, gone - todo)) + multiset{Destruction(c, m[c])}
    ensures c !in gone ==>
      && m - (gone - todo) == m - (gone - (todo - {c}))
      && Restrict(m, gone - todo) == Restrict(m, gone - (todo - {c}))
  {
    if c in gone {
      var r0 := Restrict(m, gone - todo);
      var r1 := Restrict(m, gone - (todo - {c}));
      assert r1 == r0[c := m[c]];
      var d := Destruction(c, m[c]);
      forall x | x in Destructions(r1) ensures x in Destructions(r0) + {d} {
        var k :| k in r1 && x == Destruction(k, r1[k]);
        if k != c {
          assert k in r0;
        }
      }
      forall x | x in Destructions(r0) + {d} ensures x in Destructions(r1) {
        if x == d {
          assert c in r1 && r1[c] == m[c];
        } else {
          var k :| k in r0 && x == Destruction(k, r0[k]);
          assert k in r1 && r1[k] == r0[k];
        }
      }
      assert Destructions(r1) == Destructions(r0) + {d};
    }
  }

  /**
   * A bulk removal of the entries `gone` followed by destroying everything that is
   * left destroys every entry of the original table exactly once.
   */
  lemma SweepThenDestroyAllDestroysEachOnce(m: map<Conversation, ContextRef>, gone: set<Conversation>)
    ensures Destroys(Restrict(m, gone)) + Destroys(m - gone) == Destroys(m)
  {
    var a, b := Destructions(Restrict(m, gone)), Destructions(m - gone);
    forall x | x in Destructions(m) ensures x in a + b {
      var k :| k in m && x == Destruction(k, m[k]);
      if k in gone {
        assert k in Restrict(m, gone);
      } else {
        assert k in m - gone;
      }
    }
    assert a !! b;
    assert a + b == Destructions(m);
  }

  /** A conversation whose timeout is 0 survives every timeout sweep. */
  lemma ZeroTimeoutNeverExpires(m: map<Conversation, ContextRef>, now: int, c: Conversation)
    requires c in m && c.timeout == 0
    ensures c in m - ExpiredKeys(m, now)
  {
  }

  /** A conversation that has expired stays expired: sweeps at later times remove at least as much. */
  lemma ExpiryIsMonotone(m: map<Conversation, ContextRef>, now: int, later: int)
    requires now <= later
    ensures ExpiredKeys(m, now) <= ExpiredKeys(m, later)
  {
  }

  class ConversationManager {
    /** The current conversations and their contexts. */
    var conversations: map<Conversation, ContextRef>
    /** Every context this manager has destroyed, once per `destroy()` call. */
    var destroyed: multiset<Destruction>

    constructor ()
      ensures conversations == map[] && destroyed == multiset{}
    {
      conversations := map[];
      destroyed := multiset{};
    }

    /** Stores `context` as the context of `conversation`, replacing an earlier one. */
    method AddConversationContext(conversation: Conversation, context: ContextRef)
      modifies this
      ensures conversations == old(conversations)[conversation := context]
      ensures destroyed == old(destroyed)
    {
      conversations := conversations[conversation := context];
    }

    /** Whether some stored conversation has exactly the id `conversationId` (a `null` id matches none). */
    method IsConversationExistWithGivenId(conversationId: Option<string>) returns (found: bool)
      ensures found <==> conversationId.Some? && exists c :: c in conversations && c.id == conversationId.value
    {
      var todo := conversations.Keys;
      while todo != {}
        invariant todo <= conversations.Keys
        invariant forall c :: c in conversations && c !in todo ==> conversationId.None? || c.id != conversationId.value
        decreases todo
      {
        var c :| c in todo;
        if conversationId.Some? && c.id == conversationId.value {
          return true;
        }
        todo := todo - {c};
      }
      return false;
    }

    /** Removes `conversation` and returns the context it had, if any. */
    method RemoveConversation(conversation: Option<Conversation>) returns (r: Result<Option<ContextRef>, Failure>)
      modifies this
      ensures conversation.None? ==> r.Err? && conversations == old(conversations)
      ensures conversation.Some? ==>
        && r == Ok(if conversation.value in old(conversations) then Some(old(conversations)[conversation.value]) else None)
        && conversations == old(conversations) - {conversation.value}
      ensures destroyed == old(destroyed)
    {
      if conversation.None? {
        return Err(NullArgument("conversation can not be null"));
      }
      var c := conversation.value;
      r := Ok(if c in conversations then Some(conversations[c]) else None);
      conversations := conversations - {c};
    }

    /** The context of `conversation`, if it is stored; the table is not changed. */
    method GetConversationContext(conversation: Option<Conversation>) returns (r: Result<Option<ContextRef>, Failure>)
      ensures conversation.None? <==> r.Err?
      ensures r.Ok? && r.value.Some? ==> conversation.value in conversations && conversations[conversation.value] == r.value.value
      ensures r.Ok? && r.value.None? ==> conversation.value !in conversations
    {
      if conversation.None? {
        return Err(NullArgument("conversation can not be null"));
      }
      var c := conversation.value;
      r := Ok(if c in conversations then Some(conversations[c]) else None);
    }

    /** A stored conversation with the given id in the given session, if one exists. */
    method GetPropogatedConversation(conversationId: Option<string>, sessionId: Option<string>)
      returns (r: Result<Option<Conversation>, Failure>)
      ensures r.Err? <==> conversationId.None? || sessionId.None?
      ensures r.Ok? && r.value.Some? ==>
        var c := r.value.value;
        c in conversations && c.id == conversationId.value && c.sessionId == sessionId.value
      ensures r.Ok? && r.value.None? ==>
        forall c :: c in conversations ==> c.id != conversationId.value || c.sessionId != sessionId.value
    {
      if conversationId.None? {
        return Err(NullArgument("conversationId parameter can not be null"));
      }
      if sessionId.None? {
        return Err(NullArgument("sessionId parameter can not be null"));
      }
      var id, sid := conversationId.value, sessionId.value;
      var todo := conversations.Keys;
      while todo != {}
        invariant todo <= conversations.Keys
        invariant forall c :: c in conversations && c !in todo ==> c.id != id || c.sessionId != sid
        decreases todo
      {
        var c :| c in todo;
        if c.id == id && c.sessionId == sid {
          return Ok(Some(c));
        }
        todo := todo - {c};
      }
      return Ok(None);
    }

    /** Removes every conversation of session `sessionId` and destroys its context. */
    method DestroyConversationContextWithSessionId(sessionId: Option<string>) returns (r: Result<(), Failure>)
      modifies this
      ensures sessionId.None? ==> r.Err? && conversations == old(conversations) && destroyed == old(destroyed)
      ensures sessionId.Some? ==>
        var gone := SessionKeys(old(conversations), sessionId.value);
        && r.Ok?
        && conversations == old(conversations) - gone
        && destroyed == old(destroyed) + Destroys(Restrict(old(conversations), gone))
    {
      if sessionId.None? {
        return Err(NullArgument("sessionId parameter can not be null"));
      }
      var sid := sessionId.value;
      ghost var m := conversations;
      ghost var gone := SessionKeys(m, sid);
      var todo := conversations.Keys;
      while todo != {}
        invariant todo <= m.Keys
        invariant conversations == m - (gone - todo)
        invariant destroyed == old(destroyed) + Destroys(Restrict(m, gone - todo))
        decreases todo
      {
        var c :| c in todo;
        SweepStep(m, gone, todo, c);
        if c.sessionId == sid {
          // the entry is still present, so its context is never missing here
          var ctx := conversations[c];
          destroyed := destroyed + multiset{Destruction(c, ctx)};
          conversations := conversations - {c};
        }
        todo := todo - {c};
      }
      r := Ok(());
    }

    /** Removes every conversation that has timed out at time `now` and destroys its context. */
    method DestroyWithRespectToTimout(now: int)
      modifies this
      ensures conversations == old(conversations) - ExpiredKeys(old(conversations), now)
      ensures destroyed == old(destroyed) + Destroys(Restrict(old(conversations), ExpiredKeys(old(conversations), now)))
    {
      ghost var m := conversations;
      ghost var gone := ExpiredKeys(m, now);
      var todo := conversations.Keys;
      while todo != {}
        invariant todo <= m.Keys
        invariant conversations == m - (gone - todo)
        invariant destroyed == old(destroyed) + Destroys(Restrict(m, gone - todo))
        decreases todo
      {
        var c :| c in todo;
        SweepStep(m, gone, todo, c);
        var timeout := c.timeout;
        if timeout != 0 {
          if now - c.activeTime > timeout {
            var ctx := conversations[c];
            destroyed := destroyed + multiset{Destruction(c, ctx)};
            conversations := conversations - {c};
          }
        }
        todo := todo - {c};
      }
    }

    /** Destroys every stored context and empties the table. */
    method DestroyAllConversations()
      modifies this
      ensures conversations == map[]
      ensures destroyed == old(destroyed) + Destroys(old(conversations))
    {
      ghost var m := conversations;
      var todo := conversations.Keys;
      while todo != {}
        invariant todo <= m.Keys
        invariant conversations == m
        invariant destroyed == old(destroyed) + Destroys(Restrict(m, m.Keys - todo))
        decreases todo
      {
        var c :| c in todo;
        SweepStep(m, m.Keys, todo, c);
        var ctx := conversations[c];
        destroyed := destroyed + multiset{Destruction(c, ctx)};
        todo := todo - {c};
      }
      assert Restrict(m, m.Keys) == m;
      conversations := map[];
    }
  }
}
