/**
 The store as the bot keeps it: two tables updated in place, the module-level
 `chat_histories` dictionary and the MongoDB `chats` collection. Each method
 changes the tables as the matching function of HistorySpec says, so every
 property proved there holds of the object.
 */
module HistoryStore {
  import opened HistorySpec

  class ChatStore {
    /** `chat_histories`: chat id to the in-memory list of messages. */
    var cache: map<ChatId, Log>
    /** The `chats` collection: chat id to the document's `messages` array. */
    var durable: map<ChatId, Log>

    function State(): (r: Tiers)
      reads this
    {
      Tiers(cache, durable)
    }

    /** Process start: an empty cache over what the collection already holds. */
    constructor (stored: map<ChatId, Log>)
      ensures State() == ColdStart(stored)
      ensures Consistent(State())
    {
      cache := map[];
      durable := stored;
    }

    /** `update_chat_history`: in-memory append first, then the upserting
        `$push` on the durable record. */
    method UpdateChatHistory(id: ChatId, m: Message)
      modifies this
      ensures State() == Append(old(State()), id, m)
      ensures Consistent(old(State())) ==> Consistent(State())
    {
      if id !in cache {
        cache := cache[id := []];
      }
      cache := cache[id := cache[id] + [m]];
      if id in durable {
        durable := durable[id := durable[id] + [m]];
      } else {
        durable := durable[id := [m]];
      }
      if Consistent(old(State())) {
        AppendKeepsConsistent(old(State()), id, m);
      }
    }

    /** `get_chat_history`: cache, then `find_one`, then `insert_one` of an
        empty record. */
    method GetChatHistory(id: ChatId) returns (history: Log)
      modifies this
      ensures Read(State(), history) == Get(old(State()), id)
      ensures Consistent(old(State())) ==> Consistent(State())
    {
      if id in cache {
        history := cache[id];
      } else if id in durable {
        cache := cache[id := durable[id]];
        history := durable[id];
      } else {
        durable := durable[id := []];
        cache := cache[id := []];
        history := cache[id];
      }
      if Consistent(old(State())) {
        GetKeepsConsistent(old(State()), id);
      }
    }

    /** The history part of `handle_reset`: `del` on the cache entry when
        present, then `delete_one` on the collection. */
    method ResetChatHistory(id: ChatId)
      modifies this
      ensures State() == Reset(old(State()), id)
      ensures Consistent(old(State())) ==> Consistent(State())
    {
      if id in cache {
        cache := cache - {id};
      }
      durable := durable - {id};
    }
  }
}
