/**
 The history skeleton of the voice handler and the reset handler. The remote
 and transport stages (download, OGG to MP3 conversion, transcription,
 completion, sending, speech synthesis, temporary-file cleanup) are not
 modelled; their outcomes are the parameters in `Stages`, and what the handler
 does with the history and which replies it sends are proved from them.
 */
module Bot {
  import opened HistorySpec
  import opened HistoryStore

  datatype Option<T> = None | Some(value: T)

  /** The one failure notice every exception in the voice handler ends in. */
  const ErrorText: string := "Sorry, an error occurred."
  /** The confirmation the reset handler sends. */
  const ResetText: string := "Your chat history has been reset."

  /** What the bot sends back to the chat: a text message, or a voice message
      speaking the given text. */
  datatype Outbound = Text(body: string) | Voice(spoken: string)

  /** Outcomes of the stages the handler does not own.
      `transcript`: download, conversion and transcription together (None when
      any of them raised); `completion`: the chat completion's first choice
      (None when the call raised); `textSent`: the text reply was sent;
      `voiceSent`: speech synthesis, writing it out and sending the voice
      message all succeeded; `cleanedUp`: the three temporary files were
      removed. */
  datatype Stages = Stages(
    transcript: Option<string>,
    completion: Option<string>,
    textSent: bool,
    voiceSent: bool,
    cleanedUp: bool)

  /** One run of the voice handler: the tiers it leaves, the history it passed
      to the completion service (None when it never got that far) and the
      messages it sent. */
  datatype Turn = Turn(tiers: Tiers, context: Option<Log>, replies: seq<Outbound>)

  /** The replies after the assistant turn is stored: the text, then the
      voice, and the failure notice as soon as one of those steps raises. */
  function Deliveries(answer: string, s: Stages): (r: seq<Outbound>)
    ensures !s.textSent ==> r == [Text(ErrorText)]
    ensures s.textSent ==> |r| > 1 && r[0] == Text(answer)
    ensures Voice(answer) in r <==> s.textSent && s.voiceSent
    ensures r[|r| - 1] == Text(ErrorText) <==> !(s.textSent && s.voiceSent && s.cleanedUp)
  {
    if !s.textSent then [Text(ErrorText)]
    else if !s.voiceSent then [Text(answer), Text(ErrorText)]
    else if !s.cleanedUp then [Text(answer), Voice(answer), Text(ErrorText)]
    else [Text(answer), Voice(answer)]
  }

  /** `handle_voice` as a function of the stage outcomes: append the user
      turn, read the history, complete, append the assistant turn, reply. */
  function VoiceTurn(t: Tiers, id: ChatId, s: Stages): (r: Turn)
    ensures s.transcript.None? ==> r == Turn(t, None, [Text(ErrorText)])
    ensures s.transcript.Some? ==> id in r.tiers.cache && id in r.tiers.durable
    ensures s.transcript.Some? ==>
              r.context.Some? && |r.context.value| > 0 &&
              r.context.value[|r.context.value| - 1] == Message(User, s.transcript.value)
    ensures s.transcript.Some? ==>
              r.context == Some(Stored(t.cache, id) + [Message(User, s.transcript.value)])
    ensures s.transcript.Some? && s.completion.None? ==>
              var u := Message(User, s.transcript.value);
              && r.tiers.cache[id] == Stored(t.cache, id) + [u]
              && r.tiers.durable[id] == Stored(t.durable, id) + [u]
              && r.replies == [Text(ErrorText)]
    ensures s.transcript.Some? && s.completion.Some? ==>
              var u := Message(User, s.transcript.value);
              var a := Message(Assistant, s.completion.value);
              && r.tiers.cache[id] == Stored(t.cache, id) + [u, a]
              && r.tiers.durable[id] == Stored(t.durable, id) + [u, a]
              && r.replies == Deliveries(s.completion.value, s)
    ensures r.tiers.cache - {id} == t.cache - {id} && r.tiers.durable - {id} == t.durable - {id}
  {
    match s.transcript
    case None => Turn(t, None, [Text(ErrorText)])
    case Some(heard) =>
      var t1 := Append(t, id, Message(User, heard));
      var read := Get(t1, id);
      match s.completion
      case None => Turn(read.tiers, Some(read.history), [Text(ErrorText)])
      case Some(answer) =>
        var t2 := Append(read.tiers, id, Message(Assistant, answer));
        assert Stored(t.cache, id) + [Message(User, heard)] + [Message(Assistant, answer)]
            == Stored(t.cache, id) + [Message(User, heard), Message(Assistant, answer)];
        assert Stored(t.durable, id) + [Message(User, heard)] + [Message(Assistant, answer)]
            == Stored(t.durable, id) + [Message(User, heard), Message(Assistant, answer)];
        Turn(t2, Some(read.history), Deliveries(answer, s))
  }

  /** The store calls one run of the voice handler makes, in order. */
  function VoiceOps(id: ChatId, s: Stages): (ops: seq<Op>)
    ensures ResetOp(id) !in ops
  {
    match s.transcript
    case None => []
    case Some(heard) =>
      match s.completion
      case None => [AppendOp(id, Message(User, heard)), GetOp(id)]
      case Some(answer) =>
        [AppendOp(id, Message(User, heard)), GetOp(id), AppendOp(id, Message(Assistant, answer))]
  }

  /** The handler is exactly that run of store calls, so what is proved of
      every run holds of it: the tiers stay consistent and the chat's durable
      record only grows. */
  lemma VoiceTurnIsRun(t: Tiers, id: ChatId, s: Stages)
    ensures VoiceTurn(t, id, s).tiers == Run(t, VoiceOps(id, s))
    ensures Consistent(t) ==> Consistent(VoiceTurn(t, id, s).tiers)
    ensures IsPrefix(Stored(t.durable, id), Stored(VoiceTurn(t, id, s).tiers.durable, id))
  {
    var ops := VoiceOps(id, s);
    if s.transcript.Some? {
      var t1 := Step(t, ops[0]);
      var t2 := Step(t1, ops[1]);
      assert Run(t, ops) == Run(t2, ops[2..]) by {
        assert ops[1..][0] == ops[1] && ops[1..][1..] == ops[2..];
      }
      if s.completion.Some? {
        assert ops[2..][0] == ops[2] && ops[2..][1..] == [];
        assert Run(t2, ops[2..]) == Step(t2, ops[2]);
      }
    }
    if Consistent(t) {
      RunKeepsConsistent(t, ops);
    }
    DurableOnlyGrows(t, ops, id);
  }

  /** After a restart the completion service sees only the utterance just
      heard: the append on a cache miss starts a fresh list, and the read that
      follows is a cache hit, so the durable history is never loaded. */
  lemma ColdStartContext(stored: map<ChatId, Log>, id: ChatId, s: Stages)
    requires s.transcript.Some?
    ensures VoiceTurn(ColdStart(stored), id, s).context == Some([Message(User, s.transcript.value)])
  {
  }

  /** A new chat that hears "hello" and gets "hi there" back ends with those
      two turns, and the bot sends the text and then the voice. */
  lemma NewChatExchange(t: Tiers, id: ChatId)
    requires id !in t.cache && id !in t.durable
    ensures var r := VoiceTurn(t, id, Stages(Some("hello"), Some("hi there"), true, true, true));
            && r.tiers.cache[id] == r.tiers.durable[id]
            == [Message(User, "hello"), Message(Assistant, "hi there")]
            && r.replies == [Text("hi there"), Voice("hi there")]
  {
  }

  /** The same chat when the completion raises keeps only the user turn, and
      the failure notice is the only reply. */
  lemma NewChatCompletionFails(t: Tiers, id: ChatId, sent: bool, spoken: bool, clean: bool)
    requires id !in t.cache && id !in t.durable
    ensures var r := VoiceTurn(t, id, Stages(Some("hello"), None, sent, spoken, clean));
            && r.tiers.cache[id] == r.tiers.durable[id] == [Message(User, "hello")]
            && r.replies == [Text(ErrorText)]
  {
  }

  /** When speech fails after a completion, the text reply has already gone
      out and the assistant turn is stored; the failure notice follows it. */
  lemma SpeechFailureKeepsText(t: Tiers, id: ChatId, heard: string, answer: string, clean: bool)
    ensures var r := VoiceTurn(t, id, Stages(Some(heard), Some(answer), true, false, clean));
            && r.replies == [Text(answer), Text(ErrorText)]
            && r.tiers.durable[id][|r.tiers.durable[id]| - 1] == Message(Assistant, answer)
  {
  }

  /** `handle_voice`, stepping through the store in the handler's order. */
  method HandleVoice(store: ChatStore, id: ChatId, s: Stages)
      returns (context: Option<Log>, replies: seq<Outbound>)
    modifies store
    ensures Turn(store.State(), context, replies) == VoiceTurn(old(store.State()), id, s)
    ensures Consistent(old(store.State())) ==> Consistent(store.State())
  {
    ghost var t := store.State();
    VoiceTurnIsRun(t, id, s);
    context := None;
    if s.transcript.None? {
      replies := [Text(ErrorText)];
      return;
    }
    var heard := s.transcript.value;
    store.UpdateChatHistory(id, Message(User, heard));
    var history := store.GetChatHistory(id);
    context := Some(history);
    ghost var read := Get(Append(t, id, Message(User, heard)), id);
    assert store.State() == read.tiers && history == read.history;
    if s.completion.None? {
      replies := [Text(ErrorText)];
      return;
    }
    var answer := s.completion.value;
    store.UpdateChatHistory(id, Message(Assistant, answer));
    assert store.State() == Append(read.tiers, id, Message(Assistant, answer));
    replies := Deliver(answer, s);
  }

  /** The tail of `handle_voice` once the assistant turn is stored: send the
      text, synthesize and send the voice, remove the temporary files; the
      first of these that raises ends the run with the failure notice. */
  method Deliver(answer: string, s: Stages) returns (replies: seq<Outbound>)
    ensures replies == Deliveries(answer, s)
  {
    if !s.textSent {
      replies := [Text(ErrorText)];
      return;
    }
    replies := [Text(answer)];
    if !s.voiceSent {
      replies := replies + [Text(ErrorText)];
      return;
    }
    replies := replies + [Voice(answer)];
    if !s.cleanedUp {
      replies := replies + [Text(ErrorText)];
    }
  }

  /** `handle_reset`: clear both tiers for the chat, then confirm. */
  method HandleReset(store: ChatStore, id: ChatId) returns (replies: seq<Outbound>)
    modifies store
    ensures store.State() == Reset(old(store.State()), id)
    ensures Get(store.State(), id).history == []
    ensures Consistent(old(store.State())) ==> Consistent(store.State())
    ensures replies == [Text(ResetText)]
  {
    store.ResetChatHistory(id);
    replies := [Text(ResetText)];
  }
}
