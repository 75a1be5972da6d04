/** The messages read from a Pi log, turn by turn (internal/app/pi_session_messages.go, parsePiJSONLMessages). */
module PiSpeech {
  import opened Prelude
  import opened Text
  import opened ChatBlocks
  import opened ContentMerge
  import opened PiReading
  import PiSession
  import ClaudeSpeech

  type Voice = ClaudeSpeech.Voice

  /** A user's message, or the segments of an assistant's with the latest of their times. */
  datatype Turn = UserTurn(name: string, blocks: seq<Block>, at: int) | AssistantTurn(voices: seq<Voice>, at: int)

  /** The turns that are over, and the segments of an answer under way with the latest of their times. */
  datatype Talk = Talk(turns: seq<Turn>, open: seq<Voice>, at: int)

  function Close(t: Talk): Talk {
    if t.open == [] then t else Talk(t.turns + [AssistantTurn(t.open, t.at)], [], 0)
  }

  function LatestOf(t: Talk, at: int): int {
    if t.open == [] || at > t.at then at else t.at
  }

  /** A part of an answer continues the last segment if it bears its name, and opens one otherwise. */
  function Say(t: Talk, name: string, blocks: seq<Block>, at: int): Talk {
    var n := |t.open|;
    Talk(t.turns,
      if n > 0 && t.open[n - 1].name == name then t.open[n - 1 := ClaudeSpeech.Snapshot(t.open[n - 1], blocks)]
      else t.open + [ClaudeSpeech.Voice(name, blocks, PiSession.Texts(blocks), false)],
      LatestOf(t, at))
  }

  function Add(t: Talk, blocks: seq<Block>, at: int): Talk
    requires t.open != []
  {
    var n := |t.open|;
    var v := t.open[n - 1];
    Talk(t.turns, t.open[n - 1 := v.(content := v.content + blocks, texts := v.texts + PiSession.Texts(blocks))], LatestOf(t, at))
  }

  function Hear(codec: Codec, t: Talk, e: Entry): Talk {
    if !e.Message? then t
    else
      match e.message
      case PiUser(content) =>
        var f, blocks := Close(t), Shown(content);
        if blocks == [] then f
        else f.(turns := f.turns + [UserTurn(if e.id != "" then e.id else "pi_user_" + Print(|f.turns|), blocks, e.timestamp)])
      case PiAssistant(content, _, providerError) =>
        var blocks := if Shown(content) == [] && providerError != "" then [Text(providerError)] else Shown(content);
        if blocks == [] then t
        else Say(t, if e.id != "" then e.id else "pi_assistant_" + Print(|t.turns| + |t.open|), blocks, e.timestamp)
      case PiToolResult(callId, content, _) =>
        var call := if TrimSpace(callId) != "" then callId else "pi_tool_result_" + Print(|t.turns| + |t.open|);
        var blocks := [ToolResult(call, PiSession.UiResultContent(codec, content), false)];
        if t.open == [] then Say(t, "pi_tool_result_" + Print(|t.turns|), blocks, e.timestamp) else Add(t, blocks, e.timestamp)
      case PiOtherRole(_) => t
  }

  function HearAll(codec: Codec, entries: seq<Entry>): Talk {
    if entries == [] then Talk([], [], 0) else Hear(codec, HearAll(codec, entries[..|entries| - 1]), entries[|entries| - 1])
  }

  function Turns(codec: Codec, entries: seq<Entry>): seq<Turn> {
    Close(HearAll(codec, entries)).turns
  }

  ghost predicate IsTurn(t: Turn) {
    t.AssistantTurn? ==> t.voices != [] && ClaudeSpeech.AllFaithful(t.voices)
  }

  /** An answer is its segments in order, named after the first, forked off at the last, at the latest of their times. */
  function MessageOf(t: Turn, now: int): ChatMessage
    requires t.AssistantTurn? ==> t.voices != []
  {
    match t
    case UserTurn(name, blocks, at) => ChatMessage(name, User, Blocks(blocks), at, name, false, "", false)
    case AssistantTurn(voices, at) =>
      ChatMessage(voices[0].name, Assistant, Blocks(ClaudeSpeech.AllContent(voices)), if at > 0 then at else now,
                  voices[|voices| - 1].name, false, "", false)
  }

  ghost predicate Tell(messages: seq<ChatMessage>, turns: seq<Turn>, now: int) {
    |messages| == |turns| && forall i :: 0 <= i < |turns| ==> IsTurn(turns[i]) && messages[i] == MessageOf(turns[i], now)
  }

  ghost predicate SameOpen(g: Group, t: Talk) {
    && ClaudeSpeech.SameGroup(g, t.open) && ClaudeSpeech.AllFaithful(t.open)
    && (t.open != [] ==> g.at == Some(t.at))
  }

  ghost predicate Heard(r: PiSession.Reader, t: Talk, now: int) {
    Tell(r.messages, t.turns, now) && SameOpen(r.group, t)
  }

  lemma TellOneMore(messages: seq<ChatMessage>, turns: seq<Turn>, turn: Turn, now: int)
    requires Tell(messages, turns, now) && IsTurn(turn)
    ensures Tell(messages + [MessageOf(turn, now)], turns + [turn], now)
  {
    hide IsTurn, MessageOf;
  }

  lemma FlushIsHeard(r: PiSession.Reader, t: Talk, now: int)
    requires Heard(r, t, now)
    ensures Heard(PiSession.FlushGroup(r, now), Close(t), now)
    ensures Close(t).open == []
  {
    SizeOfOpen(r.group, t);
    if t.open != [] {
      GroupIsTurn(r.group, t, |r.messages|, now);
      TellOneMore(r.messages, t.turns, AssistantTurn(t.open, t.at), now);
      hide Tell, MessageOf, PiSession.GroupMessage;
      ClaudeSpeech.NothingIsHeard();
    }
  }

  lemma SizeOfOpen(g: Group, t: Talk)
    requires SameOpen(g, t)
    ensures |g.segments| == |t.open|
  {
  }

  lemma GroupIsTurn(g: Group, t: Talk, count: nat, now: int)
    requires SameOpen(g, t) && t.open != []
    ensures |g.segments| == |t.open| && IsTurn(AssistantTurn(t.open, t.at))
    ensures PiSession.GroupMessage(g, count, now) == MessageOf(AssistantTurn(t.open, t.at), now)
  {
    ClaudeSpeech.SameContent(g.segments, t.open);
    assert ClaudeSpeech.Faithful(t.open[0]) && ClaudeSpeech.Faithful(t.open[|t.open| - 1]);
    hide SegmentBlocks, ClaudeSpeech.AllContent, PiSession.Texts;
  }

  lemma UpsertTime(g: Group, name: string, blocks: seq<Block>, at: int)
    ensures Upsert(g, name, blocks, at).at == Later(g.at, at)
  {
    hide Merge;
  }

  lemma SayIsHeard(g: Group, t: Talk, name: string, blocks: seq<Block>, at: int)
    requires SameOpen(g, t) && name != ""
    ensures SameOpen(Upsert(g, name, blocks, at), Say(t, name, blocks, at))
  {
    ClaudeSpeech.UpsertIsHeard(g, t.open, name, blocks, at);
    UpsertTime(g, name, blocks, at);
    NoGroupHasNoTime(g, t);
    hide ClaudeSpeech.SameGroup, ClaudeSpeech.AllFaithful, ClaudeSpeech.Snapshot, PiSession.Texts, Upsert;
  }

  lemma NoGroupHasNoTime(g: Group, t: Talk)
    requires SameOpen(g, t)
    ensures t.open == [] ==> g == NO_GROUP
  {
  }

  lemma AddIsHeard(g: Group, t: Talk, blocks: seq<Block>, at: int)
    requires SameOpen(g, t) && t.open != []
    ensures |g.segments| == |t.open| && SameOpen(AppendToLast(g, blocks, at), Add(t, blocks, at))
  {
    SizeOfOpen(g, t);
    ClaudeSpeech.AppendIsHeard(g, t.open, blocks, at);
    assert AppendToLast(g, blocks, at).at == Later(g.at, at);
    hide ClaudeSpeech.SameGroup, ClaudeSpeech.AllFaithful, PiSession.Texts, AppendToLast;
  }

  lemma UserIsHeard(codec: Codec, r: PiSession.Reader, t: Talk, e: Entry, now: int)
    requires Heard(r, t, now) && e.Message? && e.message.PiUser?
    ensures Heard(PiSession.ReadEntry(codec, r, e, now), Hear(codec, t, e), now)
  {
    var f, c := PiSession.FlushGroup(r, now), Close(t);
    FlushIsHeard(r, t, now);
    ContentIsShown(e.message.content);
    SameCount(f, c, now);
    var name := if e.id != "" then e.id else "pi_user_" + Print(|c.turns|);
    TellOneMore(f.messages, c.turns, UserTurn(name, Shown(e.message.content), e.timestamp), now);
    hide PiSession.UiBlocks, Shown, SameOpen, Tell, PiSession.FlushGroup, Close;
  }

  lemma SameCount(r: PiSession.Reader, t: Talk, now: int)
    requires Heard(r, t, now)
    ensures |r.messages| == |t.turns| && |r.group.segments| == |t.open|
  {
    SizeOfOpen(r.group, t);
    hide SameOpen;
  }

  lemma EntryIsHeard(codec: Codec, r: PiSession.Reader, t: Talk, e: Entry, now: int)
    requires Heard(r, t, now)
    ensures Heard(PiSession.ReadEntry(codec, r, e, now), Hear(codec, t, e), now)
  {
    SameCount(r, t, now);
    if e.Message? && e.message.PiUser? {
      UserIsHeard(codec, r, t, e, now);
    } else if e.Message? && e.message.PiAssistant? {
      AnswerIsHeard(codec, r, t, e, now);
    } else if e.Message? && e.message.PiToolResult? {
      ResultIsHeard(codec, r, t, e, now);
    }
  }

  lemma AnswerIsHeard(codec: Codec, r: PiSession.Reader, t: Talk, e: Entry, now: int)
    requires Heard(r, t, now) && e.Message? && e.message.PiAssistant?
    ensures Heard(PiSession.ReadEntry(codec, r, e, now), Hear(codec, t, e), now)
  {
    SameCount(r, t, now);
    ContentIsShown(e.message.content);
    hide PiSession.UiBlocks, Shown, Upsert, Say, Tell, SameOpen;
    var blocks := Adds(codec, e);
    var name := if e.id != "" then e.id else "pi_assistant_" + Print(|t.turns| + |t.open|);
    SayIsHeard(r.group, t, name, blocks, e.timestamp);
    SayKeepsTurns(t, name, blocks, e.timestamp);
  }

  lemma SayKeepsTurns(t: Talk, name: string, blocks: seq<Block>, at: int)
    ensures Say(t, name, blocks, at).turns == t.turns
  {
  }

  lemma ResultIsHeard(codec: Codec, r: PiSession.Reader, t: Talk, e: Entry, now: int)
    requires Heard(r, t, now) && e.Message? && e.message.PiToolResult?
    ensures Heard(PiSession.ReadEntry(codec, r, e, now), Hear(codec, t, e), now)
  {
    SameCount(r, t, now);
    hide PiSession.UiResultContent, TrimSpace, Upsert, AppendToLast, Say, Tell, SameOpen;
    var callId := e.message.toolCallId;
    var call := if TrimSpace(callId) != "" then callId else "pi_tool_result_" + Print(|t.turns| + |t.open|);
    var blocks := [ToolResult(call, PiSession.UiResultContent(codec, e.message.content), false)];
    if t.open == [] {
      var name := "pi_tool_result_" + Print(|t.turns|);
      SayIsHeard(r.group, t, name, blocks, e.timestamp);
      SayKeepsTurns(t, name, blocks, e.timestamp);
    } else {
      AddIsHeard(r.group, t, blocks, e.timestamp);
    }
  }

  lemma {:induction false} EntriesAreHeard(codec: Codec, entries: seq<Entry>, now: int)
    ensures Heard(PiSession.ReadEntries(codec, PiSession.FRESH_READER, entries, now), HearAll(codec, entries), now)
  {
    if entries == [] {
      ClaudeSpeech.NothingIsHeard();
    } else {
      hide Heard, PiSession.ReadEntry, Hear;
      EntriesAreHeard(codec, entries[..|entries| - 1], now);
      EntryIsHeard(codec, PiSession.ReadEntries(codec, PiSession.FRESH_READER, entries[..|entries| - 1], now),
        HearAll(codec, entries[..|entries| - 1]), entries[|entries| - 1], now);
    }
  }

  /**
   * The messages read from a log are its turns one for one; an answer holds exactly the texts that its segments say if and
   * only if none of them ends up blanked.
   */
  lemma MessagesAreTurns(codec: Codec, entries: seq<Entry>, now: int)
    ensures var messages, turns := PiSession.ReadLog(codec, entries, now), Turns(codec, entries);
      && |messages| == |turns|
      && forall i :: 0 <= i < |turns| ==>
        && IsTurn(turns[i]) && messages[i] == MessageOf(turns[i], now)
        && (turns[i].AssistantTurn? ==>
              (PiSession.Texts(messages[i].content.blocks) == ClaudeSpeech.AllTexts(turns[i].voices)
               <==> !ClaudeSpeech.AnyBlanked(turns[i].voices)))
  {
    EntriesAreHeard(codec, entries, now);
    FlushIsHeard(PiSession.ReadEntries(codec, PiSession.FRESH_READER, entries, now), HearAll(codec, entries), now);
    var turns := Turns(codec, entries);
    hide PiSession.ReadEntries, HearAll, PiSession.FlushGroup, Close, SameOpen, PiSession.Texts, ClaudeSpeech.AllTexts,
         ClaudeSpeech.AllContent, ClaudeSpeech.AnyBlanked, ClaudeSpeech.AllFaithful;
    forall i | 0 <= i < |turns| && turns[i].AssistantTurn?
      ensures PiSession.Texts(ClaudeSpeech.AllContent(turns[i].voices)) == ClaudeSpeech.AllTexts(turns[i].voices)
        <==> !ClaudeSpeech.AnyBlanked(turns[i].voices)
    {
      assert IsTurn(turns[i]);
      ClaudeSpeech.TextsOfVoices(turns[i].voices);
    }
  }
}
