/** What an assistant's messages say of the events behind them (internal/app/chat_jsonl_parser.go). */
module ClaudeSpeech {
  import opened Places
  import opened Prelude
  import opened Text
  import opened ChatBlocks
  import opened ContentMerge
  import opened ClaudeParser
  import opened SnapshotMerge
  import PiSession

  /* The texts of a list */

  lemma {:induction false} TextsOfConcat(a: seq<Block>, b: seq<Block>)
    ensures PiSession.Texts(a + b) == PiSession.Texts(a) + PiSession.Texts(b)
  {
    if a == [] {
      assert a + b == b;
    } else {
      assert (a + b)[1..] == a[1..] + b;
      TextsOfConcat(a[1..], b);
    }
  }

  lemma {:induction false} NoTexts(blocks: seq<Block>)
    ensures PiSession.Texts(blocks) == [] <==> forall i :: 0 <= i < |blocks| ==> !Words(blocks[i])
  {
    if blocks != [] {
      NoTexts(blocks[1..]);
      assert blocks == [blocks[0]] + blocks[1..];
      assert forall i :: 0 < i < |blocks| ==> blocks[i] == blocks[1..][i - 1];
    }
  }

  lemma HasTextIsTexts(blocks: seq<Block>)
    ensures HasText(blocks) <==> PiSession.Texts(blocks) != []
  {
    NoTexts(blocks);
    if HasText(blocks) {
      var i :| 0 <= i < |blocks| && blocks[i].Text? && blocks[i].text != "";
      assert Words(blocks[i]);
    }
  }

  /* Segments */

  /**
   * One segment of an assistant message: the message it is a part of by name, what it holds, and the texts that its
   * events say: those of its latest snapshot with text, and of the tool-result events after it. It is blanked if a later
   * snapshot without text has put an empty text in the place of one of them.
   */
  datatype Voice = Voice(name: string, content: seq<Block>, texts: seq<string>, blanked: bool)

  predicate Blanks(content: seq<Block>, snapshot: seq<Block>) {
    exists i :: 0 <= i < |content| && i < |snapshot| && Words(content[i]) && snapshot[i] == Text("")
  }

  function Snapshot(v: Voice, blocks: seq<Block>): Voice {
    var texts := PiSession.Texts(blocks);
    if texts != [] then Voice(v.name, Merge(v.content, blocks), texts, false)
    else v.(content := Merge(v.content, blocks), blanked := v.blanked || Blanks(v.content, blocks))
  }

  /** The segments of the assistant messages so far, and how many messages there are besides the open one. */
  datatype Speech = Speech(count: nat, closed: seq<seq<Voice>>, open: seq<Voice>)

  function CloseSpeech(s: Speech): Speech {
    if s.open == [] then s else Speech(s.count + 1, s.closed + [s.open], [])
  }

  function Hear(s: Speech, e: Event): Speech {
    var n := |s.open|;
    match e
    case UserEvent(_, content, isMeta, sourceToolUseId, isCompactSummary, _) =>
      if content.Blocks? && content.blocks != [] && content.blocks[0].ToolResult? then
        var blocks, texts := content.blocks, PiSession.Texts(content.blocks);
        if n == 0 then s.(open := [Voice("tool_result_" + Print(s.count), blocks, texts, false)])
        else
          var v := s.open[n - 1];
          s.(open := s.open[n - 1 := v.(content := v.content + blocks, texts := v.texts + texts)])
      else
        var t := if isCompactSummary || (!isMeta && sourceToolUseId == "") then CloseSpeech(s) else s;
        t.(count := t.count + 1)
    case AssistantEvent(messageId, uuid, content, _) =>
      if !content.Blocks? || content.blocks == [] then s
      else
        var name := if messageId != "" then messageId else if uuid != "" then uuid else "assistant_" + Print(s.count);
        if n > 0 && s.open[n - 1].name == name then s.(open := s.open[n - 1 := Snapshot(s.open[n - 1], content.blocks)])
        else s.(open := s.open + [Voice(name, content.blocks, PiSession.Texts(content.blocks), false)])
    case _ => s
  }

  function HearAll(events: seq<Event>): Speech {
    if events == [] then Speech(0, [], []) else Hear(HearAll(events[..|events| - 1]), events[|events| - 1])
  }

  /** The segments of each assistant message. */
  function Voices(events: seq<Event>): seq<seq<Voice>> {
    CloseSpeech(HearAll(events)).closed
  }

  function AllContent(voices: seq<Voice>): seq<Block> {
    if voices == [] then [] else AllContent(voices[..|voices| - 1]) + voices[|voices| - 1].content
  }

  function AllTexts(voices: seq<Voice>): seq<string> {
    if voices == [] then [] else AllTexts(voices[..|voices| - 1]) + voices[|voices| - 1].texts
  }

  /* What a snapshot does to the texts */

  lemma {:induction false} SurvivorsSayNothing(existing: seq<Block>, incoming: seq<Block>, n: nat)
    requires n <= |existing|
    ensures PiSession.Texts(Survivors(existing, incoming, n)) == []
  {
    if n > 0 {
      SurvivorsSayNothing(existing, incoming, n - 1);
      var kept: seq<Block> := if Survives(existing[n - 1], incoming) then [existing[n - 1]] else [];
      TextsOfConcat(Survivors(existing, incoming, n - 1), kept);
      NoTexts(kept);
      hide HasType;
    }
  }

  /** After a snapshot with text, its texts are all the texts. */
  lemma TextSupersedes(existing: seq<Block>, incoming: seq<Block>)
    requires HasText(incoming)
    ensures PiSession.Texts(Merge(existing, incoming)) == PiSession.Texts(incoming)
  {
    SurvivorsSayNothing(existing, incoming, |existing|);
    TextsOfConcat(Survivors(existing, incoming, |existing|), incoming);
  }

  /** Changing places to anything but texts takes texts away, and none exactly where every text stays. */
  lemma {:induction false} TextsThin(a: seq<Block>, b: seq<Block>)
    requires |a| <= |b|
    requires forall i :: 0 <= i < |a| && Words(b[i]) ==> b[i] == a[i]
    requires forall i :: |a| <= i < |b| ==> !Words(b[i])
    ensures if forall i :: 0 <= i < |a| && Words(a[i]) ==> Words(b[i]) then PiSession.Texts(b) == PiSession.Texts(a)
      else |PiSession.Texts(b)| < |PiSession.Texts(a)|
  {
    if a == [] {
      NoTexts(b);
    } else {
      var x, y := a[1..], b[1..];
      assert forall i :: 0 <= i < |x| ==> x[i] == a[i + 1] && y[i] == b[i + 1];
      TextsThin(x, y);
      if forall i :: 0 <= i < |a| && Words(a[i]) ==> Words(b[i]) {
        assert forall i :: 0 <= i < |x| && Words(x[i]) ==> Words(y[i]);
      } else if Words(a[0]) ==> Words(b[0]) {
        var i :| 0 <= i < |a| && Words(a[i]) && !Words(b[i]);
        assert Words(x[i - 1]) && !Words(y[i - 1]);
      }
    }
  }

  lemma TextTypeIsText(b: Block)
    ensures BlockType(b) == "text" <==> b.Text?
  {
    match b
    case Thinking(_, _) => assert BlockType(b)[1] == 'h';
    case RedactedThinking(_) => assert BlockType(b)[0] == 'r';
    case ToolUse(_, _, _) => assert BlockType(b)[1] == 'o';
    case ToolResult(_, _, _) => assert BlockType(b)[1] == 'o';
    case _ =>
  }

  /** Only an empty text of a snapshot without text can take the place of a text: the place it stands at itself. */
  lemma OnlyTextsBelong(existing: seq<Block>, c: Block, n: nat, j: nat)
    requires j < |existing| && Words(existing[j]) && !Words(c)
    ensures Belongs(existing, c, n, j) <==> n == j && c == Text("")
  {
    TextTypeIsText(c);
    if c == Text("") && n == j {
      forall k: nat | j < k < |existing| ensures !SameSlot(existing[k], k, c, n) {}
    }
  }

  lemma HeldWords(existing: seq<Block>, incoming: seq<Block>, j: nat, b: Block)
    requires j < |existing| && TakenBy(existing, incoming, |incoming|, j, b)
    requires forall i :: 0 <= i < |incoming| ==> !Words(incoming[i])
    ensures Words(b) ==> b == existing[j]
    ensures Words(existing[j]) ==> (Words(b) <==> !(j < |incoming| && incoming[j] == Text("")))
  {
    if Words(existing[j]) {
      forall i: nat | i < |incoming| ensures Belongs(existing, incoming[i], i, j) <==> i == j && incoming[i] == Text("") {
        OnlyTextsBelong(existing, incoming[i], i, j);
      }
    }
    hide Belongs;
  }

  /** A snapshot without text leaves the texts alone exactly when it blanks none of them. */
  lemma SnapshotBlanks(existing: seq<Block>, incoming: seq<Block>)
    requires !HasText(incoming)
    ensures if Blanks(existing, incoming) then |PiSession.Texts(Merge(existing, incoming))| < |PiSession.Texts(existing)|
      else PiSession.Texts(Merge(existing, incoming)) == PiSession.Texts(existing)
  {
    var merged := Merge(existing, incoming);
    var news := SomeListing(|incoming|, AreNew(existing, incoming));
    assert forall i :: 0 <= i < |incoming| ==> !Words(incoming[i]);
    MergeWithoutText(existing, incoming, news);
    hide Merge, TakenBy, AreNew, HasText;
    forall j | 0 <= j < |existing|
      ensures Words(merged[j]) ==> merged[j] == existing[j]
      ensures Words(existing[j]) ==> (Words(merged[j]) <==> !(j < |incoming| && incoming[j] == Text("")))
    {
      HeldWords(existing, incoming, j, merged[j]);
    }
    forall j | |existing| <= j < |merged| ensures !Words(merged[j]) {
      assert merged[j] == merged[|existing|..][j - |existing|];
    }
    TextsThin(existing, merged);
  }

  /* Segments keep what they say */

  /** What a segment holds are the texts that its events say exactly when none of them was blanked. */
  ghost predicate Faithful(v: Voice) {
    v.name != "" && if v.blanked then |PiSession.Texts(v.content)| < |v.texts| else PiSession.Texts(v.content) == v.texts
  }

  lemma SnapshotIsFaithful(v: Voice, blocks: seq<Block>)
    requires Faithful(v)
    ensures Faithful(Snapshot(v, blocks))
  {
    HasTextIsTexts(blocks);
    if HasText(blocks) { TextSupersedes(v.content, blocks); } else { SnapshotBlanks(v.content, blocks); }
    hide Merge, HasText, Blanks;
  }

  lemma MoreIsFaithful(v: Voice, blocks: seq<Block>)
    requires Faithful(v)
    ensures Faithful(v.(content := v.content + blocks, texts := v.texts + PiSession.Texts(blocks)))
  {
    TextsOfConcat(v.content, blocks);
  }

  ghost predicate AllFaithful(voices: seq<Voice>) {
    forall i :: 0 <= i < |voices| ==> Faithful(voices[i])
  }

  predicate AnyBlanked(voices: seq<Voice>) {
    exists i :: 0 <= i < |voices| && voices[i].blanked
  }

  lemma {:induction false} TextsOfVoices(voices: seq<Voice>)
    requires AllFaithful(voices)
    ensures if AnyBlanked(voices) then |PiSession.Texts(AllContent(voices))| < |AllTexts(voices)|
      else PiSession.Texts(AllContent(voices)) == AllTexts(voices)
  {
    if voices != [] {
      var init, last := voices[..|voices| - 1], voices[|voices| - 1];
      assert Faithful(last);
      TextsOfVoices(init);
      TextsOfConcat(AllContent(init), last.content);
      assert AnyBlanked(voices) <==> AnyBlanked(init) || last.blanked by { AnyBlankedLast(voices); }
      hide Faithful, AnyBlanked, AllFaithful;
    }
  }

  lemma AnyBlankedLast(voices: seq<Voice>)
    requires voices != []
    ensures AnyBlanked(voices) <==> AnyBlanked(voices[..|voices| - 1]) || voices[|voices| - 1].blanked
  {
    var init := voices[..|voices| - 1];
    if i :| 0 <= i < |voices| && voices[i].blanked { assert i < |init| ==> init[i].blanked; }
    if i :| 0 <= i < |init| && init[i].blanked { assert voices[i].blanked; }
  }

  /* The parser against its events */

  /** The open group holds what is heard in it, segment by segment. */
  ghost predicate SameGroup(g: Group, open: seq<Voice>) {
    && |g.segments| == |open|
    && (forall i :: 0 <= i < |open| ==> g.segments[i].id == open[i].name && g.segments[i].content == open[i].content)
    && g.id == (if open == [] then "" else open[0].name)
    && (open == [] ==> g == NO_GROUP)
  }

  /** An assistant message is its segments one after the other, named after the first and forked off at the last. */
  ghost predicate SpeaksFor(m: ChatMessage, voices: seq<Voice>) {
    voices != [] && AllFaithful(voices) &&
    m == ChatMessage(voices[0].name, Assistant, Blocks(AllContent(voices)), m.createdAt, voices[|voices| - 1].name, false, "", false)
  }

  ghost predicate Heard(p: Parser, s: Speech) {
    && |p.messages| == s.count && SameGroup(p.group, s.open) && AllFaithful(s.open)
    && var said := AssistantMessages(p.messages);
       && |said| == |s.closed|
       && forall i :: 0 <= i < |said| ==> SpeaksFor(said[i], s.closed[i])
  }

  lemma {:induction false} SameContent(segments: seq<Segment>, open: seq<Voice>)
    requires |segments| == |open| && forall i :: 0 <= i < |open| ==> segments[i].content == open[i].content
    ensures SegmentBlocks(segments) == AllContent(open)
  {
    if open != [] { SameContent(segments[..|segments| - 1], open[..|open| - 1]); }
  }

  lemma GroupSpeaks(g: Group, open: seq<Voice>, count: nat, now: int)
    requires SameGroup(g, open) && AllFaithful(open) && open != []
    ensures SpeaksFor(GroupMessage(g, count, now), open)
  {
    SameContent(g.segments, open);
    assert Faithful(open[0]) && Faithful(open[|open| - 1]);
    hide SegmentBlocks, AllContent;
  }

  lemma FlushIsHeard(p: Parser, s: Speech, now: int)
    requires Heard(p, s)
    ensures Heard(FlushGroup(p, now), CloseSpeech(s))
  {
    if s.open != [] {
      var m := GroupMessage(p.group, |p.messages|, now);
      GroupSpeaks(p.group, s.open, |p.messages|, now);
      AssistantMessagesAppend(p.messages, m);
      hide AssistantMessages, SpeaksFor, GroupMessage, Faithful;
    }
  }

  lemma UserIsHeard(p: Parser, s: Speech, m: ChatMessage)
    requires Heard(p, s) && m.role.User?
    ensures Heard(p.(messages := p.messages + [m]), s.(count := s.count + 1))
  {
    AssistantMessagesAppend(p.messages, m);
    hide AssistantMessages, SpeaksFor, SameGroup, AllFaithful;
  }

  lemma GroupIsHeard(p: Parser, s: Speech, g: Group, open: seq<Voice>)
    requires Heard(p, s) && SameGroup(g, open) && AllFaithful(open)
    ensures Heard(p.(group := g), s.(open := open))
  {
    hide AssistantMessages, SpeaksFor, SameGroup, AllFaithful;
  }

  lemma MergeIsHeard(g: Group, open: seq<Voice>, blocks: seq<Block>, t: int)
    requires SameGroup(g, open) && AllFaithful(open) && open != []
    ensures var n := |open|;
      var next := open[n - 1 := Snapshot(open[n - 1], blocks)];
      SameGroup(Upsert(g, open[n - 1].name, blocks, t), next) && AllFaithful(next)
  {
    var n := |open|;
    assert Faithful(open[n - 1]) && Faithful(open[0]);
    SnapshotIsFaithful(open[n - 1], blocks);
    hide Faithful, Merge, PiSession.Texts, Blanks, Later;
  }

  lemma OpenIsHeard(g: Group, open: seq<Voice>, name: string, blocks: seq<Block>, t: int)
    requires SameGroup(g, open) && AllFaithful(open) && name != "" && (open != [] ==> open[|open| - 1].name != name)
    ensures var next := open + [Voice(name, blocks, PiSession.Texts(blocks), false)];
      SameGroup(Upsert(g, name, blocks, t), next) && AllFaithful(next)
  {
    var v := Voice(name, blocks, PiSession.Texts(blocks), false);
    assert Faithful(v);
    if open != [] { assert Faithful(open[0]); }
    hide Faithful, Merge, PiSession.Texts, Later;
  }

  lemma UpsertIsHeard(g: Group, open: seq<Voice>, name: string, blocks: seq<Block>, t: int)
    requires SameGroup(g, open) && AllFaithful(open) && name != ""
    ensures var n := |open|;
      var next := if n > 0 && open[n - 1].name == name then open[n - 1 := Snapshot(open[n - 1], blocks)]
        else open + [Voice(name, blocks, PiSession.Texts(blocks), false)];
      SameGroup(Upsert(g, name, blocks, t), next) && AllFaithful(next)
  {
    hide SameGroup, AllFaithful, Upsert, Snapshot, PiSession.Texts;
    if open != [] && open[|open| - 1].name == name {
      MergeIsHeard(g, open, blocks, t);
    } else {
      OpenIsHeard(g, open, name, blocks, t);
    }
  }

  lemma AppendIsHeard(g: Group, open: seq<Voice>, blocks: seq<Block>, t: int)
    requires SameGroup(g, open) && AllFaithful(open) && open != []
    ensures var v := open[|open| - 1];
      var next := open[|open| - 1 := v.(content := v.content + blocks, texts := v.texts + PiSession.Texts(blocks))];
      SameGroup(AppendToLast(g, blocks, t), next) && AllFaithful(next)
  {
    var v := open[|open| - 1];
    assert Faithful(v);
    MoreIsFaithful(v, blocks);
    hide PiSession.Texts, Later;
  }

  lemma EventIsHeard(p: Parser, s: Speech, e: Event, now: int)
    requires Heard(p, s)
    ensures Heard(ParseEvent(p, e, now), Hear(s, e))
  {
    hide SameGroup, AllFaithful, SpeaksFor, AssistantMessages, Snapshot, PiSession.Texts, Upsert, AppendToLast;
    assert SameGroup(p.group, s.open) && (p.group.segments == [] <==> s.open == []) by { SameSize(p.group, s.open); }
    if IsToolResult(e) {
      ResultIsHeard(p, s, e, now);
    } else if e.UserEvent? {
      FlushIsHeard(p, s, now);
      var f, t := if ClosesGroup(e) then FlushGroup(p, now) else p, if ClosesGroup(e) then CloseSpeech(s) else s;
      UserIsHeard(f, t, UserMessage(e, |f.messages|, now));
    } else if Speaks(e) {
      var name := SpokenId(e, |p.messages|);
      UpsertIsHeard(p.group, s.open, name, e.content.blocks, CreatedAt(e.timestamp, now));
      GroupIsHeard(p, s, Upsert(p.group, name, e.content.blocks, CreatedAt(e.timestamp, now)), Hear(s, e).open);
    } else if e.ResultEvent? && p.group.segments != [] && e.timestamp.Some? {
      var g := p.group.(at := Later(p.group.at, e.timestamp.value));
      TouchIsHeard(p.group, s.open, g);
      GroupIsHeard(p, s, g, s.open);
    }
  }

  lemma SameSize(g: Group, open: seq<Voice>)
    requires SameGroup(g, open)
    ensures |g.segments| == |open|
  {
  }

  lemma TouchIsHeard(g: Group, open: seq<Voice>, h: Group)
    requires SameGroup(g, open) && open != [] && h.segments == g.segments && h.id == g.id
    ensures SameGroup(h, open)
  {
  }

  lemma NothingIsHeard()
    ensures SameGroup(NO_GROUP, []) && AllFaithful([])
  {
  }

  lemma ResultIsHeard(p: Parser, s: Speech, e: Event, now: int)
    requires Heard(p, s) && IsToolResult(e)
    ensures Heard(ParseEvent(p, e, now), Hear(s, e))
  {
    hide AllFaithful, SpeaksFor, AssistantMessages, Snapshot, PiSession.Texts, Upsert, AppendToLast;
    var t, name := CreatedAt(e.timestamp, now), "tool_result_" + Print(|p.messages|);
    if s.open == [] {
      UpsertIsHeard(p.group, s.open, name, e.content.blocks, t);
      assert s.open + [Voice(name, e.content.blocks, PiSession.Texts(e.content.blocks), false)] == Hear(s, e).open;
      hide SameGroup;
      GroupIsHeard(p, s, Upsert(p.group, name, e.content.blocks, t), Hear(s, e).open);
    } else {
      AppendIsHeard(p.group, s.open, e.content.blocks, t);
      GroupIsHeard(p, s, AppendToLast(p.group, e.content.blocks, t), Hear(s, e).open);
    }
  }

  lemma {:induction false} EventsAreHeard(events: seq<Event>, now: int)
    ensures Heard(ParseEvents(events, now), HearAll(events))
  {
    if events != [] {
      hide Heard, ParseEvent, Hear;
      EventsAreHeard(events[..|events| - 1], now);
      EventIsHeard(ParseEvents(events[..|events| - 1], now), HearAll(events[..|events| - 1]), events[|events| - 1], now);
    } else {
      NothingIsHeard();
    }
  }

  /**
   * Each assistant message is its segments, in order: named after the first, forked off at the last, and holding exactly
   * the texts that the events of the segments say if and only if no segment ends up blanked.
   */
  lemma AssistantsSay(events: seq<Event>, now: int)
    ensures var said, voices := AssistantMessages(ParseLog(events, now)), Voices(events);
      && |said| == |voices|
      && forall i :: 0 <= i < |said| ==>
        && SpeaksFor(said[i], voices[i])
        && (PiSession.Texts(said[i].content.blocks) == AllTexts(voices[i]) <==> !AnyBlanked(voices[i]))
  {
    EventsAreHeard(events, now);
    FlushIsHeard(ParseEvents(events, now), HearAll(events), now);
    var said, voices := AssistantMessages(ParseLog(events, now)), Voices(events);
    hide ParseEvents, HearAll, AssistantMessages, AllContent, AllTexts, AnyBlanked, PiSession.Texts, Faithful;
    forall i | 0 <= i < |said|
      ensures SpeaksFor(said[i], voices[i])
      ensures PiSession.Texts(said[i].content.blocks) == AllTexts(voices[i]) <==> !AnyBlanked(voices[i])
    {
      assert SpeaksFor(said[i], voices[i]);
      TextsOfVoices(voices[i]);
    }
  }

  /** A snapshot that could blank a text: one without text that has an empty text nevertheless. */
  predicate MayBlank(e: Event) {
    Speaks(e) && PiSession.Texts(e.content.blocks) == [] && Text("") in e.content.blocks
  }

  ghost predicate NoneBlanked(s: Speech) {
    !AnyBlanked(s.open) && forall i :: 0 <= i < |s.closed| ==> !AnyBlanked(s.closed[i])
  }

  lemma HearsNoBlanks(s: Speech, e: Event)
    requires NoneBlanked(s) && !MayBlank(e)
    ensures NoneBlanked(Hear(s, e))
  {
    hide Merge, PiSession.Texts;
    assert forall i :: 0 <= i < |s.open| ==> !s.open[i].blanked;
    if Speaks(e) && PiSession.Texts(e.content.blocks) == [] {
      assert forall i :: 0 <= i < |e.content.blocks| ==> e.content.blocks[i] != Text("");
    }
  }

  lemma {:induction false} NoBlanksAreHeard(events: seq<Event>)
    requires forall i :: 0 <= i < |events| ==> !MayBlank(events[i])
    ensures NoneBlanked(HearAll(events))
  {
    if events != [] {
      hide NoneBlanked, MayBlank, Hear;
      NoBlanksAreHeard(events[..|events| - 1]);
      HearsNoBlanks(HearAll(events[..|events| - 1]), events[|events| - 1]);
    } else {
      assert !AnyBlanked([]);
    }
  }

  /** In a log without such snapshots every assistant message holds exactly the texts that its events say. */
  lemma TextsAreSaid(events: seq<Event>, now: int)
    requires forall i :: 0 <= i < |events| ==> !MayBlank(events[i])
    ensures var said, voices := AssistantMessages(ParseLog(events, now)), Voices(events);
      && |said| == |voices|
      && forall i :: 0 <= i < |said| ==> said[i].content.Blocks? && PiSession.Texts(said[i].content.blocks) == AllTexts(voices[i])
  {
    NoBlanksAreHeard(events);
    AssistantsSay(events, now);
    hide HearAll, ParseLog, AssistantMessages, PiSession.Texts, AllTexts, AllContent, MayBlank, AnyBlanked, AllFaithful;
    var voices := Voices(events);
    forall i | 0 <= i < |voices| ensures !AnyBlanked(voices[i]) {}
  }

  function Snapshots(first: seq<Block>, second: seq<Block>): seq<Event> {
    [AssistantEvent("m1", "", Blocks(first), None), AssistantEvent("m1", "", Blocks(second), None)]
  }

  /** An answer vanishes when a later snapshot has an empty text in its place. */
  lemma AnswerIsBlanked(answer: string, now: int)
    requires answer != ""
    ensures var said := AssistantMessages(ParseLog(Snapshots([Text(answer)], [Text("")]), now));
      |said| == 1 && said[0].content == Blocks([Text("")])
  {
    var events := Snapshots([Text(answer)], [Text("")]);
    var v := Voice("m1", [Text(answer)], [answer], false);
    assert PiSession.Texts([Text(answer)]) == [answer] by { assert [Text(answer)][1..] == []; }
    assert events[..1][..0] == [] && events[..1] == events[..|events| - 1];
    assert HearAll(events[..1]) == Hear(Speech(0, [], []), events[0]) == Speech(0, [], [v]);
    BlankedContent(answer);
    var w := Snapshot(v, [Text("")]);
    assert HearAll(events) == Hear(Speech(0, [], [v]), events[1]) == Speech(0, [], [w]);
    assert [w][..0] == [];
    assert AllContent([w]) == w.content == [Text("")];
    hide ParseLog, HearAll, AssistantMessages, Snapshot, PiSession.Texts;
    AssistantsSay(events, now);
  }

  lemma BlankedContent(answer: string)
    ensures Merge([Text(answer)], [Text("")]) == [Text("")]
  {
    var a, b := [Text(answer)], [Text("")];
    assert Key(a[0], 0) == Key(b[0], 0);
    assert LastWithKey(a, Key(b[0], 0), 1) == 0;
    assert MergeByKey(a, b, 0) == a;
    assert MergeByKey(a, b, 1) == a[0 := b[0]] == b;
  }
}
