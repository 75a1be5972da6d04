/** Reading a Claude event log into chat messages (internal/app/chat_jsonl_parser.go). */
module ClaudeParser {
  import opened Prelude
  import opened Text
  import opened ChatBlocks
  import opened ContentMerge
  import PiSession

  /** One decoded line. A timestamp that is missing or malformed is None. */
  datatype Event =
    | CompactBoundary
    | UserEvent(uuid: string, content: Content, isMeta: bool, sourceToolUseId: string, isCompactSummary: bool, timestamp: Option<int>)
    | AssistantEvent(messageId: string, uuid: string, content: Content, timestamp: Option<int>)
    | ResultEvent(timestamp: Option<int>)
    | OtherEvent

  function CreatedAt(timestamp: Option<int>, now: int): int {
    if timestamp.Some? then timestamp.value else now
  }

  predicate IsToolResult(e: Event) {
    e.UserEvent? && e.content.Blocks? && e.content.blocks != [] && e.content.blocks[0].ToolResult?
  }

  predicate Speaks(e: Event) {
    e.AssistantEvent? && e.content.Blocks? && e.content.blocks != []
  }

  datatype Parser = Parser(messages: seq<ChatMessage>, group: Group)

  function GroupMessage(g: Group, count: nat, now: int): ChatMessage
    requires g.segments != []
  {
    var first, last := g.segments[0], g.segments[|g.segments| - 1];
    var id := if g.id != "" then g.id else if first.id != "" then first.id else "assistant_" + Print(count);
    PiSession.AssistantMessage(id, SegmentBlocks(g.segments),
      if g.at.Some? then g.at.value else if first.createdAt > 0 then first.createdAt else now,
      if last.id != "" then last.id else id)
  }

  function FlushGroup(p: Parser, now: int): Parser {
    if p.group.segments == [] then p
    else Parser(p.messages + [GroupMessage(p.group, |p.messages|, now)], NO_GROUP)
  }

  function SpokenId(e: Event, count: nat): string
    requires e.AssistantEvent?
  {
    if e.messageId != "" then e.messageId else if e.uuid != "" then e.uuid else "assistant_" + Print(count)
  }

  function UserMessage(e: Event, count: nat, now: int): ChatMessage
    requires e.UserEvent?
  {
    var meta := !e.isCompactSummary && (e.isMeta || e.sourceToolUseId != "");
    var id :=
      if e.uuid != "" then e.uuid
      else if e.isCompactSummary then "compact_" + Print(count)
      else if meta then "meta_" + (if e.sourceToolUseId != "" then e.sourceToolUseId else Print(count))
      else "user_" + Print(count);
    ChatMessage(id, User, e.content, CreatedAt(e.timestamp, now), id, meta, if meta then e.sourceToolUseId else "", e.isCompactSummary)
  }

  /** A user event that closes the open assistant group: a compact summary or the user's own words. */
  predicate ClosesGroup(e: Event) {
    e.UserEvent? && !IsToolResult(e) && (e.isCompactSummary || (!e.isMeta && e.sourceToolUseId == ""))
  }

  function ParseEvent(p: Parser, e: Event, now: int): Parser {
    if IsToolResult(e) then
      var at := CreatedAt(e.timestamp, now);
      p.(group :=
        if p.group.segments == [] then Upsert(p.group, "tool_result_" + Print(|p.messages|), e.content.blocks, at)
        else AppendToLast(p.group, e.content.blocks, at))
    else if e.UserEvent? then
      var f := if ClosesGroup(e) then FlushGroup(p, now) else p;
      f.(messages := f.messages + [UserMessage(e, |f.messages|, now)])
    else if Speaks(e) then
      p.(group := Upsert(p.group, SpokenId(e, |p.messages|), e.content.blocks, CreatedAt(e.timestamp, now)))
    else if e.ResultEvent? && p.group.segments != [] && e.timestamp.Some? then
      p.(group := p.group.(at := Later(p.group.at, e.timestamp.value)))
    else p
  }

  function ParseEvents(events: seq<Event>, now: int): Parser {
    if events == [] then Parser([], NO_GROUP)
    else ParseEvent(ParseEvents(events[..|events| - 1], now), events[|events| - 1], now)
  }

  function ParseLog(events: seq<Event>, now: int): seq<ChatMessage> {
    FlushGroup(ParseEvents(events, now), now).messages
  }

  method FlushAssistantGroup(group: AssistantGroup, messages: seq<ChatMessage>, now: int) returns (out: seq<ChatMessage>)
    modifies group
    ensures Parser(out, group.State()) == FlushGroup(Parser(messages, old(group.State())), now)
  {
    if |group.segments| == 0 { return messages; }
    var content := group.Flatten();
    var first, last := group.segments[0], group.segments[|group.segments| - 1];
    var id := group.groupId;
    if id == "" {
      id := if first.id != "" then first.id else "assistant_" + Print(|messages|);
    }
    var fork := id;
    if last.id != "" { fork := last.id; }
    var createdAt := now;
    if group.createdAt.Some? {
      createdAt := group.createdAt.value;
    } else if first.createdAt > 0 {
      createdAt := first.createdAt;
    }
    out := messages + [PiSession.AssistantMessage(id, content, createdAt, fork)];
    group.Reset();
  }

  method ParseClaudeMessages(events: seq<Event>, now: int) returns (messages: seq<ChatMessage>)
    ensures messages == ParseLog(events, now)
  {
    hide Merge;
    messages := [];
    var group := new AssistantGroup();
    var i := 0;
    while i < |events|
      invariant i <= |events|
      invariant fresh(group)
      invariant Parser(messages, group.State()) == ParseEvents(events[..i], now)
    {
      var e := events[i];
      assert events[..i + 1][..i] == events[..i];
      i := i + 1;
      match e {
        case UserEvent(uuid, content, isMeta, sourceToolUseId, isCompactSummary, timestamp) =>
          var createdAt := CreatedAt(timestamp, now);
          if IsToolResult(e) {
            if |group.segments| == 0 {
              group.UpsertSegment("tool_result_" + Print(|messages|), content.blocks, createdAt);
            } else {
              group.AppendBlocks(content.blocks, createdAt);
            }
          } else if isCompactSummary {
            messages := FlushAssistantGroup(group, messages, now);
            var id := if uuid != "" then uuid else "compact_" + Print(|messages|);
            messages := messages + [ChatMessage(id, User, content, createdAt, id, false, "", true)];
          } else if isMeta || sourceToolUseId != "" {
            var id := uuid;
            if id == "" {
              id := "meta_" + if sourceToolUseId != "" then sourceToolUseId else Print(|messages|);
            }
            messages := messages + [ChatMessage(id, User, content, createdAt, id, true, sourceToolUseId, false)];
          } else {
            messages := FlushAssistantGroup(group, messages, now);
            var id := if uuid != "" then uuid else "user_" + Print(|messages|);
            messages := messages + [ChatMessage(id, User, content, createdAt, id, false, "", false)];
          }
        case AssistantEvent(messageId, uuid, content, timestamp) =>
          if content.Blocks? && |content.blocks| > 0 {
            var id := messageId;
            if id == "" { id := uuid; }
            if id == "" { id := "assistant_" + Print(|messages|); }
            group.UpsertSegment(id, content.blocks, CreatedAt(timestamp, now));
          }
        case ResultEvent(timestamp) =>
          if |group.segments| > 0 && timestamp.Some? {
            group.Touch(timestamp.value);
          }
        case CompactBoundary =>
        case OtherEvent =>
      }
    }
    assert events[..i] == events;
    messages := FlushAssistantGroup(group, messages, now);
  }

  /* Which events make up which assistant message */

  datatype Grouping = Grouping(closed: seq<seq<Event>>, open: seq<Event>)

  /** Events that go into an assistant message: what was said, tool results, and the end mark of a turn under way. */
  predicate Joins(e: Event, open: bool) {
    IsToolResult(e) || Speaks(e) || (e.ResultEvent? && e.timestamp.Some? && open)
  }

  function Close(g: Grouping): Grouping {
    if g.open == [] then g else Grouping(g.closed + [g.open], [])
  }

  function GroupEvents(events: seq<Event>): Grouping {
    if events == [] then Grouping([], [])
    else
      var g, e := GroupEvents(events[..|events| - 1]), events[|events| - 1];
      if ClosesGroup(e) then Close(g)
      else if Joins(e, g.open != []) then g.(open := g.open + [e])
      else g
  }

  function Groups(events: seq<Event>): seq<seq<Event>> {
    Close(GroupEvents(events)).closed
  }

  function AssistantMessages(messages: seq<ChatMessage>): seq<ChatMessage> {
    if messages == [] then []
    else
      var m := messages[|messages| - 1];
      AssistantMessages(messages[..|messages| - 1]) + if m.role.Assistant? then [m] else []
  }

  function StampOf(e: Event, now: int): int {
    match e
    case UserEvent(_, _, _, _, _, timestamp) => CreatedAt(timestamp, now)
    case AssistantEvent(_, _, _, timestamp) => CreatedAt(timestamp, now)
    case ResultEvent(timestamp) => CreatedAt(timestamp, now)
    case _ => now
  }

  ghost predicate Latest(t: int, events: seq<Event>, now: int) {
    && (exists i :: 0 <= i < |events| && StampOf(events[i], now) == t)
    && (forall i :: 0 <= i < |events| ==> StampOf(events[i], now) <= t)
  }

  /** The tool results that the tool-result events of a list carry, in order. */
  function ResultsIn(events: seq<Event>): seq<Block> {
    if events == [] then []
    else
      var e := events[|events| - 1];
      ResultsIn(events[..|events| - 1]) + if IsToolResult(e) then Results(e.content.blocks) else []
  }

  ghost predicate SaysNoResults(events: seq<Event>) {
    forall i, k :: 0 <= i < |events| && Speaks(events[i]) && 0 <= k < |events[i].content.blocks| ==>
      !events[i].content.blocks[k].ToolResult?
  }

  ghost predicate Carries(m: ChatMessage, group: seq<Event>, now: int, results: bool) {
    && m.content.Blocks?
    && Latest(m.createdAt, group, now)
    && (results ==> Results(m.content.blocks) == ResultsIn(group))
  }

  /** The parser's state against the grouping of the events it has seen. */
  ghost predicate Mirrors(p: Parser, g: Grouping, now: int, results: bool) {
    && (p.group.segments == [] <==> g.open == [])
    && (p.group.segments == [] ==> p.group == NO_GROUP)
    && (g.open != [] ==>
          && p.group.at.Some? && Latest(p.group.at.value, g.open, now)
          && (results ==> Results(SegmentBlocks(p.group.segments)) == ResultsIn(g.open)))
    && var said := AssistantMessages(p.messages);
       && |said| == |g.closed|
       && forall i :: 0 <= i < |said| ==> Carries(said[i], g.closed[i], now, results)
  }

  lemma LatestAppend(at: Option<int>, events: seq<Event>, e: Event, now: int)
    requires events != [] ==> at.Some? && Latest(at.value, events, now)
    requires events == [] ==> at.None?
    ensures Latest(Later(at, StampOf(e, now)).value, events + [e], now)
  {
    var all := events + [e];
    assert all[|events|] == e;
    if events != [] && StampOf(e, now) <= at.value {
      var i :| 0 <= i < |events| && StampOf(events[i], now) == at.value;
      assert all[i] == events[i];
    }
  }

  lemma ResultsInAppend(events: seq<Event>, e: Event)
    ensures ResultsIn(events + [e]) == ResultsIn(events) + if IsToolResult(e) then Results(e.content.blocks) else []
  {
    assert (events + [e])[..|events|] == events;
  }

  lemma AssistantMessagesAppend(messages: seq<ChatMessage>, m: ChatMessage)
    ensures AssistantMessages(messages + [m]) == AssistantMessages(messages) + if m.role.Assistant? then [m] else []
  {
    assert (messages + [m])[..|messages|] == messages;
  }

  lemma FlushMirrors(p: Parser, g: Grouping, now: int, results: bool)
    requires Mirrors(p, g, now, results)
    ensures Mirrors(FlushGroup(p, now), Close(g), now, results)
  {
    hide SegmentBlocks, Results, ResultsIn, Latest;
    if g.open != [] {
      AssistantMessagesAppend(p.messages, GroupMessage(p.group, |p.messages|, now));
    }
  }

  lemma ResultsOneMore(segments: seq<Segment>, s: Segment)
    ensures Results(SegmentBlocks(segments + [s])) == Results(SegmentBlocks(segments)) + Results(s.content)
  {
    SegmentBlocksAppend(segments, s);
    ResultsOfConcat(SegmentBlocks(segments), s.content);
  }

  lemma ReplaceLast(segments: seq<Segment>, s: Segment)
    requires segments != []
    ensures var n := |segments| - 1;
      segments == segments[..n] + [segments[n]] && segments[n := s] == segments[..n] + [s]
  {
  }

  lemma UpsertMerges(g: Group, id: string, content: seq<Block>, t: int)
    requires g.segments != [] && g.segments[|g.segments| - 1].id == id
    ensures var last := g.segments[|g.segments| - 1];
      Upsert(g, id, content, t).segments == g.segments[|g.segments| - 1 := last.(content := Merge(last.content, content))]
  {
  }

  lemma UpsertAdds(g: Group, id: string, content: seq<Block>, t: int)
    requires g.segments == [] || g.segments[|g.segments| - 1].id != id
    ensures Upsert(g, id, content, t).segments == g.segments + [Segment(id, content, t)]
  {
  }

  /** Putting a snapshot into the open group adds its tool results, if it opens a segment or has none. */
  lemma UpsertResults(g: Group, id: string, content: seq<Block>, t: int)
    requires g.segments != [] ==> forall k :: 0 <= k < |content| ==> !content[k].ToolResult?
    ensures Results(SegmentBlocks(Upsert(g, id, content, t).segments)) == Results(SegmentBlocks(g.segments)) + Results(content)
  {
    hide Merge, Later, Results, SegmentBlocks, Upsert;
    var n := |g.segments|;
    if n > 0 && g.segments[n - 1].id == id {
      var init, last := g.segments[..n - 1], g.segments[n - 1];
      var merged := last.(content := Merge(last.content, content));
      MergeKeepsResults(last.content, content);
      NoResults(content);
      ResultsOneMore(init, last);
      ResultsOneMore(init, merged);
      ReplaceLast(g.segments, merged);
      UpsertMerges(g, id, content, t);
    } else {
      UpsertAdds(g, id, content, t);
      ResultsOneMore(g.segments, Segment(id, content, t));
    }
  }

  lemma UpsertOpens(g: Group, id: string, content: seq<Block>, t: int)
    ensures Upsert(g, id, content, t).segments != [] && Upsert(g, id, content, t).at == Later(g.at, t)
  {
  }

  lemma JoinMirrors(p: Parser, g: Grouping, e: Event, group: Group, now: int, results: bool)
    requires Mirrors(p, g, now, results)
    requires group.segments != [] && group.at == Later(p.group.at, StampOf(e, now))
    requires results ==>
      (Results(SegmentBlocks(group.segments)) ==
        Results(SegmentBlocks(p.group.segments)) + if IsToolResult(e) then Results(e.content.blocks) else [])
    ensures Mirrors(p.(group := group), g.(open := g.open + [e]), now, results)
  {
    hide SegmentBlocks, Results, Carries, StampOf, AssistantMessages;
    LatestAppend(p.group.at, g.open, e, now);
    ResultsInAppend(g.open, e);
    if g.open == [] { NothingOpen(); }
    hide ResultsIn, Latest, Later;
  }

  lemma NothingOpen()
    ensures Results(SegmentBlocks([])) == [] && ResultsIn([]) == []
  {
  }

  lemma EventMirrors(p: Parser, g: Grouping, e: Event, now: int, results: bool)
    requires Mirrors(p, g, now, results)
    requires results && Speaks(e) ==> forall k :: 0 <= k < |e.content.blocks| ==> !e.content.blocks[k].ToolResult?
    ensures Mirrors(ParseEvent(p, e, now),
      if ClosesGroup(e) then Close(g) else if Joins(e, g.open != []) then g.(open := g.open + [e]) else g, now, results)
  {
    if IsToolResult(e) {
      ToolResultMirrors(p, g, e, now, results);
    } else if e.UserEvent? {
      UserMirrors(p, g, e, now, results);
    } else if Speaks(e) {
      SpokenMirrors(p, g, e, now, results);
    } else if e.ResultEvent? && p.group.segments != [] && e.timestamp.Some? {
      hide AssistantMessages, Latest, Later, Results, SegmentBlocks, ResultsIn, Carries;
      JoinMirrors(p, g, e, p.group.(at := Later(p.group.at, e.timestamp.value)), now, results);
    }
  }

  lemma ToolResultMirrors(p: Parser, g: Grouping, e: Event, now: int, results: bool)
    requires Mirrors(p, g, now, results) && IsToolResult(e)
    ensures Mirrors(ParseEvent(p, e, now), g.(open := g.open + [e]), now, results)
  {
    hide Merge, Later, Results, SegmentBlocks, ResultsIn, Carries, AssistantMessages, Latest;
    var at, group := CreatedAt(e.timestamp, now), ParseEvent(p, e, now).group;
    if p.group.segments == [] {
      UpsertResults(p.group, "tool_result_" + Print(|p.messages|), e.content.blocks, at);
    } else {
      AppendToLastBlocks(p.group, e.content.blocks, at);
      ResultsOfConcat(SegmentBlocks(p.group.segments), e.content.blocks);
    }
    JoinMirrors(p, g, e, group, now, results);
  }

  lemma {:induction false} UserMirrors(p: Parser, g: Grouping, e: Event, now: int, results: bool)
    requires Mirrors(p, g, now, results) && e.UserEvent? && !IsToolResult(e)
    ensures Mirrors(ParseEvent(p, e, now), if ClosesGroup(e) then Close(g) else g, now, results)
  {
    FlushMirrors(p, g, now, results);
    var f := if ClosesGroup(e) then FlushGroup(p, now) else p;
    AssistantMessagesAppend(f.messages, UserMessage(e, |f.messages|, now));
    hide AssistantMessages, Latest, Results, SegmentBlocks, ResultsIn, Carries, FlushGroup, Print;
  }

  lemma SpokenMirrors(p: Parser, g: Grouping, e: Event, now: int, results: bool)
    requires Mirrors(p, g, now, results) && Speaks(e)
    requires results ==> forall k :: 0 <= k < |e.content.blocks| ==> !e.content.blocks[k].ToolResult?
    ensures Mirrors(ParseEvent(p, e, now), g.(open := g.open + [e]), now, results)
  {
    hide Upsert, Later, SegmentBlocks, ResultsIn, Carries, AssistantMessages, Latest;
    var id, at := SpokenId(e, |p.messages|), CreatedAt(e.timestamp, now);
    UpsertOpens(p.group, id, e.content.blocks, at);
    if results {
      UpsertResults(p.group, id, e.content.blocks, at);
      NoResults(e.content.blocks);
    }
    JoinMirrors(p, g, e, Upsert(p.group, id, e.content.blocks, at), now, results);
  }

  lemma {:induction false} EventsMirror(events: seq<Event>, now: int, results: bool)
    requires results ==> SaysNoResults(events)
    ensures Mirrors(ParseEvents(events, now), GroupEvents(events), now, results)
  {
    hide ParseEvent, ClosesGroup, Joins, Close, Carries;
    if events != [] {
      EventsMirror(events[..|events| - 1], now, results);
      hide Mirrors;
      EventMirrors(ParseEvents(events[..|events| - 1], now), GroupEvents(events[..|events| - 1]), events[|events| - 1], now, results);
    }
  }

  /**
   * The assistant messages correspond to the groups of events one for one; each bears the latest time of its group and,
   * if no assistant event contains a tool result, exactly the tool results of its group's tool-result events, in order.
   */
  lemma AssistantMessagesMirrorGroups(events: seq<Event>, now: int)
    ensures var said := AssistantMessages(ParseLog(events, now));
      && |said| == |Groups(events)|
      && (forall i :: 0 <= i < |said| ==> Latest(said[i].createdAt, Groups(events)[i], now) && said[i].content.Blocks?)
      && (SaysNoResults(events) ==> forall i :: 0 <= i < |said| ==> Results(said[i].content.blocks) == ResultsIn(Groups(events)[i]))
  {
    hide ParseEvents, GroupEvents, SaysNoResults, Latest, Results, ResultsIn, AssistantMessages, FlushGroup, Close;
    var p, g := ParseEvents(events, now), GroupEvents(events);
    var results := SaysNoResults(events);
    EventsMirror(events, now, results);
    FlushMirrors(p, g, now, results);
  }

  function AllResultsIn(groups: seq<seq<Event>>): seq<Block> {
    if groups == [] then [] else AllResultsIn(groups[..|groups| - 1]) + ResultsIn(groups[|groups| - 1])
  }

  ghost predicate Holds(g: Grouping, results: seq<Block>) {
    results == AllResultsIn(g.closed) + ResultsIn(g.open)
  }

  lemma {:induction false} CloseHolds(g: Grouping, results: seq<Block>)
    requires Holds(g, results)
    ensures Holds(Close(g), results)
  {
    AllResultsAppend(g.closed, g.open);
    assert ResultsIn([]) == [];
    hide AllResultsIn;
  }

  lemma {:induction false} JoinHolds(g: Grouping, results: seq<Block>, e: Event)
    requires Holds(g, results)
    ensures Holds(g.(open := g.open + [e]), results + if IsToolResult(e) then Results(e.content.blocks) else [])
  {
    hide AllResultsIn, ResultsIn, Results;
    ResultsInAppend(g.open, e);
  }

  /** No tool-result event is left out of the groups, and none is counted twice. */
  lemma {:induction false} GroupingKeepsResults(events: seq<Event>)
    ensures Holds(GroupEvents(events), ResultsIn(events))
  {
    if events == [] {
      assert AllResultsIn([]) == [] && ResultsIn([]) == [];
    } else {
      var init, e := events[..|events| - 1], events[|events| - 1];
      GroupingKeepsResults(init);
      assert events == init + [e];
      ResultsInAppend(init, e);
      CloseHolds(GroupEvents(init), ResultsIn(init));
      JoinHolds(GroupEvents(init), ResultsIn(init), e);
      hide Holds, ResultsIn, Results, Close;
      assert ResultsIn(init) + [] == ResultsIn(init);
    }
  }

  lemma AllResultsAppend(groups: seq<seq<Event>>, group: seq<Event>)
    ensures AllResultsIn(groups + [group]) == AllResultsIn(groups) + ResultsIn(group)
  {
    assert (groups + [group])[..|groups|] == groups;
  }

  lemma {:induction false} MatchingResults(messages: seq<ChatMessage>, groups: seq<seq<Event>>)
    requires |messages| == |groups|
    requires forall i :: 0 <= i < |messages| ==> messages[i].content.Blocks? && Results(messages[i].content.blocks) == ResultsIn(groups[i])
    ensures Results(AllBlocks(messages)) == AllResultsIn(groups)
  {
    if messages != [] {
      var n := |messages| - 1;
      MatchingResults(messages[..n], groups[..n]);
      ResultsOfConcat(AllBlocks(messages[..n]), messages[n].content.blocks);
    }
  }

  /** Tool results are conserved: none is lost, repeated or moved on the way from the events to the assistant messages. */
  lemma ToolResultsAreConserved(events: seq<Event>, now: int)
    requires SaysNoResults(events)
    ensures Results(AllBlocks(AssistantMessages(ParseLog(events, now)))) == ResultsIn(events)
  {
    hide ParseLog, AssistantMessages, Results, ResultsIn, GroupEvents, Latest, AllBlocks;
    AssistantMessagesMirrorGroups(events, now);
    MatchingResults(AssistantMessages(ParseLog(events, now)), Groups(events));
    GroupingKeepsResults(events);
    var g := GroupEvents(events);
    if g.open == [] { NothingOpen(); } else { AllResultsAppend(g.closed, g.open); }
  }

  /* User messages */

  /** Where the messages that are no assistant's stand. */
  function UserPlaces(messages: seq<ChatMessage>): seq<nat> {
    if messages == [] then []
    else
      var n := |messages| - 1;
      UserPlaces(messages[..n]) + if messages[n].role.Assistant? then [] else [n]
  }

  /** They are the places of all such messages, in order. */
  lemma {:induction false} UserPlacesAreExact(messages: seq<ChatMessage>)
    ensures var places := UserPlaces(messages);
      && (forall i :: 0 <= i < |places| ==> places[i] < |messages| && !messages[places[i]].role.Assistant?)
      && (forall j: nat :: j < |messages| && !messages[j].role.Assistant? ==> j in places)
      && (forall i, k :: 0 <= i < k < |places| ==> places[i] < places[k])
  {
    if messages != [] {
      var init, m := messages[..|messages| - 1], messages[|messages| - 1];
      UserPlacesAreExact(init);
      assert messages == init + [m];
      UserPlacesAppend(init, m);
      hide UserPlaces;
      var before, places := UserPlaces(init), UserPlaces(messages);
      forall j: nat | j < |messages| && !messages[j].role.Assistant? ensures j in places {
        if j < |init| { assert init[j] == messages[j] && j in before; } else { assert places[|before|] == j; }
      }
      assert forall i :: 0 <= i < |before| ==> places[i] == before[i] && init[before[i]] == messages[before[i]];
    }
  }

  /** The user events that stand for messages of their own: all but those that carry tool results. */
  function Spoken(events: seq<Event>): seq<Event> {
    if events == [] then []
    else
      var e := events[|events| - 1];
      Spoken(events[..|events| - 1]) + if e.UserEvent? && !IsToolResult(e) then [e] else []
  }

  /** The name that is made up for the message at position `j` when its event has none. */
  function MadeUpName(e: Event, meta: bool, j: nat): string
    requires e.UserEvent?
  {
    if e.isCompactSummary then "compact_" + Print(j)
    else if meta && e.sourceToolUseId != "" then "meta_" + e.sourceToolUseId
    else if meta then "meta_" + Print(j)
    else "user_" + Print(j)
  }

  /** The message at position `j` carries all that the event says. */
  ghost predicate SaysTheSame(m: ChatMessage, e: Event, j: nat, now: int) {
    && e.UserEvent? && m.role.User? && m.content == e.content && m.createdAt == CreatedAt(e.timestamp, now)
    && m.isCompactSummary == e.isCompactSummary
    && m.isMeta == (!e.isCompactSummary && (e.isMeta || e.sourceToolUseId != ""))
    && m.sourceToolUseId == (if m.isMeta then e.sourceToolUseId else "")
    && m.id == (if e.uuid != "" then e.uuid else MadeUpName(e, m.isMeta, j))
    && m.forkEntryId == m.id
  }

  /** The messages outside the assistant's groups are the user's events one for one, in order. */
  ghost predicate UsersFollow(messages: seq<ChatMessage>, said: seq<Event>, now: int) {
    var places := UserPlaces(messages);
    |places| == |said| && forall i :: 0 <= i < |places| ==>
      places[i] < |messages| && SaysTheSame(messages[places[i]], said[i], places[i], now)
  }

  lemma UserPlacesAppend(messages: seq<ChatMessage>, m: ChatMessage)
    ensures UserPlaces(messages + [m]) == UserPlaces(messages) + if m.role.Assistant? then [] else [|messages|]
  {
    assert (messages + [m])[..|messages|] == messages;
    assert UserPlaces(messages) + [] == UserPlaces(messages);
  }

  lemma {:induction false} AssistantKeepsUsers(messages: seq<ChatMessage>, m: ChatMessage, said: seq<Event>, now: int)
    requires UsersFollow(messages, said, now) && m.role.Assistant?
    ensures UsersFollow(messages + [m], said, now)
  {
    hide SaysTheSame, UserPlaces;
    UserPlacesAppend(messages, m);
  }

  lemma {:induction false} UserFollows(messages: seq<ChatMessage>, m: ChatMessage, said: seq<Event>, e: Event, now: int)
    requires UsersFollow(messages, said, now) && m.role.User? && SaysTheSame(m, e, |messages|, now)
    ensures UsersFollow(messages + [m], said + [e], now)
  {
    hide SaysTheSame, UserPlaces;
    UserPlacesAppend(messages, m);
    var before, places, more := UserPlaces(messages), UserPlaces(messages + [m]), messages + [m];
    forall i | 0 <= i < |places| ensures places[i] < |more| && SaysTheSame(more[places[i]], (said + [e])[i], places[i], now) {
      if i < |before| {
        assert places[i] == before[i] && more[before[i]] == messages[before[i]] && (said + [e])[i] == said[i];
      } else {
        assert places[i] == |messages|;
      }
    }
  }

  lemma FlushKeepsUsers(p: Parser, said: seq<Event>, now: int)
    requires UsersFollow(p.messages, said, now)
    ensures UsersFollow(FlushGroup(p, now).messages, said, now)
  {
    hide SegmentBlocks, UsersFollow;
    if p.group.segments != [] { AssistantKeepsUsers(p.messages, GroupMessage(p.group, |p.messages|, now), said, now); }
  }

  lemma UserSaysTheSame(e: Event, j: nat, now: int)
    requires e.UserEvent?
    ensures SaysTheSame(UserMessage(e, j, now), e, j, now) && UserMessage(e, j, now).role.User?
  {
  }

  lemma {:induction false} EventsKeepUsers(events: seq<Event>, now: int)
    ensures UsersFollow(ParseEvents(events, now).messages, Spoken(events), now)
  {
    hide FlushGroup, Upsert, AppendToLast, Later, Print, UsersFollow, SaysTheSame, UserMessage;
    if events == [] {
      NoUsers(now);
    } else {
      var init, e := events[..|events| - 1], events[|events| - 1];
      EventsKeepUsers(init, now);
      var p := ParseEvents(init, now);
      if e.UserEvent? && !IsToolResult(e) {
        FlushKeepsUsers(p, Spoken(init), now);
        var f := if ClosesGroup(e) then FlushGroup(p, now) else p;
        UserSaysTheSame(e, |f.messages|, now);
        UserFollows(f.messages, UserMessage(e, |f.messages|, now), Spoken(init), e, now);
      } else {
        assert Spoken(init) + [] == Spoken(init);
      }
    }
  }

  lemma NoUsers(now: int)
    ensures UsersFollow([], [], now)
  {
  }

  /** The user messages are the user's events one for one, in order, with their content, times, flags and names. */
  lemma UserMessagesAreKept(events: seq<Event>, now: int)
    ensures UsersFollow(ParseLog(events, now), Spoken(events), now)
  {
    EventsKeepUsers(events, now);
    FlushKeepsUsers(ParseEvents(events, now), Spoken(events), now);
    hide UsersFollow;
  }
}
