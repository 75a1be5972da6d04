/** What the content of a tool result is migrated to (internal/app/pi_session_migration.go, parsedToolResultToPiContent). */
module ResultContents {
  import opened Places
  import opened Text
  import opened ChatBlocks
  import opened PiConversion
  import opened RoundTrip
  import PiSession

  predicate StandsAt(s: string, part: string, i: int) {
    0 <= i <= |s| - |part| && s[i..i + |part|] == part
  }

  /** Images, documents, recordings and files by any of their names, and what has a source and an image in its name. */
  ghost predicate NamesMedia(name: string, hasSource: bool) {
    var kind := Lower(name);
    || kind == "image" || kind == "input_image" || kind == "screenshot" || kind == "document"
    || kind == "audio" || kind == "video" || kind == "file"
    || (hasSource && exists i :: StandsAt(kind, "image", i))
  }

  ghost predicate Media(b: Block) {
    b.Other? && NamesMedia(b.kind, b.hasSource)
  }

  function IsWords(blocks: seq<Block>): nat -> bool {
    (k: nat) => k < |blocks| && Words(blocks[k])
  }

  /** The places of exactly the non-empty texts of a list, in order. */
  ghost predicate TextPlaces(blocks: seq<Block>, places: seq<nat>) {
    Listing(places, |blocks|, IsWords(blocks))
  }

  ghost function TextsAt(blocks: seq<Block>, places: seq<nat>): seq<string>
    requires forall i :: 0 <= i < |places| ==> places[i] < |blocks| && blocks[places[i]].Text?
  {
    seq(|places|, i requires 0 <= i < |places| => blocks[places[i]].text)
  }

  lemma TextsAtOneMore(blocks: seq<Block>, places: seq<nat>, n: nat)
    requires n < |blocks| && blocks[n].Text?
    requires forall i :: 0 <= i < |places| ==> places[i] < |blocks| && blocks[places[i]].Text?
    ensures TextsAt(blocks, places + [n]) == TextsAt(blocks, places) + [blocks[n].text]
    ensures TextsAt(blocks, []) == []
  {
  }

  ghost function MediaAt(blocks: seq<Block>): set<nat> {
    set k: nat | k < |blocks| && Media(blocks[k])
  }

  /* The two passes over a list */

  lemma TextsFirst(blocks: seq<Block>)
    requires blocks != []
    ensures ResultTexts(blocks) == (if Words(blocks[0]) then [blocks[0].text] else []) + ResultTexts(blocks[1..])
  {
  }

  lemma {:induction false} TextsOneMore(blocks: seq<Block>, b: Block)
    ensures ResultTexts(blocks + [b]) == ResultTexts(blocks) + if Words(b) then [b.text] else []
  {
    TextsFirst(blocks + [b]);
    if blocks == [] {
      assert blocks + [b] == [b];
      assert ResultTexts([]) == [];
    } else {
      assert (blocks + [b])[1..] == blocks[1..] + [b];
      TextsFirst(blocks);
      hide Words, ResultTexts;
      TextsOneMore(blocks[1..], b);
    }
  }

  /** The reader collects the texts of a list in the same way. */
  lemma {:induction false} ReaderTextsAreSame(blocks: seq<Block>)
    ensures PiSession.Texts(blocks) == ResultTexts(blocks)
  {
    if blocks != [] { ReaderTextsAreSame(blocks[1..]); }
  }

  lemma {:induction false} MediaOneMore(blocks: seq<Block>, b: Block)
    ensures OmittedMedia(blocks + [b]) == OmittedMedia(blocks) + if IsMediaBlock(b) then 1 else 0
  {
    if blocks == [] {
      assert blocks + [b] == [b];
    } else {
      assert (blocks + [b])[1..] == blocks[1..] + [b];
      MediaOneMore(blocks[1..], b);
    }
  }

  lemma {:induction false} ContainsAnywhere(s: string, part: string)
    ensures Contains(s, part) <==> exists i :: StandsAt(s, part, i)
  {
    if part <= s {
      assert StandsAt(s, part, 0);
    } else {
      assert !StandsAt(s, part, 0);
      if s != "" {
        ContainsAnywhere(s[1..], part);
        forall i | i >= 0 ensures StandsAt(s[1..], part, i) <==> StandsAt(s, part, i + 1) {
          if i + 1 <= |s| - |part| { assert s[1..][i..i + |part|] == s[i + 1..i + 1 + |part|]; }
        }
        if i :| StandsAt(s, part, i) { assert StandsAt(s[1..], part, i - 1); }
      } else {
        assert forall i :: !StandsAt(s, part, i);
      }
    }
  }

  lemma MediaNames(name: string, hasSource: bool)
    ensures MediaKind(name, hasSource) <==> NamesMedia(name, hasSource)
  {
    ContainsAnywhere(Lower(name), "image");
    hide Contains, Lower;
  }

  lemma MediaBlocks(b: Block)
    ensures IsMediaBlock(b) <==> Media(b)
  {
    if b.Other? { MediaNames(b.kind, b.hasSource); }
  }

  /* Tool arguments */

  /** The type of an object: its first string under that key, or none. */
  ghost predicate HasType(fields: seq<Field>, kind: string) {
    || (kind == "" && forall i :: 0 <= i < |fields| ==> !(fields[i].key == "type" && fields[i].value.String?))
    || exists i :: IsFirstType(fields, i, kind)
  }

  predicate IsFirstType(fields: seq<Field>, i: int, kind: string) {
    && 0 <= i < |fields| && fields[i].key == "type" && fields[i].value == String(kind)
    && forall j :: 0 <= j < i ==> !(fields[j].key == "type" && fields[j].value.String?)
  }

  /** An object that stands for media: by its type, and by whether it has a source. */
  ghost predicate MediaObject(v: Json) {
    v.Object? && exists kind :: HasType(v.fields, kind) && NamesMedia(kind, exists i :: 0 <= i < |v.fields| && v.fields[i].key == "source")
  }

  lemma {:induction false} TypeIsFirst(fields: seq<Field>)
    ensures HasType(fields, FieldString(fields, "type"))
    ensures forall kind :: HasType(fields, kind) ==> kind == FieldString(fields, "type")
  {
    if fields != [] && fields[0].key == "type" && fields[0].value.String? {
      assert IsFirstType(fields, 0, fields[0].value.s);
    } else if fields != [] {
      var rest := fields[1..];
      TypeIsFirst(rest);
      assert forall i :: 0 <= i < |rest| ==> rest[i] == fields[i + 1];
      forall kind ensures HasType(rest, kind) <==> HasType(fields, kind) { TypeOfRest(fields, kind); }
    }
  }

  lemma TypeOfRest(fields: seq<Field>, kind: string)
    requires fields != [] && !(fields[0].key == "type" && fields[0].value.String?)
    ensures HasType(fields[1..], kind) <==> HasType(fields, kind)
  {
    var rest := fields[1..];
    assert forall i :: 0 < i < |fields| ==> fields[i] == rest[i - 1];
    if i :| IsFirstType(rest, i, kind) { assert IsFirstType(fields, i + 1, kind); }
    if i :| IsFirstType(fields, i, kind) { assert IsFirstType(rest, i - 1, kind); }
  }

  lemma MediaObjects(v: Json)
    ensures IsMediaJson(v) <==> MediaObject(v)
  {
    if v.Object? {
      TypeIsFirst(v.fields);
      MediaNames(FieldString(v.fields, "type"), exists i :: 0 <= i < |v.fields| && v.fields[i].key == "source");
      hide HasType, FieldString, MediaKind, NamesMedia;
    }
  }

  /**
   * What the sanitizer makes of an argument: below the twelfth level nothing but a notice is left; of an object the
   * fields stay, media data replaced by a notice; of a list the items, media objects replaced by a notice; of a long
   * string a notice of its size.
   */
  lemma ArgumentsAreCut(v: Json, depth: nat)
    ensures var out := Sanitize(v, depth);
      if depth > 12 then out == String("[Legacy nested value omitted during migration.]")
      else
        match v
        case Object(fields) =>
          && out.Object? && |out.fields| == |fields|
          && forall i :: 0 <= i < |fields| ==>
               && out.fields[i].key == fields[i].key
               && out.fields[i].value == (
                    if Lower(fields[i].key) in {"source", "data", "base64", "image", "image_url"}
                    then String("[Legacy media data omitted during migration.]") else Sanitize(fields[i].value, depth + 1))
        case Array(items) =>
          && out.Array? && |out.items| == |items|
          && forall i :: 0 <= i < |items| ==>
               out.items[i] == (if MediaObject(items[i]) then String("[Legacy media attachment omitted during migration.]")
                                else Sanitize(items[i], depth + 1))
        case String(s) =>
          out == if |s| <= 2048 then v
            else String("[Legacy string omitted during migration because it was " + Print(|s|) + " characters.]")
        case _ => out == v
  {
    if v.Array? {
      forall i | 0 <= i < |v.items| ensures IsMediaJson(v.items[i]) <==> MediaObject(v.items[i]) { MediaObjects(v.items[i]); }
      hide MediaObject, IsMediaJson;
    }
    hide Lower, Print;
  }

  /** The first pass collects the texts at any such places. */
  lemma {:induction false} TextsUpTo(blocks: seq<Block>, n: nat, places: seq<nat>)
    requires n <= |blocks| && Listing(places, n, IsWords(blocks))
    ensures ResultTexts(blocks[..n]) == TextsAt(blocks, places)
  {
    if n == 0 {
      assert places == [] && TextsAt(blocks, []) == [];
    } else {
      var last: nat := n - 1;
      assert blocks[..n] == blocks[..last] + [blocks[last]];
      TextsOneMore(blocks[..last], blocks[last]);
      ListingOneLess(places, last, IsWords(blocks));
      hide ResultTexts, TextsAt;
      if Words(blocks[last]) {
        var front := places[..|places| - 1];
        TextsUpTo(blocks, last, front);
        assert places == front + [last];
        TextsAtOneMore(blocks, front, last);
      } else {
        TextsUpTo(blocks, last, places);
      }
    }
  }

  lemma TextsAreThose(blocks: seq<Block>, places: seq<nat>)
    requires TextPlaces(blocks, places)
    ensures ResultTexts(blocks) == TextsAt(blocks, places)
  {
    TextsUpTo(blocks, |blocks|, places);
    assert blocks[..|blocks|] == blocks;
  }

  lemma MediaAtOneMore(blocks: seq<Block>, b: Block)
    ensures MediaAt(blocks + [b]) == MediaAt(blocks) + (if Media(b) then {|blocks|} else {})
    ensures |blocks| !in MediaAt(blocks)
  {
    hide Media;
    forall k: nat | k < |blocks| ensures (blocks + [b])[k] == blocks[k] {}
  }

  lemma {:induction false} MediaAreCounted(blocks: seq<Block>)
    ensures OmittedMedia(blocks) == |MediaAt(blocks)|
  {
    if blocks == [] {
      assert MediaAt(blocks) == {};
    } else {
      var init, last := blocks[..|blocks| - 1], blocks[|blocks| - 1];
      assert blocks == init + [last];
      hide Media, IsMediaBlock, MediaAt, OmittedMedia;
      MediaAreCounted(init);
      MediaOneMore(init, last);
      MediaBlocks(last);
      MediaAtOneMore(init, last);
    }
  }

  /* The text written */

  /** A text within the limit of tool results stands as it is; of a longer one only its size is told. */
  ghost function Limited(text: string): string {
    if |text| <= 8192 then text
    else "[Legacy tool output omitted during migration because it was " + Print(|text|) + " characters.]"
  }

  ghost function Left(media: nat): string {
    "[" + Print(media) + " legacy media attachment(s) omitted during migration.]"
  }

  /**
   * A list is migrated to its non-empty texts, joined with line breaks and limited in size, and a notice that counts
   * exactly its media blocks; to that notice alone if there are no texts; and to its own JSON if there is neither.
   */
  lemma ListText(codec: Codec, blocks: seq<Block>, places: seq<nat>)
    requires TextPlaces(blocks, places)
    ensures var media := |MediaAt(blocks)|;
      ResultText(codec, Blocks(blocks)) ==
        if places != [] then Limited(Join(TextsAt(blocks, places), "\n")) + (if media > 0 then "\n\n" + Left(media) else "")
        else if media > 0 then Left(media)
        else Limited(codec.contentJson(Blocks(blocks)))
  {
    TextsAreThose(blocks, places);
    MediaAreCounted(blocks);
    hide ResultTexts, OmittedMedia, Join, Print, TextPlaces, MediaAt;
  }

  /** A string is limited in size; any other value is migrated to its JSON. */
  lemma OtherText(codec: Codec, content: Content)
    requires !content.Blocks?
    ensures ResultText(codec, content) == Limited(if content.Plain? then content.text else codec.contentJson(content))
  {
  }

  lemma {:induction false} JoinHasText(parts: seq<string>, separator: string)
    requires parts != [] && parts[|parts| - 1] != ""
    ensures Join(parts, separator) != ""
  {
    if |parts| > 1 { JoinHasText(parts[1..], separator); }
  }

  lemma LimitedHasText(text: string)
    ensures Limited(text) == "" <==> text == ""
  {
  }

  lemma NoticeHasText(media: nat)
    ensures Left(media) != ""
  {
  }

  /** Only the empty string is migrated to nothing. */
  lemma ResultHasText(codec: Codec, content: Content)
    requires Sound(codec)
    ensures ResultText(codec, content) == "" <==> content == Plain("")
  {
    hide ResultText, Join, MediaAt, TextsAt, Limited, Left;
    assert codec.contentJson(content) != "";
    hide Sound;
    LimitedHasText(codec.contentJson(content));
    if content.Blocks? {
      var places := SomeListing(|content.blocks|, IsWords(content.blocks));
      NoticeHasText(|MediaAt(content.blocks)|);
      if places != [] {
        PlacedTextsJoin(content.blocks, places);
        LimitedHasText(Join(TextsAt(content.blocks, places), "\n"));
      }
      ListText(codec, content.blocks, places);
    } else {
      OtherText(codec, content);
      if content.Plain? { LimitedHasText(content.text); }
    }
  }

  lemma PlacedTextsJoin(blocks: seq<Block>, places: seq<nat>)
    requires TextPlaces(blocks, places) && places != []
    ensures Join(TextsAt(blocks, places), "\n") != ""
  {
    assert Words(blocks[places[|places| - 1]]);
    JoinHasText(TextsAt(blocks, places), "\n");
  }

  /** Any content but the empty string reads back as the text that was written for it. */
  lemma ResultReadsAsWritten(codec: Codec, content: Content)
    requires Sound(codec) && content != Plain("")
    ensures ResultReadBack(codec, content) == Plain(ResultText(codec, content))
  {
    ResultHasText(codec, content);
    ResultReadsAsText(codec, content);
    hide ResultText, ResultReadBack, Sound;
  }

  function TextBlocks(texts: seq<string>): seq<Block> {
    seq(|texts|, i requires 0 <= i < |texts| => Text(texts[i]))
  }

  lemma AllPlaces(texts: seq<string>) returns (places: seq<nat>)
    requires forall i :: 0 <= i < |texts| ==> texts[i] != ""
    ensures TextPlaces(TextBlocks(texts), places) && TextsAt(TextBlocks(texts), places) == texts
    ensures MediaAt(TextBlocks(texts)) == {}
  {
    places := seq(|texts|, i requires 0 <= i < |texts| => i);
    forall k | 0 <= k < |texts| ensures k in places {
      assert places[k] == k;
    }
  }

  /** A list of non-empty texts within the limit reads back as those texts, joined with line breaks. */
  lemma TextsReadBack(codec: Codec, texts: seq<string>)
    requires Sound(codec) && texts != [] && |Join(texts, "\n")| <= 8192
    requires forall i :: 0 <= i < |texts| ==> texts[i] != ""
    ensures ResultReadBack(codec, Blocks(TextBlocks(texts))) == Plain(Join(texts, "\n"))
  {
    var places := AllPlaces(texts);
    assert TextPlaces(TextBlocks(texts), places);
    hide ResultText, ResultReadBack, Join, TextPlaces, MediaAt, TextBlocks, Sound, TextsAt, Left, Print, Listing;
    ListText(codec, TextBlocks(texts), places);
    ResultReadsAsWritten(codec, Blocks(TextBlocks(texts)));
  }
}
