/** Conversion of legacy chat blocks into Pi log blocks (internal/app/pi_session_migration.go). */
module PiConversion {
  import opened Text
  import opened ChatBlocks

  const MAX_TOOL_RESULT_CHARS: nat := 8192
  const MAX_ARGUMENT_STRING_CHARS: nat := 2048
  const MAX_ARGUMENT_JSON_BYTES: nat := 32768
  const MAX_TEXT_BLOCK_CHARS: nat := 4096
  const MAX_ARGUMENT_DEPTH: nat := 12

  const NESTED_OMITTED := "[Legacy nested value omitted during migration.]"
  const MEDIA_DATA_OMITTED := "[Legacy media data omitted during migration.]"
  const MEDIA_OMITTED := "[Legacy media attachment omitted during migration.]"

  function TrimTextBlock(text: string): string {
    if |text| <= MAX_TEXT_BLOCK_CHARS then text
    else
      var half := MAX_TEXT_BLOCK_CHARS / 2;
      TrimSpace(text[..half])
      + "\n\n[Legacy text block truncated during migration: omitted " + Print(|text| - half - half) + " characters.]\n\n"
      + TrimSpace(text[|text| - half..])
  }

  function TrimToolResultText(text: string): string {
    if |text| <= MAX_TOOL_RESULT_CHARS then text
    else "[Legacy tool output omitted during migration because it was " + Print(|text|) + " characters.]"
  }

  function MediaOmittedText(kind: string): string {
    "[Legacy " + (if kind == "" then "media" else kind) + " attachment omitted during migration.]"
  }

  predicate MediaKind(kind: string, hasSource: bool) {
    var lower := Lower(kind);
    || lower in {"image", "input_image", "screenshot", "document", "audio", "video", "file"}
    || (hasSource && Contains(lower, "image"))
  }

  predicate IsMediaBlock(b: Block) {
    b.Other? && MediaKind(b.kind, b.hasSource)
  }

  /* Tool arguments */

  function FieldString(fields: seq<Field>, key: string): string {
    if fields == [] then ""
    else if fields[0].key == key && fields[0].value.String? then fields[0].value.s
    else FieldString(fields[1..], key)
  }

  predicate IsMediaJson(v: Json) {
    v.Object? && MediaKind(FieldString(v.fields, "type"), exists i :: 0 <= i < |v.fields| && v.fields[i].key == "source")
  }

  predicate MediaKey(key: string) {
    Lower(key) in {"source", "data", "base64", "image", "image_url"}
  }

  function OmittedString(s: string): string {
    "[Legacy string omitted during migration because it was " + Print(|s|) + " characters.]"
  }

  function Sanitize(v: Json, depth: nat): Json {
    if depth > MAX_ARGUMENT_DEPTH then String(NESTED_OMITTED)
    else
      match v
      case Object(fields) =>
        Object(seq(|fields|, i requires 0 <= i < |fields| =>
          Field(fields[i].key,
                if MediaKey(fields[i].key) then String(MEDIA_DATA_OMITTED) else Sanitize(fields[i].value, depth + 1))))
      case Array(items) =>
        Array(seq(|items|, i requires 0 <= i < |items| =>
          if IsMediaJson(items[i]) then String(MEDIA_OMITTED) else Sanitize(items[i], depth + 1)))
      case String(s) => if |s| <= MAX_ARGUMENT_STRING_CHARS then v else String(OmittedString(s))
      case _ => v
  }

  /** Arguments that the sanitizer has nothing to remove from. */
  predicate Kept(v: Json, depth: nat) {
    if depth > MAX_ARGUMENT_DEPTH then v == String(NESTED_OMITTED)
    else
      match v
      case Object(fields) =>
        forall i :: 0 <= i < |fields| ==>
          if MediaKey(fields[i].key) then fields[i].value == String(MEDIA_DATA_OMITTED)
          else Kept(fields[i].value, depth + 1)
      case Array(items) => forall i :: 0 <= i < |items| ==> !IsMediaJson(items[i]) && Kept(items[i], depth + 1)
      case String(s) => |s| <= MAX_ARGUMENT_STRING_CHARS
      case _ => true
  }

  lemma {:induction false} PrintIsShort(n: nat)
    ensures |Print(n)| <= 1 + n / 10
  {
    if n >= 10 { PrintIsShort(n / 10); }
  }

  lemma OmittedStringDiffers(s: string)
    requires |s| > MAX_ARGUMENT_STRING_CHARS
    ensures OmittedString(s) != s
  {
    PrintIsShort(|s|);
  }

  /** A value passes the sanitizer unchanged exactly when there is nothing in it to remove. */
  lemma {:induction false} SanitizeKeeps(v: Json, depth: nat)
    ensures Sanitize(v, depth) == v <==> Kept(v, depth)
  {
    if depth <= MAX_ARGUMENT_DEPTH {
      match v
      case Object(fields) =>
        var out := Sanitize(v, depth).fields;
        forall i | 0 <= i < |fields|
          ensures out[i] == fields[i] <==>
            if MediaKey(fields[i].key) then fields[i].value == String(MEDIA_DATA_OMITTED)
            else Kept(fields[i].value, depth + 1)
        {
          SanitizeKeeps(fields[i].value, depth + 1);
        }
        assert out == fields <==> forall i :: 0 <= i < |fields| ==> out[i] == fields[i];
      case Array(items) =>
        var out := Sanitize(v, depth).items;
        forall i | 0 <= i < |items|
          ensures out[i] == items[i] <==> !IsMediaJson(items[i]) && Kept(items[i], depth + 1)
        {
          SanitizeKeeps(items[i], depth + 1);
        }
        assert out == items <==> forall i :: 0 <= i < |items| ==> out[i] == items[i];
      case String(s) =>
        if |s| > MAX_ARGUMENT_STRING_CHARS { OmittedStringDiffers(s); }
      case _ =>
    }
  }

  /** The size in the notice is that of the sanitized value. */
  function ToolArguments(codec: Codec, input: Json): Json {
    var arguments := if input.Object? then input else Object([]);
    var sanitized := Sanitize(arguments, 0);
    var bytes := codec.argumentBytes(sanitized);
    if bytes <= MAX_ARGUMENT_JSON_BYTES then sanitized
    else Object([Field("legacy_arguments_omitted",
      String("Tool arguments omitted during migration because they were " + Print(bytes) + " bytes after media/string trimming."))])
  }

  /* Content */

  function ConvertBlock(codec: Codec, b: Block): seq<PiBlock> {
    match b
    case Text(text) => if text != "" then [PiText(TrimTextBlock(text))] else []
    case Thinking(thinking, signature) =>
      if thinking != "" then [PiThinking(TrimTextBlock(thinking), signature)] else []
    case ToolUse(id, name, input) =>
      if id == "" || name == "" then [] else [PiToolCall(id, name, ToolArguments(codec, input))]
    case Other(kind, _, _) =>
      if kind in {"image", "input_image", "screenshot", "document"} then [PiText(MediaOmittedText(kind))] else []
    case _ => []
  }

  /** A list with its tool results left out, converted block by block. */
  function ConvertBlocks(codec: Codec, blocks: seq<Block>): seq<PiBlock> {
    if blocks == [] then []
    else
      var last := blocks[|blocks| - 1];
      ConvertBlocks(codec, blocks[..|blocks| - 1]) + if last.ToolResult? then [] else ConvertBlock(codec, last)
  }

  function ConvertContent(codec: Codec, content: Content): seq<PiBlock> {
    match content
    case Plain(text) => if TrimSpace(text) == "" then [] else [PiText(TrimTextBlock(text))]
    case Blocks(blocks) => ConvertBlocks(codec, blocks)
    case Value(_) => []
  }

  function ResultTexts(blocks: seq<Block>): seq<string> {
    if blocks == [] then []
    else
      (if !IsMediaBlock(blocks[0]) && blocks[0].Text? && blocks[0].text != "" then [blocks[0].text] else [])
      + ResultTexts(blocks[1..])
  }

  function OmittedMedia(blocks: seq<Block>): nat {
    if blocks == [] then 0 else (if IsMediaBlock(blocks[0]) then 1 else 0) + OmittedMedia(blocks[1..])
  }

  function MediaNotice(count: nat): string {
    "[" + Print(count) + " legacy media attachment(s) omitted during migration.]"
  }

  /** The text a tool result is migrated to; there is always exactly one text block. */
  function ResultText(codec: Codec, content: Content): string {
    match content
    case Plain(text) => TrimToolResultText(text)
    case Blocks(blocks) =>
      var texts, media := ResultTexts(blocks), OmittedMedia(blocks);
      if |texts| > 0 then
        TrimToolResultText(Join(texts, "\n")) + if media > 0 then "\n\n" + MediaNotice(media) else ""
      else if media > 0 then MediaNotice(media)
      else TrimToolResultText(codec.contentJson(content))
    case Value(_) => TrimToolResultText(codec.contentJson(content))
  }

  function OrphanPrefix(toolUseId: string): string {
    if TrimSpace(toolUseId) != "" then "Legacy tool result for unmatched tool call " + toolUseId
    else "Legacy tool result"
  }

  function OrphanText(codec: Codec, toolUseId: string, content: Content): string {
    OrphanPrefix(toolUseId) + ":\n" + ResultText(codec, content)
  }

  function OrphanContent(codec: Codec, toolUseId: string, content: Content): seq<PiBlock> {
    [PiText(OrphanText(codec, toolUseId, content))]
  }

  function StopReason(blocks: seq<PiBlock>): string {
    if exists i :: 0 <= i < |blocks| && blocks[i].PiToolCall? then "toolUse" else "stop"
  }
}
