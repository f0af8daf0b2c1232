/**
 Rendering a canonical request's input list as Anthropic messages, and reading
 such messages back. Rendering splits every item into blocks and groups blocks of
 one role into one message; normalizing cuts the messages up again. What the two
 agree on is the sequence of placed blocks, called atoms here.
 */
module RequestTranslation {
  import opened Wrappers

  datatype Role = User | Assistant

  type Fields = map<string, string>

  datatype Arguments = Object(fields: Fields) | Raw(text: string)

  datatype ContentPart = Text(text: string) | Image(url: Option<string>, mediaType: Option<string>, data: Option<string>)

  datatype Item =
    | Message(role: Role, content: seq<ContentPart>, phase: Option<string>)
    | FunctionCall(id: string, name: string, arguments: Arguments)
    | FunctionCallOutput(callId: string, output: string)

  // ----- Anthropic messages -----

  datatype Source = Base64(mediaType: string, data: string) | Url(url: string)

  datatype Block =
    | TextBlock(text: string)
    | ImageBlock(source: Source)
    | ToolUse(id: string, name: string, input: Fields)
    | ToolResult(toolUseId: string, content: string)

  datatype Turn = Turn(role: Role, blocks: seq<Block>)

  datatype Atom = Atom(role: Role, block: Block)

  // ----- rendering -----

  /** `parse` reads JSON text and answers only with objects. */
  type Parser = string -> Option<Fields>

  function ParseToolArguments(parse: Parser, a: Arguments): Fields {
    if a.Object? then a.fields
    else parse(a.text).GetOr(map["raw" := a.text])
  }

  predicate Present(s: Option<string>) {
    s.Some? && s.value != ""
  }

  function RenderPart(part: ContentPart): Option<Block> {
    match part
    case Text(text) => if text == "" then None else Some(TextBlock(text))
    case Image(url, mediaType, data) =>
      if Present(data) && Present(mediaType) then Some(ImageBlock(Base64(mediaType.value, data.value)))
      else if Present(url) then Some(ImageBlock(Url(url.value)))
      else None
  }

  function RenderContent(content: seq<ContentPart>): seq<Block> {
    if content == [] then []
    else
      var b := RenderPart(content[0]);
      (if b.Some? then [b.value] else []) + RenderContent(content[1..])
  }

  function Placed(role: Role, blocks: seq<Block>): seq<Atom> {
    seq(|blocks|, i requires 0 <= i < |blocks| => Atom(role, blocks[i]))
  }

  /** The blocks of one item, each with the role it is said by. */
  function ItemAtoms(parse: Parser, item: Item): seq<Atom> {
    match item
    case Message(role, content, _) => Placed(role, RenderContent(content))
    case FunctionCall(id, name, arguments) => [Atom(Assistant, ToolUse(id, name, ParseToolArguments(parse, arguments)))]
    case FunctionCallOutput(callId, output) => [Atom(User, ToolResult(callId, output))]
  }

  /** The blocks an input list renders to, independently of how it is cut into items. */
  function Atoms(parse: Parser, items: seq<Item>): seq<Atom> {
    if items == [] then [] else ItemAtoms(parse, items[0]) + Atoms(parse, items[1..])
  }

  function AppendBlock(turns: seq<Turn>, a: Atom): seq<Turn> {
    var n := |turns|;
    if n > 0 && turns[n - 1].role == a.role
    then turns[..n - 1] + [Turn(a.role, turns[n - 1].blocks + [a.block])]
    else turns + [Turn(a.role, [a.block])]
  }

  function AppendBlocks(turns: seq<Turn>, atoms: seq<Atom>): seq<Turn>
    decreases |atoms|
  {
    if atoms == [] then turns else AppendBlocks(AppendBlock(turns, atoms[0]), atoms[1..])
  }

  function Render(parse: Parser, items: seq<Item>): seq<Turn> {
    AppendBlocks([], Atoms(parse, items))
  }

  lemma {:induction false} AppendBlocksAppend(turns: seq<Turn>, a: seq<Atom>, b: seq<Atom>, middle: seq<Turn>)
    requires middle == AppendBlocks(turns, a)
    ensures AppendBlocks(turns, a + b) == AppendBlocks(middle, b)
    decreases |a|
  {
    if a == [] {
      assert a + b == b;
    } else {
      assert (a + b)[1..] == a[1..] + b;
      AppendBlocksAppend(AppendBlock(turns, a[0]), a[1..], b, middle);
    }
  }

  lemma {:induction false} AtomsAppend(parse: Parser, a: seq<Item>, b: seq<Item>)
    ensures Atoms(parse, a + b) == Atoms(parse, a) + Atoms(parse, b)
  {
    if a == [] {
      assert a + b == b;
    } else {
      assert (a + b)[1..] == a[1..] + b;
      AtomsAppend(parse, a[1..], b);
      AppendAssoc(ItemAtoms(parse, a[0]), Atoms(parse, a[1..]), Atoms(parse, b));
    }
  }

  lemma {:induction false} AtomsOne(parse: Parser, item: Item)
    ensures Atoms(parse, [item]) == ItemAtoms(parse, item)
  {
  }

  method RenderTurns(parse: Parser, items: seq<Item>) returns (turns: seq<Turn>)
    ensures turns == Render(parse, items)
  {
    turns := [];
    var i := 0;
    while i < |items|
      invariant 0 <= i <= |items|
      invariant turns == Render(parse, items[..i])
    {
      var atoms := ItemAtoms(parse, items[i]);
      assert items[..i + 1] == items[..i] + [items[i]];
      AtomsAppend(parse, items[..i], [items[i]]);
      AtomsOne(parse, items[i]);
      AppendBlocksAppend([], Atoms(parse, items[..i]), atoms, turns);
      turns := AppendEach(turns, atoms);
      i := i + 1;
    }
    assert items[..i] == items;
  }

  method AppendEach(before: seq<Turn>, atoms: seq<Atom>) returns (turns: seq<Turn>)
    ensures turns == AppendBlocks(before, atoms)
  {
    turns := before;
    var k := 0;
    while k < |atoms|
      invariant 0 <= k <= |atoms|
      invariant AppendBlocks(turns, atoms[k..]) == AppendBlocks(before, atoms)
    {
      turns := AppendBlock(turns, atoms[k]);
      k := k + 1;
    }
  }

  // ----- normalizing -----

  function NormalizeSource(source: Source): ContentPart {
    match source
    case Base64(mediaType, data) => Image(None, Some(mediaType), Some(data))
    case Url(url) => Image(Some(url), None, None)
  }

  /** The text a block stands for where no other rule applies. */
  function BlockText(b: Block): string {
    match b
    case TextBlock(text) => text
    case ToolResult(_, content) => content
    case _ => ""
  }

  datatype Reading = Reading(input: seq<Item>, parts: seq<ContentPart>)

  function Flush(role: Role, r: Reading): Reading {
    if r.parts == [] then r else Reading(r.input + [Message(role, r.parts, None)], [])
  }

  function ReadBlock(callName: nat -> string, role: Role, r: Reading, b: Block): Reading {
    if role == Assistant && b.ToolUse? then
      var f := Flush(role, r);
      var id := if b.id != "" then b.id else callName(|f.input|);
      var name := if b.name != "" then b.name else "tool";
      Reading(f.input + [FunctionCall(id, name, Object(b.input))], [])
    else if role == User && b.ToolResult? then
      var f := Flush(role, r);
      if b.toolUseId == "" then f else Reading(f.input + [FunctionCallOutput(b.toolUseId, b.content)], [])
    else if role == User && b.ImageBlock? then
      Reading(r.input, r.parts + [NormalizeSource(b.source)])
    else if BlockText(b) != "" then
      Reading(r.input, r.parts + [Text(BlockText(b))])
    else r
  }

  function ReadBlocks(callName: nat -> string, role: Role, r: Reading, blocks: seq<Block>): Reading
    decreases |blocks|
  {
    if blocks == [] then r else ReadBlocks(callName, role, ReadBlock(callName, role, r, blocks[0]), blocks[1..])
  }

  function ReadTurns(callName: nat -> string, input: seq<Item>, turns: seq<Turn>): seq<Item>
    decreases |turns|
  {
    if turns == [] then input
    else
      var t := turns[0];
      ReadTurns(callName, Flush(t.role, ReadBlocks(callName, t.role, Reading(input, []), t.blocks)).input, turns[1..])
  }

  /** `callName(n)` is the id made up for an unnamed call when n items precede it. */
  function Normalize(callName: nat -> string, turns: seq<Turn>): seq<Item> {
    ReadTurns(callName, [], turns)
  }

  method AppendContentBlocks(callName: nat -> string, before: seq<Item>, role: Role, blocks: seq<Block>) returns (input: seq<Item>)
    ensures input == Flush(role, ReadBlocks(callName, role, Reading(before, []), blocks)).input
  {
    var r := Reading(before, []);
    var k := 0;
    while k < |blocks|
      invariant 0 <= k <= |blocks|
      invariant ReadBlocks(callName, role, r, blocks[k..]) == ReadBlocks(callName, role, Reading(before, []), blocks)
    {
      r := ReadBlock(callName, role, r, blocks[k]);
      k := k + 1;
    }
    input := Flush(role, r).input;
  }

  method NormalizeTurns(callName: nat -> string, turns: seq<Turn>) returns (input: seq<Item>)
    ensures input == Normalize(callName, turns)
  {
    input := [];
    var k := 0;
    while k < |turns|
      invariant 0 <= k <= |turns|
      invariant ReadTurns(callName, input, turns[k..]) == Normalize(callName, turns)
    {
      input := AppendContentBlocks(callName, input, turns[k].role, turns[k].blocks);
      k := k + 1;
    }
  }

  // ----- rendering groups atoms into alternating turns -----

  function TurnAtoms(turns: seq<Turn>): seq<Atom> {
    if turns == [] then [] else Placed(turns[0].role, turns[0].blocks) + TurnAtoms(turns[1..])
  }

  ghost predicate Alternating(turns: seq<Turn>) {
    && (forall i :: 0 <= i < |turns| ==> turns[i].blocks != [])
    && (forall i :: 0 < i < |turns| ==> turns[i].role != turns[i - 1].role)
  }

  lemma {:induction false} TurnAtomsAppend(a: seq<Turn>, b: seq<Turn>)
    ensures TurnAtoms(a + b) == TurnAtoms(a) + TurnAtoms(b)
  {
    if a == [] {
      assert a + b == b;
    } else {
      assert (a + b)[1..] == a[1..] + b;
      TurnAtomsAppend(a[1..], b);
      AppendAssoc(Placed(a[0].role, a[0].blocks), TurnAtoms(a[1..]), TurnAtoms(b));
    }
  }

  lemma {:induction false} TurnAtomsOne(t: Turn)
    ensures TurnAtoms([t]) == Placed(t.role, t.blocks)
  {
  }

  lemma {:induction false} AppendBlockGroups(turns: seq<Turn>, a: Atom)
    requires Alternating(turns)
    ensures Alternating(AppendBlock(turns, a))
    ensures TurnAtoms(AppendBlock(turns, a)) == TurnAtoms(turns) + [a]
  {
    var n := |turns|;
    if n > 0 && turns[n - 1].role == a.role {
      var last := Turn(a.role, turns[n - 1].blocks + [a.block]);
      assert turns == turns[..n - 1] + [turns[n - 1]];
      TurnAtomsAppend(turns[..n - 1], [turns[n - 1]]);
      TurnAtomsAppend(turns[..n - 1], [last]);
      TurnAtomsOne(turns[n - 1]);
      TurnAtomsOne(last);
      assert Placed(a.role, last.blocks) == Placed(a.role, turns[n - 1].blocks) + [a];
      AppendAssoc(TurnAtoms(turns[..n - 1]), Placed(a.role, turns[n - 1].blocks), [a]);
    } else {
      var last := Turn(a.role, [a.block]);
      TurnAtomsAppend(turns, [last]);
      TurnAtomsOne(last);
      assert Placed(a.role, last.blocks) == [a];
    }
  }

  lemma {:induction false} AppendBlocksGroups(turns: seq<Turn>, atoms: seq<Atom>)
    requires Alternating(turns)
    ensures Alternating(AppendBlocks(turns, atoms))
    ensures TurnAtoms(AppendBlocks(turns, atoms)) == TurnAtoms(turns) + atoms
    decreases |atoms|
  {
    if atoms == [] {
      assert TurnAtoms(turns) + [] == TurnAtoms(turns);
    } else {
      AppendBlockGroups(turns, atoms[0]);
      AppendBlocksGroups(AppendBlock(turns, atoms[0]), atoms[1..]);
      MoveHead(TurnAtoms(turns), atoms);
    }
  }

  /** Every rendered request alternates strictly, has no empty turn, and has the
      blocks of the items in order. */
  lemma {:induction false} RenderedTurnsAlternate(parse: Parser, items: seq<Item>)
    ensures Alternating(Render(parse, items))
    ensures TurnAtoms(Render(parse, items)) == Atoms(parse, items)
  {
    AppendBlocksGroups([], Atoms(parse, items));
    assert [] + Atoms(parse, items) == Atoms(parse, items);
  }

  /** There is only one way to say a sequence of atoms in alternating turns. */
  lemma {:induction false} GroupingIsUnique(a: seq<Turn>, b: seq<Turn>)
    requires Alternating(a) && Alternating(b) && TurnAtoms(a) == TurnAtoms(b)
    ensures a == b
    decreases |a|
  {
    if a == [] || b == [] {
      EmptyTurns(a);
      EmptyTurns(b);
    } else {
      FirstTurn(a);
      FirstTurn(b);
      var x, y := Placed(a[0].role, a[0].blocks), Placed(b[0].role, b[0].blocks);
      var all := TurnAtoms(a);
      assert all == x + TurnAtoms(a[1..]) == y + TurnAtoms(b[1..]);
      assert all[0].role == a[0].role == b[0].role;
      assert x == all[..|x|] == y;
      assert forall i :: 0 <= i < |x| ==> x[i].block == a[0].blocks[i] && y[i].block == b[0].blocks[i];
      assert a[0].blocks == b[0].blocks;
      assert a[0].role == x[0].role;
      assert TurnAtoms(a[1..]) == all[|x|..] == TurnAtoms(b[1..]);
      GroupingIsUnique(a[1..], b[1..]);
      assert a == [a[0]] + a[1..];
      assert b == [b[0]] + b[1..];
    }
  }

  lemma {:induction false} EmptyTurns(a: seq<Turn>)
    requires Alternating(a)
    ensures a == [] <==> TurnAtoms(a) == []
  {
  }

  /** The first turn is as long as its role lasts. */
  lemma {:induction false} FirstTurn(a: seq<Turn>)
    requires a != [] && Alternating(a)
    ensures var n, s := |a[0].blocks|, TurnAtoms(a);
      && 0 < n <= |s|
      && (forall i :: 0 <= i < n ==> s[i].role == a[0].role)
      && (n < |s| ==> s[n].role != a[0].role)
      && Alternating(a[1..])
  {
  }

  // ----- what each item renders to -----

  /** The fields a call is rendered with: those it has; else those its text parses to;
      else the text itself, under "raw". */
  ghost predicate ReadsAs(parse: Parser, arguments: Arguments, fields: Fields) {
    && (arguments.Object? ==> fields == arguments.fields)
    && (arguments.Raw? && parse(arguments.text).Some? ==> fields == parse(arguments.text).value)
    && (arguments.Raw? && parse(arguments.text).None? ==> fields == map["raw" := arguments.text])
  }

  /** In every list, a call is rendered as one tool use of the assistant, and a result as
      one tool result of the user, behind the blocks of the items before it. */
  lemma {:induction false} CallRenders(parse: Parser, items: seq<Item>, k: nat, fields: Fields)
    requires k < |items| && !items[k].Message?
    requires items[k].FunctionCall? ==> ReadsAs(parse, items[k].arguments, fields)
    ensures var atoms, n := TurnAtoms(Render(parse, items)), |Atoms(parse, items[..k])|;
      && n < |atoms|
      && (items[k].FunctionCall? ==> atoms[n] == Atom(Assistant, ToolUse(items[k].id, items[k].name, fields)))
      && (items[k].FunctionCallOutput? ==> atoms[n] == Atom(User, ToolResult(items[k].callId, items[k].output)))
  {
    RenderedTurnsAlternate(parse, items);
    AtomsAround(parse, items, k);
    var a, b, c := Atoms(parse, items[..k]), ItemAtoms(parse, items[k]), Atoms(parse, items[k + 1..]);
    assert |b| == 1 && (a + (b + c))[|a|] == b[0];
  }

  lemma {:induction false} AtomsAround(parse: Parser, items: seq<Item>, k: nat)
    requires k < |items|
    ensures Atoms(parse, items) == Atoms(parse, items[..k]) + (ItemAtoms(parse, items[k]) + Atoms(parse, items[k + 1..]))
  {
    assert items == items[..k] + items[k..];
    AtomsAppend(parse, items[..k], items[k..]);
    assert items[k..][1..] == items[k + 1..];
  }

  /** A text renders as itself, unless it is empty; an image by its data, or else by its
      url, or not at all. */
  lemma {:induction false} PartRenders(part: ContentPart)
    ensures part.Text? ==> RenderPart(part) == if part.text == "" then None else Some(TextBlock(part.text))
    ensures part.Image? && part.data.Some? && part.data.value != "" && part.mediaType.Some? && part.mediaType.value != "" ==>
      RenderPart(part) == Some(ImageBlock(Base64(part.mediaType.value, part.data.value)))
    ensures part.Image? && !(part.data.Some? && part.data.value != "" && part.mediaType.Some? && part.mediaType.value != "") ==>
      RenderPart(part) == if part.url.Some? && part.url.value != "" then Some(ImageBlock(Url(part.url.value))) else None
  {
  }
}
