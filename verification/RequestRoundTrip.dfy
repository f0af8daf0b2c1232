/**
 What rendering and normalizing a request makes of its input list: which lists come
 back as they were, up to empty content and adjacent messages that are coalesced,
 and which at least say the same blocks.
 */
module RequestRoundTrip {
  import opened Wrappers
  import opened RequestTranslation

  // ----- the input list with empty content dropped and messages coalesced -----

  /** A part as it comes back: an image keeps only the form that was rendered. */
  function BlockPart(b: Block): ContentPart
    requires b.TextBlock? || b.ImageBlock?
  {
    if b.TextBlock? then Text(b.text) else NormalizeSource(b.source)
  }

  /** The parts that render to something, in the form they come back in. */
  function CleanContent(content: seq<ContentPart>): seq<ContentPart> {
    if content == [] then []
    else
      var b := RenderPart(content[0]);
      (if b.Some? then [BlockPart(b.value)] else []) + CleanContent(content[1..])
  }

  /** Drop empty parts and messages, phases, and the textual form of arguments. */
  function Clean(parse: Parser, items: seq<Item>): seq<Item> {
    if items == [] then []
    else
      var rest := Clean(parse, items[1..]);
      match items[0]
      case Message(role, content, _) =>
        if CleanContent(content) == [] then rest else [Message(role, CleanContent(content), None)] + rest
      case FunctionCall(id, name, arguments) => [FunctionCall(id, name, Object(ParseToolArguments(parse, arguments)))] + rest
      case FunctionCallOutput(_, _) => [items[0]] + rest
  }

  /** Append an item, merging it into the last one when both are messages of one role. */
  function Join(items: seq<Item>, item: Item): seq<Item> {
    var n := |items|;
    if n > 0 && item.Message? && items[n - 1].Message? && items[n - 1].role == item.role
    then items[..n - 1] + [items[n - 1].(content := items[n - 1].content + item.content)]
    else items + [item]
  }

  function JoinAll(acc: seq<Item>, items: seq<Item>): seq<Item>
    decreases |items|
  {
    if items == [] then acc else JoinAll(Join(acc, items[0]), items[1..])
  }

  function Coalesce(items: seq<Item>): seq<Item> {
    JoinAll([], items)
  }

  /** Atoms that Anthropic messages can carry: named calls, named results, and
      images said by the user. */
  predicate FaithfulAtom(a: Atom) {
    match a.block
    case TextBlock(text) => text != ""
    case ImageBlock(_) => a.role == User
    case ToolUse(id, name, _) => a.role == Assistant && id != "" && name != ""
    case ToolResult(id, _) => a.role == User && id != ""
  }

  predicate FaithfulItem(item: Item) {
    match item
    case Message(role, content, _) =>
      role == Assistant ==> forall i :: 0 <= i < |content| && content[i].Image? ==> RenderPart(content[i]).None?
    case FunctionCall(id, name, _) => id != "" && name != ""
    case FunctionCallOutput(callId, _) => callId != ""
  }

  /** Every call and result has a name, and no usable image is in an assistant turn. */
  predicate Faithful(items: seq<Item>) {
    forall i :: 0 <= i < |items| ==> FaithfulItem(items[i])
  }

  ghost predicate FaithfulAtoms(s: seq<Atom>) {
    forall i :: 0 <= i < |s| ==> FaithfulAtom(s[i])
  }

  lemma {:induction false} RenderedContentFaithful(role: Role, content: seq<ContentPart>)
    ensures FaithfulAtoms(Placed(role, RenderContent(content))) <==>
      (role == Assistant ==> forall i :: 0 <= i < |content| && content[i].Image? ==> RenderPart(content[i]).None?)
    ensures forall i :: 0 <= i < |RenderContent(content)| ==> RenderContent(content)[i].TextBlock? || RenderContent(content)[i].ImageBlock?
  {
    if content != [] {
      RenderedContentFaithful(role, content[1..]);
      var b, rest := RenderPart(content[0]), RenderContent(content[1..]);
      var head := if b.Some? then [b.value] else [];
      assert Placed(role, head + rest) == Placed(role, head) + Placed(role, rest);
      FaithfulAppend(Placed(role, head), Placed(role, rest));
      assert FaithfulAtoms(Placed(role, head)) <==> (b.Some? ==> FaithfulAtom(Atom(role, b.value))) by {
        if b.Some? {
          assert Placed(role, head)[0] == Atom(role, b.value);
        }
      }
      assert content == [content[0]] + content[1..];
    }
  }

  lemma {:induction false} FaithfulAppend(a: seq<Atom>, b: seq<Atom>)
    ensures FaithfulAtoms(a + b) <==> FaithfulAtoms(a) && FaithfulAtoms(b)
  {
    if FaithfulAtoms(a + b) {
      forall i | 0 <= i < |a| ensures FaithfulAtom(a[i]) {
        assert (a + b)[i] == a[i];
      }
      forall i | 0 <= i < |b| ensures FaithfulAtom(b[i]) {
        assert (a + b)[|a| + i] == b[i];
      }
    }
  }

  lemma {:induction false} ItemFaithful(parse: Parser, item: Item)
    ensures FaithfulItem(item) <==> FaithfulAtoms(ItemAtoms(parse, item))
  {
    match item
    case Message(role, content, _) => RenderedContentFaithful(role, content);
    case _ => assert |ItemAtoms(parse, item)| == 1 && ItemAtoms(parse, item)[0] == ItemAtoms(parse, item)[0];
  }

  lemma {:induction false} FaithfulIffAtoms(parse: Parser, items: seq<Item>)
    ensures Faithful(items) <==> FaithfulAtoms(Atoms(parse, items))
  {
    if items != [] {
      ItemFaithful(parse, items[0]);
      FaithfulIffAtoms(parse, items[1..]);
      FaithfulAppend(ItemAtoms(parse, items[0]), Atoms(parse, items[1..]));
      assert items == [items[0]] + items[1..];
    }
  }

  // ----- reading back what was rendered -----

  /** The item one atom makes on its own. */
  function AtomItem(a: Atom): Item {
    match a.block
    case ToolUse(id, name, input) => FunctionCall(id, name, Object(input))
    case ToolResult(id, content) => FunctionCallOutput(id, content)
    case _ => Message(a.role, [BlockPart(a.block)], None)
  }

  /** The items of a sequence of atoms, messages as long as they can be. */
  function Regroup(acc: seq<Item>, atoms: seq<Atom>): seq<Item>
    decreases |atoms|
  {
    if atoms == [] then acc else Regroup(Join(acc, AtomItem(atoms[0])), atoms[1..])
  }

  lemma {:induction false} RegroupAppend(acc: seq<Item>, a: seq<Atom>, b: seq<Atom>)
    ensures Regroup(acc, a + b) == Regroup(Regroup(acc, a), b)
    decreases |a|
  {
    if a == [] {
      assert a + b == b;
    } else {
      assert (a + b)[1..] == a[1..] + b;
      RegroupAppend(Join(acc, AtomItem(a[0])), a[1..], b);
    }
  }

  /** The last item is no message of this role, so nothing joins it. */
  ghost predicate Closed(items: seq<Item>, role: Role) {
    items != [] && items[|items| - 1].Message? ==> items[|items| - 1].role != role
  }

  /** What a reading amounts to once its pending parts are flushed. */
  function Whole(role: Role, r: Reading): seq<Item> {
    Flush(role, r).input
  }

  lemma {:induction false} ReadBlockJoins(callName: nat -> string, role: Role, r: Reading, b: Block)
    requires Closed(r.input, role) && FaithfulAtom(Atom(role, b))
    ensures var z := ReadBlock(callName, role, r, b);
      Closed(z.input, role) && Whole(role, z) == Join(Whole(role, r), AtomItem(Atom(role, b)))
  {
    if b.TextBlock? || b.ImageBlock? {
      var part := BlockPart(b);
      assert ReadBlock(callName, role, r, b) == Reading(r.input, r.parts + [part]);
      if r.parts == [] {
        assert [] + [part] == [part];
      } else {
        var w := Whole(role, r);
        assert w[..|w| - 1] == r.input;
      }
    }
  }

  lemma {:induction false} ReadBlocksJoin(callName: nat -> string, role: Role, r: Reading, blocks: seq<Block>)
    requires Closed(r.input, role) && FaithfulAtoms(Placed(role, blocks))
    ensures var z := ReadBlocks(callName, role, r, blocks);
      Closed(z.input, role) && Whole(role, z) == Regroup(Whole(role, r), Placed(role, blocks))
    decreases |blocks|
  {
    if blocks != [] {
      assert Placed(role, blocks)[0] == Atom(role, blocks[0]);
      ReadBlockJoins(callName, role, r, blocks[0]);
      assert Placed(role, blocks)[1..] == Placed(role, blocks[1..]);
      assert Placed(role, blocks) == [Atom(role, blocks[0])] + Placed(role, blocks[1..]);
      FaithfulAppend([Atom(role, blocks[0])], Placed(role, blocks[1..]));
      ReadBlocksJoin(callName, role, ReadBlock(callName, role, r, blocks[0]), blocks[1..]);
    }
  }

  function Other(role: Role): Role {
    if role == User then Assistant else User
  }

  lemma {:induction false} JoinCloses(acc: seq<Item>, a: Atom)
    ensures Closed(Join(acc, AtomItem(a)), Other(a.role))
  {
  }

  /** After at least one atom of a role, nothing of the other role joins. */
  lemma {:induction false} RegroupCloses(acc: seq<Item>, role: Role, blocks: seq<Block>)
    requires blocks != []
    ensures Closed(Regroup(acc, Placed(role, blocks)), Other(role))
  {
    var n := |blocks| - 1;
    assert Placed(role, blocks) == Placed(role, blocks[..n]) + [Atom(role, blocks[n])];
    RegroupAppend(acc, Placed(role, blocks[..n]), [Atom(role, blocks[n])]);
    RegroupOne(Regroup(acc, Placed(role, blocks[..n])), Atom(role, blocks[n]));
    JoinCloses(Regroup(acc, Placed(role, blocks[..n])), Atom(role, blocks[n]));
  }

  lemma {:induction false} RegroupOne(acc: seq<Item>, a: Atom)
    ensures Regroup(acc, [a]) == Join(acc, AtomItem(a))
  {
  }

  lemma {:induction false} ReadTurnsRegroup(callName: nat -> string, input: seq<Item>, turns: seq<Turn>)
    requires Alternating(turns) && FaithfulAtoms(TurnAtoms(turns))
    requires turns != [] ==> Closed(input, turns[0].role)
    ensures ReadTurns(callName, input, turns) == Regroup(input, TurnAtoms(turns))
    decreases |turns|
  {
    if turns != [] {
      var t, rest := turns[0], turns[1..];
      var mine := Placed(t.role, t.blocks);
      FirstTurn(turns);
      FaithfulAppend(mine, TurnAtoms(rest));
      ReadBlocksJoin(callName, t.role, Reading(input, []), t.blocks);
      var next := Whole(t.role, ReadBlocks(callName, t.role, Reading(input, []), t.blocks));
      RegroupCloses(input, t.role, t.blocks);
      assert rest != [] ==> rest[0] == turns[1] && rest[0].role == Other(t.role);
      ReadTurnsRegroup(callName, next, rest);
      RegroupAppend(input, mine, TurnAtoms(rest));
    }
  }

  // ----- regrouping atoms is cleaning and coalescing items -----

  function BlockParts(blocks: seq<Block>): seq<ContentPart>
    requires forall i :: 0 <= i < |blocks| ==> blocks[i].TextBlock? || blocks[i].ImageBlock?
  {
    seq(|blocks|, i requires 0 <= i < |blocks| => BlockPart(blocks[i]))
  }

  lemma {:induction false} JoinTwice(acc: seq<Item>, role: Role, p: seq<ContentPart>, q: seq<ContentPart>)
    ensures Join(Join(acc, Message(role, p, None)), Message(role, q, None)) == Join(acc, Message(role, p + q, None))
  {
    var n := |acc|;
    if n > 0 && acc[n - 1].Message? && acc[n - 1].role == role {
      var j := Join(acc, Message(role, p, None));
      assert j[..|j| - 1] == acc[..n - 1];
      AppendAssoc(acc[n - 1].content, p, q);
    } else {
      var j := Join(acc, Message(role, p, None));
      assert j[..|j| - 1] == acc;
    }
  }

  lemma {:induction false} RegroupMessage(acc: seq<Item>, role: Role, blocks: seq<Block>)
    requires blocks != [] && forall i :: 0 <= i < |blocks| ==> blocks[i].TextBlock? || blocks[i].ImageBlock?
    ensures Regroup(acc, Placed(role, blocks)) == Join(acc, Message(role, BlockParts(blocks), None))
    decreases |blocks|
  {
    var n := |blocks| - 1;
    var last := Atom(role, blocks[n]);
    assert Placed(role, blocks) == Placed(role, blocks[..n]) + [last];
    assert BlockParts(blocks) == BlockParts(blocks[..n]) + [BlockPart(blocks[n])];
    RegroupAppend(acc, Placed(role, blocks[..n]), [last]);
    RegroupOne(Regroup(acc, Placed(role, blocks[..n])), last);
    if n > 0 {
      RegroupMessage(acc, role, blocks[..n]);
      JoinTwice(acc, role, BlockParts(blocks[..n]), [BlockPart(blocks[n])]);
    } else {
      assert BlockParts(blocks) == [BlockPart(blocks[0])];
      assert Placed(role, blocks[..0]) == [];
    }
  }

  lemma {:induction false} CleanContentIs(content: seq<ContentPart>)
    ensures forall i :: 0 <= i < |RenderContent(content)| ==> RenderContent(content)[i].TextBlock? || RenderContent(content)[i].ImageBlock?
    ensures CleanContent(content) == BlockParts(RenderContent(content))
  {
    if content != [] {
      CleanContentIs(content[1..]);
    }
  }

  lemma {:induction false} RegroupIsCoalesce(parse: Parser, acc: seq<Item>, items: seq<Item>)
    ensures Regroup(acc, Atoms(parse, items)) == JoinAll(acc, Clean(parse, items))
    decreases |items|
  {
    if items != [] {
      var mine, rest := ItemAtoms(parse, items[0]), items[1..];
      RegroupAppend(acc, mine, Atoms(parse, rest));
      RegroupIsCoalesce(parse, Regroup(acc, mine), rest);
      match items[0]
      case Message(role, content, _) =>
        CleanContentIs(content);
        if RenderContent(content) != [] {
          RegroupMessage(acc, role, RenderContent(content));
          JoinAllCons(acc, Message(role, CleanContent(content), None), Clean(parse, rest));
        } else {
          assert mine == [];
        }
      case FunctionCall(id, name, arguments) =>
        RegroupOne(acc, mine[0]);
        JoinAllCons(acc, AtomItem(mine[0]), Clean(parse, rest));
      case FunctionCallOutput(_, _) =>
        RegroupOne(acc, mine[0]);
        JoinAllCons(acc, AtomItem(mine[0]), Clean(parse, rest));
    }
  }

  lemma {:induction false} JoinAllCons(acc: seq<Item>, item: Item, rest: seq<Item>)
    ensures JoinAll(acc, [item] + rest) == JoinAll(Join(acc, item), rest)
  {
  }

  /** The round trip of a faithful list: empty content, phases, the textual form of
      arguments and the second form of an image are dropped, and adjacent messages of
      one role coalesce. */
  lemma {:induction false} RoundTrip(parse: Parser, callName: nat -> string, items: seq<Item>)
    requires Faithful(items)
    ensures Normalize(callName, Render(parse, items)) == Coalesce(Clean(parse, items))
  {
    RenderedTurnsAlternate(parse, items);
    FaithfulIffAtoms(parse, items);
    ReadTurnsRegroup(callName, [], Render(parse, items));
    RegroupIsCoalesce(parse, [], items);
  }

  // ----- calls and results come back between the rest -----

  /** Behind an item that is no message, nothing is merged into what came before. */
  lemma {:induction false} JoinAllBehind(acc: seq<Item>, item: Item, items: seq<Item>)
    requires !item.Message?
    ensures JoinAll(acc + [item], items) == (acc + [item]) + JoinAll([], items)
  {
    JoinAllFrom(acc + [item], [], items);
    AppendEmpty(acc + [item]);
  }

  lemma {:induction false} JoinAllFrom(acc: seq<Item>, more: seq<Item>, items: seq<Item>)
    requires acc != [] && !acc[|acc| - 1].Message?
    ensures JoinAll(acc + more, items) == acc + JoinAll(more, items)
    decreases |items|
  {
    if items != [] {
      var n, item := |more|, items[0];
      if n > 0 && item.Message? && more[n - 1].Message? && more[n - 1].role == item.role {
        assert (acc + more)[..|acc + more| - 1] == acc + more[..n - 1];
        AppendAssoc(acc, more[..n - 1], [more[n - 1].(content := more[n - 1].content + item.content)]);
      } else {
        AppendAssoc(acc, more, [item]);
      }
      assert Join(acc + more, item) == acc + Join(more, item);
      JoinAllFrom(acc, Join(more, item), items[1..]);
    }
  }

  lemma {:induction false} CleanAppend(parse: Parser, a: seq<Item>, b: seq<Item>)
    ensures Clean(parse, a + b) == Clean(parse, a) + Clean(parse, b)
  {
    if a == [] {
      assert a + b == b;
    } else {
      assert (a + b)[1..] == a[1..] + b;
      CleanAppend(parse, a[1..], b);
      assert (a + b)[0] == a[0];
      if |Clean(parse, a)| > |Clean(parse, a[1..])| {
        AppendAssoc([Clean(parse, a)[0]], Clean(parse, a[1..]), Clean(parse, b));
      }
    }
  }

  lemma {:induction false} JoinAllAppend(acc: seq<Item>, a: seq<Item>, b: seq<Item>)
    ensures JoinAll(acc, a + b) == JoinAll(JoinAll(acc, a), b)
    decreases |a|
  {
    if a == [] {
      assert a + b == b;
    } else {
      assert (a + b)[1..] == a[1..] + b;
      JoinAllAppend(Join(acc, a[0]), a[1..], b);
    }
  }

  /** What a call or a result comes back as: arguments given as text come back as the
      object they parse to, or with the text under "raw". */
  ghost predicate ComesBackAs(parse: Parser, item: Item, back: Item) {
    && (item.FunctionCall? ==>
          back.FunctionCall? && back.id == item.id && back.name == item.name && back.arguments.Object?
          && ReadsAs(parse, item.arguments, back.arguments.fields))
    && (item.FunctionCallOutput? ==> back == item)
  }

  /** In a faithful list a call or a result comes back in its place, between what comes
      back of the items before it and of those behind it. */
  lemma {:induction false} CallComesBack(parse: Parser, callName: nat -> string, before: seq<Item>, item: Item, after: seq<Item>, back: Item)
    requires Faithful(before) && Faithful(after) && FaithfulItem(item)
    requires !item.Message? && ComesBackAs(parse, item, back)
    ensures Normalize(callName, Render(parse, before + ([item] + after)))
         == Normalize(callName, Render(parse, before)) + [back] + Normalize(callName, Render(parse, after))
  {
    var items := before + ([item] + after);
    RoundTrip(parse, callName, items);
    RoundTrip(parse, callName, before);
    RoundTrip(parse, callName, after);
    CleanAppend(parse, before, [item] + after);
    assert ([item] + after)[1..] == after;
    assert Clean(parse, [item] + after) == [back] + Clean(parse, after);
    JoinAllAppend([], Clean(parse, before), [back] + Clean(parse, after));
    JoinAllCons(Coalesce(Clean(parse, before)), back, Clean(parse, after));
    JoinAllBehind(Coalesce(Clean(parse, before)), back, Clean(parse, after));
  }

  // ----- lists that lose nothing but empty content -----

  /** The parts that render to something, as they are. */
  function KeepUsable(content: seq<ContentPart>): seq<ContentPart> {
    if content == [] then []
    else (if RenderPart(content[0]).Some? then [content[0]] else []) + KeepUsable(content[1..])
  }

  /** An item without its empty content; nothing of a message that is left empty. */
  function Kept(item: Item): seq<Item> {
    if !item.Message? then [item]
    else if KeepUsable(item.content) == [] then []
    else [item.(content := KeepUsable(item.content))]
  }

  /** Drop empty texts, unusable images, and messages left without content. */
  function DropEmpty(items: seq<Item>): seq<Item> {
    if items == [] then [] else Kept(items[0]) + DropEmpty(items[1..])
  }

  /** Append an item, merging it into the last one when both are messages of one role
      and one phase. */
  function JoinAlike(items: seq<Item>, item: Item): seq<Item> {
    var n := |items|;
    if n > 0 && item.Message? && items[n - 1].Message? && items[n - 1].role == item.role && items[n - 1].phase == item.phase
    then items[..n - 1] + [items[n - 1].(content := items[n - 1].content + item.content)]
    else items + [item]
  }

  function JoinAllAlike(acc: seq<Item>, items: seq<Item>): seq<Item>
    decreases |items|
  {
    if items == [] then acc else JoinAllAlike(JoinAlike(acc, items[0]), items[1..])
  }

  /** A part comes back as it was if it is empty, a text, or an image in one form
      that the user says. */
  predicate LosslessPart(role: Role, part: ContentPart) {
    RenderPart(part).Some? ==> part == BlockPart(RenderPart(part).value) && (part.Image? ==> role == User)
  }

  predicate LosslessItem(item: Item) {
    match item
    case Message(role, content, phase) =>
      && (forall i :: 0 <= i < |content| ==> LosslessPart(role, content[i]))
      && (phase == None || forall i :: 0 <= i < |content| ==> RenderPart(content[i]).None?)
    case FunctionCall(id, name, arguments) => id != "" && name != "" && arguments.Object?
    case FunctionCallOutput(callId, _) => callId != ""
  }

  /** Every call and result is named, arguments are objects, messages that say
      something have no phase, and their images are the user's, in one form. */
  predicate Lossless(items: seq<Item>) {
    forall i :: 0 <= i < |items| ==> LosslessItem(items[i])
  }

  /** What normalizing can produce: messages without phase, of usable parts. */
  predicate Canonical(item: Item) {
    LosslessItem(item) && (item.Message? ==> item.phase == None && forall i :: 0 <= i < |item.content| ==> RenderPart(item.content[i]).Some?)
  }

  predicate AllCanonical(items: seq<Item>) {
    forall i :: 0 <= i < |items| ==> Canonical(items[i])
  }

  lemma {:induction false} CanonicalAppend(a: seq<Item>, b: seq<Item>)
    ensures AllCanonical(a + b) <==> AllCanonical(a) && AllCanonical(b)
  {
    if AllCanonical(a + b) {
      forall i | 0 <= i < |a| ensures Canonical(a[i]) {
        assert (a + b)[i] == a[i];
      }
      forall i | 0 <= i < |b| ensures Canonical(b[i]) {
        assert (a + b)[|a| + i] == b[i];
      }
    }
  }

  lemma {:induction false} KeptParts(role: Role, content: seq<ContentPart>)
    ensures forall i :: 0 <= i < |KeepUsable(content)| ==> RenderPart(KeepUsable(content)[i]).Some?
    ensures KeepUsable(content) == [] <==> forall i :: 0 <= i < |content| ==> RenderPart(content[i]).None?
    ensures (forall i :: 0 <= i < |content| ==> LosslessPart(role, content[i]))
       <==> (forall i :: 0 <= i < |KeepUsable(content)| ==> LosslessPart(role, KeepUsable(content)[i]))
  {
    if content != [] {
      KeptParts(role, content[1..]);
      assert content == [content[0]] + content[1..];
      var rest := KeepUsable(content[1..]);
      if RenderPart(content[0]).Some? {
        assert KeepUsable(content) == [content[0]] + rest;
        assert forall i :: 0 <= i < |rest| ==> KeepUsable(content)[i + 1] == rest[i];
        assert KeepUsable(content)[0] == content[0];
      } else {
        assert KeepUsable(content) == rest;
      }
    }
  }

  lemma {:induction false} KeptLossless(item: Item)
    ensures LosslessItem(item) <==> AllCanonical(Kept(item))
  {
    if item.Message? {
      KeptParts(item.role, item.content);
    }
    assert AllCanonical(Kept(item)) <==> (Kept(item) != [] ==> Canonical(Kept(item)[0]));
  }

  /** A list is lossless if and only if dropping empty content leaves canonical items. */
  lemma {:induction false} LosslessIff(items: seq<Item>)
    ensures Lossless(items) <==> AllCanonical(DropEmpty(items))
  {
    if items != [] {
      LosslessIff(items[1..]);
      assert items == [items[0]] + items[1..];
      CanonicalAppend(Kept(items[0]), DropEmpty(items[1..]));
      KeptLossless(items[0]);
    }
  }

  /** Merging loses and mends nothing. */
  lemma {:induction false} JoinCanonical(items: seq<Item>, item: Item)
    ensures AllCanonical(JoinAlike(items, item)) <==> AllCanonical(items) && Canonical(item)
  {
    var n := |items|;
    CanonicalAppend(items, [item]);
    assert AllCanonical([item]) <==> Canonical([item][0]);
    if n > 0 && item.Message? && items[n - 1].Message? && items[n - 1].role == item.role && items[n - 1].phase == item.phase {
      var last, merged := items[n - 1], items[n - 1].(content := items[n - 1].content + item.content);
      assert items == items[..n - 1] + [last];
      CanonicalAppend(items[..n - 1], [last]);
      CanonicalAppend(items[..n - 1], [merged]);
      MergedCanonical(last, item, merged);
      assert AllCanonical([last]) <==> Canonical([last][0]);
      assert AllCanonical([merged]) <==> Canonical([merged][0]);
    }
  }

  lemma {:induction false} MergedCanonical(a: Item, b: Item, merged: Item)
    requires a.Message? && b.Message? && a.role == b.role && a.phase == b.phase && merged == a.(content := a.content + b.content)
    ensures Canonical(merged) <==> Canonical(a) && Canonical(b)
  {
    var c := merged.content;
    assert forall i :: 0 <= i < |a.content| ==> c[i] == a.content[i];
    assert forall i :: 0 <= i < |b.content| ==> c[|a.content| + i] == b.content[i];
  }

  lemma {:induction false} JoinAllCanonical(acc: seq<Item>, items: seq<Item>)
    ensures AllCanonical(JoinAllAlike(acc, items)) <==> AllCanonical(acc) && AllCanonical(items)
    decreases |items|
  {
    if items != [] {
      JoinCanonical(acc, items[0]);
      JoinAllCanonical(JoinAlike(acc, items[0]), items[1..]);
      assert items == [items[0]] + items[1..];
      CanonicalAppend([items[0]], items[1..]);
      assert AllCanonical([items[0]]) <==> Canonical([items[0]][0]);
    }
  }

  /** Without phases, merging messages of one role and phase is merging messages of one role. */
  lemma {:induction false} JoinAllSame(acc: seq<Item>, items: seq<Item>)
    requires AllCanonical(acc) && AllCanonical(items)
    ensures JoinAllAlike(acc, items) == JoinAll(acc, items)
    decreases |items|
  {
    if items != [] {
      assert JoinAlike(acc, items[0]) == Join(acc, items[0]);
      JoinCanonical(acc, items[0]);
      JoinAllSame(Join(acc, items[0]), items[1..]);
    }
  }

  lemma {:induction false} CleanContentKeeps(role: Role, content: seq<ContentPart>)
    requires forall i :: 0 <= i < |content| ==> LosslessPart(role, content[i])
    ensures CleanContent(content) == KeepUsable(content)
  {
    if content != [] {
      CleanContentKeeps(role, content[1..]);
    }
  }

  lemma {:induction false} UnusableContent(content: seq<ContentPart>)
    requires forall i :: 0 <= i < |content| ==> RenderPart(content[i]).None?
    ensures CleanContent(content) == []
  {
    if content != [] {
      UnusableContent(content[1..]);
    }
  }

  /** A lossless list is faithful, and only empty content is cleaned from it. */
  lemma {:induction false} LosslessClean(parse: Parser, items: seq<Item>)
    requires Lossless(items)
    ensures Faithful(items) && Clean(parse, items) == DropEmpty(items)
  {
    if items != [] {
      assert items == [items[0]] + items[1..];
      LosslessClean(parse, items[1..]);
      if items[0].Message? {
        CleanContentKeeps(items[0].role, items[0].content);
        if items[0].phase != None {
          UnusableContent(items[0].content);
        }
      }
    }
  }

  ghost predicate UsableAtoms(s: seq<Atom>) {
    forall i :: 0 <= i < |s| ==> Usable(s[i].block)
  }

  lemma {:induction false} ReadBlocksCanonical(callName: nat -> string, role: Role, r: Reading, blocks: seq<Block>)
    requires forall n :: callName(n) != ""
    requires forall i :: 0 <= i < |blocks| ==> Usable(blocks[i])
    requires AllCanonical(r.input) && Canonical(Message(role, r.parts, None))
    ensures AllCanonical(Whole(role, ReadBlocks(callName, role, r, blocks)))
    decreases |blocks|
  {
    if blocks != [] {
      var z := ReadBlock(callName, role, r, blocks[0]);
      assert AllCanonical(z.input) && Canonical(Message(role, z.parts, None));
      ReadBlocksCanonical(callName, role, z, blocks[1..]);
    }
  }

  lemma {:induction false} ReadTurnsCanonical(callName: nat -> string, input: seq<Item>, turns: seq<Turn>)
    requires forall n :: callName(n) != ""
    requires UsableAtoms(TurnAtoms(turns)) && AllCanonical(input)
    ensures AllCanonical(ReadTurns(callName, input, turns))
    decreases |turns|
  {
    if turns != [] {
      var t := turns[0];
      var mine, rest := Placed(t.role, t.blocks), TurnAtoms(turns[1..]);
      assert TurnAtoms(turns) == mine + rest;
      forall i | 0 <= i < |t.blocks| ensures Usable(t.blocks[i]) {
        assert (mine + rest)[i] == mine[i] && Usable(mine[i].block);
      }
      forall i | 0 <= i < |rest| ensures Usable(rest[i].block) {
        assert (mine + rest)[|mine| + i] == rest[i];
      }
      ReadBlocksCanonical(callName, t.role, Reading(input, []), t.blocks);
      ReadTurnsCanonical(callName, Whole(t.role, ReadBlocks(callName, t.role, Reading(input, []), t.blocks)), turns[1..]);
    }
  }

  /** The round trip gives an input list back, with empty content dropped and adjacent
      messages of one role and phase coalesced and nothing else changed, if and only if
      every call and result is named, arguments are objects, messages that say something
      have no phase, and their images are the user's, in one form. */
  lemma {:induction false} RoundTripIff(parse: Parser, callName: nat -> string, items: seq<Item>)
    requires forall n :: callName(n) != ""
    ensures Normalize(callName, Render(parse, items)) == JoinAllAlike([], DropEmpty(items)) <==> Lossless(items)
  {
    LosslessIff(items);
    JoinAllCanonical([], DropEmpty(items));
    RenderedTurnsAlternate(parse, items);
    AtomsUsable(parse, items);
    ReadTurnsCanonical(callName, [], Render(parse, items));
    if Lossless(items) {
      LosslessClean(parse, items);
      RoundTrip(parse, callName, items);
      JoinAllSame([], DropEmpty(items));
    }
  }

  /** Two assistant messages with different phases come back as one without any. */
  lemma {:induction false} PhaseIsLost(parse: Parser, callName: nat -> string)
    ensures var items := [Message(Assistant, [Text("a")], Some("commentary")), Message(Assistant, [Text("b")], Some("final_answer"))];
      Normalize(callName, Render(parse, items)) == [Message(Assistant, [Text("a"), Text("b")], None)]
  {
    var a, b := Message(Assistant, [Text("a")], Some("commentary")), Message(Assistant, [Text("b")], Some("final_answer"));
    var items := [a, b];
    RoundTrip(parse, callName, items);
    assert CleanContent([Text("a")]) == [Text("a")] && CleanContent([Text("b")]) == [Text("b")];
    assert items[1..] == [b] && [b][1..] == [];
    var a', b' := a.(phase := None), b.(phase := None);
    assert Clean(parse, [b]) == [b'] && Clean(parse, items) == [a'] + [b'];
    JoinAllCons([], a', [b']);
    JoinAllCons([a'], b', []);
    assert [b'] + [] == [b'];
    assert [a'][..0] == [] && [Text("a")] + [Text("b")] == [Text("a"), Text("b")];
  }

  // ----- the blocks a list says -----

  lemma {:induction false} JoinAtoms(parse: Parser, acc: seq<Item>, a: Atom)
    requires FaithfulAtom(a) && Usable(a.block)
    ensures Atoms(parse, Join(acc, AtomItem(a))) == Atoms(parse, acc) + [a]
  {
    var n, item := |acc|, AtomItem(a);
    ItemAtomsOf(parse, a);
    if n > 0 && item.Message? && acc[n - 1].Message? && acc[n - 1].role == item.role {
      var last := acc[n - 1].(content := acc[n - 1].content + item.content);
      assert acc == acc[..n - 1] + [acc[n - 1]];
      LastAtoms(parse, acc[..n - 1], acc[n - 1]);
      LastAtoms(parse, acc[..n - 1], last);
      MessageAtoms(parse, acc[n - 1], item.content);
      AppendAssoc(Atoms(parse, acc[..n - 1]), ItemAtoms(parse, acc[n - 1]), [a]);
    } else {
      LastAtoms(parse, acc, item);
    }
  }

  lemma {:induction false} LastAtoms(parse: Parser, acc: seq<Item>, item: Item)
    ensures Atoms(parse, acc + [item]) == Atoms(parse, acc) + ItemAtoms(parse, item)
  {
    AtomsAppend(parse, acc, [item]);
    AtomsOne(parse, item);
  }

  lemma {:induction false} MessageAtoms(parse: Parser, m: Item, more: seq<ContentPart>)
    requires m.Message?
    ensures ItemAtoms(parse, m.(content := m.content + more)) == ItemAtoms(parse, m) + Placed(m.role, RenderContent(more))
  {
    RenderContentAppend(m.content, more);
    var p, q := RenderContent(m.content), RenderContent(more);
    assert Placed(m.role, p + q) == Placed(m.role, p) + Placed(m.role, q);
  }

  /** An image block whose source is not empty, as every rendered one is. */
  predicate Usable(b: Block) {
    b.ImageBlock? ==>
      match b.source
      case Base64(mediaType, data) => mediaType != "" && data != ""
      case Url(url) => url != ""
  }

  lemma {:induction false} ItemAtomsOf(parse: Parser, a: Atom)
    requires FaithfulAtom(a) && Usable(a.block)
    ensures ItemAtoms(parse, AtomItem(a)) == [a]
  {
    if a.block.TextBlock? || a.block.ImageBlock? {
      assert RenderPart(BlockPart(a.block)) == Some(a.block);
      assert RenderContent([BlockPart(a.block)]) == [a.block];
    }
  }

  lemma {:induction false} RenderContentAppend(p: seq<ContentPart>, q: seq<ContentPart>)
    ensures RenderContent(p + q) == RenderContent(p) + RenderContent(q)
  {
    if p == [] {
      assert p + q == q;
    } else {
      assert (p + q)[1..] == p[1..] + q;
      RenderContentAppend(p[1..], q);
      var b := RenderPart(p[0]);
      AppendAssoc(if b.Some? then [b.value] else [], RenderContent(p[1..]), RenderContent(q));
    }
  }

  lemma {:induction false} RegroupAtoms(parse: Parser, acc: seq<Item>, atoms: seq<Atom>)
    requires FaithfulAtoms(atoms) && forall i :: 0 <= i < |atoms| ==> Usable(atoms[i].block)
    ensures Atoms(parse, Regroup(acc, atoms)) == Atoms(parse, acc) + atoms
    decreases |atoms|
  {
    if atoms == [] {
      assert Atoms(parse, acc) + [] == Atoms(parse, acc);
    } else {
      JoinAtoms(parse, acc, atoms[0]);
      RegroupAtoms(parse, Join(acc, AtomItem(atoms[0])), atoms[1..]);
      MoveHead(Atoms(parse, acc), atoms);
    }
  }

  lemma {:induction false} RenderedContentUsable(content: seq<ContentPart>)
    ensures forall i :: 0 <= i < |RenderContent(content)| ==> Usable(RenderContent(content)[i])
  {
    if content != [] {
      RenderedContentUsable(content[1..]);
    }
  }

  lemma {:induction false} AtomsUsable(parse: Parser, items: seq<Item>)
    ensures forall i :: 0 <= i < |Atoms(parse, items)| ==> Usable(Atoms(parse, items)[i].block)
  {
    if items != [] {
      if items[0].Message? {
        RenderedContentUsable(items[0].content);
      }
      AtomsUsable(parse, items[1..]);
    }
  }

  lemma {:induction false} ReadBlocksFaithful(callName: nat -> string, role: Role, r: Reading, blocks: seq<Block>)
    requires forall n :: callName(n) != ""
    requires Faithful(r.input) && FaithfulItem(Message(role, r.parts, None))
    ensures Faithful(Whole(role, ReadBlocks(callName, role, r, blocks)))
    decreases |blocks|
  {
    if blocks != [] {
      var z := ReadBlock(callName, role, r, blocks[0]);
      assert Faithful(z.input) && FaithfulItem(Message(role, z.parts, None));
      ReadBlocksFaithful(callName, role, z, blocks[1..]);
    }
  }

  lemma {:induction false} ReadTurnsFaithful(callName: nat -> string, input: seq<Item>, turns: seq<Turn>)
    requires forall n :: callName(n) != ""
    requires Faithful(input)
    ensures Faithful(ReadTurns(callName, input, turns))
    decreases |turns|
  {
    if turns != [] {
      var t := turns[0];
      ReadBlocksFaithful(callName, t.role, Reading(input, []), t.blocks);
      ReadTurnsFaithful(callName, Whole(t.role, ReadBlocks(callName, t.role, Reading(input, []), t.blocks)), turns[1..]);
    }
  }

  /** The round trip keeps the rendered blocks, each with its role, if and only if every
      call and result is named and no usable image is in an assistant turn. */
  lemma {:induction false} BlocksKeptIff(parse: Parser, callName: nat -> string, items: seq<Item>)
    requires forall n :: callName(n) != ""
    ensures Atoms(parse, Normalize(callName, Render(parse, items))) == Atoms(parse, items) <==> Faithful(items)
  {
    FaithfulIffAtoms(parse, items);
    ReadTurnsFaithful(callName, [], Render(parse, items));
    FaithfulIffAtoms(parse, Normalize(callName, Render(parse, items)));
    if Faithful(items) {
      RenderedTurnsAlternate(parse, items);
      ReadTurnsRegroup(callName, [], Render(parse, items));
      AtomsUsable(parse, items);
      RegroupAtoms(parse, [], Atoms(parse, items));
      assert [] + Atoms(parse, items) == Atoms(parse, items);
    }
  }

  /** An unnamed call comes back under a made-up name. */
  lemma {:induction false} UnnamedCallIsNamed(parse: Parser, callName: nat -> string)
    requires callName(0) != ""
    ensures var items := [FunctionCall("", "f", Object(map[]))];
      && Normalize(callName, Render(parse, items)) == [FunctionCall(callName(0), "f", Object(map[]))]
      && Atoms(parse, Normalize(callName, Render(parse, items))) != Atoms(parse, items)
  {
    var items := [FunctionCall("", "f", Object(map[]))];
    var a := Atom(Assistant, ToolUse("", "f", map[]));
    AtomsOne(parse, items[0]);
    assert Atoms(parse, items) == [a] && [a][1..] == [];
    assert AppendBlock([], a) == [] + [Turn(Assistant, [a.block])] == [Turn(Assistant, [a.block])];
    assert Render(parse, items) == AppendBlocks(AppendBlock([], a), []);
    var back := FunctionCall(callName(0), "f", Object(map[]));
    assert [a.block][1..] == [] && [Turn(Assistant, [a.block])][1..] == [];
    assert ReadBlock(callName, Assistant, Reading([], []), a.block) == Reading([] + [back], []);
    assert ReadBlocks(callName, Assistant, Reading([], []), [a.block]) == Reading([back], []);
    assert Flush(Assistant, Reading([back], [])).input == [back];
    assert Normalize(callName, [Turn(Assistant, [a.block])]) == ReadTurns(callName, [back], []);
    AtomsOne(parse, back);
  }

  /** A second round trip changes nothing, on either side. */
  lemma {:induction false} SecondRoundTrip(parse: Parser, callName: nat -> string, items: seq<Item>)
    requires Faithful(items) && forall n :: callName(n) != ""
    ensures var once := Normalize(callName, Render(parse, items));
      Render(parse, once) == Render(parse, items) && Normalize(callName, Render(parse, once)) == once
  {
    BlocksKeptIff(parse, callName, items);
  }
}
