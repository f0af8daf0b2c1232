/**
 Reading any Anthropic messages, faithful or not: what each block stands for, and that
 the input list says exactly that, in order, in messages as long as they can be.
 */
module RequestReading {
  import opened Wrappers
  import opened RequestTranslation

  // ----- what the blocks say -----

  /** A part of a message, a call with its id if it has one, or a result. */
  datatype Piece =
    | Part(role: Role, part: ContentPart)
    | Call(id: Option<string>, name: string, input: Fields)
    | Result(callId: string, output: string)

  /** What one block stands for: nothing, if it has nothing to say or no id to say it
      for. Only the assistant calls and only the user answers or shows images. */
  function PieceOf(role: Role, b: Block): seq<Piece> {
    match b
    case TextBlock(text) => if text == "" then [] else [Part(role, Text(text))]
    case ImageBlock(Base64(mediaType, data)) => if role == User then [Part(User, Image(None, Some(mediaType), Some(data)))] else []
    case ImageBlock(Url(url)) => if role == User then [Part(User, Image(Some(url), None, None))] else []
    case ToolUse(id, name, input) =>
      if role == User then [] else [Call(if id == "" then None else Some(id), if name == "" then "tool" else name, input)]
    case ToolResult(id, content) =>
      if role == User then (if id == "" then [] else [Result(id, content)])
      else if content == "" then [] else [Part(role, Text(content))]
  }

  function BlockPieces(role: Role, blocks: seq<Block>): seq<Piece> {
    if blocks == [] then [] else PieceOf(role, blocks[0]) + BlockPieces(role, blocks[1..])
  }

  function Pieces(turns: seq<Turn>): seq<Piece> {
    if turns == [] then [] else BlockPieces(turns[0].role, turns[0].blocks) + Pieces(turns[1..])
  }

  // ----- what an input list says -----

  function Parts(role: Role, content: seq<ContentPart>): seq<Piece> {
    seq(|content|, i requires 0 <= i < |content| => Part(role, content[i]))
  }

  function Size(item: Item): nat {
    if item.Message? then |item.content| else 1
  }

  /** The n-th item says these pieces; a call without an id takes one made up from n. */
  ghost predicate Shows(callName: nat -> string, n: nat, item: Item, ps: seq<Piece>) {
    match item
    case Message(role, content, phase) => content != [] && phase == None && ps == Parts(role, content)
    case FunctionCall(id, name, Object(input)) => ps == [Call(Some(id), name, input)] || (ps == [Call(None, name, input)] && id == callName(n))
    case FunctionCallOutput(callId, output) => ps == [Result(callId, output)]
    case _ => false
  }

  /** The items say the pieces, one after the other. */
  ghost predicate Carries(callName: nat -> string, items: seq<Item>, ps: seq<Piece>) {
    if items == [] then ps == []
    else
      var n := |items| - 1;
      var m := Size(items[n]);
      && m <= |ps|
      && Carries(callName, items[..n], ps[..|ps| - m])
      && Shows(callName, n, items[n], ps[|ps| - m..])
  }

  lemma {:induction false} CarriesSnoc(callName: nat -> string, items: seq<Item>, ps: seq<Piece>, item: Item, qs: seq<Piece>)
    requires Carries(callName, items, ps) && Shows(callName, |items|, item, qs)
    ensures Carries(callName, items + [item], ps + qs)
  {
    SnocIs(items, item);
    assert |qs| == Size(item);
    assert (ps + qs)[..|ps + qs| - |qs|] == ps && (ps + qs)[|ps + qs| - |qs|..] == qs;
  }

  lemma {:induction false} FlushCarries(callName: nat -> string, role: Role, r: Reading, ps: seq<Piece>)
    requires Carries(callName, r.input, ps)
    ensures Carries(callName, Flush(role, r).input, ps + Parts(role, r.parts)) && Flush(role, r).parts == []
  {
    if r.parts == [] {
      AppendEmpty(ps);
    } else {
      CarriesSnoc(callName, r.input, ps, Message(role, r.parts, None), Parts(role, r.parts));
    }
  }

  lemma {:induction false} PartCarries(role: Role, parts: seq<ContentPart>, ps: seq<Piece>, part: ContentPart)
    ensures ps + Parts(role, parts + [part]) == (ps + Parts(role, parts)) + [Part(role, part)]
  {
    assert Parts(role, parts + [part]) == Parts(role, parts) + [Part(role, part)];
  }

  /** One block more: `qs` are the pieces of the items finished since. */
  lemma {:induction false} ReadBlockCarries(callName: nat -> string, role: Role, r: Reading, ps: seq<Piece>, b: Block)
    returns (qs: seq<Piece>)
    requires Carries(callName, r.input, ps)
    ensures var z := ReadBlock(callName, role, r, b);
      && Carries(callName, z.input, qs)
      && qs + Parts(role, z.parts) == (ps + Parts(role, r.parts)) + PieceOf(role, b)
  {
    var z, all := ReadBlock(callName, role, r, b), ps + Parts(role, r.parts);
    var f := Flush(role, r);
    FlushCarries(callName, role, r, ps);
    assert Parts(role, []) == [];
    if role == Assistant && b.ToolUse? {
      CallCarries(callName, f.input, all, b);
      qs := all + PieceOf(role, b);
    } else if role == User && b.ToolResult? {
      if b.toolUseId != "" {
        CarriesSnoc(callName, f.input, all, FunctionCallOutput(b.toolUseId, b.content), PieceOf(role, b));
      } else {
        AppendEmpty(all);
      }
      qs := all + PieceOf(role, b);
    } else {
      qs := ps;
      if PieceOf(role, b) != [] {
        PartCarries(role, r.parts, ps, PieceOf(role, b)[0].part);
      }
      AppendEmpty(all);
    }
    AppendEmpty(qs);
  }

  lemma {:induction false} CallCarries(callName: nat -> string, items: seq<Item>, ps: seq<Piece>, b: Block)
    requires Carries(callName, items, ps) && b.ToolUse?
    ensures var id := if b.id != "" then b.id else callName(|items|);
      var name := if b.name != "" then b.name else "tool";
      Carries(callName, items + [FunctionCall(id, name, Object(b.input))], ps + PieceOf(Assistant, b))
  {
    var id := if b.id != "" then b.id else callName(|items|);
    var name := if b.name != "" then b.name else "tool";
    CarriesSnoc(callName, items, ps, FunctionCall(id, name, Object(b.input)), PieceOf(Assistant, b));
  }

  lemma {:induction false} ReadBlocksCarry(callName: nat -> string, role: Role, r: Reading, ps: seq<Piece>, blocks: seq<Block>)
    requires Carries(callName, r.input, ps)
    ensures var z := Flush(role, ReadBlocks(callName, role, r, blocks)).input;
      Carries(callName, z, (ps + Parts(role, r.parts)) + BlockPieces(role, blocks))
    decreases |blocks|
  {
    if blocks == [] {
      FlushCarries(callName, role, r, ps);
      AppendEmpty(ps + Parts(role, r.parts));
    } else {
      var qs := ReadBlockCarries(callName, role, r, ps, blocks[0]);
      ReadBlocksCarry(callName, role, ReadBlock(callName, role, r, blocks[0]), qs, blocks[1..]);
      AppendAssoc(ps + Parts(role, r.parts), PieceOf(role, blocks[0]), BlockPieces(role, blocks[1..]));
    }
  }

  lemma {:induction false} ReadTurnsCarry(callName: nat -> string, input: seq<Item>, ps: seq<Piece>, turns: seq<Turn>)
    requires Carries(callName, input, ps)
    ensures Carries(callName, ReadTurns(callName, input, turns), ps + Pieces(turns))
    decreases |turns|
  {
    if turns == [] {
      AppendEmpty(ps);
    } else {
      var t := turns[0];
      var mine := BlockPieces(t.role, t.blocks);
      ReadBlocksCarry(callName, t.role, Reading(input, []), ps, t.blocks);
      assert ps + Parts(t.role, []) == ps;
      ReadTurnsCarry(callName, Flush(t.role, ReadBlocks(callName, t.role, Reading(input, []), t.blocks)).input, ps + mine, turns[1..]);
      AppendAssoc(ps, mine, Pieces(turns[1..]));
    }
  }

  /** Whatever the messages hold, the input list read from them says exactly what their
      blocks stand for, in order: nothing is lost, doubled, moved or made up but the ids
      of unnamed calls. */
  lemma {:induction false} ReadingSays(callName: nat -> string, turns: seq<Turn>)
    ensures Carries(callName, Normalize(callName, turns), Pieces(turns))
  {
    ReadTurnsCarry(callName, [], [], turns);
    assert [] + Pieces(turns) == Pieces(turns);
  }

  // ----- messages are as long as they can be -----

  ghost predicate Apart(items: seq<Item>, from: nat) {
    forall i :: from <= i && 0 < i < |items| && i > from ==> !(items[i - 1].Message? && items[i].Message?)
  }

  /** Within one message, parts with no call or result between them stay together. */
  lemma {:induction false} PartsStayTogether(callName: nat -> string, role: Role, from: nat, r: Reading, blocks: seq<Block>)
    requires forall i :: 0 <= i < |blocks| && blocks[i].ToolResult? ==> blocks[i].toolUseId != ""
    requires from <= |r.input| && Apart(r.input, from)
    requires |r.input| > from ==> !r.input[|r.input| - 1].Message?
    ensures Apart(Flush(role, ReadBlocks(callName, role, r, blocks)).input, from)
    decreases |blocks|
  {
    if blocks != [] {
      var z := ReadBlock(callName, role, r, blocks[0]);
      PartsStayTogether(callName, role, from, z, blocks[1..]);
    }
  }
}
