/** Command rendering and line parsing (src/atsq/protocol.py). */
module Protocol {
  import opened Sequences
  import opened Utf8
  import Escape

  const PIPE: byte := 0x7C
  const ERROR: Bytes := [0x65, 0x72, 0x72, 0x6F, 0x72]
  const NOTIFY: Bytes := [0x6E, 0x6F, 0x74, 0x69, 0x66, 0x79]

  // ----- What a command is, and the rows it stands for -----

  /** A scalar argument: `None`, a bool, or anything else through the text `str` gives it. */
  datatype Item = Null | Flag(on: bool) | Text(text: string)

  datatype Value = One(item: Item) | Many(items: seq<Item>)

  datatype Param = Param(key: string, value: Value)

  type Params = seq<Param>

  datatype Command = Command(name: string, options: seq<string>, blocks: Option<seq<Params>>, params: Params)

  datatype RenderError = InvalidName | EmptyBlock(index: nat)

  datatype Result<+T, +E> = Ok(value: T) | Err(error: E)

  /** One property of a row: a key, with or without a value. */
  datatype Prop = Prop(key: string, value: Option<string>)

  type Row = seq<Prop>

  type Record = map<string, string>

  function ItemText(item: Item): string {
    match item
    case Null => "None"
    case Flag(on) => if on then "1" else "0"
    case Text(text) => text
  }

  function ItemProp(key: string, item: Item): Prop {
    Prop(key, Some(ItemText(item)))
  }

  function ItemRows(key: string, items: seq<Item>): (r: seq<Row>)
    ensures |r| == |items|
  {
    if |items| == 0 then [] else [[ItemProp(key, items[0])]] + ItemRows(key, items[1..])
  }

  /** The rows of one parameter: a list makes one row an item, a skipped parameter one row with nothing in it. */
  function ParamRows(p: Param): (r: seq<Row>)
    ensures |r| >= 1
  {
    match p.value
    case One(Null) => [[]]
    case One(item) => [[ItemProp(p.key, item)]]
    case Many(items) => if |items| == 0 then [[]] else ItemRows(p.key, items)
  }

  /** `b` written after `a` on the same line: the last row of `a` runs on into the first row of `b`. */
  function Attach(a: seq<Row>, b: seq<Row>): (r: seq<Row>)
    requires |a| >= 1 && |b| >= 1
    ensures |r| == |a| + |b| - 1
  {
    a[..|a| - 1] + [a[|a| - 1] + b[0]] + b[1..]
  }

  function BlockRows(block: Params): (r: seq<Row>)
    ensures |r| >= 1
  {
    if |block| == 0 then [[]]
    else Attach(BlockRows(block[..|block| - 1]), ParamRows(block[|block| - 1]))
  }

  /** A parameter that leaves no trace: `None`, or a list with no item. */
  predicate Skipped(p: Param) {
    match p.value
    case One(item) => item.Null?
    case Many(items) => |items| == 0
  }

  predicate RendersEmpty(block: Params) {
    forall i :: 0 <= i < |block| ==> Skipped(block[i])
  }

  /** The first block continues the shared parameters, each later block starts a row of its own. */
  function PipedRowsBelow(shared: seq<Row>, blocks: seq<Params>, n: nat): (r: seq<Row>)
    requires |shared| >= 1 && n <= |blocks|
    ensures |r| >= 1
  {
    if n == 0 then shared
    else if n == 1 then Attach(shared, BlockRows(blocks[0]))
    else PipedRowsBelow(shared, blocks, n - 1) + BlockRows(blocks[n - 1])
  }

  function PipedRows(shared: seq<Row>, blocks: seq<Params>): (r: seq<Row>)
    requires |shared| >= 1
    ensures |r| >= 1
  {
    PipedRowsBelow(shared, blocks, |blocks|)
  }

  function OptionProps(options: seq<string>): (r: Row)
    ensures |r| == |options|
  {
    if |options| == 0 then [] else [Prop("-" + options[0], None)] + OptionProps(options[1..])
  }

  function BlocksOf(c: Command): seq<Params> {
    if c.blocks.Some? then c.blocks.value else []
  }

  /** The rows a command line stands for: the name opens the first row, the options end the last one. */
  function CommandRows(c: Command): (r: seq<Row>)
    ensures |r| >= 1
  {
    Attach(Attach([[Prop(c.name, None)]], PipedRows(BlockRows(c.params), BlocksOf(c))), [OptionProps(c.options)])
  }

  // ----- The text of rows -----

  function PropText(p: Prop): string {
    match p.value
    case None => p.key
    case Some(v) => p.key + "=" + Escape.Escaped(v)
  }

  function PropTexts(row: Row): (r: seq<string>)
    ensures |r| == |row|
    ensures forall i :: 0 <= i < |row| ==> r[i] == PropText(row[i])
  {
    seq(|row|, i requires 0 <= i < |row| => PropText(row[i]))
  }

  function RowText(row: Row): string {
    Join(PropTexts(row), " ")
  }

  function RowTexts(rows: seq<Row>): (r: seq<string>)
    ensures |r| == |rows|
    ensures forall i :: 0 <= i < |rows| ==> r[i] == RowText(rows[i])
  {
    seq(|rows|, i requires 0 <= i < |rows| => RowText(rows[i]))
  }

  function RowsText(rows: seq<Row>): string {
    Join(RowTexts(rows), "|")
  }

  predicate Proper(rows: seq<Row>) {
    |rows| >= 1 && forall i :: 0 <= i < |rows| ==> |rows[i]| >= 1
  }

  /** Nothing but an identity of `Attach`, or rows that all hold something. */
  predicate Blank(rows: seq<Row>) {
    |rows| == 1 && |rows[0]| == 0
  }

  lemma {:induction false} BlankRows(rows: seq<Row>)
    ensures Blank(rows) <==> rows == [[]]
  {
  }

  lemma {:induction false} AttachBlank(rows: seq<Row>)
    requires |rows| >= 1
    ensures Attach([[]], rows) == rows && Attach(rows, [[]]) == rows
  {
    var last := rows[|rows| - 1];
    assert [] + rows[0] == rows[0] && last + [] == last;
    assert [rows[0]] + rows[1..] == rows && rows[..|rows| - 1] + [last] == rows;
  }

  lemma {:induction false} AttachProper(a: seq<Row>, b: seq<Row>)
    requires Blank(a) || Proper(a)
    requires Blank(b) || Proper(b)
    ensures Blank(Attach(a, b)) || Proper(Attach(a, b))
    ensures Blank(Attach(a, b)) <==> Blank(a) && Blank(b)
  {
  }

  lemma {:induction false} RowTextConcat(a: Row, b: Row)
    requires |a| >= 1 && |b| >= 1
    ensures RowText(a + b) == RowText(a) + " " + RowText(b)
  {
    assert PropTexts(a + b) == PropTexts(a) + PropTexts(b);
    JoinConcat(PropTexts(a), PropTexts(b), " ");
  }

  lemma {:induction false} OneRowText(row: Row)
    ensures RowsText([row]) == RowText(row)
  {
  }

  lemma {:induction false} AttachToOne(row: Row, b: seq<Row>)
    requires |b| >= 1
    ensures Attach([row], b) == [row + b[0]] + b[1..]
  {
  }

  lemma {:induction false} AttachTextToOne(row: Row, b: seq<Row>)
    requires |row| >= 1 && |b| >= 1 && |b[0]| >= 1
    ensures RowsText(Attach([row], b)) == RowText(row) + " " + RowsText(b)
  {
    var first, rest := b[0], b[1..];
    AttachToOne(row, b);
    RowTextConcat(row, first);
    assert b == [first] + rest;
    if |rest| == 0 {
      OneRowText(row + first);
      OneRowText(first);
      assert [row + first] + rest == [row + first] && [first] + rest == [first];
    } else {
      TextOfFront(row + first, rest);
      TextOfFront(first, rest);
      Regroup(RowText(row) + " ", RowText(first), "|" + RowsText(rest));
    }
  }

  lemma {:induction false} AttachFront(row: Row, rest: seq<Row>, b: seq<Row>)
    requires |rest| >= 1 && |b| >= 1
    ensures Attach([row] + rest, b) == [row] + Attach(rest, b)
  {
  }

  /** The text of the rest decides: one more row in front goes in front of both texts. */
  lemma {:induction false} TextsWithFront(row: Row, rest: seq<Row>, more: seq<Row>, text: string)
    requires |rest| >= 1 && |more| >= 1 && RowsText(more) == RowsText(rest) + text
    ensures RowsText([row] + more) == RowsText([row] + rest) + text
  {
    TextOfFront(row, more);
    TextOfFront(row, rest);
    Regroup(RowText(row) + "|", RowsText(rest), text);
  }

  /** Attaching is writing after a space. */
  lemma {:induction false} AttachText(a: seq<Row>, b: seq<Row>)
    requires Proper(a) && Proper(b)
    ensures RowsText(Attach(a, b)) == RowsText(a) + " " + RowsText(b)
  {
    assert a == [a[0]] + a[1..];
    if |a| == 1 {
      assert a == [a[0]];
      OneRowText(a[0]);
      AttachTextToOne(a[0], b);
    } else {
      AttachText(a[1..], b);
      Regroup(RowsText(a[1..]), " ", RowsText(b));
      Regroup(RowsText(a), " ", RowsText(b));
      AttachFront(a[0], a[1..], b);
      TextsWithFront(a[0], a[1..], Attach(a[1..], b), " " + RowsText(b));
    }
  }

  lemma {:induction false} TextOfFront(row: Row, rest: seq<Row>)
    requires |rest| >= 1
    ensures RowsText([row] + rest) == RowText(row) + "|" + RowsText(rest)
  {
    assert RowTexts([row] + rest) == [RowText(row)] + RowTexts(rest);
    assert RowTexts([row] + rest)[1..] == RowTexts(rest);
  }

  lemma {:induction false} AppendText(a: seq<Row>, b: seq<Row>)
    requires |a| >= 1 && |b| >= 1
    ensures RowsText(a + b) == RowsText(a) + "|" + RowsText(b)
  {
    assert RowTexts(a + b) == RowTexts(a) + RowTexts(b);
    JoinConcat(RowTexts(a), RowTexts(b), "|");
  }

  lemma {:induction false} SingleText(p: Prop)
    ensures RowsText([[p]]) == PropText(p)
  {
  }

  lemma {:induction false} ParamRowsProper(p: Param)
    ensures Blank(ParamRows(p)) || Proper(ParamRows(p))
    ensures Blank(ParamRows(p)) <==> Skipped(p)
  {
    if p.value.Many? {
      ItemRowsProper(p.key, p.value.items);
      assert |p.value.items| > 0 ==> |ItemRows(p.key, p.value.items)[0]| == 1;
    }
  }

  lemma {:induction false} ItemRowsProper(key: string, items: seq<Item>)
    ensures forall i :: 0 <= i < |items| ==> ItemRows(key, items)[i] == [ItemProp(key, items[i])]
  {
    if |items| == 0 {
    } else {
      ItemRowsProper(key, items[1..]);
    }
  }

  lemma {:induction false} EmptyWithoutLast(block: Params)
    requires |block| > 0
    ensures RendersEmpty(block) <==> RendersEmpty(block[..|block| - 1]) && Skipped(block[|block| - 1])
  {
  }

  lemma {:induction false} BlockRowsProper(block: Params)
    ensures Blank(BlockRows(block)) || Proper(BlockRows(block))
    ensures Blank(BlockRows(block)) <==> RendersEmpty(block)
  {
    if |block| == 0 {
    } else {
      var n := |block| - 1;
      BlockRowsProper(block[..n]);
      ParamRowsProper(block[n]);
      AttachProper(BlockRows(block[..n]), ParamRows(block[n]));
      EmptyWithoutLast(block);
    }
  }

  // ----- Rendering -----

  function RenderParam(key: string, item: Item): string {
    key + "=" + Escape.Escaped(ItemText(item))
  }

  function RenderItems(key: string, items: seq<Item>): (r: seq<string>)
    ensures |r| == |items|
  {
    seq(|items|, i requires 0 <= i < |items| => RenderParam(key, items[i]))
  }

  /** The text of a block: empty exactly for a blank one. */
  predicate IsTextOf(text: string, rows: seq<Row>) {
    (text == "" <==> Blank(rows)) && (Proper(rows) ==> text == RowsText(rows)) && (Blank(rows) || Proper(rows))
  }

  /** Writing after a space, where a missing side leaves no space behind. */
  lemma {:induction false} AttachIsTextOf(s: string, a: seq<Row>, t: string, b: seq<Row>)
    requires IsTextOf(s, a) && IsTextOf(t, b)
    ensures IsTextOf(if s == "" then t else if t == "" then s else s + " " + t, Attach(a, b))
  {
    AttachProper(a, b);
    BlankRows(a);
    BlankRows(b);
    AttachBlank(a);
    AttachBlank(b);
    if Proper(a) && Proper(b) {
      AttachText(a, b);
    }
  }

  lemma {:induction false} ItemsText(p: Param)
    ensures p.value.Many? ==> IsTextOf(Join(RenderItems(p.key, p.value.items), "|"), ParamRows(p))
    ensures p.value.One? && !p.value.item.Null? ==> IsTextOf(RenderParam(p.key, p.value.item), ParamRows(p))
  {
    if p.value.Many? {
      var items := p.value.items;
      ItemRowsProper(p.key, items);
      forall i | 0 <= i < |items| ensures RowText(ItemRows(p.key, items)[i]) == RenderParam(p.key, items[i]) {
        assert PropTexts([ItemProp(p.key, items[i])]) == [RenderParam(p.key, items[i])];
      }
      assert RowTexts(ItemRows(p.key, items)) == RenderItems(p.key, items);
      if |items| > 0 {
        assert |RenderItems(p.key, items)[0]| > 0;
      }
    } else if !p.value.item.Null? {
      SingleText(ItemProp(p.key, p.value.item));
    }
  }

  lemma {:induction false} JoinAppend(parts: seq<string>, part: string)
    ensures Join(parts + [part], " ") == if |parts| == 0 then part else Join(parts, " ") + " " + part
  {
    if |parts| > 0 {
      JoinConcat(parts, [part], " ");
    } else {
      assert parts + [part] == [part];
    }
  }

  // ----- The command line as text -----

  /** What `str` makes of an argument, a flag being `1` or `0`, and `key=value` with the value escaped. */
  function ArgumentText(key: string, item: Item): string {
    key + "=" + match item
                case Null => "None"
                case Flag(true) => "1"
                case Flag(false) => "0"
                case Text(text) => Escape.Escaped(text)
  }

  function ArgumentTexts(key: string, items: seq<Item>): (r: seq<string>)
    ensures |r| == |items|
  {
    seq(|items|, i requires 0 <= i < |items| => ArgumentText(key, items[i]))
  }

  /** One parameter: nothing for `None`, and the items of a list with pipes in between. */
  function ParamText(p: Param): string {
    match p.value
    case One(Null) => ""
    case One(item) => ArgumentText(p.key, item)
    case Many(items) => Join(ArgumentTexts(p.key, items), "|")
  }

  /** Two texts with a space in between, if there are two. */
  function Spaced(a: string, b: string): string {
    if a == "" then b else if b == "" then a else a + " " + b
  }

  function BlockText(block: Params): string {
    if |block| == 0 then "" else Spaced(BlockText(block[..|block| - 1]), ParamText(block[|block| - 1]))
  }

  /** The shared parameters and the first block make the first segment, each further block one of its own. */
  function SegmentsText(params: Params, blocks: seq<Params>, n: nat): string
    requires n <= |blocks|
  {
    if n == 0 then BlockText(params)
    else if n == 1 then Spaced(BlockText(params), BlockText(blocks[0]))
    else SegmentsText(params, blocks, n - 1) + "|" + BlockText(blocks[n - 1])
  }

  function WithOptions(text: string, options: seq<string>): string {
    if |options| == 0 then text else WithOptions(text, options[..|options| - 1]) + " -" + options[|options| - 1]
  }

  /** The whole line: name, segments, options. */
  function CommandText(c: Command): string {
    WithOptions(Spaced(c.name, SegmentsText(c.params, BlocksOf(c), |BlocksOf(c)|)), c.options)
  }

  lemma {:induction false} ArgumentIsRendered(key: string, item: Item)
    ensures RenderParam(key, item) == ArgumentText(key, item)
  {
    if !item.Text? {
      Escape.PlainNotEscaped(ItemText(item));
    }
  }

  lemma {:induction false} ParamIsTextOf(p: Param)
    ensures IsTextOf(ParamText(p), ParamRows(p))
  {
    ItemsText(p);
    match p.value {
      case One(item) => ArgumentIsRendered(p.key, item);
      case Many(items) =>
        forall i | 0 <= i < |items| ensures RenderItems(p.key, items)[i] == ArgumentText(p.key, items[i]) {
          ArgumentIsRendered(p.key, items[i]);
        }
        assert RenderItems(p.key, items) == ArgumentTexts(p.key, items);
    }
  }

  lemma {:induction false} BlockIsTextOf(block: Params)
    ensures IsTextOf(BlockText(block), BlockRows(block))
  {
    if |block| == 0 {
    } else {
      var n := |block| - 1;
      BlockIsTextOf(block[..n]);
      ParamIsTextOf(block[n]);
      AttachIsTextOf(BlockText(block[..n]), BlockRows(block[..n]), ParamText(block[n]), ParamRows(block[n]));
    }
  }

  /** A block leaves no trace exactly when all its arguments are `None` or empty lists. */
  lemma {:induction false} BlockIsNotEmpty(block: Params)
    ensures BlockText(block) != "" <==> !RendersEmpty(block)
    ensures BlockText(block) == "" <==>
            forall i :: 0 <= i < |block| ==> block[i].value == One(Null) || block[i].value == Many([])
  {
    BlockIsTextOf(block);
    BlockRowsProper(block);
    assert forall i :: 0 <= i < |block| ==>
             (Skipped(block[i]) <==> block[i].value == One(Null) || block[i].value == Many([]));
  }

  lemma {:induction false} NoEmptyBlockByText(blocks: seq<Params>)
    ensures NoEmptyBlock(blocks, |blocks|) <==> forall k :: 0 <= k < |blocks| ==> BlockText(blocks[k]) != ""
  {
    NoEmptyBlockIsForAll(blocks, |blocks|);
    forall k | 0 <= k < |blocks| ensures BlockText(blocks[k]) != "" <==> !RendersEmpty(blocks[k]) {
      BlockIsNotEmpty(blocks[k]);
    }
  }

  lemma {:induction false} AppendIsTextOf(s: string, a: seq<Row>, t: string, b: seq<Row>)
    requires IsTextOf(s, a) && IsTextOf(t, b) && s != "" && t != ""
    ensures IsTextOf(s + "|" + t, a + b)
  {
    AppendText(a, b);
  }

  lemma {:induction false} SpacedIsTextOf(s: string, a: seq<Row>, t: string, b: seq<Row>)
    requires IsTextOf(s, a) && IsTextOf(t, b) && t != ""
    ensures IsTextOf(Spaced(s, t), Attach(a, b)) && Spaced(s, t) != ""
  {
    AttachIsTextOf(s, a, t, b);
  }

  /** The segments of the first `n` blocks, given those of one less. */
  lemma {:induction false} SegmentIsTextOf(
      params: Params, blocks: seq<Params>, n: nat, text: string, rows: seq<Row>, more: string, block: seq<Row>)
    requires 0 < n <= |blocks| && more == BlockText(blocks[n - 1]) && block == BlockRows(blocks[n - 1])
    requires text == SegmentsText(params, blocks, n - 1) && rows == PipedRowsBelow(BlockRows(params), blocks, n - 1)
    requires IsTextOf(text, rows) && IsTextOf(more, block) && more != "" && (n > 1 ==> text != "")
    ensures IsTextOf(SegmentsText(params, blocks, n), PipedRowsBelow(BlockRows(params), blocks, n))
    ensures SegmentsText(params, blocks, n) != ""
  {
    if n == 1 {
      SpacedIsTextOf(text, rows, more, block);
      assert SegmentsText(params, blocks, n) == Spaced(text, more);
    } else {
      AppendIsTextOf(text, rows, more, block);
      assert SegmentsText(params, blocks, n) == text + "|" + more;
    }
  }

  lemma {:induction false} SegmentsAreTextOf(params: Params, blocks: seq<Params>, n: nat)
    requires n <= |blocks| && NoEmptyBlock(blocks, n)
    ensures IsTextOf(SegmentsText(params, blocks, n), PipedRowsBelow(BlockRows(params), blocks, n))
    ensures n > 0 ==> SegmentsText(params, blocks, n) != ""
  {
    if n == 0 {
      BlockIsTextOf(params);
    } else {
      BlockIsTextOf(blocks[n - 1]);
      BlockIsNotEmpty(blocks[n - 1]);
      SegmentsAreTextOf(params, blocks, n - 1);
      SegmentIsTextOf(params, blocks, n, SegmentsText(params, blocks, n - 1),
                      PipedRowsBelow(BlockRows(params), blocks, n - 1),
                      BlockText(blocks[n - 1]), BlockRows(blocks[n - 1]));
    }
  }

  lemma {:induction false} OptionsGrow(options: seq<string>)
    requires |options| > 0
    ensures OptionProps(options) ==
            OptionProps(options[..|options| - 1]) + [Prop("-" + options[|options| - 1], None)]
  {
    OptionPropsAt(options);
    OptionPropsAt(options[..|options| - 1]);
  }

  lemma {:induction false} AttachTwice(rows: seq<Row>, a: Row, b: Row)
    requires |rows| >= 1
    ensures Attach(rows, [a + b]) == Attach(Attach(rows, [a]), [b])
  {
    var n := |rows| - 1;
    assert rows[n] + (a + b) == (rows[n] + a) + b;
    assert Attach(rows, [a])[..n] == rows[..n];
  }

  lemma {:induction false} OptionIsTextOf(text: string, rows: seq<Row>, option: string)
    requires IsTextOf(text, rows) && Proper(rows)
    ensures IsTextOf(text + " -" + option, Attach(rows, [[Prop("-" + option, None)]]))
    ensures Proper(Attach(rows, [[Prop("-" + option, None)]]))
  {
    var last := Prop("-" + option, None);
    SingleText(last);
    AttachProper(rows, [[last]]);
    AttachText(rows, [[last]]);
    assert text + " -" + option == text + " " + ("-" + option);
  }

  lemma {:induction false} OptionsAreTextOf(text: string, rows: seq<Row>, options: seq<string>)
    requires IsTextOf(text, rows) && Proper(rows)
    ensures IsTextOf(WithOptions(text, options), Attach(rows, [OptionProps(options)]))
    ensures Proper(Attach(rows, [OptionProps(options)]))
  {
    if |options| == 0 {
      AttachBlank(rows);
    } else {
      var n := |options| - 1;
      var before := options[..n];
      OptionsAreTextOf(text, rows, before);
      OptionsGrow(options);
      AttachTwice(rows, OptionProps(before), [Prop("-" + options[n], None)]);
      OptionIsTextOf(WithOptions(text, before), Attach(rows, [OptionProps(before)]), options[n]);
    }
  }

  /** The rows of a command, printed, are its line. */
  lemma {:induction false} CommandTextIsOfRows(c: Command)
    requires Renderable(c)
    ensures RowsText(CommandRows(c)) == CommandText(c)
  {
    var piped := SegmentsText(c.params, BlocksOf(c), |BlocksOf(c)|);
    var name := [[Prop(c.name, None)]];
    var rows := PipedRows(BlockRows(c.params), BlocksOf(c));
    SegmentsAreTextOf(c.params, BlocksOf(c), |BlocksOf(c)|);
    SingleText(Prop(c.name, None));
    AttachIsTextOf(c.name, name, piped, rows);
    OptionsAreTextOf(Spaced(c.name, piped), Attach(name, rows), c.options);
  }

  method RenderBlock(block: Params) returns (text: string)
    ensures IsTextOf(text, BlockRows(block)) && (text == "" <==> RendersEmpty(block))
  {
    var parts: seq<string> := [];
    for i := 0 to |block|
      invariant IsTextOf(Join(parts, " "), BlockRows(block[..i]))
      invariant |parts| > 0 ==> Join(parts, " ") != ""
    {
      var p := block[i];
      ghost var before := parts;
      assert block[..i + 1][..i] == block[..i];
      ItemsText(p);
      AttachBlank(BlockRows(block[..i]));
      match p.value {
        case One(Null) =>
        case One(item) =>
          AttachIsTextOf(Join(parts, " "), BlockRows(block[..i]), RenderParam(p.key, item), ParamRows(p));
          JoinAppend(parts, RenderParam(p.key, item));
          parts := parts + [RenderParam(p.key, item)];
        case Many(items) =>
          var rendered := Join(RenderItems(p.key, items), "|");
          AttachIsTextOf(Join(parts, " "), BlockRows(block[..i]), rendered, ParamRows(p));
          if rendered != "" {
            JoinAppend(parts, rendered);
            parts := parts + [rendered];
          }
      }
    }
    assert block[..|block|] == block;
    BlockRowsProper(block);
    text := Join(parts, " ");
  }

  /** What the segment list holds once the first `index` blocks have joined it. */
  ghost predicate SegmentsUpTo(segments: seq<string>, shared: seq<Row>, blocks: seq<Params>, index: nat)
    requires |shared| >= 1 && index <= |blocks|
  {
    && (if index == 0 then |segments| == 1 else NoneEmpty(segments))
    && AreSegmentsOf(segments, PipedRowsBelow(shared, blocks, index))
  }

  /** One block joins the segments: the first one continues the shared parameters. */
  method AddSegment(index: nat, segments: seq<string>, rendered: string, ghost shared: seq<Row>,
                    ghost blocks: seq<Params>)
    returns (r: seq<string>)
    requires |shared| >= 1 && index < |blocks| && SegmentsUpTo(segments, shared, blocks, index)
    requires IsTextOf(rendered, BlockRows(blocks[index])) && rendered != ""
    ensures SegmentsUpTo(r, shared, blocks, index + 1)
  {
    ghost var rows, more := PipedRowsBelow(shared, blocks, index), BlockRows(blocks[index]);
    if index == 0 {
      var only := segments[0];
      assert segments == [only] && NonEmpty([only]) == if only == "" then [] else [only];
      AttachIsTextOf(only, rows, rendered, more);
      r := segments[0 := if only != "" then only + " " + rendered else rendered];
      SingleSegment(r[0], Attach(rows, more));
    } else {
      AppendSegment(segments, rows, rendered, more);
      r := segments + [rendered];
    }
  }

  lemma {:induction false} SegmentsAtEnd(segments: seq<string>, shared: seq<Row>, blocks: seq<Params>)
    requires |shared| >= 1 && SegmentsUpTo(segments, shared, blocks, |blocks|)
    ensures IsTextOf(Join(NonEmpty(segments), "|"), PipedRows(shared, blocks))
  {
  }

  lemma {:induction false} SegmentsAtStart(first: string, shared: seq<Row>, blocks: seq<Params>)
    requires |shared| >= 1 && IsTextOf(first, shared)
    ensures SegmentsUpTo([first], shared, blocks, 0)
  {
  }

  /** One pass of the loop over the blocks; nothing if the block renders empty. */
  method JoinBlock(index: nat, segments: seq<string>, ghost shared: seq<Row>, blocks: seq<Params>)
    returns (r: Option<seq<string>>)
    requires |shared| >= 1 && index < |blocks| && SegmentsUpTo(segments, shared, blocks, index)
    ensures r.None? <==> RendersEmpty(blocks[index])
    ensures r.Some? ==> SegmentsUpTo(r.value, shared, blocks, index + 1)
  {
    var rendered := RenderBlock(blocks[index]);
    if rendered == "" {
      return None;
    }
    var joined := AddSegment(index, segments, rendered, shared, blocks);
    return Some(joined);
  }

  /** None of the first `n` blocks renders empty. */
  predicate NoEmptyBlock(blocks: seq<Params>, n: nat)
    requires n <= |blocks|
  {
    n == 0 || (NoEmptyBlock(blocks, n - 1) && !RendersEmpty(blocks[n - 1]))
  }

  lemma {:induction false} NoEmptyBlockIsForAll(blocks: seq<Params>, n: nat)
    requires n <= |blocks|
    ensures NoEmptyBlock(blocks, n) <==> forall i :: 0 <= i < n ==> !RendersEmpty(blocks[i])
  {
    if n == 0 {
    } else {
      NoEmptyBlockIsForAll(blocks, n - 1);
    }
  }

  predicate IsFirstEmpty(blocks: seq<Params>, k: nat) {
    k < |blocks| && RendersEmpty(blocks[k]) && NoEmptyBlock(blocks, k)
  }

  /** The loop over the pipelined blocks: the segments of all of them, or the first one that renders empty. */
  method JoinBlocks(first: string, ghost shared: seq<Row>, blocks: seq<Params>)
    returns (segments: seq<string>, empty: Option<nat>)
    requires |shared| >= 1 && SegmentsUpTo([first], shared, blocks, 0)
    ensures empty.Some? ==> IsFirstEmpty(blocks, empty.value)
    ensures empty.None? ==> NoEmptyBlock(blocks, |blocks|) && SegmentsUpTo(segments, shared, blocks, |blocks|)
  {
    segments := [first];
    for index := 0 to |blocks|
      invariant NoEmptyBlock(blocks, index)
      invariant SegmentsUpTo(segments, shared, blocks, index)
    {
      var joined := JoinBlock(index, segments, shared, blocks);
      if joined.None? {
        return segments, Some(index);
      }
      segments := joined.value;
    }
    return segments, None;
  }

  method RenderSegments(first: string, ghost shared: seq<Row>, blocks: seq<Params>)
    returns (r: Result<string, RenderError>)
    requires IsTextOf(first, shared) && |shared| >= 1
    ensures r.Ok? ==> NoEmptyBlock(blocks, |blocks|) && IsTextOf(r.value, PipedRows(shared, blocks))
    ensures r.Err? ==> r.error.EmptyBlock? && IsFirstEmpty(blocks, r.error.index)
  {
    SegmentsAtStart(first, shared, blocks);
    var segments, empty := JoinBlocks(first, shared, blocks);
    if empty.Some? {
      return Err(EmptyBlock(empty.value));
    }
    SegmentsAtEnd(segments, shared, blocks);
    return Ok(Join(NonEmpty(segments), "|"));
  }

  /** The source's rendering: it fails on a bad name or on the first block that renders empty. */
  method RenderCommand(c: Command) returns (r: Result<Bytes, RenderError>)
    ensures r.Ok? <==> Renderable(c)
    ensures r.Ok? <==>
            c.name != "" && ' ' !in c.name && forall k :: 0 <= k < |BlocksOf(c)| ==> BlockText(BlocksOf(c)[k]) != ""
    ensures r.Ok? ==> r.value == Encode(CommandText(c))
    ensures r.Ok? ==> r.value == Encode(RowsText(CommandRows(c)))
    ensures r == Err(InvalidName) <==> c.name == "" || ' ' in c.name
    ensures r.Err? && r.error.EmptyBlock? ==> IsFirstEmpty(BlocksOf(c), r.error.index)
  {
    NoEmptyBlockByText(BlocksOf(c));
    if c.name == "" || ' ' in c.name {
      return Err(InvalidName);
    }
    var shared := RenderBlock(c.params);
    var piped := RenderSegments(shared, BlockRows(c.params), BlocksOf(c));
    if piped.Err? {
      NoEmptyBlockIsForAll(BlocksOf(c), |BlocksOf(c)|);
      return Err(piped.error);
    }
    var parts := [c.name];
    ghost var rows := [[Prop(c.name, None)]];
    SingleText(Prop(c.name, None));
    AttachIsTextOf(c.name, rows, piped.value, PipedRows(BlockRows(c.params), BlocksOf(c)));
    if piped.value != "" {
      JoinAppend(parts, piped.value);
      parts := parts + [piped.value];
    }
    rows := Attach(rows, PipedRows(BlockRows(c.params), BlocksOf(c)));
    var text := AppendOptions(parts, rows, c.options);
    CommandTextIsOfRows(c);
    return Ok(Encode(text));
  }

  predicate Renderable(c: Command) {
    c.name != "" && ' ' !in c.name && NoEmptyBlock(BlocksOf(c), |BlocksOf(c)|)
  }

  method AppendOptions(parts: seq<string>, ghost rows: seq<Row>, options: seq<string>) returns (text: string)
    requires |parts| >= 1 && Proper(rows) && Join(parts, " ") == RowsText(rows)
    ensures text == RowsText(Attach(rows, [OptionProps(options)]))
  {
    var dashed := DashedOptions(options);
    OptionsText(options);
    if |dashed| > 0 {
      JoinConcat(parts, dashed, " ");
      AttachText(rows, [OptionProps(options)]);
    } else {
      assert parts + dashed == parts;
      AttachBlank(rows);
    }
    text := Join(parts + dashed, " ");
  }

  function DashedOptions(options: seq<string>): (r: seq<string>)
    ensures |r| == |options|
  {
    seq(|options|, i requires 0 <= i < |options| => "-" + options[i])
  }

  lemma {:induction false} OptionPropsAt(options: seq<string>)
    ensures forall i :: 0 <= i < |options| ==> OptionProps(options)[i] == Prop("-" + options[i], None)
  {
    if |options| == 0 {
    } else {
      OptionPropsAt(options[1..]);
    }
  }

  lemma {:induction false} OptionsText(options: seq<string>)
    ensures IsTextOf(Join(DashedOptions(options), " "), [OptionProps(options)])
  {
    var row := OptionProps(options);
    OptionPropsAt(options);
    assert PropTexts(row) == DashedOptions(options);
    assert RowTexts([row]) == [RowText(row)];
    if |options| > 0 {
      assert |DashedOptions(options)[0]| > 0;
    }
  }

  /** The segments that hold something. */
  function NonEmpty(parts: seq<string>): seq<string> {
    if |parts| == 0 then []
    else (if parts[0] == "" then [] else [parts[0]]) + NonEmpty(parts[1..])
  }

  predicate NoneEmpty(parts: seq<string>) {
    forall i :: 0 <= i < |parts| ==> parts[i] != ""
  }

  lemma {:induction false} NoneEmptyKept(parts: seq<string>)
    requires NoneEmpty(parts)
    ensures NonEmpty(parts) == parts
  {
    if |parts| == 0 {
    } else {
      NoneEmptyKept(parts[1..]);
    }
  }

  predicate AreSegmentsOf(segments: seq<string>, rows: seq<Row>) {
    |segments| >= 1 && IsTextOf(Join(NonEmpty(segments), "|"), rows)
  }

  lemma {:induction false} SingleSegment(text: string, rows: seq<Row>)
    requires IsTextOf(text, rows)
    ensures AreSegmentsOf([text], rows)
  {
  }

  lemma {:induction false} AppendSegment(segments: seq<string>, a: seq<Row>, t: string, b: seq<Row>)
    requires NoneEmpty(segments) && AreSegmentsOf(segments, a) && IsTextOf(t, b) && t != ""
    ensures AreSegmentsOf(segments + [t], a + b)
  {
    NoneEmptyKept(segments);
    NoneEmptyKept(segments + [t]);
    JoinConcat(segments, [t], "|");
    assert Join(segments, "|") != "" by {
      assert |segments[0]| > 0;
    }
    AppendText(a, b);
  }

  // ----- Parsing -----

  function IndexOf(s: string, c: char): (i: nat)
    ensures i <= |s| && c !in s[..i] && (i < |s| ==> s[i] == c)
  {
    if |s| == 0 || s[0] == c then 0 else 1 + IndexOf(s[1..], c)
  }

  /** `partition("=")`: only the first `=` separates. */
  function ParseProp(chunk: string): Prop {
    var i := IndexOf(chunk, '=');
    if i == |chunk| then Prop(chunk, None) else Prop(chunk[..i], Some(Escape.Unescaped(chunk[i + 1..])))
  }

  /** What a property stores in its row. */
  function Stored(p: Prop): string {
    if p.value.Some? then p.value.value else ""
  }

  function AddChunk(chunk: string, row: Record): Record {
    if chunk == "" then row else row[ParseProp(chunk).key := Stored(ParseProp(chunk))]
  }

  function AddChunks(chunks: seq<string>, row: Record): Record {
    if |chunks| == 0 then row
    else AddChunk(chunks[|chunks| - 1], AddChunks(chunks[..|chunks| - 1], row))
  }

  function RecordOfText(text: string): Record {
    AddChunks(Split(text, ' '), map[])
  }

  function RecordEach(texts: seq<string>): (r: seq<Record>)
    ensures |r| == |texts|
  {
    Map(RecordOfText, texts)
  }

  function NonEmptyRecords(records: seq<Record>): (r: seq<Record>)
    ensures forall i :: 0 <= i < |r| ==> r[i] != map[]
  {
    if |records| == 0 then []
    else
      var last := records[|records| - 1];
      NonEmptyRecords(records[..|records| - 1]) + (if last == map[] then [] else [last])
  }

  function RecordsOfTexts(texts: seq<string>): (r: seq<Record>)
    ensures forall i :: 0 <= i < |r| ==> r[i] != map[]
  {
    NonEmptyRecords(RecordEach(texts))
  }

  /** The records of a data line. */
  function DataRecords(line: Bytes): seq<Record> {
    RecordsOfTexts(DecodeEach(Split(line, PIPE)))
  }

  function BlockRecords(lines: seq<Bytes>): seq<Record> {
    if |lines| == 0 then [] else BlockRecords(lines[..|lines| - 1]) + DataRecords(lines[|lines| - 1])
  }

  method ParseRow(text: string) returns (row: Record)
    ensures row == RecordOfText(text)
  {
    var props := Split(text, ' ');
    row := map[];
    for j := 0 to |props|
      invariant row == AddChunks(props[..j], map[])
    {
      assert props[..j + 1][..j] == props[..j];
      var prop := props[j];
      if prop == "" {
        continue;
      }
      var eq := IndexOf(prop, '=');
      if eq < |prop| {
        var value := Escape.UnescapeValue(prop[eq + 1..]);
        row := row[prop[..eq] := value];
      } else {
        row := row[prop := ""];
      }
    }
    assert props[..|props|] == props;
  }

  method ParseDataLine(line: Bytes) returns (rows: seq<Record>)
    ensures rows == DataRecords(line)
  {
    rows := [];
    var pieces := Split(line, PIPE);
    ghost var records := RecordEach(DecodeEach(pieces));
    for i := 0 to |pieces|
      invariant rows == NonEmptyRecords(records[..i])
    {
      DecodeEachAt(pieces, i);
      MapAt(RecordOfText, DecodeEach(pieces), i);
      var row := ParseRow(Decode(pieces[i]));
      assert records[..i + 1][..i] == records[..i];
      if row != map[] {
        rows := rows + [row];
      }
    }
    assert records[..|pieces|] == records;
  }

  lemma {:induction false} DecodeEachAt(pieces: seq<Bytes>, i: nat)
    requires i < |pieces|
    ensures DecodeEach(pieces)[i] == Decode(pieces[i])
  {
    if i == 0 {
    } else {
      DecodeEachAt(pieces[1..], i - 1);
    }
  }

  method ParseDataBlock(lines: seq<Bytes>) returns (rows: seq<Record>)
    ensures rows == BlockRecords(lines)
  {
    rows := [];
    for i := 0 to |lines|
      invariant rows == BlockRecords(lines[..i])
    {
      assert lines[..i + 1][..i] == lines[..i];
      var more := ParseDataLine(lines[i]);
      rows := rows + more;
    }
    assert lines[..|lines|] == lines;
  }

  // ----- Line kinds and the response terminator -----

  predicate IsEventLine(line: Bytes) {
    NOTIFY <= line
  }

  predicate IsErrorLine(line: Bytes) {
    ERROR + [0x20] <= line || line == ERROR
  }

  datatype ErrorLine = ErrorLine(id: int, msg: string, extra: Record) {
    predicate Good() { id == 0 }
  }

  datatype ParseError = NotAnErrorLine | BadId(text: string)

  function DigitsValue(s: string): (r: nat)
    requires forall i :: 0 <= i < |s| ==> '0' <= s[i] <= '9'
  {
    if |s| == 0 then 0 else 10 * DigitsValue(s[..|s| - 1]) + (s[|s| - 1] as int - '0' as int)
  }

  predicate AllDigits(s: string) {
    |s| > 0 && forall i :: 0 <= i < |s| ==> '0' <= s[i] <= '9'
  }

  /** `int` on a decimal number with an optional sign. */
  function ParseInt(s: string): Option<int> {
    if AllDigits(s) then Some(DigitsValue(s))
    else if |s| > 0 && s[0] == '-' && AllDigits(s[1..]) then var n: int := DigitsValue(s[1..]); Some(-n)
    else if |s| > 0 && s[0] == '+' && AllDigits(s[1..]) then Some(DigitsValue(s[1..]))
    else None
  }

  /** The properties an error line carries after its first word. */
  function ErrorProps(line: Bytes): Record {
    AddChunks(Split(Decode(line), ' ')[1..], map[])
  }

  function ErrorOf(props: Record): Result<ErrorLine, ParseError> {
    var idText := if "id" in props then props["id"] else "-1";
    match ParseInt(idText)
    case None => Err(BadId(idText))
    case Some(id) => Ok(ErrorLine(id, if "msg" in props then props["msg"] else "", props - {"id", "msg"}))
  }

  function ParsedError(line: Bytes): Result<ErrorLine, ParseError> {
    if !IsErrorLine(line) then Err(NotAnErrorLine) else ErrorOf(ErrorProps(line))
  }

  method ParseErrorProps(line: Bytes) returns (props: Record)
    ensures props == ErrorProps(line)
  {
    props := map[];
    var chunks := Split(Decode(line), ' ')[1..];
    for i := 0 to |chunks|
      invariant props == AddChunks(chunks[..i], map[])
    {
      assert chunks[..i + 1][..i] == chunks[..i];
      var chunk := chunks[i];
      if chunk == "" {
        continue;
      }
      var eq := IndexOf(chunk, '=');
      assert chunk[..|chunk|] == chunk;
      var value := Escape.UnescapeValue(if eq < |chunk| then chunk[eq + 1..] else "");
      props := props[chunk[..eq] := value];
    }
    assert chunks[..|chunks|] == chunks;
  }

  method ParseErrorLine(line: Bytes) returns (r: Result<ErrorLine, ParseError>)
    ensures r == ParsedError(line)
  {
    if !IsErrorLine(line) {
      return Err(NotAnErrorLine);
    }
    var props := ParseErrorProps(line);
    var idText := if "id" in props then props["id"] else "-1";
    var id := ParseInt(idText);
    if id.None? {
      return Err(BadId(idText));
    }
    var msg := if "msg" in props then props["msg"] else "";
    return Ok(ErrorLine(id.value, msg, props - {"id", "msg"}));
  }
}
