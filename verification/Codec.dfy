/** What the printer and the parsers of src/atsq/protocol.py promise together. */
module Codec {
  import opened Sequences
  import opened Utf8
  import opened Protocol
  import Demux
  import Escape
  import Flood

  // ----- Rows as records -----

  /** A row read as a record: a later property replaces an earlier one with the same key. */
  function RowRecord(row: Row): Record {
    if |row| == 0 then map[]
    else RowRecord(row[..|row| - 1])[row[|row| - 1].key := Stored(row[|row| - 1])]
  }

  function RowRecords(rows: seq<Row>): (r: seq<Record>)
    ensures |r| == |rows|
    ensures forall i :: 0 <= i < |rows| ==> r[i] == RowRecord(rows[i])
  {
    seq(|rows|, i requires 0 <= i < |rows| => RowRecord(rows[i]))
  }

  /** The last property with a key, if there is one. */
  function LastWith(row: Row, key: string): (r: Option<nat>)
    ensures r.Some? ==> r.value < |row| && row[r.value].key == key
    ensures r.Some? ==> forall j :: r.value < j < |row| ==> row[j].key != key
    ensures r.None? ==> forall j :: 0 <= j < |row| ==> row[j].key != key
  {
    if |row| == 0 then None
    else if row[|row| - 1].key == key then Some(|row| - 1)
    else
      assert forall j :: 0 <= j < |row| - 1 ==> row[..|row| - 1][j] == row[j];
      LastWith(row[..|row| - 1], key)
  }

  /** A key is in the record exactly if a property has it, and the last such property decides. */
  lemma {:induction false} LastPropertyWins(row: Row, key: string)
    ensures key in RowRecord(row) <==> LastWith(row, key).Some?
    ensures LastWith(row, key).Some? ==> RowRecord(row)[key] == Stored(row[LastWith(row, key).value])
  {
    if |row| == 0 {
    } else {
      LastPropertyWins(row[..|row| - 1], key);
    }
  }

  // ----- Well-formed commands -----

  /** Text that may stand unescaped on a line as a key, a name or an option. */
  predicate Clean(s: string) {
    ' ' !in s && '=' !in s && '|' !in s && '\n' !in s && '\r' !in s
  }

  predicate CleanBlock(block: Params) {
    forall i :: 0 <= i < |block| ==> Clean(block[i].key)
  }

  predicate CleanCommand(c: Command) {
    && Clean(c.name)
    && (forall i :: 0 <= i < |c.options| ==> Clean(c.options[i]))
    && CleanBlock(c.params)
    && (forall i :: 0 <= i < |BlocksOf(c)| ==> CleanBlock(BlocksOf(c)[i]))
  }

  predicate CleanProp(p: Prop) {
    Clean(p.key) && (p.value.None? ==> p.key != "")
  }

  predicate CleanRow(row: Row) {
    forall j :: 0 <= j < |row| ==> CleanProp(row[j])
  }

  predicate CleanRows(rows: seq<Row>) {
    forall i :: 0 <= i < |rows| ==> CleanRow(rows[i])
  }

  lemma {:induction false} AttachClean(a: seq<Row>, b: seq<Row>)
    requires |a| >= 1 && |b| >= 1 && CleanRows(a) && CleanRows(b)
    ensures CleanRows(Attach(a, b))
  {
  }

  lemma {:induction false} BlockRowsClean(block: Params)
    requires CleanBlock(block)
    ensures CleanRows(BlockRows(block))
  {
    if |block| == 0 {
    } else {
      var n := |block| - 1;
      BlockRowsClean(block[..n]);
      ParamRowsClean(block[n]);
      AttachClean(BlockRows(block[..n]), ParamRows(block[n]));
    }
  }

  lemma {:induction false} ParamRowsClean(p: Param)
    requires Clean(p.key)
    ensures CleanRows(ParamRows(p))
  {
    if p.value.Many? {
      ItemRowsProper(p.key, p.value.items);
    }
  }

  lemma {:induction false} PipedRowsClean(shared: seq<Row>, blocks: seq<Params>, n: nat)
    requires |shared| >= 1 && CleanRows(shared) && n <= |blocks|
    requires forall i :: 0 <= i < |blocks| ==> CleanBlock(blocks[i])
    ensures CleanRows(PipedRowsBelow(shared, blocks, n))
  {
    if n == 0 {
    } else {
      BlockRowsClean(blocks[n - 1]);
      if n == 1 {
        AttachClean(shared, BlockRows(blocks[0]));
      } else {
        PipedRowsClean(shared, blocks, n - 1);
      }
    }
  }

  lemma {:induction false} PipedRowsProper(shared: seq<Row>, blocks: seq<Params>, n: nat)
    requires (Blank(shared) || Proper(shared)) && n <= |blocks|
    requires NoEmptyBlock(blocks, n)
    ensures Blank(PipedRowsBelow(shared, blocks, n)) || Proper(PipedRowsBelow(shared, blocks, n))
    ensures n > 0 ==> Proper(PipedRowsBelow(shared, blocks, n))
  {
    if n == 0 {
    } else {
      BlockRowsProper(blocks[n - 1]);
      if n == 1 {
        AttachProper(shared, BlockRows(blocks[0]));
      } else {
        PipedRowsProper(shared, blocks, n - 1);
        AppendProper(PipedRowsBelow(shared, blocks, n - 1), BlockRows(blocks[n - 1]));
      }
    }
  }

  lemma {:induction false} AppendProper(a: seq<Row>, b: seq<Row>)
    requires Proper(a) && Proper(b)
    ensures Proper(a + b)
  {
  }

  lemma {:induction false} CommandRowsProper(c: Command)
    requires Renderable(c)
    ensures Proper(CommandRows(c))
  {
    var name, options := [[Prop(c.name, None)]], [OptionProps(c.options)];
    var piped := PipedRows(BlockRows(c.params), BlocksOf(c));
    BlockRowsProper(c.params);
    PipedRowsProper(BlockRows(c.params), BlocksOf(c), |BlocksOf(c)|);
    AttachProper(name, piped);
    AttachProper(Attach(name, piped), options);
  }

  lemma {:induction false} CommandRowsClean(c: Command)
    requires Renderable(c) && CleanCommand(c)
    ensures CleanRows(CommandRows(c))
  {
    var name, options := [[Prop(c.name, None)]], [OptionProps(c.options)];
    var piped := PipedRows(BlockRows(c.params), BlocksOf(c));
    BlockRowsClean(c.params);
    PipedRowsClean(BlockRows(c.params), BlocksOf(c), |BlocksOf(c)|);
    OptionPropsAt(c.options);
    assert CleanRow(OptionProps(c.options));
    assert CleanRows(name);
    AttachClean(name, piped);
    AttachClean(Attach(name, piped), options);
  }

  // ----- Round trip: rows to text to bytes to records -----

  lemma {:induction false} PropTextHasNoStructure(p: Prop, x: char)
    requires CleanProp(p) && x in [' ', '|', '\n', '\r']
    ensures x !in PropText(p)
  {
    if p.value.Some? {
      Escape.EscapedHasNoStructure(p.value.value, x);
    }
  }

  lemma {:induction false} ParsePropOfText(p: Prop)
    requires CleanProp(p)
    ensures PropText(p) != "" && ParseProp(PropText(p)) == p
  {
    var text := PropText(p);
    if p.value.Some? {
      var k := |p.key|;
      Escape.UnescapeInvertsEscape(p.value.value);
      assert text[..k] == p.key && text[k] == '=';
      FirstIndex(text, '=', k);
      assert text[k + 1..] == Escape.Escaped(p.value.value);
    } else {
      FirstIndex(text, '=', |text|);
    }
  }

  lemma {:induction false} FirstIndex(s: string, c: char, k: nat)
    requires k <= |s| && c !in s[..k] && (k < |s| ==> s[k] == c)
    ensures IndexOf(s, c) == k
  {
  }

  lemma {:induction false} AddChunksOfRow(row: Row)
    requires CleanRow(row)
    ensures AddChunks(PropTexts(row), map[]) == RowRecord(row)
  {
    if |row| == 0 {
    } else {
      var n := |row| - 1;
      AddChunksOfRow(row[..n]);
      ParsePropOfText(row[n]);
      assert PropTexts(row)[..n] == PropTexts(row[..n]);
    }
  }

  lemma {:induction false} RecordOfRowText(row: Row)
    requires CleanRow(row) && |row| >= 1
    ensures RecordOfText(RowText(row)) == RowRecord(row) && RowRecord(row) != map[]
  {
    ChunksOfRowText(row);
    AddChunksOfRow(row);
    assert row[|row| - 1].key in RowRecord(row);
  }

  lemma {:induction false} AllKept(records: seq<Record>)
    requires forall i :: 0 <= i < |records| ==> records[i] != map[]
    ensures NonEmptyRecords(records) == records
  {
    if |records| == 0 {
    } else {
      AllKept(records[..|records| - 1]);
    }
  }

  lemma {:induction false} RecordsOfRowTexts(rows: seq<Row>)
    requires CleanRows(rows) && Proper(rows)
    ensures RecordsOfTexts(RowTexts(rows)) == RowRecords(rows)
  {
    forall i | 0 <= i < |rows| ensures RecordEach(RowTexts(rows))[i] == RowRecord(rows[i]) != map[] {
      RecordOfRowText(rows[i]);
      MapAt(RecordOfText, RowTexts(rows), i);
    }
    assert RecordEach(RowTexts(rows)) == RowRecords(rows);
    AllKept(RowRecords(rows));
  }

  lemma {:induction false} RowTextHasNoStructure(row: Row, x: char)
    requires CleanRow(row) && x in ['|', '\n', '\r']
    ensures x !in RowText(row)
  {
    forall j | 0 <= j < |row| ensures x !in PropTexts(row)[j] {
      PropTextHasNoStructure(row[j], x);
    }
    JoinFree(PropTexts(row), " ", x);
  }

  /** Clean rows survive printing, UTF-8 and parsing. */
  lemma {:induction false} RowsRoundTrip(rows: seq<Row>)
    requires Proper(rows) && CleanRows(rows)
    ensures DataRecords(Encode(RowsText(rows))) == RowRecords(rows)
  {
    var text := RowsText(rows);
    forall i | 0 <= i < |rows| ensures '|' !in RowTexts(rows)[i] {
      RowTextHasNoStructure(rows[i], '|');
    }
    SplitJoin(RowTexts(rows), '|');
    DecodeInvertsEncode(text);
    DecodeCommutesWithSplit(Encode(text), '|');
    RecordsOfRowTexts(rows);
  }

  /** A rendered command parses back to the rows it stands for. */
  lemma {:induction false} CommandRoundTrip(c: Command)
    requires Renderable(c) && CleanCommand(c)
    ensures DataRecords(Encode(RowsText(CommandRows(c)))) == RowRecords(CommandRows(c))
  {
    CommandRowsProper(c);
    CommandRowsClean(c);
    RowsRoundTrip(CommandRows(c));
  }

  lemma {:induction false} RowsAreOneLine(rows: seq<Row>)
    requires CleanRows(rows)
    ensures 0x0A !in Encode(RowsText(rows)) && 0x0D !in Encode(RowsText(rows))
  {
    forall i | 0 <= i < |rows| ensures '\n' !in RowTexts(rows)[i] && '\r' !in RowTexts(rows)[i] {
      RowTextHasNoStructure(rows[i], '\n');
      RowTextHasNoStructure(rows[i], '\r');
    }
    JoinFree(RowTexts(rows), "|", '\n');
    JoinFree(RowTexts(rows), "|", '\r');
    EncodeKeepsAsciiOut(RowsText(rows), '\n');
    EncodeKeepsAsciiOut(RowsText(rows), '\r');
  }

  /** A rendered command is one line: neither newline nor carriage return. */
  lemma {:induction false} CommandIsOneLine(c: Command)
    requires Renderable(c) && CleanCommand(c)
    ensures 0x0A !in Encode(RowsText(CommandRows(c))) && 0x0D !in Encode(RowsText(CommandRows(c)))
  {
    CommandRowsClean(c);
    RowsAreOneLine(CommandRows(c));
  }

  // ----- The parser is a homomorphism -----

  lemma {:induction false} NonEmptyRecordsConcat(a: seq<Record>, b: seq<Record>)
    ensures NonEmptyRecords(a + b) == NonEmptyRecords(a) + NonEmptyRecords(b)
  {
    if |b| == 0 {
      assert a + b == a;
    } else {
      var n := |b| - 1;
      NonEmptyRecordsConcat(a, b[..n]);
      assert (a + b)[..|a| + n] == a + b[..n];
    }
  }

  lemma {:induction false} RecordsOfTextsConcat(a: seq<string>, b: seq<string>)
    ensures RecordsOfTexts(a + b) == RecordsOfTexts(a) + RecordsOfTexts(b)
  {
    NonEmptyRecordsConcat(RecordEach(a), RecordEach(b));
    MapConcat(RecordOfText, a, b);
  }

  /** A pipe cuts any line, of whatever bytes, into lines that parse on their own. */
  lemma {:induction false} DataRecordsOfPiped(a: Bytes, b: Bytes)
    ensures DataRecords(a + [PIPE] + b) == DataRecords(a) + DataRecords(b)
  {
    SplitConcat(a, PIPE, b);
    DecodeEachConcat(Split(a, PIPE), Split(b, PIPE));
    RecordsOfTextsConcat(DecodeEach(Split(a, PIPE)), DecodeEach(Split(b, PIPE)));
  }

  lemma {:induction false} RecordsOfLast(lines: seq<Bytes>, records: seq<Record>, last: seq<Record>)
    requires |lines| > 0 && BlockRecords(lines[..|lines| - 1]) == records && DataRecords(lines[|lines| - 1]) == last
    ensures BlockRecords(lines) == records + last
  {
  }

  lemma {:induction false} JoinLast(lines: seq<Bytes>)
    requires |lines| > 1
    ensures var n := |lines| - 1;
            Join(lines, [PIPE]) == Join(lines[..n], [PIPE]) + [PIPE] + lines[n]
  {
    var n := |lines| - 1;
    assert lines == lines[..n] + [lines[n]];
    JoinConcat(lines[..n], [lines[n]], [PIPE]);
  }

  lemma {:induction false} RecordsOfOne(lines: seq<Bytes>)
    requires |lines| == 1
    ensures BlockRecords(lines) == DataRecords(lines[0]) && Join(lines, [PIPE]) == lines[0]
  {
    RecordsOfLast(lines, [], DataRecords(lines[0]));
  }

  lemma {:induction false} RecordsOfWhole(lines: seq<Bytes>, joined: Bytes, whole: Bytes)
    requires |lines| > 0 && BlockRecords(lines[..|lines| - 1]) == DataRecords(joined)
    requires whole == joined + [PIPE] + lines[|lines| - 1]
    ensures BlockRecords(lines) == DataRecords(whole)
  {
    DataRecordsOfPiped(joined, lines[|lines| - 1]);
    RecordsOfLast(lines, DataRecords(joined), DataRecords(lines[|lines| - 1]));
  }

  /** Parsing a response line by line is parsing its lines joined by pipes. */
  lemma {:induction false} BlockRecordsOfJoined(lines: seq<Bytes>)
    ensures BlockRecords(lines) == DataRecords(Join(lines, [PIPE]))
  {
    if |lines| == 0 {
      EmptyLineHasNoRecords();
    } else if |lines| == 1 {
      RecordsOfOne(lines);
    } else {
      BlockRecordsOfJoined(lines[..|lines| - 1]);
      JoinLast(lines);
      RecordsOfWhole(lines, Join(lines[..|lines| - 1], [PIPE]), Join(lines, [PIPE]));
    }
  }

  lemma {:induction false} EmptyLineHasNoRecords()
    ensures DataRecords([]) == []
  {
    assert Split<byte>([], PIPE) == [[]];
    assert DecodeEach([[]]) == [""];
    assert Split("", ' ') == [""];
    assert AddChunks([""], map[]) == AddChunk("", AddChunks([""][..0], map[]));
    MapAt(RecordOfText, [""], 0);
    assert RecordEach([""]) == [map[]];
  }

  /** Parsing the decoded line piece by piece gives the same records as decoding each piece, for all bytes. */
  lemma {:induction false} DataRecordsOfDecoded(line: Bytes)
    ensures DataRecords(line) == RecordsOfTexts(Split(Decode(line), '|'))
  {
    DecodeCommutesWithSplit(line, '|');
  }

  // ----- The two parsers agree -----

  lemma {:induction false} AddChunksMerge(chunks: seq<string>, row: Record)
    ensures AddChunks(chunks, row) == row + AddChunks(chunks, map[])
  {
    if |chunks| == 0 {
    } else {
      AddChunksMerge(chunks[..|chunks| - 1], row);
    }
  }

  lemma {:induction false} AddChunksConcat(a: seq<string>, b: seq<string>, row: Record)
    ensures AddChunks(a + b, row) == AddChunks(b, AddChunks(a, row))
  {
    if |b| == 0 {
      assert a + b == a;
    } else {
      var n := |b| - 1;
      AddChunksConcat(a, b[..n], row);
      assert (a + b)[..|a| + n] == a + b[..n];
    }
  }

  lemma {:induction false} ErrorLineParts(line: Bytes)
    requires IsErrorLine(line) && line != ERROR
    ensures line == ERROR + [Ascii(' ')] + line[6..]
  {
  }

  lemma {:induction false} FirstChunk(rest: Bytes)
    ensures Split(Decode(ERROR + [Ascii(' ')] + rest), ' ')[0] == "error"
  {
    DecodeErrorWord();
    DecodeAroundAscii(ERROR, ' ', rest);
    SplitWithoutSeparator("error", ' ');
    SplitConcat("error", ' ', Decode(rest));
  }

  lemma {:induction false} ErrorLineText(line: Bytes)
    requires IsErrorLine(line)
    ensures Split(Decode(line), ' ')[0] == "error"
  {
    if line == ERROR {
      DecodeErrorWord();
      SplitWithoutSeparator("error", ' ');
    } else {
      ErrorLineParts(line);
      FirstChunk(line[6..]);
    }
  }

  lemma {:induction false} DecodeErrorWord()
    ensures Decode(ERROR) == "error"
  {
  }

  /** A chunk that sets the key `error`: the bare word, or the word and a value. */
  predicate SetsError(chunk: string) {
    chunk == "error" || "error=" <= chunk
  }

  predicate AnySetsError(chunks: seq<string>) {
    exists i :: 0 <= i < |chunks| && SetsError(chunks[i])
  }

  lemma {:induction false} SetsErrorIsKey(chunk: string)
    ensures SetsError(chunk) <==> ParseProp(chunk).key == "error"
  {
    if "error=" <= chunk {
      FirstIndex(chunk, '=', 5);
    }
  }

  /** A key is collected exactly if a chunk that is not empty carries it. */
  lemma {:induction false} KeysOfChunks(chunks: seq<string>, key: string)
    ensures key in AddChunks(chunks, map[]) <==>
            exists i :: 0 <= i < |chunks| && chunks[i] != "" && ParseProp(chunks[i]).key == key
  {
    if |chunks| == 0 {
    } else {
      var n := |chunks| - 1;
      KeysOfChunks(chunks[..n], key);
      assert chunks == chunks[..n] + [chunks[n]];
    }
  }

  lemma {:induction false} ErrorIsRepeated(chunks: seq<string>)
    ensures "error" in AddChunks(chunks, map[]) <==> AnySetsError(chunks)
  {
    KeysOfChunks(chunks, "error");
    forall i | 0 <= i < |chunks|
      ensures SetsError(chunks[i]) <==> chunks[i] != "" && ParseProp(chunks[i]).key == "error"
    {
      SetsErrorIsKey(chunks[i]);
    }
  }

  /**
   The row a data parse finds in an error line is the properties of the terminator parse plus the
   leading word, and the two differ by that word alone exactly when no later chunk sets its key.
   */
  lemma {:induction false} ParsersAgreeOnErrorLines(line: Bytes)
    requires IsErrorLine(line) && PIPE !in line
    ensures |DataRecords(line)| == 1
    ensures DataRecords(line)[0] == map["error" := ""] + ErrorProps(line)
    ensures DataRecords(line)[0] - {"error"} == ErrorProps(line) <==> !AnySetsError(Split(Decode(line), ' ')[1..])
  {
    var row := map["error" := ""] + ErrorProps(line);
    ErrorRecord(line);
    WithoutLeadingWord(ErrorProps(line));
    LineWithoutPipe(line, row);
    ErrorIsRepeated(Split(Decode(line), ' ')[1..]);
  }

  lemma {:induction false} LineWithoutPipe(line: Bytes, row: Record)
    requires PIPE !in line && RecordOfText(Decode(line)) == row && row != map[]
    ensures DataRecords(line) == [row]
  {
    SplitWithoutSeparator(line, PIPE);
    assert DecodeEach([line]) == [Decode(line)];
    MapAt(RecordOfText, [Decode(line)], 0);
    assert RecordEach([Decode(line)]) == [row];
    AllKept([row]);
  }

  lemma {:induction false} WithoutLeadingWord(props: Record)
    ensures (map["error" := ""] + props) - {"error"} == props <==> "error" !in props
    ensures map["error" := ""] + props != map[]
  {
  }

  lemma {:induction false} ErrorRecord(line: Bytes)
    requires IsErrorLine(line)
    ensures RecordOfText(Decode(line)) == map["error" := ""] + ErrorProps(line)
  {
    var chunks := Split(Decode(line), ' ');
    ErrorLineText(line);
    assert chunks == ["error"] + chunks[1..];
    FirstChunkIsError(chunks[1..]);
  }

  lemma {:induction false} FirstChunkIsError(rest: seq<string>)
    ensures AddChunks(["error"] + rest, map[]) == map["error" := ""] + AddChunks(rest, map[])
  {
    AddChunksConcat(["error"], rest, map[]);
    AddChunksMerge(rest, map["error" := ""]);
    FirstIndex("error", '=', 5);
    assert ["error"][..0] == [];
    assert ParseProp("error") == Prop("error", None);
    assert AddChunk("error", map[]) == map["error" := ""];
  }

  // ----- Round trip of the terminator -----

  /** The terminator that carries a row of properties. */
  function Terminator(row: Row): Bytes {
    ERROR + [Ascii(' ')] + Encode(RowText(row))
  }

  /** The properties a server puts into a terminator come out of it: clean keys, any Unicode values. */
  lemma {:induction false} TerminatorRoundTrip(row: Row)
    requires CleanRow(row) && |row| >= 1
    ensures IsErrorLine(Terminator(row)) && ParsedError(Terminator(row)) == ErrorOf(RowRecord(row))
  {
    var text := RowText(row);
    DecodeErrorWord();
    DecodeInvertsEncode(text);
    DecodeAroundAscii(ERROR, ' ', Encode(text));
    SplitWithoutSeparator("error", ' ');
    SplitConcat("error", ' ', text);
    ChunksOfRowText(row);
    assert Split(Decode(Terminator(row)), ' ')[1..] == PropTexts(row);
    AddChunksOfRow(row);
  }

  lemma {:induction false} ChunksOfRowText(row: Row)
    requires CleanRow(row) && |row| >= 1
    ensures Split(RowText(row), ' ') == PropTexts(row)
  {
    forall j | 0 <= j < |row| ensures ' ' !in PropTexts(row)[j] {
      PropTextHasNoStructure(row[j], ' ');
    }
    SplitJoin(PropTexts(row), ' ');
  }

  const OK_ROW: Row := [Prop("id", Some("0")), Prop("msg", Some("ok"))]

  lemma {:induction false} OkRowRecord()
    ensures CleanRow(OK_ROW) && RowRecord(OK_ROW) == map["id" := "0", "msg" := "ok"]
  {
    assert OK_ROW[..1] == [OK_ROW[0]] && OK_ROW[..1][..0] == [];
    assert RowRecord(OK_ROW[..1]) == map["id" := "0"];
  }

  lemma {:induction false} ErrorOfOk(props: Record)
    requires props == map["id" := "0", "msg" := "ok"]
    ensures ErrorOf(props) == Ok(ErrorLine(0, "ok", map[]))
  {
    assert "0"[..0] == "";
    assert DigitsValue("0") == 0;
    assert props - {"id", "msg"} == map[];
  }

  /** The everyday terminator `error id=0 msg=ok`. */
  lemma {:induction false} OkTerminator()
    ensures IsErrorLine(Terminator(OK_ROW)) && ParsedError(Terminator(OK_ROW)) == Ok(ErrorLine(0, "ok", map[]))
  {
    OkRowRecord();
    ErrorOfOk(RowRecord(OK_ROW));
    TerminatorRoundTrip(OK_ROW);
  }

  // ----- The parsers, by the text alone -----

  /** No text, no properties. */
  lemma {:induction false} EmptyTextRead()
    ensures RecordOfText("") == map[]
  {
    assert Split("", ' ') == [""];
    assert [""][..0] == [];
    assert AddChunks([""], map[]) == AddChunk("", AddChunks([], map[]));
  }

  lemma {:induction false} OneChunkRead(chunk: string)
    requires ' ' !in chunk
    ensures RecordOfText(chunk) == AddChunk(chunk, map[])
  {
    SplitWithoutSeparator(chunk, ' ');
    assert [chunk][..0] == [];
    assert AddChunks([chunk], map[]) == AddChunk(chunk, AddChunks([], map[]));
  }

  /** A word without `=` is a key with nothing to it. */
  lemma {:induction false} WordRead(word: string)
    requires word != "" && ' ' !in word && '=' !in word
    ensures RecordOfText(word) == map[word := ""]
  {
    OneChunkRead(word);
    FirstIndex(word, '=', |word|);
  }

  /** The first `=` ends the key; all that follows is the value, escaped. */
  lemma {:induction false} PairRead(key: string, escaped: string)
    requires ' ' !in key && '=' !in key && ' ' !in escaped
    ensures RecordOfText(key + "=" + escaped) == map[key := Escape.Unescaped(escaped)]
  {
    var chunk := key + "=" + escaped;
    OneChunkRead(chunk);
    assert chunk[..|key|] == key;
    FirstIndex(chunk, '=', |key|);
    assert chunk[|key| + 1..] == escaped;
  }

  /** A space puts two texts together; where both have a key, the later one counts. */
  lemma {:induction false} SpacedRead(a: string, b: string)
    ensures RecordOfText(a + " " + b) == RecordOfText(a) + RecordOfText(b)
  {
    SplitConcat(a, ' ', b);
    assert a + " " + b == a + [' '] + b;
    AddChunksConcat(Split(a, ' '), Split(b, ' '), map[]);
    AddChunksMerge(Split(b, ' '), RecordOfText(a));
  }

  /** A line without a pipe is one record, or none if it has no properties. */
  lemma {:induction false} LineRead(line: Bytes)
    requires 0x7C !in line
    ensures DataRecords(line) ==
            if RecordOfText(Decode(line)) == map[] then [] else [RecordOfText(Decode(line))]
  {
    var row := RecordOfText(Decode(line));
    SplitWithoutSeparator(line, PIPE);
    assert DecodeEach([line]) == [Decode(line)];
    MapAt(RecordOfText, [Decode(line)], 0);
    assert RecordEach([Decode(line)]) == [row];
    OneRecord(row);
  }

  lemma {:induction false} OneRecord(row: Record)
    ensures NonEmptyRecords([row]) == if row == map[] then [] else [row]
  {
    assert [row][..0] == [];
  }

  /** A pipe ends one record and begins the next, in any line of any bytes. */
  lemma {:induction false} PipeRead(a: Bytes, b: Bytes)
    ensures DataRecords(a + [0x7C] + b) == DataRecords(a) + DataRecords(b)
  {
    DataRecordsOfPiped(a, b);
  }

  // ----- Terminators, by the text alone -----

  lemma {:induction false} ErrorPropsOfText(text: string)
    ensures ParsedError(Encode("error " + text)) == ErrorOf(RecordOfText(text))
  {
    DecodeInvertsEncode("error " + text);
    SplitConcat("error", ' ', text);
    SplitWithoutSeparator("error", ' ');
    assert "error " + text == "error" + [' '] + text;
    assert (["error"] + Split(text, ' '))[1..] == Split(text, ' ');
    Demux.KindOfText("error " + text);
  }

  /** `s` is no whole number: it is empty, or has a character that no number has. */
  predicate IsNoNumber(s: string) {
    s == "" || exists i :: 0 <= i < |s| && s[i] !in "+-0123456789"
  }

  /** `s` is the number `k` in decimal digits, with or without a sign. */
  predicate IsNumber(s: string, k: int) {
    || (k >= 0 && (s == Flood.Decimal(k) || s == "+" + Flood.Decimal(k)))
    || (k <= 0 && s == "-" + Flood.Decimal(-k))
  }

  lemma {:induction false} NumberParsed(s: string, k: int)
    requires IsNumber(s, k)
    ensures ParseInt(s) == Some(k)
  {
    var digits := Flood.Decimal(if k < 0 then -k else k);
    assert ("-" + digits)[1..] == digits && ("+" + digits)[1..] == digits;
    assert ("-" + digits)[0] == '-' && ("+" + digits)[0] == '+';
  }

  lemma {:induction false} NoNumberParsed(s: string)
    requires IsNoNumber(s)
    ensures ParseInt(s) == None
  {
    if s != "" {
      var i :| 0 <= i < |s| && s[i] !in "+-0123456789";
      assert i > 0 ==> s[1..][i - 1] == s[i];
    }
  }

  /**
   What a terminator with these properties says: the number behind `id`, which is -1 if there is none, the
   text behind `msg`, and all other properties. What stands behind `id` and is no number makes it unreadable.
   */
  predicate Says(props: Record, k: int, parsed: Result<ErrorLine, ParseError>) {
    && (parsed.Ok? ==> parsed.value.extra == props - {"id", "msg"})
    && (parsed.Ok? ==> parsed.value.msg == if "msg" in props then props["msg"] else "")
    && ("id" !in props ==> parsed.Ok? && parsed.value.id == -1)
    && ("id" in props && IsNumber(props["id"], k) ==> parsed.Ok? && parsed.value.id == k)
    && ("id" in props && IsNoNumber(props["id"]) ==> parsed == Err(BadId(props["id"])))
  }

  lemma {:induction false} ErrorOfSays(props: Record, k: int)
    ensures Says(props, k, ErrorOf(props))
  {
    if "id" !in props {
      Flood.DecimalDigits(0, 1);
      NumberParsed("-1", -1);
    } else if IsNumber(props["id"], k) {
      NumberParsed(props["id"], k);
    }
    if "id" in props && IsNoNumber(props["id"]) {
      NoNumberParsed(props["id"]);
    }
  }

  /** The parser reads a terminator as it says, whatever its text. */
  lemma {:induction false} TerminatorRead(text: string, k: int)
    ensures Says(RecordOfText(text), k, ParsedError(Encode("error " + text)))
  {
    ErrorPropsOfText(text);
    ErrorOfSays(RecordOfText(text), k);
  }

  /** `id=<id> msg=<m>`, the message escaped. */
  function IdAndMessage(id: string, m: string): string {
    "id=" + id + " " + ("msg=" + Escape.Escaped(m))
  }

  /** Any clean key and any value, escaped, are read back. */
  lemma {:induction false} ValueRead(key: string, value: string)
    requires ' ' !in key && '=' !in key
    ensures RecordOfText(key + "=" + Escape.Escaped(value)) == map[key := value]
  {
    Escape.EscapedHasNoStructure(value, ' ');
    Escape.UnescapeInvertsEscape(value);
    PairRead(key, Escape.Escaped(value));
  }

  lemma {:induction false} NumberNotEscaped(id: string, k: int)
    requires IsNumber(id, k)
    ensures Escape.Escaped(id) == id
  {
    forall i | 0 <= i < |id| ensures !Escape.IsSpecial(id[i]) {
      assert '0' <= id[i] <= '9' || id[i] == '-' || id[i] == '+';
    }
    Escape.PlainNotEscaped(id);
  }

  lemma {:induction false} IdAndMessageRead(id: string, m: string, k: int)
    requires IsNumber(id, k)
    ensures RecordOfText(IdAndMessage(id, m)) == map["id" := id, "msg" := m]
  {
    NumberNotEscaped(id, k);
    ValueRead("id", id);
    ValueRead("msg", m);
    assert "id" + "=" == "id=" && "msg" + "=" == "msg=";
    SpacedRead("id=" + id, "msg=" + Escape.Escaped(m));
  }

  lemma {:induction false} SaysIdAndMessage(
      props: Record, id: string, m: string, k: int, parsed: Result<ErrorLine, ParseError>)
    requires props == map["id" := id, "msg" := m] && IsNumber(id, k) && Says(props, k, parsed)
    ensures parsed == Ok(ErrorLine(k, m, map[]))
  {
    assert props - {"id", "msg"} == map[];
  }

  /** A server's terminator with any number and any message is read as that number and that message. */
  lemma {:induction false} NumberedTerminatorRead(id: string, k: int, m: string)
    requires IsNumber(id, k)
    ensures ParsedError(Encode("error " + IdAndMessage(id, m))) == Ok(ErrorLine(k, m, map[]))
  {
    IdAndMessageRead(id, m, k);
    TerminatorRead(IdAndMessage(id, m), k);
    SaysIdAndMessage(map["id" := id, "msg" := m], id, m, k, ParsedError(Encode("error " + IdAndMessage(id, m))));
  }

  /** The same for a terminator that carries any clean row. */
  lemma {:induction false} RowTerminatorRead(row: Row, k: int)
    requires CleanRow(row) && |row| >= 1
    ensures Says(RowRecord(row), k, ParsedError(Encode("error " + RowText(row))))
  {
    RecordOfRowText(row);
    TerminatorRead(RowText(row), k);
  }
}
