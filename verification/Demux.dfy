/** The receive loop's sorting of one line stream into responses and events (src/atsq/connection.py). */
module Demux {
  import opened Sequences
  import opened Utf8
  import opened Protocol

  type Line = Bytes

  /** One response: its data lines and the error line that ends it. */
  datatype Response = Response(data: seq<Line>, terminator: Line)

  /** The lines seen so far: the unfinished response, the finished ones, and the events. */
  datatype Sorted = Sorted(partial: seq<Line>, responses: seq<Response>, events: seq<Line>)

  predicate IsResponseLine(line: Line) {
    line != [] && !IsEventLine(line)
  }

  datatype Kind = Blank | Notification | Terminator | Data

  function KindOf(line: Line): Kind {
    if line == [] then Blank
    else if IsEventLine(line) then Notification
    else if IsErrorLine(line) then Terminator
    else Data
  }

  // ----- The kinds, by the words that lines begin with -----

  /** The first bytes of a line read as this word. */
  predicate Begins(line: Line, word: string) {
    |line| >= |word| && Decode(line[..|word|]) == word
  }

  lemma {:induction false} NotifyIsEncoded()
    ensures Encode("notify") == NOTIFY
  {
    assert "notify"[1..] == "otify" && "otify"[1..] == "tify" && "tify"[1..] == "ify";
    assert "ify"[1..] == "fy" && "fy"[1..] == "y" && "y"[1..] == "";
    assert Encode("y") == [0x79];
    assert Encode("fy") == EncodeChar('f') + Encode("y");
    assert Encode("ify") == EncodeChar('i') + Encode("fy");
    assert Encode("tify") == EncodeChar('t') + Encode("ify");
    assert Encode("otify") == EncodeChar('o') + Encode("tify");
    assert Encode("notify") == EncodeChar('n') + Encode("otify");
  }

  lemma {:induction false} ErrorIsEncoded()
    ensures Encode("error") == ERROR && Encode("error ") == ERROR + [0x20]
  {
    assert "error"[1..] == "rror" && "rror"[1..] == "ror" && "ror"[1..] == "or" && "or"[1..] == "r" && "r"[1..] == "";
    assert Encode("r") == [0x72];
    assert Encode("or") == EncodeChar('o') + Encode("r");
    assert Encode("ror") == EncodeChar('r') + Encode("or");
    assert Encode("rror") == EncodeChar('r') + Encode("ror");
    assert Encode("error") == EncodeChar('e') + Encode("rror");
    EncodeConcat("error", " ");
    assert " "[1..] == "";
    assert Encode(" ") == [0x20];
    assert "error" + " " == "error ";
  }

  /** Which kind a line is of depends on its first word alone, whatever bytes follow. */
  lemma {:induction false} KindsByWords(line: Line)
    ensures KindOf(line).Blank? <==> line == []
    ensures KindOf(line).Notification? <==> Begins(line, "notify")
    ensures KindOf(line).Terminator? <==> Begins(line, "error ") || Decode(line) == "error"
    ensures KindOf(line).Data? <==>
            line != [] && !Begins(line, "notify") && !Begins(line, "error ") && Decode(line) != "error"
  {
    NotifyIsEncoded();
    ErrorIsEncoded();
    WordIsEncoded(line, "error");
    if |line| >= 6 {
      WordIsEncoded(line[..6], "notify");
      WordIsEncoded(line[..6], "error ");
    }
  }

  lemma {:induction false} WordBeginsText(word: string, last: char, text: string)
    requires IsAscii(last)
    ensures Encode(word + [last]) <= Encode(text) <==> word + [last] <= text
  {
    var whole := word + [last];
    EncodeConcat(word, [last]);
    assert [last][1..] == "" && Encode([last]) == [Ascii(last)];
    if whole <= text {
      EncodeConcat(whole, text[|whole|..]);
      assert whole + text[|whole|..] == text;
    }
    if Encode(whole) <= Encode(text) {
      var rest := Encode(text)[|Encode(whole)|..];
      assert Encode(text) == Encode(word) + [Ascii(last)] + rest;
      DecodeAroundAscii(Encode(word), last, rest);
      DecodeInvertsEncode(word);
      DecodeInvertsEncode(text);
      assert text == whole + Decode(rest);
    }
  }

  /** The same for the lines a server writes as text. */
  lemma {:induction false} KindOfText(text: string)
    ensures KindOf(Encode(text)) ==
            if text == "" then Blank
            else if "notify" <= text then Notification
            else if "error " <= text || text == "error" then Terminator
            else Data
  {
    NotifyIsEncoded();
    ErrorIsEncoded();
    WordBeginsText("notif", 'y', text);
    WordBeginsText("error", ' ', text);
    assert "notif" + ['y'] == "notify" && "error" + [' '] == "error ";
    WordIsEncoded(Encode(text), "error");
    DecodeInvertsEncode(text);
    assert text != "" ==> |EncodeChar(text[0])| > 0;
  }

  function AddAs(s: Sorted, line: Line, kind: Kind): Sorted {
    match kind
    case Blank => s
    case Notification => s.(events := s.events + [line])
    case Terminator => Sorted([], s.responses + [Response(s.partial, line)], s.events)
    case Data => s.(partial := s.partial + [line])
  }

  function Add(s: Sorted, line: Line): Sorted {
    AddAs(s, line, KindOf(line))
  }

  function Sort(lines: seq<Line>): Sorted {
    if |lines| == 0 then Sorted([], [], []) else Add(Sort(lines[..|lines| - 1]), lines[|lines| - 1])
  }

  lemma {:induction false} SortNext(lines: seq<Line>, line: Line)
    ensures Sort(lines + [line]) == Add(Sort(lines), line)
  {
  }

  /** What has been sorted stays sorted: more lines only add responses and events. */
  lemma {:induction false} SortGrows(lines: seq<Line>, whole: seq<Line>)
    requires lines <= whole
    ensures Sort(lines).responses <= Sort(whole).responses && Sort(lines).events <= Sort(whole).events
  {
    if |lines| == |whole| {
      assert lines == whole;
    } else {
      SortGrows(lines, whole[..|whole| - 1]);
    }
  }

  /** `m` interleaves `rs` and `es`, each in its own order, with blank lines anywhere. */
  ghost predicate IsMerge(m: seq<Line>, rs: seq<Line>, es: seq<Line>) {
    if |m| == 0 then rs == [] && es == []
    else
      var init, last := m[..|m| - 1], m[|m| - 1];
      || (last == [] && IsMerge(init, rs, es))
      || (rs != [] && last == rs[|rs| - 1] && IsMerge(init, rs[..|rs| - 1], es))
      || (es != [] && last == es[|es| - 1] && IsMerge(init, rs, es[..|es| - 1]))
  }

  /** However events and blank lines fall between response lines, each stream comes out on its own. */
  lemma {:induction false} MergeIsSortedApart(m: seq<Line>, rs: seq<Line>, es: seq<Line>)
    requires IsMerge(m, rs, es)
    requires forall i :: 0 <= i < |rs| ==> IsResponseLine(rs[i])
    requires forall i :: 0 <= i < |es| ==> IsEventLine(es[i])
    ensures Sort(m) == Sorted(Sort(rs).partial, Sort(rs).responses, es)
    decreases |m|
  {
    if |m| == 0 {
    } else {
      var init, last := m[..|m| - 1], m[|m| - 1];
      if last == [] && IsMerge(init, rs, es) {
        MergeIsSortedApart(init, rs, es);
      } else if rs != [] && last == rs[|rs| - 1] && IsMerge(init, rs[..|rs| - 1], es) {
        MergeIsSortedApart(init, rs[..|rs| - 1], es);
        ResponseLinesAddNoEvent(rs);
      } else {
        MergeIsSortedApart(init, rs, es[..|es| - 1]);
        assert es == es[..|es| - 1] + [last];
        assert last != [];
      }
    }
  }

  lemma {:induction false} ResponseLinesAddNoEvent(rs: seq<Line>)
    requires forall i :: 0 <= i < |rs| ==> IsResponseLine(rs[i])
    ensures Sort(rs).events == []
  {
    if |rs| == 0 {
    } else {
      ResponseLinesAddNoEvent(rs[..|rs| - 1]);
    }
  }

  /** The lines a server sends for a response. */
  function ResponseLines(r: Response): seq<Line> {
    r.data + [r.terminator]
  }

  function AllResponseLines(responses: seq<Response>): seq<Line> {
    if |responses| == 0 then []
    else AllResponseLines(responses[..|responses| - 1]) + ResponseLines(responses[|responses| - 1])
  }

  predicate IsResponse(r: Response) {
    && (forall i :: 0 <= i < |r.data| ==> IsResponseLine(r.data[i]) && !IsErrorLine(r.data[i]))
    && IsErrorLine(r.terminator)
  }

  lemma {:induction false} ErrorLineIsResponseLine(line: Line)
    requires IsErrorLine(line)
    ensures IsResponseLine(line)
  {
    assert line[0] == 0x65;
    assert NOTIFY[0] != 0x65;
  }

  lemma {:induction false} SortData(before: seq<Line>, data: seq<Line>)
    requires Sort(before).partial == []
    requires forall i :: 0 <= i < |data| ==> IsResponseLine(data[i]) && !IsErrorLine(data[i])
    ensures Sort(before + data) == Sort(before).(partial := data)
  {
    if |data| == 0 {
      assert before + data == before;
    } else {
      var n := |data| - 1;
      SortData(before, data[..n]);
      assert before + data == (before + data[..n]) + [data[n]];
      SortNext(before + data[..n], data[n]);
      assert data[..n] + [data[n]] == data;
    }
  }

  /** Sorting inverts the server's writing of responses. */
  lemma {:induction false} SortInvertsResponseLines(responses: seq<Response>)
    requires forall i :: 0 <= i < |responses| ==> IsResponse(responses[i])
    ensures Sort(AllResponseLines(responses)) == Sorted([], responses, [])
  {
    if |responses| == 0 {
    } else {
      var n := |responses| - 1;
      var before, r := AllResponseLines(responses[..n]), responses[n];
      SortInvertsResponseLines(responses[..n]);
      SortData(before, r.data);
      ErrorLineIsResponseLine(r.terminator);
      SortNext(before + r.data, r.terminator);
      assert before + ResponseLines(r) == (before + r.data) + [r.terminator];
      assert responses == responses[..n] + [r];
    }
  }

  lemma {:induction false} AllResponseLinesAre(responses: seq<Response>)
    requires forall i :: 0 <= i < |responses| ==> IsResponse(responses[i])
    ensures forall i :: 0 <= i < |AllResponseLines(responses)| ==> IsResponseLine(AllResponseLines(responses)[i])
  {
    if |responses| == 0 {
    } else {
      AllResponseLinesAre(responses[..|responses| - 1]);
      ErrorLineIsResponseLine(responses[|responses| - 1].terminator);
    }
  }

  /** The receive loop refines the two streams: any merge gives back the server's responses and events, in order. */
  lemma {:induction false} DemuxSeparates(m: seq<Line>, responses: seq<Response>, events: seq<Line>)
    requires IsMerge(m, AllResponseLines(responses), events)
    requires forall i :: 0 <= i < |responses| ==> IsResponse(responses[i])
    requires forall i :: 0 <= i < |events| ==> IsEventLine(events[i])
    ensures Sort(m) == Sorted([], responses, events)
  {
    AllResponseLinesAre(responses);
    MergeIsSortedApart(m, AllResponseLines(responses), events);
    SortInvertsResponseLines(responses);
  }
}
