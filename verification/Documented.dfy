/** Command lines as the docstring and the tests spell them out (src/atsq/protocol.py, tests/unit/test_protocol.py). */
module Documented {
  import opened Sequences
  import opened Protocol
  import Escape

  lemma {:induction false} OneArgument(p: Param)
    ensures BlockText([p]) == ParamText(p)
  {
    assert [p][..0] == [];
    assert BlockText([p]) == Spaced(BlockText([]), ParamText(p));
  }

  /** One more argument, whose value needs no escaping. */
  lemma {:induction false} TextAdds(block: Params, key: string, text: string, before: string, whole: string)
    requires forall i :: 0 <= i < |text| ==> !Escape.IsSpecial(text[i])
    requires BlockText(block) == before != "" && whole == before + " " + (key + "=" + text)
    ensures BlockText(block + [Param(key, One(Text(text)))]) == whole
  {
    Escape.PlainNotEscaped(text);
    ArgumentAdds(block, Param(key, One(Text(text))), before, key + "=" + text, whole);
  }

  lemma {:induction false} TextBegins(key: string, text: string, whole: string)
    requires forall i :: 0 <= i < |text| ==> !Escape.IsSpecial(text[i])
    requires whole == key + "=" + text
    ensures BlockText([Param(key, One(Text(text)))]) == whole
  {
    Escape.PlainNotEscaped(text);
    OneArgument(Param(key, One(Text(text))));
  }

  lemma {:induction false} ArgumentAdds(block: Params, p: Param, before: string, text: string, whole: string)
    requires BlockText(block) == before && ParamText(p) == text && whole == Spaced(before, text)
    ensures BlockText(block + [p]) == whole
  {
    assert (block + [p])[..|block|] == block;
  }

  lemma {:induction false} OneOption(text: string, option: string)
    ensures WithOptions(text, [option]) == text + " -" + option
  {
    assert [option][..0] == [];
    assert WithOptions(text, []) == text;
  }

  /** `render_command("clientlist", "uid", "away")` */
  lemma {:induction false} OptionsCarryADash()
    ensures CommandText(Command("clientlist", ["uid", "away"], None, [])) == "clientlist -uid -away"
  {
    var c := Command("clientlist", ["uid", "away"], None, []);
    assert c.options[..1] == ["uid"];
    OneOption("clientlist", "uid");
    assert SegmentsText([], [], 0) == "";
    assert WithOptions("clientlist", c.options) == WithOptions("clientlist", ["uid"]) + " -" + "away";
    assert "clientlist" + " -" + "uid" + " -" + "away" == "clientlist -uid -away";
  }

  lemma {:induction false} PlainCommand(name: string, params: Params, text: string, whole: string)
    requires name != "" && BlockText(params) == text != "" && whole == name + " " + text
    ensures CommandText(Command(name, [], None, params)) == whole
  {
  }

  lemma {:induction false} KickWords()
    ensures "clid" + "=" + "5" == "clid=5" && "clid=5" + " " + ("reasonid" + "=" + "5") == "clid=5 reasonid=5"
    ensures "clientkick" + " " + "clid=5 reasonid=5" == "clientkick clid=5 reasonid=5"
  {
  }

  /** `render_command("clientkick", clid=5, reasonid=5)` */
  lemma {:induction false} ArgumentsFollowTheName()
    ensures CommandText(Command("clientkick", [], None,
                                [Param("clid", One(Text("5"))), Param("reasonid", One(Text("5")))])) ==
            "clientkick clid=5 reasonid=5"
  {
    var p, q := Param("clid", One(Text("5"))), Param("reasonid", One(Text("5")));
    KickWords();
    TextBegins("clid", "5", "clid=5");
    TextAdds([p], "reasonid", "5", "clid=5", "clid=5 reasonid=5");
    assert [p] + [q] == [p, q];
    PlainCommand("clientkick", [p, q], "clid=5 reasonid=5", "clientkick clid=5 reasonid=5");
  }

  lemma {:induction false} JoinTwo(a: string, b: string, sep: string)
    ensures Join([a, b], sep) == a + sep + b
  {
    assert [a, b][1..] == [b];
    assert Join([b], sep) == b;
  }

  /** A list is piped: `sgid=[13, 14]`. */
  lemma {:induction false} ListsArePiped()
    ensures ParamText(Param("sgid", Many([Text("13"), Text("14")]))) == "sgid=13|sgid=14"
  {
    Escape.PlainNotEscaped("13");
    Escape.PlainNotEscaped("14");
    assert "sgid" + "=" + "13" == "sgid=13" && "sgid" + "=" + "14" == "sgid=14";
    assert ArgumentTexts("sgid", [Text("13"), Text("14")]) == ["sgid=13", "sgid=14"];
    JoinTwo("sgid=13", "sgid=14", "|");
    assert "sgid=13" + "|" + "sgid=14" == "sgid=13|sgid=14";
  }

  /** A flag is a digit; `None` and an empty list are nothing. */
  lemma {:induction false} FlagsAreDigits()
    ensures ParamText(Param("a", One(Flag(true)))) == "a=1" && ParamText(Param("b", One(Flag(false)))) == "b=0"
    ensures ParamText(Param("c", One(Null))) == "" && ParamText(Param("d", Many([]))) == ""
  {
    assert "a" + "=" + "1" == "a=1" && "b" + "=" + "0" == "b=0";
  }

  lemma {:induction false} MixedWords()
    ensures Spaced("sgid=13|sgid=14", "a=1") == "sgid=13|sgid=14 a=1"
    ensures Spaced("sgid=13|sgid=14 a=1", "b=0") == "sgid=13|sgid=14 a=1 b=0"
  {
  }

  /** A list, two flags, `None` and an empty list. */
  lemma {:induction false} ArgumentsByKind()
    ensures BlockText([Param("sgid", Many([Text("13"), Text("14")])), Param("a", One(Flag(true))),
                       Param("b", One(Flag(false))), Param("c", One(Null)), Param("d", Many([]))]) ==
            "sgid=13|sgid=14 a=1 b=0"
  {
    var p := Param("sgid", Many([Text("13"), Text("14")]));
    var a, b := Param("a", One(Flag(true))), Param("b", One(Flag(false)));
    var c, d := Param("c", One(Null)), Param("d", Many([]));
    var t, u, v := "sgid=13|sgid=14", "sgid=13|sgid=14 a=1", "sgid=13|sgid=14 a=1 b=0";
    MixedWords();
    FlagsAreDigits();
    ListsArePiped();
    OneArgument(p);
    ArgumentAdds([p], a, t, "a=1", u);
    ArgumentAdds([p] + [a], b, u, "b=0", v);
    ArgumentAdds([p] + [a] + [b], c, v, "", v);
    ArgumentAdds([p] + [a] + [b] + [c], d, v, "", v);
    assert [p] + [a] + [b] + [c] + [d] == [p, a, b, c, d];
  }

  lemma {:induction false} TwoBlocks(params: Params, first: Params, second: Params, s: string, t: string, u: string)
    requires BlockText(params) == s != "" && BlockText(first) == t != "" && BlockText(second) == u
    ensures SegmentsText(params, [first, second], 2) == s + " " + t + "|" + u
  {
    assert SegmentsText(params, [first, second], 1) == Spaced(s, t);
  }

  /** With blocks: the first joins what is shared, the second stands behind a pipe, the option behind both. */
  lemma {:induction false} BlocksArePiped(name: string, option: string, params: Params, first: Params, second: Params,
                                          s: string, t: string, u: string)
    requires name != "" && BlockText(params) == s != "" && BlockText(first) == t != "" && BlockText(second) == u
    ensures CommandText(Command(name, [option], Some([first, second]), params)) ==
            name + " " + (s + " " + t + "|" + u) + " -" + option
  {
    TwoBlocks(params, first, second, s, t, u);
    OneOption(name + " " + (s + " " + t + "|" + u), option);
  }
}
