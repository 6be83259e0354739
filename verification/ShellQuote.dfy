/**
 The quoting of environment values in the cloud-init text, against the word rules of the
 shell that reads it: sections 2.2.1 (escape character) and 2.2.2 (single quotes) of the
 POSIX.1-2017 Shell Command Language.
 */
module ShellQuote {
  import opened TextLines

  const QUOTE := '\''
  const BACKSLASH := '\\'

  // -- What is emitted ---------------------------------------------------------------

  /** A quote becomes '\'' (close, escaped quote, open). */
  function EscapeChar(c: char): string {
    if c == QUOTE then [QUOTE, BACKSLASH, QUOTE, QUOTE] else [c]
  }

  function Escape(v: string): string {
    if v == "" then "" else EscapeChar(v[0]) + Escape(v[1..])
  }

  function Assignment(k: string, v: string): string {
    "export " + k + "=" + v
  }

  /** The argument of echo. */
  function Quoted(k: string, v: string): string {
    [QUOTE] + Assignment(k, Escape(v)) + [QUOTE]
  }

  function EnvLine(k: string, v: string): string {
    "  - echo " + Quoted(k, v) + " >> /etc/slopbox/env\n"
  }

  // -- How the shell reads it -----------------------------------------------------------

  /** The words, or that a character needs more rules than these, or that a quote never closes. */
  datatype Lexed = Words(words: seq<string>) | Special | Unterminated

  predicate IsBlank(c: char) {
    c == ' ' || c == '\t'
  }

  predicate IsSpecial(c: char) {
    c in "|&;<>()$`\"*?[#~\n"
  }

  function Prepend(word: string, l: Lexed): Lexed {
    if l.Words? then Words([word] + l.words) else l
  }

  /** Outside quotes; inWord says whether word has begun. */
  function LexPlain(s: string, inWord: bool, word: string): Lexed
    decreases |s|
  {
    if s == "" then Words(if inWord then [word] else [])
    else if s[0] == QUOTE then LexQuoted(s[1..], word)
    else if s[0] == BACKSLASH then
      if |s| == 1 then Unterminated
      else if s[1] == '\n' then LexPlain(s[2..], inWord, word)
      else LexPlain(s[2..], true, word + [s[1]])
    else if IsBlank(s[0]) then
      if inWord then Prepend(word, LexPlain(s[1..], false, "")) else LexPlain(s[1..], false, "")
    else if IsSpecial(s[0]) then Special
    else LexPlain(s[1..], true, word + [s[0]])
  }

  /** Inside single quotes every character stands for itself, up to the closing quote. */
  function LexQuoted(s: string, word: string): Lexed
    decreases |s|
  {
    if s == "" then Unterminated
    else if s[0] == QUOTE then LexPlain(s[1..], true, word)
    else LexQuoted(s[1..], word + [s[0]])
  }

  function Lex(s: string): Lexed {
    LexPlain(s, false, "")
  }

  // -- Keys without quotes ------------------------------------------------------------

  lemma {:induction false} QuotedLiteral(text: string, rest: string, word: string)
    requires QUOTE !in text
    ensures LexQuoted(text + rest, word) == LexQuoted(rest, word + text)
    decreases |text|
  {
    if text == "" {
      assert text + rest == rest && word + text == word;
    } else {
      assert (text + rest)[1..] == text[1..] + rest;
      QuotedLiteral(text[1..], rest, word + [text[0]]);
      assert word + [text[0]] + text[1..] == word + text;
    }
  }

  lemma EscapedChar(c: char, rest: string, word: string)
    ensures LexQuoted(EscapeChar(c) + rest, word) == LexQuoted(rest, word + [c])
  {
    var s := EscapeChar(c) + rest;
    if c == QUOTE {
      var s1 := [BACKSLASH, QUOTE, QUOTE] + rest;
      var s2 := [QUOTE] + rest;
      assert s[1..] == s1 && s1[2..] == s2 && s2[1..] == rest;
      assert LexQuoted(s, word) == LexPlain(s1, true, word);
      assert LexPlain(s1, true, word) == LexPlain(s2, true, word + [QUOTE]);
    } else {
      assert s[1..] == rest;
    }
  }

  /** Inside quotes, reading the escaped value adds the value itself to the word. */
  lemma {:induction false} EscapedValue(v: string, rest: string, word: string)
    ensures LexQuoted(Escape(v) + rest, word) == LexQuoted(rest, word + v)
    decreases |v|
  {
    hide LexPlain, LexQuoted, EscapeChar;
    if v == "" {
      assert Escape(v) + rest == rest && word + v == word;
    } else {
      var tail := Escape(v[1..]) + rest;
      assert Escape(v) + rest == EscapeChar(v[0]) + tail;
      EscapedChar(v[0], tail, word);
      EscapedValue(v[1..], rest, word + [v[0]]);
      assert word + [v[0]] + v[1..] == word + v;
    }
  }

  lemma QuotedReadsBack(k: string, v: string)
    requires QUOTE !in k
    ensures Lex(Quoted(k, v)) == Words([Assignment(k, v)])
  {
    var head := "export " + k + "=";
    var inner := Escape(v) + [QUOTE];
    assert Quoted(k, v) == [QUOTE] + (head + inner);
    assert ([QUOTE] + (head + inner))[1..] == head + inner;
    assert Lex(Quoted(k, v)) == LexQuoted(head + inner, "");
    QuotedLiteral(head, inner, "");
    assert "" + head == head;
    EscapedValue(v, [QUOTE], head);
    assert [QUOTE][1..] == "";
    assert head + v == Assignment(k, v);
  }

  // -- Keys with quotes ----------------------------------------------------------------

  function Quotes(s: string): nat {
    if s == "" then 0 else (if s[0] == QUOTE then 1 else 0) + Quotes(s[1..])
  }

  function Length(words: seq<string>): nat {
    if words == [] then 0 else |words[0]| + Length(words[1..])
  }

  lemma {:induction false} QuotesAdd(a: string, b: string)
    ensures Quotes(a + b) == Quotes(a) + Quotes(b)
    decreases |a|
  {
    if a == "" {
      assert a + b == b;
    } else {
      assert (a + b)[1..] == a[1..] + b;
      QuotesAdd(a[1..], b);
    }
  }

  lemma {:induction false} QuotesIn(s: string)
    ensures Quotes(s) == 0 <==> QUOTE !in s
    ensures Quotes(s) <= |s|
  {
    if s != "" {
      QuotesIn(s[1..]);
      assert s == [s[0]] + s[1..];
    }
  }

  lemma {:induction false} EscapeLength(v: string)
    ensures |Escape(v)| == |v| + 3 * Quotes(v) && Quotes(Escape(v)) == 3 * Quotes(v)
  {
    if v != "" {
      EscapeLength(v[1..]);
      var head := EscapeChar(v[0]);
      QuotesAdd(head, Escape(v[1..]));
      assert head[1..] == if v[0] == QUOTE then [BACKSLASH, QUOTE, QUOTE] else [];
      if v[0] == QUOTE {
        assert head[1..][1..] == [QUOTE, QUOTE] && head[1..][1..][1..] == [QUOTE];
        assert Quotes([QUOTE]) == 1;
        assert Quotes([QUOTE, QUOTE]) == 2;
        assert Quotes(head[1..]) == 2;
      }
    }
  }

  /** No quote adds to the length of what is read. */
  lemma {:induction false} LexShrinks(s: string, quoted: bool, inWord: bool, word: string)
    requires !quoted && !inWord ==> word == ""
    ensures var l := if quoted then LexQuoted(s, word) else LexPlain(s, inWord, word);
            l.Words? ==> Length(l.words) + Quotes(s) <= |word| + |s|
    decreases |s|
  {
    if s == "" {
      assert [word][1..] == [];
    } else if s[0] == QUOTE {
      LexShrinks(s[1..], !quoted, true, word);
    } else if quoted {
      LexShrinks(s[1..], true, inWord, word + [s[0]]);
    } else if s[0] == BACKSLASH {
      if |s| > 1 {
        assert s[1..][1..] == s[2..];
        if s[1] == '\n' {
          LexShrinks(s[2..], false, inWord, word);
        } else {
          LexShrinks(s[2..], false, true, word + [s[1]]);
        }
      }
    } else if IsBlank(s[0]) {
      LexShrinks(s[1..], false, false, "");
      var rest := LexPlain(s[1..], false, "");
      if rest.Words? {
        assert ([word] + rest.words)[1..] == rest.words;
      }
    } else if !IsSpecial(s[0]) {
      LexShrinks(s[1..], false, true, word + [s[0]]);
    }
  }

  lemma QuotedKeyFails(k: string, v: string)
    requires QUOTE in k
    ensures Lex(Quoted(k, v)) != Words([Assignment(k, v)])
  {
    var s := Quoted(k, v);
    var head := "export ";
    LexShrinks(s, false, false, "");
    QuotesIn(k);
    QuotesIn(head);
    QuotesIn("=");
    EscapeLength(v);
    QuotesAdd(head, k);
    QuotesAdd(head + k, "=");
    QuotesAdd(head + k + "=", Escape(v));
    QuotesAdd([QUOTE], Assignment(k, Escape(v)));
    QuotesAdd([QUOTE] + Assignment(k, Escape(v)), [QUOTE]);
    assert Quotes([QUOTE]) == 1;
    assert [Assignment(k, v)][1..] == [];
    assert Length([Assignment(k, v)]) == |Assignment(k, v)|;
  }

  /** The shell reads back the one intended word for every value, exactly when the key has no quote. */
  lemma RoundTripIff(k: string, v: string)
    ensures Lex(Quoted(k, v)) == Words([Assignment(k, v)]) <==> QUOTE !in k
  {
    if QUOTE in k {
      QuotedKeyFails(k, v);
    } else {
      QuotedReadsBack(k, v);
    }
  }

  lemma {:induction false} PlainLiteral(text: string, rest: string, inWord: bool, word: string)
    requires forall c :: c in text ==> c != QUOTE && c != BACKSLASH && !IsBlank(c) && !IsSpecial(c)
    ensures LexPlain(text + rest, inWord, word) == LexPlain(rest, inWord || text != "", word + text)
    decreases |text|
  {
    if text == "" {
      assert text + rest == rest && word + text == word;
    } else {
      assert (text + rest)[1..] == text[1..] + rest;
      assert forall c :: c in text[1..] ==> c in text;
      PlainLiteral(text[1..], rest, true, word + [text[0]]);
      assert word + [text[0]] + text[1..] == word + text;
    }
  }

  /** So the command echo gets the one intended argument exactly when the key has no quote. */
  lemma CommandReadsBackIff(k: string, v: string)
    ensures Lex("echo " + Quoted(k, v)) == Words(["echo", Assignment(k, v)]) <==> QUOTE !in k
  {
    var s := Quoted(k, v);
    assert "echo " + s == "echo" + (" " + s);
    PlainLiteral("echo", " " + s, false, "");
    assert "" + "echo" == "echo" && (" " + s)[1..] == s;
    assert Lex("echo " + s) == Prepend("echo", Lex(s));
    RoundTripIff(k, v);
    if Lex(s).Words? {
      assert (["echo"] + Lex(s).words)[1..] == Lex(s).words;
      assert ["echo", Assignment(k, v)][1..] == [Assignment(k, v)];
    }
  }

  lemma EscapeInjective(v: string, w: string)
    ensures Escape(v) == Escape(w) <==> v == w
  {
    if Escape(v) == Escape(w) {
      QuotedReadsBack("", v);
      QuotedReadsBack("", w);
      assert Assignment("", v)[8..] == v && Assignment("", w)[8..] == w;
    }
  }

  // -- The loop over the environment ------------------------------------------------------

  /** The lines for the listed variables, in that order. */
  function EnvLines(env: map<string, string>, keys: seq<string>): string
    requires forall k :: k in keys ==> k in env
    decreases |keys|
  {
    if keys == [] then ""
    else var last := keys[|keys| - 1]; EnvLines(env, keys[..|keys| - 1]) + EnvLine(last, env[last])
  }

  /** str::replace of the quote, character by character. */
  method ReplaceQuotes(v: string) returns (escaped: string)
    ensures escaped == Escape(v)
  {
    escaped := "";
    for i := 0 to |v|
      invariant escaped + Escape(v[i..]) == Escape(v)
    {
      assert v[i..][1..] == v[i + 1..];
      escaped := escaped + EscapeChar(v[i]);
    }
    assert v[|v|..] == "";
  }

  /** One line for each variable, once, in the order in which the hash map yields them. */
  method AppendEnvLines(env: map<string, string>) returns (lines: string, order: seq<string>)
    ensures forall k :: k in order <==> k in env
    ensures forall i, j :: 0 <= i < j < |order| ==> order[i] != order[j]
    ensures lines == EnvLines(env, order)
  {
    hide EnvLine;
    lines, order := "", [];
    var keys := env.Keys;
    while keys != {}
      invariant keys <= env.Keys && forall k :: k in order <==> k in env && k !in keys
      invariant forall i, j :: 0 <= i < j < |order| ==> order[i] != order[j]
      invariant lines == EnvLines(env, order)
      decreases keys
    {
      var k :| k in keys;
      var escaped := ReplaceQuotes(env[k]);
      var line := FormatLine(k, env[k], escaped);
      lines := lines + line;
      keys := keys - {k};
      assert (order + [k])[..|order|] == order;
      order := order + [k];
    }
  }

  method FormatLine(k: string, ghost v: string, escaped: string) returns (line: string)
    requires escaped == Escape(v)
    ensures line == EnvLine(k, v)
  {
    line := "  - echo " + ([QUOTE] + ("export " + k + "=" + escaped) + [QUOTE]) + " >> /etc/slopbox/env\n";
  }

  // -- What the lines do ------------------------------------------------------------------

  /**
   Each line is a list item that runs one command and appends its output to the env file;
   the command is echo of the one word that exports the value, exactly when the key has no
   quote, the character of code 39.
   */
  lemma EnvLineEchoes(k: string, v: string) returns (command: string)
    ensures EnvLine(k, v) == "  - " + command + " >> /etc/slopbox/env\n"
    ensures Lex(command) == Words(["echo", "export " + k + "=" + v]) <==> (39 as char) !in k
  {
    command := "echo " + Quoted(k, v);
    CommandReadsBackIff(k, v);
    assert "  - " + command == "  - echo " + Quoted(k, v);
  }

  lemma {:induction false} EscapeKeepsLines(v: string)
    requires '\n' !in v
    ensures '\n' !in Escape(v)
  {
    if v != "" {
      assert forall c :: c in v[1..] ==> c in v;
      EscapeKeepsLines(v[1..]);
    }
  }

  /** Without newlines of their own, the variables take one line each, in their order. */
  lemma {:induction false} OneLineEach(env: map<string, string>, keys: seq<string>)
    requires forall k :: k in keys ==> k in env && '\n' !in k && '\n' !in env[k]
    ensures var text := EnvLines(env, keys);
            && Complete(text) && |Lines(text)| == |keys|
            && forall i :: 0 <= i < |keys| ==> Lines(text)[i] + "\n" == EnvLine(keys[i], env[keys[i]])
    decreases |keys|
  {
    if keys != [] {
      hide EnvLine, LinesFrom, Quoted;
      var init, last := keys[..|keys| - 1], keys[|keys| - 1];
      OneLineEach(env, init);
      var line := LineWithoutEnd(last, env[last]);
      OneLineMore(EnvLines(env, init), line);
    }
  }

  lemma LineWithoutEnd(k: string, v: string) returns (line: string)
    requires '\n' !in k && '\n' !in v
    ensures '\n' !in line && line + "\n" == EnvLine(k, v)
  {
    EscapeKeepsLines(v);
    var head, tail := "  - echo " + Quoted(k, v), " >> /etc/slopbox/env";
    line := head + tail;
    assert '\n' !in Quoted(k, v) && '\n' !in tail && '\n' !in head;
    assert tail + "\n" == " >> /etc/slopbox/env\n";
    assert line + "\n" == head + (tail + "\n");
  }
}
