/** Reading text back: lines up to their newline, and the two sides of a separator. */
module TextLines {
  import opened Prelude

  /** The lines of s, the first of them continuing line; text after the last newline is no line. */
  function LinesFrom(s: string, line: string): seq<string>
    decreases |s|
  {
    if s == "" then []
    else if s[0] == '\n' then [line] + LinesFrom(s[1..], "")
    else LinesFrom(s[1..], line + [s[0]])
  }

  function Lines(s: string): seq<string> {
    LinesFrom(s, "")
  }

  /** Nothing is left over after the last newline. */
  predicate Complete(s: string) {
    s == "" || s[|s| - 1] == '\n'
  }

  lemma {:induction false} LinesConcat(a: string, b: string, line: string)
    requires Complete(a)
    ensures LinesFrom(a + b, line) == LinesFrom(a, line) + LinesFrom(b, if a == "" then line else "")
    decreases |a|
  {
    if a == "" {
      assert a + b == b;
    } else {
      assert (a + b)[1..] == a[1..] + b;
      LinesConcat(a[1..], b, if a[0] == '\n' then "" else line + [a[0]]);
    }
  }

  lemma {:induction false} OneLine(text: string, line: string)
    requires '\n' !in text
    ensures LinesFrom(text + "\n", line) == [line + text]
    decreases |text|
  {
    if text == "" {
      assert text + "\n" == "\n" && "\n"[1..] == "" && line + text == line;
    } else {
      assert (text + "\n")[1..] == text[1..] + "\n";
      OneLine(text[1..], line + [text[0]]);
      assert line + [text[0]] + text[1..] == line + text;
    }
  }

  lemma OneLineMore(a: string, text: string)
    requires Complete(a) && '\n' !in text
    ensures Lines(a + (text + "\n")) == Lines(a) + [text] && Complete(a + (text + "\n"))
  {
    LinesConcat(a, text + "\n", "");
    OneLine(text, "");
    assert "" + text == text;
  }

  /** split_once: what is before and after the first separator. */
  function SplitOnce(s: string, separator: char): Option<(string, string)>
    decreases |s|
  {
    if s == "" then None
    else if s[0] == separator then Some(("", s[1..]))
    else match SplitOnce(s[1..], separator)
      case None => None
      case Some((a, b)) => Some(([s[0]] + a, b))
  }

  /** The two parts are those that were joined exactly when the first part has no separator. */
  lemma {:induction false} SplitOfJoined(a: string, b: string, separator: char)
    ensures SplitOnce(a + [separator] + b, separator) == Some((a, b)) <==> separator !in a
    decreases |a|
  {
    var s := a + [separator] + b;
    if a == "" {
      assert s[1..] == b;
    } else {
      assert s[1..] == a[1..] + [separator] + b;
      SplitOfJoined(a[1..], b, separator);
      assert a == [a[0]] + a[1..];
      if s[0] != separator && SplitOnce(s[1..], separator).Some? {
        assert ([s[0]] + SplitOnce(s[1..], separator).value.0)[1..] == SplitOnce(s[1..], separator).value.0;
      }
    }
  }
}
