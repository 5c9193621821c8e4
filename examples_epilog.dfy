/** The usage examples placed in the root parser's epilog
    (`_build_examples`): a header line, then one line per module key. */
module ExamplesEpilog {

  const Header: string := "\n\nExamples:"
  const Trailer: string := "\n    "

  /** The example line for one module key. */
  function ExampleLine(toolName: string, key: string): string
  {
    "\n  - " + toolName + ".py " + key + " ..."
  }

  /** The joined example lines, in key order. */
  function ExampleLines(toolName: string, keys: seq<string>): string
  {
    if keys == [] then "" else ExampleLine(toolName, keys[0]) + ExampleLines(toolName, keys[1..])
  }

  /** The epilog: the header, the example lines, then the trailer; with
      no module it is the header and the trailer alone. */
  function BuildExamples(toolName: string, keys: seq<string>): (epilog: string)
    ensures |epilog| >= |Header| + |Trailer|
    ensures epilog[..|Header|] == Header
    ensures epilog[|epilog| - |Trailer|..] == Trailer
    ensures keys == [] ==> epilog == Header + Trailer
  {
    Header + ExampleLines(toolName, keys) + Trailer
  }

  /** How many times `c` occurs in `s`. */
  function Occurrences(c: char, s: string): nat
  {
    if s == [] then 0 else (if s[0] == c then 1 else 0) + Occurrences(c, s[1..])
  }

  lemma {:induction false} OccurrencesConcat(c: char, s: string, t: string)
    ensures Occurrences(c, s + t) == Occurrences(c, s) + Occurrences(c, t)
  {
    if s == [] {
      assert s + t == t;
    } else {
      assert (s + t)[1..] == s[1..] + t;
      OccurrencesConcat(c, s[1..], t);
    }
  }

  lemma {:induction false} OccurrencesAbsent(c: char, s: string)
    requires c !in s
    ensures Occurrences(c, s) == 0
  {
    if s != [] {
      OccurrencesAbsent(c, s[1..]);
    }
  }

  /** Joining the lines of two key lists is joining their lines. */
  lemma {:induction false} ExampleLinesAppend(toolName: string, keys: seq<string>, more: seq<string>)
    ensures ExampleLines(toolName, keys + more) == ExampleLines(toolName, keys) + ExampleLines(toolName, more)
  {
    if keys == [] {
      assert keys + more == more;
    } else {
      assert (keys + more)[1..] == keys[1..] + more;
      ExampleLinesAppend(toolName, keys[1..], more);
    }
  }

  /** When neither the tool name nor a key holds a line break, the epilog
      has exactly one line per module after the header's three breaks
      (two blank lines and the trailer). */
  lemma {:induction false} EpilogLineCount(toolName: string, keys: seq<string>)
    requires '\n' !in toolName
    requires forall i :: 0 <= i < |keys| ==> '\n' !in keys[i]
    ensures Occurrences('\n', BuildExamples(toolName, keys)) == |keys| + 3
  {
    LinesCount(toolName, keys);
    OccurrencesConcat('\n', Header, ExampleLines(toolName, keys));
    OccurrencesConcat('\n', Header + ExampleLines(toolName, keys), Trailer);
    FrameBreaks();
  }

  lemma FrameBreaks()
    ensures Occurrences('\n', Header) == 2 && Occurrences('\n', Trailer) == 1
  {
  }

  /** One example line holds one line break, the one it starts with. */
  lemma LineBreaksOfLine(toolName: string, key: string)
    requires '\n' !in toolName && '\n' !in key
    ensures Occurrences('\n', ExampleLine(toolName, key)) == 1
  {
    var lead := "\n  - ";
    var tail := toolName + ".py " + key + " ...";
    assert ExampleLine(toolName, key) == lead + tail;
    OccurrencesConcat('\n', lead, tail);
    OccurrencesAbsent('\n', tail);
    assert Occurrences('\n', lead) == 1;
  }

  lemma {:induction false} LinesCount(toolName: string, keys: seq<string>)
    requires '\n' !in toolName
    requires forall i :: 0 <= i < |keys| ==> '\n' !in keys[i]
    ensures Occurrences('\n', ExampleLines(toolName, keys)) == |keys|
  {
    if keys != [] {
      LinesCount(toolName, keys[1..]);
      LineBreaksOfLine(toolName, keys[0]);
      OccurrencesConcat('\n', ExampleLine(toolName, keys[0]), ExampleLines(toolName, keys[1..]));
    }
  }

  /** The line for the i-th key stands in the epilog right after the lines
      of the keys before it, so the lines follow the keys' order. */
  lemma ExampleLineAt(toolName: string, keys: seq<string>, i: int)
    requires 0 <= i < |keys|
    ensures var start := |Header| + |ExampleLines(toolName, keys[..i])|;
            var epilog := BuildExamples(toolName, keys);
            && start + |ExampleLine(toolName, keys[i])| <= |epilog|
            && epilog[start..start + |ExampleLine(toolName, keys[i])|] == ExampleLine(toolName, keys[i])
  {
    assert keys == keys[..i] + keys[i..];
    ExampleLinesAppend(toolName, keys[..i], keys[i..]);
    var before := ExampleLines(toolName, keys[..i]);
    var line := ExampleLine(toolName, keys[i]);
    var after := ExampleLines(toolName, keys[i + 1..]);
    assert keys[i..][1..] == keys[i + 1..];
    assert ExampleLines(toolName, keys[i..]) == line + after;
    var epilog := BuildExamples(toolName, keys);
    assert epilog == (Header + before) + line + (after + Trailer);
  }
}
