/**
 * The input side of the REPL in main.go: cleanInput (strings.ToLower, then
 * strings.Fields) and the split of the tokens into a command word and an
 * optional argument, followed by the lookup in the command table.
 *
 * Characters are restricted to ASCII behaviour: only 'A'..'Z' are lowered and
 * only the six ASCII white-space characters separate fields.
 */
module Input {
  import opened Wrappers

  /** The ASCII white space of strings.Fields: tab, newline, vertical tab, form feed, carriage return, space. */
  predicate IsSpace(c: char)
  {
    c == ' ' || c == '\t' || c == '\n' || c == '\r' || c as int == 11 || c as int == 12
  }

  predicate IsUpper(c: char)
  {
    'A' <= c <= 'Z'
  }

  /** A field: a non-empty run of characters without white space. */
  predicate IsWord(w: string)
  {
    w != [] && forall i :: 0 <= i < |w| ==> !IsSpace(w[i])
  }

  predicate AllSpace(s: string)
  {
    forall i :: 0 <= i < |s| ==> IsSpace(s[i])
  }

  predicate NoUpper(s: string)
  {
    forall i :: 0 <= i < |s| ==> !IsUpper(s[i])
  }

  function LowerChar(c: char): (d: char)
    ensures !IsUpper(d)
    ensures IsSpace(d) <==> IsSpace(c)
    ensures !IsUpper(c) ==> d == c
    ensures IsUpper(c) ==> 'a' <= d <= 'z' && d as int - 'a' as int == c as int - 'A' as int
  {
    if IsUpper(c) then (c as int + 32) as char else c
  }

  /** strings.ToLower, restricted to ASCII letters. */
  function Lower(s: string): (r: string)
    ensures |r| == |s|
    ensures forall i :: 0 <= i < |s| ==> r[i] == LowerChar(s[i])
    ensures NoUpper(r)
  {
    seq(|s|, i requires 0 <= i < |s| => LowerChar(s[i]))
  }

  /** The length of the longest prefix of `s` without white space. */
  function LeadingWord(s: string): (n: nat)
    ensures n <= |s|
    ensures forall i :: 0 <= i < n ==> !IsSpace(s[i])
    ensures n < |s| ==> IsSpace(s[n])
  {
    if s == [] || IsSpace(s[0]) then 0 else 1 + LeadingWord(s[1..])
  }

  /** strings.Fields: the maximal runs of non-white-space characters, in order. */
  function Fields(s: string): (r: seq<string>)
    ensures forall i :: 0 <= i < |r| ==> IsWord(r[i])
    decreases |s|
  {
    if s == [] then []
    else if IsSpace(s[0]) then Fields(s[1..])
    else
      var n := LeadingWord(s);
      [s[..n]] + Fields(s[n..])
  }

  /** cleanInput */
  function CleanInput(text: string): (r: seq<string>)
    ensures forall i :: 0 <= i < |r| ==> IsWord(r[i]) && NoUpper(r[i])
  {
    FieldsNoUpper(Lower(text));
    Fields(Lower(text))
  }

  // ---------------------------------------------------------------------------
  // An independent description of a line: white-space gaps around the words.

  /** gaps[0] + words[0] + gaps[1] + ... + words[n-1] + gaps[n] */
  function Layout(gaps: seq<string>, words: seq<string>): string
    requires |gaps| == |words| + 1
  {
    if words == [] then gaps[0] else gaps[0] + words[0] + Layout(gaps[1..], words[1..])
  }

  /** The gaps are white space, the inner ones non-empty, and the words are fields. */
  predicate WellSeparated(gaps: seq<string>, words: seq<string>)
  {
    && |gaps| == |words| + 1
    && (forall i :: 0 <= i < |gaps| ==> AllSpace(gaps[i]))
    && (forall i :: 0 < i < |words| ==> gaps[i] != [])
    && (forall i :: 0 <= i < |words| ==> IsWord(words[i]))
  }

  /** The white-space gaps of `s`, one more than its fields. */
  function Gaps(s: string): (r: seq<string>)
    ensures |r| == |Fields(s)| + 1
    decreases |s|
  {
    if s == [] then [[]]
    else if IsSpace(s[0]) then
      var g := Gaps(s[1..]);
      [[s[0]] + g[0]] + g[1..]
    else
      [[]] + Gaps(s[LeadingWord(s)..])
  }

  /** Leading white space is skipped. */
  lemma {:induction false} FieldsSkipSpace(sp: string, rest: string)
    requires AllSpace(sp)
    ensures Fields(sp + rest) == Fields(rest)
    decreases |sp|
  {
    if sp == [] {
      assert sp + rest == rest;
    } else {
      var s := sp + rest;
      assert s[0] == sp[0] && s[1..] == sp[1..] + rest;
      FieldsSkipSpace(sp[1..], rest);
    }
  }

  lemma {:induction false} LeadingWordOf(w: string, rest: string)
    requires forall i :: 0 <= i < |w| ==> !IsSpace(w[i])
    requires rest == [] || IsSpace(rest[0])
    ensures LeadingWord(w + rest) == |w|
    decreases |w|
  {
    if w != [] {
      assert (w + rest)[1..] == w[1..] + rest;
      LeadingWordOf(w[1..], rest);
    }
  }

  /** A field followed by the end of the line or by white space is the next token. */
  lemma FieldsWord(w: string, rest: string)
    requires IsWord(w)
    requires rest == [] || IsSpace(rest[0])
    ensures Fields(w + rest) == [w] + Fields(rest)
  {
    LeadingWordOf(w, rest);
    var s := w + rest;
    assert s[..|w|] == w;
    assert s[|w|..] == rest;
  }

  lemma LayoutStartsWithGap(gaps: seq<string>, words: seq<string>)
    requires |gaps| == |words| + 1
    requires gaps[0] != []
    ensures Layout(gaps, words) != [] && Layout(gaps, words)[0] == gaps[0][0]
  {
  }

  /** Every well-separated line splits back into exactly its words. */
  lemma {:induction false} FieldsOfLayout(gaps: seq<string>, words: seq<string>)
    requires WellSeparated(gaps, words)
    ensures Fields(Layout(gaps, words)) == words
    decreases |words|
  {
    if words == [] {
      assert Fields(gaps[0] + []) == Fields([]) by { FieldsSkipSpace(gaps[0], []); }
      assert gaps[0] + [] == gaps[0];
    } else {
      var tail := Layout(gaps[1..], words[1..]);
      assert WellSeparated(gaps[1..], words[1..]) by {
        assert forall i :: 0 < i < |words[1..]| ==> gaps[1..][i] == gaps[i + 1];
      }
      FieldsOfLayout(gaps[1..], words[1..]);
      assert tail == [] || IsSpace(tail[0]) by {
        if words[1..] == [] {
          assert tail == gaps[1];
          assert AllSpace(gaps[1]);
        } else {
          assert gaps[1..][0] == gaps[1] != [];
          LayoutStartsWithGap(gaps[1..], words[1..]);
          assert AllSpace(gaps[1]);
        }
      }
      calc {
        Fields(Layout(gaps, words));
        { assert Layout(gaps, words) == gaps[0] + (words[0] + tail); }
        Fields(gaps[0] + (words[0] + tail));
        { FieldsSkipSpace(gaps[0], words[0] + tail); }
        Fields(words[0] + tail);
        { FieldsWord(words[0], tail); }
        [words[0]] + Fields(tail);
        [words[0]] + words[1..];
        words;
      }
    }
  }

  /** Prefixing white space to the first gap prefixes it to the line. */
  lemma LayoutWiderGap(x: string, gaps: seq<string>, words: seq<string>)
    requires |gaps| == |words| + 1
    ensures Layout([x + gaps[0]] + gaps[1..], words) == x + Layout(gaps, words)
  {
    var gaps' := [x + gaps[0]] + gaps[1..];
    assert gaps'[0] == x + gaps[0] && gaps'[1..] == gaps[1..];
    if words != [] {
      assert (x + gaps[0]) + words[0] + Layout(gaps[1..], words[1..])
          == x + (gaps[0] + words[0] + Layout(gaps[1..], words[1..]));
    }
  }

  /** The case of LayoutOfFields for a line that starts with white space. */
  lemma LayoutOfFieldsSpace(s: string)
    requires s != [] && IsSpace(s[0])
    requires WellSeparated(Gaps(s[1..]), Fields(s[1..]))
    requires Layout(Gaps(s[1..]), Fields(s[1..])) == s[1..]
    ensures WellSeparated(Gaps(s), Fields(s))
    ensures Layout(Gaps(s), Fields(s)) == s
  {
    var g, f := Gaps(s[1..]), Fields(s[1..]);
    assert Gaps(s) == [[s[0]] + g[0]] + g[1..];
    assert Fields(s) == f;
    LayoutWiderGap([s[0]], g, f);
    assert [s[0]] + s[1..] == s;
    assert AllSpace([s[0]] + g[0]) by {
      assert AllSpace(g[0]);
    }
    assert forall i :: 0 < i < |g| ==> Gaps(s)[i] == g[i];
  }

  /** A line that starts with white space has a non-empty first gap. */
  lemma GapsFirstNonEmpty(t: string)
    requires t != [] && IsSpace(t[0])
    ensures Gaps(t)[0] != []
  {
    var g' := Gaps(t[1..]);
    assert Gaps(t) == [[t[0]] + g'[0]] + g'[1..];
  }

  /** A word placed in front of a layout, with an empty gap before it. */
  lemma WellSeparatedCons(w: string, g: seq<string>, f: seq<string>)
    requires IsWord(w) && WellSeparated(g, f)
    requires f != [] ==> g[0] != []
    ensures WellSeparated([[]] + g, [w] + f)
    ensures Layout([[]] + g, [w] + f) == w + Layout(g, f)
  {
    var gs, fs := [[]] + g, [w] + f;
    assert gs[1..] == g && fs[1..] == f;
    assert forall i :: 0 < i < |gs| ==> gs[i] == g[i - 1];
    assert forall i :: 0 < i < |fs| ==> fs[i] == f[i - 1];
    assert AllSpace(gs[0]);
    assert [] + w == w;
  }

  /** One step of Fields and Gaps over a leading field. */
  lemma UnfoldWord(s: string, n: nat)
    requires s != [] && !IsSpace(s[0]) && n == LeadingWord(s)
    ensures Gaps(s) == [[]] + Gaps(s[n..])
    ensures Fields(s) == [s[..n]] + Fields(s[n..])
  {
  }

  /** The leading field of a line, and what follows it. */
  lemma WordPrefix(s: string, n: nat)
    requires s != [] && !IsSpace(s[0]) && n == LeadingWord(s)
    ensures IsWord(s[..n])
    ensures s[..n] + s[n..] == s
    ensures s[n..] != [] ==> IsSpace(s[n..][0])
  {
    assert n > 0;
    assert forall i :: 0 <= i < n ==> s[..n][i] == s[i];
    if n < |s| {
      assert s[n..][0] == s[n];
    }
  }

  /** The case of LayoutOfFields for a line that starts with a field. */
  lemma LayoutOfFieldsWord(s: string, n: nat)
    requires s != [] && !IsSpace(s[0]) && n == LeadingWord(s)
    requires WellSeparated(Gaps(s[n..]), Fields(s[n..]))
    requires Layout(Gaps(s[n..]), Fields(s[n..])) == s[n..]
    ensures WellSeparated(Gaps(s), Fields(s))
    ensures Layout(Gaps(s), Fields(s)) == s
  {
    UnfoldWord(s, n);
    WordPrefix(s, n);
    var rest := s[n..];
    if Fields(rest) != [] {
      assert rest != [];
      GapsFirstNonEmpty(rest);
    }
    WellSeparatedCons(s[..n], Gaps(rest), Fields(rest));
  }

  /** Every line is the layout of its own fields with its own gaps. */
  lemma {:induction false} LayoutOfFields(s: string)
    ensures WellSeparated(Gaps(s), Fields(s))
    ensures Layout(Gaps(s), Fields(s)) == s
    decreases |s|
  {
    if s == [] {
    } else if IsSpace(s[0]) {
      LayoutOfFields(s[1..]);
      LayoutOfFieldsSpace(s);
    } else {
      var n := LeadingWord(s);
      LayoutOfFields(s[n..]);
      LayoutOfFieldsWord(s, n);
    }
  }

  /** Fields(s) == words exactly when s lays out words with some well-separated gaps. */
  lemma FieldsCharacterized(s: string, words: seq<string>)
    ensures Fields(s) == words <==> exists gaps :: WellSeparated(gaps, words) && Layout(gaps, words) == s
  {
    if Fields(s) == words {
      LayoutOfFields(s);
    }
    if gaps :| WellSeparated(gaps, words) && Layout(gaps, words) == s {
      FieldsOfLayout(gaps, words);
    }
  }

  // ---------------------------------------------------------------------------
  // Properties of cleanInput.

  /** The text with its white space removed. */
  function Strip(s: string): (r: string)
  {
    if s == [] then [] else (if IsSpace(s[0]) then [] else [s[0]]) + Strip(s[1..])
  }

  function Concat(ws: seq<string>): string
  {
    if ws == [] then [] else ws[0] + Concat(ws[1..])
  }

  lemma {:induction false} StripAppend(a: string, b: string)
    ensures Strip(a + b) == Strip(a) + Strip(b)
    decreases |a|
  {
    if a == [] {
      assert a + b == b;
    } else {
      var s := a + b;
      assert s[0] == a[0] && s[1..] == a[1..] + b;
      StripAppend(a[1..], b);
    }
  }

  lemma {:induction false} StripWord(w: string)
    requires forall i :: 0 <= i < |w| ==> !IsSpace(w[i])
    ensures Strip(w) == w
    decreases |w|
  {
    if w != [] {
      StripWord(w[1..]);
    }
  }

  /** No character other than white space is lost, and the fields keep their order. */
  lemma {:induction false} FieldsConcat(s: string)
    ensures Concat(Fields(s)) == Strip(s)
    decreases |s|
  {
    if s == [] {
    } else if IsSpace(s[0]) {
      FieldsConcat(s[1..]);
    } else {
      var n := LeadingWord(s);
      FieldsConcat(s[n..]);
      assert s == s[..n] + s[n..];
      StripAppend(s[..n], s[n..]);
      StripWord(s[..n]);
      assert Fields(s)[1..] == Fields(s[n..]);
    }
  }

  /** A line of white space only has no fields, and only such a line. */
  lemma {:induction false} FieldsEmptyIff(s: string)
    ensures Fields(s) == [] <==> AllSpace(s)
    decreases |s|
  {
    if s != [] {
      FieldsEmptyIff(s[1..]);
      if IsSpace(s[0]) {
        assert AllSpace(s) <==> AllSpace(s[1..]) by {
          if AllSpace(s[1..]) {
            assert forall i :: 1 <= i < |s| ==> s[i] == s[1..][i - 1];
          }
        }
      }
    }
  }

  /** Fields of a text without upper-case letters have none either. */
  lemma {:induction false} FieldsNoUpper(s: string)
    requires NoUpper(s)
    ensures forall i :: 0 <= i < |Fields(s)| ==> NoUpper(Fields(s)[i])
    decreases |s|
  {
    if s != [] {
      if IsSpace(s[0]) {
        FieldsNoUpper(s[1..]);
      } else {
        var n := LeadingWord(s);
        FieldsNoUpper(s[n..]);
      }
    }
  }

  /** Every token of cleanInput is a non-empty, white-space free, lower-case word. */
  lemma CleanInputTokens(text: string)
    ensures forall i :: 0 <= i < |CleanInput(text)| ==> IsWord(CleanInput(text)[i]) && NoUpper(CleanInput(text)[i])
  {
    FieldsNoUpper(Lower(text));
  }

  /** The tokens, run together, are the lowered text without its white space. */
  lemma CleanInputKeepsOrder(text: string)
    ensures Concat(CleanInput(text)) == Strip(Lower(text))
  {
    FieldsConcat(Lower(text));
  }

  /** cleanInput is empty exactly for an empty or all-white-space line. */
  lemma CleanInputEmptyIff(text: string)
    ensures CleanInput(text) == [] <==> AllSpace(text)
  {
    FieldsEmptyIff(Lower(text));
    assert AllSpace(Lower(text)) <==> AllSpace(text);
  }

  // ---------------------------------------------------------------------------
  // Cases of the table test of cleanInput.

  lemma LayoutCons(gap: string, gaps: seq<string>, word: string, words: seq<string>)
    requires |gaps| == |words| + 1
    ensures Layout([gap] + gaps, [word] + words) == gap + word + Layout(gaps, words)
  {
    assert ([gap] + gaps)[1..] == gaps && ([word] + words)[1..] == words;
  }

  /** A line without upper-case letters is its own lowering. */
  lemma LowerUnchanged(line: string)
    requires NoUpper(line)
    ensures Lower(line) == line
  {
  }

  /** cleanInput of a line whose lowering is a well-separated layout of `words`. */
  lemma CleanInputOfLayout(line: string, gaps: seq<string>, words: seq<string>)
    requires WellSeparated(gaps, words)
    requires Lower(line) == Layout(gaps, words)
    ensures CleanInput(line) == words
  {
    FieldsOfLayout(gaps, words);
  }

  lemma SpacedWordsLayout()
    ensures WellSeparated(["  ", "  ", "  "], ["hello", "world"])
    ensures Layout(["  ", "  ", "  "], ["hello", "world"]) == "  hello  world  "
  {
    LayoutCons("  ", ["  ", "  "], "hello", ["world"]);
    LayoutCons("  ", ["  "], "world", []);
  }

  lemma CleanInputSpacedWords()
    ensures CleanInput("  hello  world  ") == ["hello", "world"]
  {
    LowerUnchanged("  hello  world  ");
    SpacedWordsLayout();
    CleanInputOfLayout("  hello  world  ", ["  ", "  ", "  "], ["hello", "world"]);
  }

  lemma LowersWordsLowered()
    ensures Lower(" HELLO WORLD THIS IS CHARMander ") == " hello world this is charmander "
  {
  }

  lemma LowersWordsSeparated()
    ensures WellSeparated([" ", " ", " ", " ", " ", " "], ["hello", "world", "this", "is", "charmander"])
  {
  }

  lemma LowersWordsLayoutTail()
    ensures Layout([" ", " ", " "], ["is", "charmander"]) == " is charmander "
  {
    LayoutCons(" ", [" ", " "], "is", ["charmander"]);
    LayoutCons(" ", [" "], "charmander", []);
  }

  lemma LowersWordsLayout()
    ensures Layout([" ", " ", " ", " ", " ", " "], ["hello", "world", "this", "is", "charmander"])
         == " hello world this is charmander "
  {
    LowersWordsLayoutTail();
    LayoutCons(" ", [" ", " ", " ", " ", " "], "hello", ["world", "this", "is", "charmander"]);
    LayoutCons(" ", [" ", " ", " ", " "], "world", ["this", "is", "charmander"]);
    LayoutCons(" ", [" ", " ", " "], "this", ["is", "charmander"]);
  }

  lemma CleanInputLowersWords()
    ensures CleanInput(" HELLO WORLD THIS IS CHARMander ") == ["hello", "world", "this", "is", "charmander"]
  {
    LowersWordsLowered();
    LowersWordsSeparated();
    LowersWordsLayout();
    CleanInputOfLayout(" HELLO WORLD THIS IS CHARMander ",
      [" ", " ", " ", " ", " ", " "], ["hello", "world", "this", "is", "charmander"]);
  }

  lemma CleanInputEmptyLine()
    ensures CleanInput("") == []
  {
  }

  lemma CleanInputTab()
    ensures CleanInput("hello\tworld") == ["hello", "world"]
  {
    LowerUnchanged("hello\tworld");
    LayoutCons("", ["\t", ""], "hello", ["world"]);
    LayoutCons("\t", [""], "world", []);
    CleanInputOfLayout("hello\tworld", ["", "\t", ""], ["hello", "world"]);
  }

  lemma CleanInputNewline()
    ensures CleanInput("foo\nbar") == ["foo", "bar"]
  {
    LowerUnchanged("foo\nbar");
    LayoutCons("", ["\n", ""], "foo", ["bar"]);
    LayoutCons("\n", [""], "bar", []);
    CleanInputOfLayout("foo\nbar", ["", "\n", ""], ["foo", "bar"]);
  }

  lemma SpacedThreeSeparated()
    ensures WellSeparated(["   ", "\t ", "\n", "   "], ["one", "two", "three"])
  {
  }

  lemma SpacedThreeLayout()
    ensures Layout(["   ", "\t ", "\n", "   "], ["one", "two", "three"]) == "   one\t two\nthree   "
  {
    LayoutCons("   ", ["\t ", "\n", "   "], "one", ["two", "three"]);
    LayoutCons("\t ", ["\n", "   "], "two", ["three"]);
    LayoutCons("\n", ["   "], "three", []);
  }

  lemma CleanInputSpacedThree()
    ensures CleanInput("   one\t two\nthree   ") == ["one", "two", "three"]
  {
    LowerUnchanged("   one\t two\nthree   ");
    SpacedThreeSeparated();
    SpacedThreeLayout();
    CleanInputOfLayout("   one\t two\nthree   ", ["   ", "\t ", "\n", "   "], ["one", "two", "three"]);
  }

  /** The forty spaces that precede "hi" in the table test. */
  const FortySpaces: string := "                                        "

  lemma FortySpacesAreSpace()
    ensures |FortySpaces| == 40 && AllSpace(FortySpaces) && NoUpper(FortySpaces)
  {
  }

  lemma CleanInputLeadingSpaces()
    ensures CleanInput("                                        hi") == ["hi"]
  {
    var line := "                                        hi";
    FortySpacesAreSpace();
    assert line == FortySpaces + "hi";
    LowerUnchanged(line);
    LayoutCons(FortySpaces, [""], "hi", []);
    assert Layout([FortySpaces, ""], ["hi"]) == line;
    CleanInputOfLayout(line, [FortySpaces, ""], ["hi"]);
  }

  lemma MixedSpaceSeparated()
    ensures WellSeparated(["", "\t\t\n", "  ", ""], ["pikachu", "bulbasaur", "charmander"])
  {
  }

  lemma MixedSpaceLayout()
    ensures Layout(["", "\t\t\n", "  ", ""], ["pikachu", "bulbasaur", "charmander"])
         == "pikachu\t\t\nbulbasaur  charmander"
  {
    LayoutCons("", ["\t\t\n", "  ", ""], "pikachu", ["bulbasaur", "charmander"]);
    LayoutCons("\t\t\n", ["  ", ""], "bulbasaur", ["charmander"]);
    LayoutCons("  ", [""], "charmander", []);
  }

  lemma CleanInputMixedSpace()
    ensures CleanInput("pikachu\t\t\nbulbasaur  charmander") == ["pikachu", "bulbasaur", "charmander"]
  {
    LowerUnchanged("pikachu\t\t\nbulbasaur  charmander");
    MixedSpaceSeparated();
    MixedSpaceLayout();
    CleanInputOfLayout("pikachu\t\t\nbulbasaur  charmander",
      ["", "\t\t\n", "  ", ""], ["pikachu", "bulbasaur", "charmander"]);
  }

  lemma SurroundingSpaceLayout()
    ensures WellSeparated(["\n\t ", "  \n\t"], ["dragonite"])
    ensures Layout(["\n\t ", "  \n\t"], ["dragonite"]) == "\n\t dragonite  \n\t"
  {
    LayoutCons("\n\t ", ["  \n\t"], "dragonite", []);
  }

  lemma CleanInputSurroundingSpace()
    ensures CleanInput("\n\t dragonite  \n\t") == ["dragonite"]
  {
    LowerUnchanged("\n\t dragonite  \n\t");
    SurroundingSpaceLayout();
    CleanInputOfLayout("\n\t dragonite  \n\t", ["\n\t ", "  \n\t"], ["dragonite"]);
  }

  // ---------------------------------------------------------------------------
  // The command word and its argument, and the command table of main.

  /** A command word with its argument ("" when there is none). */
  datatype Request = Request(command: string, argument: string)

  /** The split of main: no request for no tokens; otherwise the first token and the second or "". */
  function SplitCommand(tokens: seq<string>): (r: Option<Request>)
    ensures r.None? <==> tokens == []
    ensures r.Some? ==> r.value.command == tokens[0]
    ensures r.Some? && |tokens| == 1 ==> r.value.argument == ""
    ensures r.Some? && |tokens| >= 2 ==> r.value.argument == tokens[1]
  {
    if |tokens| < 1 then None
    else Some(Request(tokens[0], if |tokens| > 1 then tokens[1] else ""))
  }

  /** The keys of supportedCommands. */
  const SupportedCommands: set<string> := {"exit", "help", "map", "mapb", "explore", "catch", "inspect", "pokedex"}

  /** What one line of input makes the REPL do. */
  datatype Step = Rejected | Unknown(command: string) | Invoke(command: string, argument: string)

  function Interpret(line: string): (r: Step)
    ensures r.Rejected? <==> CleanInput(line) == []
    ensures !r.Rejected? ==> r.command == CleanInput(line)[0]
    ensures r.Invoke? <==> CleanInput(line) != [] && CleanInput(line)[0] in SupportedCommands
    ensures r.Invoke? ==> r.argument == (if |CleanInput(line)| >= 2 then CleanInput(line)[1] else "")
  {
    match SplitCommand(CleanInput(line))
    case None => Rejected
    case Some(Request(command, argument)) =>
      if command in SupportedCommands then Invoke(command, argument) else Unknown(command)
  }

  /** The split depends on the first two tokens only. */
  lemma SplitIgnoresExtra(tokens: seq<string>, extra: seq<string>)
    requires |tokens| >= 2
    ensures SplitCommand(tokens + extra) == SplitCommand(tokens)
    ensures SplitCommand(tokens) == Some(Request(tokens[0], tokens[1]))
  {
  }

  /** A single token is a command without argument. */
  lemma SplitSingle(command: string)
    ensures SplitCommand([command]) == Some(Request(command, ""))
  {
  }

  /** A line is rejected exactly when it is empty or white space; otherwise the command is its first field. */
  lemma InterpretRejectsBlank(line: string)
    ensures Interpret(line).Rejected? <==> AllSpace(line)
    ensures !AllSpace(line) ==>
      && CleanInput(line) != []
      && (Interpret(line).Unknown? || Interpret(line).Invoke?)
      && Interpret(line).command == CleanInput(line)[0]
  {
    CleanInputEmptyIff(line);
  }

  /** A dispatched command is a known, lower-case word and its argument is "" or a lower-case word. */
  lemma InterpretInvokes(line: string)
    requires Interpret(line).Invoke?
    ensures Interpret(line).command in SupportedCommands
    ensures IsWord(Interpret(line).argument) || Interpret(line).argument == ""
    ensures NoUpper(Interpret(line).argument)
  {
    CleanInputTokens(line);
  }
}
