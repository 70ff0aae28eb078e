/**
 Single-quote escaping for the scripts the sandbox hands to its shell
 (native/condukt_bashkit/src/lib.rs), against the quoting rules of sections 2.2.1 and
 2.2.2 of the POSIX Shell Command Language.
 */
module ShellQuoting {

  // ---------------------------------------------------------- the shell's side

  datatype Lexed = Word(text: string, rest: string) | Unterminated | Expands

  predicate Blank(c: char) { c == ' ' || c == '\t' }

  /** Ends an unquoted word: a blank, a newline, or the start of an operator. */
  predicate Delimiter(c: char) {
    Blank(c) || c == '\n' || c == ';' || c == '&' || c == '|' || c == '<' || c == '>' || c == '(' || c == ')'
  }

  /** Starts an expansion, a comment or another quoting form when unquoted; nothing here
      is meant to reach those. */
  predicate Active(c: char) {
    c == '\"' || c == '$' || c == '`' || c == '*' || c == '?' || c == '[' || c == '#' || c == '~'
  }

  predicate AtEnd(s: string) { s == [] || Delimiter(s[0]) }

  /** Outside quotes: a backslash preserves the next character, or joins two lines. */
  function Unquoted(s: string, word: string): Lexed
    decreases |s|
  {
    if AtEnd(s) then Word(word, s)
    else if s[0] == '\'' then Quoted(s[1..], word)
    else if s[0] == '\\' then
      if |s| == 1 then Unterminated
      else if s[1] == '\n' then Unquoted(s[2..], word)
      else Unquoted(s[2..], word + [s[1]])
    else if Active(s[0]) then Expands
    else Unquoted(s[1..], word + [s[0]])
  }

  /** Inside single quotes every character stands for itself until the closing quote. */
  function Quoted(s: string, word: string): Lexed
    decreases |s|
  {
    if s == [] then Unterminated
    else if s[0] == '\'' then Unquoted(s[1..], word)
    else Quoted(s[1..], word + [s[0]])
  }

  datatype Line = Words(words: seq<string>, rest: string) | Bad

  /** The words of a simple command, up to the operator or newline that ends it. */
  function Command(s: string, words: seq<string>): Line
    decreases |s|
  {
    if s == [] then Words(words, s)
    else if Blank(s[0]) then Command(s[1..], words)
    else if Delimiter(s[0]) then Words(words, s)
    else match Unquoted(s, "")
      case Word(text, rest) => if |rest| < |s| then Command(rest, words + [text]) else Bad
      case _ => Bad
  }

  // --------------------------------------------------------- the sandbox's side

  function Escape(s: string): string {
    if s == [] then [] else (if s[0] == '\'' then "'\\''" else [s[0]]) + Escape(s[1..])
  }

  function Quote(s: string): string { "'" + Escape(s) + "'" }

  // ------------------------------------------------------------------ theorems

  /** The four characters an embedded quote becomes close the quotes, add one quote and
      open them again. */
  lemma {:induction false} EscapedQuote(tail: string, word: string)
    ensures Quoted("'\\''" + tail, word) == Quoted(tail, word + ['\''])
  {
    var s0 := "'\\''" + tail;
    var s1 := "\\''" + tail;
    var s2 := "'" + tail;
    assert s0[0] == '\'' && s0[1..] == s1;
    assert s1[0] == '\\' && s1[1] == '\'' && s1[2..] == s2;
    assert Unquoted(s1, word) == Unquoted(s2, word + ['\'']);
    assert s2[0] == '\'' && s2[1..] == tail;
  }

  lemma {:induction false} EscapedIsLiteral(s: string, word: string, rest: string)
    requires AtEnd(rest)
    ensures Quoted(Escape(s) + "'" + rest, word) == Word(word + s, rest)
    decreases |s|
  {
    if s == [] {
      assert (Escape(s) + "'" + rest)[1..] == rest;
      assert word + s == word;
    } else {
      var tail := Escape(s[1..]) + "'" + rest;
      EscapedIsLiteral(s[1..], word + [s[0]], rest);
      assert word + [s[0]] + s[1..] == word + s;
      if s[0] == '\'' {
        assert Escape(s) + "'" + rest == "'\\''" + tail;
        EscapedQuote(tail, word);
      } else {
        assert Escape(s) + "'" + rest == [s[0]] + tail;
      }
    }
  }

  /** An opening quote starts the quoted part of a word. */
  lemma {:induction false} OpeningQuote(tail: string)
    ensures Unquoted("'" + tail, "") == Quoted(tail, "")
  {
    assert ("'" + tail)[1..] == tail;
  }

  /** For every string, the shell reads its quoted form as one word equal to the string and
      leaves what follows alone. */
  lemma {:induction false} QuotedIsOneWord(s: string, rest: string)
    requires AtEnd(rest)
    ensures Unquoted(Quote(s) + rest, "") == Word(s, rest)
  {
    var tail := Escape(s) + "'" + rest;
    assert Quote(s) + rest == "'" + tail;
    OpeningQuote(tail);
    EscapedIsLiteral(s, "", rest);
    assert "" + s == s;
  }

  lemma {:induction false} CommandTakesQuoted(s: string, rest: string, words: seq<string>)
    requires AtEnd(rest)
    ensures Command(Quote(s) + rest, words) == Command(rest, words + [s])
  {
    QuotedIsOneWord(s, rest);
    assert (Quote(s) + rest)[0] == '\'';
  }

  /** Characters that need no quoting. */
  predicate Bare(s: string) { forall c :: c in s ==> !Delimiter(c) && !Active(c) && c != '\'' && c != '\\' }

  lemma {:induction false} BareIsLiteral(s: string, word: string, rest: string)
    requires Bare(s) && AtEnd(rest)
    ensures Unquoted(s + rest, word) == Word(word + s, rest)
    decreases |s|
  {
    if s == [] {
      assert s + rest == rest && word + s == word;
    } else {
      BareIsLiteral(s[1..], word + [s[0]], rest);
      assert (s + rest)[1..] == s[1..] + rest && s[0] in s;
      assert word + [s[0]] + s[1..] == word + s;
    }
  }

  lemma {:induction false} CommandTakesBare(s: string, rest: string, words: seq<string>)
    requires Bare(s) && s != [] && AtEnd(rest)
    ensures Command(s + rest, words) == Command(rest, words + [s])
  {
    BareIsLiteral(s, "", rest);
    assert (s + rest)[0] == s[0] && s[0] in s;
    assert "" + s == s;
  }

  lemma {:induction false} CommandSkipsBlank(rest: string, words: seq<string>)
    ensures Command(" " + rest, words) == Command(rest, words)
  {
    assert (" " + rest)[1..] == rest;
  }

  function CaseFlag(caseSensitive: bool): string { if caseSensitive then "" else "-i" }

  function GrepFlags(caseSensitive: bool): string { "-rnHE" + CaseFlag(caseSensitive) }

  function GrepArguments(pattern: string, root: string): string {
    Quote(pattern) + (" " + (Quote(root) + (" " + "|| true")))
  }

  function GrepScript(pattern: string, root: string, caseSensitive: bool): string {
    "grep" + (" " + (GrepFlags(caseSensitive) + (" " + GrepArguments(pattern, root))))
  }

  lemma {:induction false} ArgumentsAreTwoWords(pattern: string, root: string, words: seq<string>)
    ensures Command(GrepArguments(pattern, root), words) == Words(words + [pattern, root], "|| true")
  {
    NextQuoted(words, pattern, Quote(root) + (" " + "|| true"));
    NextQuoted(words + [pattern], root, "|| true");
    assert words + [pattern] + [root] == words + [pattern, root];
    assert "|| true"[0] == '|';
  }

  /** Whatever pattern and root a caller passes, the search script is one `grep` with four
      words, the last two being exactly them, followed by its own `|| true`. */
  lemma {:induction false} GrepScriptIsOneCommand(pattern: string, root: string, caseSensitive: bool)
    ensures Command(GrepScript(pattern, root, caseSensitive), [])
            == Words(["grep", GrepFlags(caseSensitive), pattern, root], "|| true")
  {
    FlagsAreBare(caseSensitive);
    GrepWords(GrepFlags(caseSensitive), pattern, root);
  }

  lemma FlagsAreBare(caseSensitive: bool)
    ensures GrepFlags(caseSensitive) != [] && Bare(GrepFlags(caseSensitive))
  {
    if !caseSensitive { assert GrepFlags(caseSensitive) == "-rnHE-i"; }
  }

  lemma {:induction false} GrepWords(flags: string, pattern: string, root: string)
    requires flags != [] && Bare(flags)
    ensures Command("grep" + (" " + (flags + (" " + GrepArguments(pattern, root)))), [])
            == Words(["grep", flags, pattern, root], "|| true")
  {
    FirstWord("grep", flags + (" " + GrepArguments(pattern, root)));
    NextBare(["grep"], flags, GrepArguments(pattern, root));
    ArgumentsAreTwoWords(pattern, root, ["grep"] + [flags]);
    assert ["grep"] + [flags] + [pattern, root] == ["grep", flags, pattern, root];
  }

  lemma {:induction false} FirstWord(s: string, rest: string)
    requires Bare(s) && s != []
    ensures Command(s + (" " + rest), []) == Command(rest, [s])
  {
    CommandTakesBare(s, " " + rest, []);
    CommandSkipsBlank(rest, [s]);
    assert [] + [s] == [s];
  }

  lemma {:induction false} NextBare(words: seq<string>, s: string, rest: string)
    requires Bare(s) && s != []
    ensures Command(s + (" " + rest), words) == Command(rest, words + [s])
  {
    CommandTakesBare(s, " " + rest, words);
    CommandSkipsBlank(rest, words + [s]);
  }

  lemma {:induction false} NextQuoted(words: seq<string>, s: string, rest: string)
    ensures Command(Quote(s) + (" " + rest), words) == Command(rest, words + [s])
  {
    CommandTakesQuoted(s, " " + rest, words);
    CommandSkipsBlank(rest, words + [s]);
  }

  /** The directory change in front of a glob names exactly the directory asked for. */
  lemma {:induction false} ChangeDirIsOneCommand(dir: string, script: string)
    ensures Command("cd" + (" " + (Quote(dir) + (" && " + script))), []) == Words(["cd", dir], "&& " + script)
  {
    var after := "&& " + script;
    assert " && " + script == " " + after;
    FirstWord("cd", Quote(dir) + (" " + after));
    NextQuoted(["cd"], dir, after);
    assert ["cd"] + [dir] == ["cd", dir];
    assert after[0] == '&';
  }

  // ------------------------------------------------------- the glob argument

  /** The characters the glob filter refuses. */
  predicate Refused(c: char) {
    || c == '`' || c == '$' || c == ';' || c == '|' || c == '&' || c == '<' || c == '>' || c == '(' || c == ')'
    || c == '\n' || c == '\r' || c == '\'' || c == '\"'
  }

  predicate SafeGlob(pattern: string) { forall c :: c in pattern ==> !Refused(c) }

  /** An unquoted word whose pattern characters are left for pathname expansion (section
      2.6.6); quotes and the two characters that start an expansion end the reading. */
  function GlobWord(s: string, word: string): Lexed
    decreases |s|
  {
    if AtEnd(s) then Word(word, s)
    else if s[0] == '\\' then
      if |s| == 1 then Unterminated
      else if s[1] == '\n' then GlobWord(s[2..], word)
      else GlobWord(s[2..], word + [s[1]])
    else if s[0] == '\'' || s[0] == '\"' || s[0] == '$' || s[0] == '`' then Expands
    else GlobWord(s[1..], word + [s[0]])
  }

  datatype Arguments = Arguments(words: seq<string>, rest: string) | Dangling | Expansion

  function AfterComment(s: string): string {
    if s == [] || s[0] == '\n' then s else AfterComment(s[1..])
  }

  /** The arguments up to the operator or newline that ends the command. */
  function GlobArguments(s: string, words: seq<string>): Arguments
    decreases |s|
  {
    if s == [] then Arguments(words, s)
    else if Blank(s[0]) then GlobArguments(s[1..], words)
    else if Delimiter(s[0]) then Arguments(words, s)
    else if s[0] == '#' then Arguments(words, AfterComment(s))
    else match GlobWord(s, "")
      case Word(text, rest) => if |rest| < |s| then GlobArguments(rest, words + [text]) else Dangling
      case Unterminated => Dangling
      case Expands => Expansion
  }

  /** The text with escaping backslashes taken away. */
  function Unescaped(s: string): string {
    if s == [] then []
    else if s[0] == '\\' && |s| > 1 then [s[1]] + Unescaped(s[2..])
    else [s[0]] + Unescaped(s[1..])
  }

  /** Every blank is escaped, and so is a backslash at the end. */
  predicate NoBareBlank(s: string) {
    if s == [] then true
    else if s[0] == '\\' then |s| > 1 && NoBareBlank(s[2..])
    else !Blank(s[0]) && NoBareBlank(s[1..])
  }

  lemma SafeTail(s: string, n: nat)
    requires SafeGlob(s) && n <= |s|
    ensures SafeGlob(s[n..])
  {
  }

  lemma SafeHead(s: string)
    requires SafeGlob(s) && s != []
    ensures !Refused(s[0]) && (AtEnd(s) ==> Blank(s[0])) && (|s| > 1 ==> s[1] != '\n')
  {
    assert s[0] in s && (|s| > 1 ==> s[1] in s);
  }

  /** What reading one word of a safe pattern leaves. */
  predicate WordRead(s: string, word: string, r: Lexed) {
    match r
    case Expands => false
    case Unterminated => !NoBareBlank(s)
    case Word(text, rest) =>
      && word <= text && |rest| <= |s| && SafeGlob(rest) && (rest == [] || Blank(rest[0]))
      && |text| - |word| + |Unescaped(rest)| == |Unescaped(s)|
      && (NoBareBlank(s) <==> rest == [])
      && (rest == [] ==> text == word + Unescaped(s))
  }

  lemma {:induction false} SafeWord(s: string, word: string)
    requires SafeGlob(s)
    ensures WordRead(s, word, GlobWord(s, word))
    decreases |s|
  {
    if s == [] {
      assert word + Unescaped(s) == word;
    } else {
      SafeHead(s);
      if !Blank(s[0]) {
        if s[0] == '\\' {
          if |s| > 1 {
            SafeTail(s, 2);
            SafeWord(s[2..], word + [s[1]]);
            WordGrows(s, word, s[1], s[2..], GlobWord(s, word));
          }
        } else {
          SafeTail(s, 1);
          SafeWord(s[1..], word + [s[0]]);
          WordGrows(s, word, s[0], s[1..], GlobWord(s, word));
        }
      }
    }
  }

  lemma WordGrows(s: string, word: string, c: char, tail: string, r: Lexed)
    requires |tail| < |s| && Unescaped(s) == [c] + Unescaped(tail) && (NoBareBlank(s) <==> NoBareBlank(tail))
    requires WordRead(tail, word + [c], r)
    ensures WordRead(s, word, r)
  {
    AppendFirst(word, c, Unescaped(tail));
  }

  lemma AppendFirst(word: string, c: char, tail: string)
    ensures word + ([c] + tail) == word + [c] + tail
  {
  }

  function Total(words: seq<string>): nat {
    if words == [] then 0 else Total(words[..|words| - 1]) + |words[|words| - 1]|
  }

  lemma TotalSnoc(words: seq<string>, word: string)
    ensures Total(words + [word]) == Total(words) + |word|
  {
    assert (words + [word])[..|words|] == words;
  }

  lemma {:induction false} CommentRunsOn(s: string)
    requires SafeGlob(s)
    ensures AfterComment(s) == []
  {
    if s == [] {
    } else {
      SafeHead(s);
      SafeTail(s, 1);
      CommentRunsOn(s[1..]);
    }
  }

  /** What the arguments of a safe pattern are: no operator ends them, and they hold no more
      characters than the pattern does, fewer if a blank is bare. */
  predicate ArgumentsRead(s: string, words: seq<string>, r: Arguments) {
    match r
    case Expansion => false
    case Dangling => !NoBareBlank(s)
    case Arguments(all, rest) =>
      && rest == [] && words <= all && Total(all) <= Total(words) + |Unescaped(s)|
      && (!NoBareBlank(s) ==> Total(all) < Total(words) + |Unescaped(s)|)
  }

  lemma {:induction false} SafeArguments(s: string, words: seq<string>)
    requires SafeGlob(s)
    ensures ArgumentsRead(s, words, GlobArguments(s, words))
    decreases |s|
  {
    if s == [] {
    } else {
      SafeHead(s);
      if Blank(s[0]) {
        SafeTail(s, 1);
        SafeArguments(s[1..], words);
      } else if s[0] == '#' {
        CommentRunsOn(s);
      } else {
        SafeWord(s, "");
        NextArgument(s, words);
      }
    }
  }

  lemma {:induction false} NextArgument(s: string, words: seq<string>)
    requires s != [] && SafeGlob(s) && !AtEnd(s) && s[0] != '#' && WordRead(s, "", GlobWord(s, ""))
    ensures ArgumentsRead(s, words, GlobArguments(s, words))
    decreases |s|, 0
  {
    match GlobWord(s, "") {
      case Unterminated =>
      case Word(text, rest) =>
        RestIsShorter(s, "");
        SafeArguments(rest, words + [text]);
        TotalSnoc(words, text);
        if rest != [] { assert !NoBareBlank(rest); }
    }
  }

  lemma RestIsShorter(s: string, word: string)
    requires s != [] && SafeGlob(s) && !AtEnd(s) && GlobWord(s, word).Word?
    ensures |GlobWord(s, word).rest| < |s|
  {
    SafeHead(s);
    if s[0] == '\\' {
      SafeTail(s, 2);
      SafeWord(s[2..], word + [s[1]]);
    } else {
      SafeTail(s, 1);
      SafeWord(s[1..], word + [s[0]]);
    }
  }

  /** A pattern that passes the filter adds only words to its command: reading it meets no
      operator and no expansion, and stops at the end or at a backslash left dangling there. */
  lemma SafeGlobStaysInItsCommand(pattern: string, words: seq<string>)
    requires SafeGlob(pattern)
    ensures var r := GlobArguments(pattern, words);
            !r.Expansion? && (r.Arguments? ==> r.rest == [] && words <= r.words)
  {
    SafeArguments(pattern, words);
  }

  /** It is read as the one word it stands for if and only if it is not empty, does not
      begin a comment, and its blanks and a final backslash are escaped. */
  lemma SafeGlobIsOneWordExactlyWhenNothingIsBare(pattern: string)
    requires SafeGlob(pattern)
    ensures GlobArguments(pattern, []) == Arguments([Unescaped(pattern)], [])
            <==> pattern != [] && pattern[0] != '#' && NoBareBlank(pattern)
  {
    SafeArguments(pattern, []);
    TotalSnoc([], Unescaped(pattern));
    assert [] + [Unescaped(pattern)] == [Unescaped(pattern)];
    if pattern != [] && pattern[0] != '#' && NoBareBlank(pattern) {
      SafeHead(pattern);
      SafeWord(pattern, "");
      assert "" + Unescaped(pattern) == Unescaped(pattern);
    }
  }
}
