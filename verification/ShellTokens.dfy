/** The command-line tokenizer: it cuts the line up in place, writing a zero
    character after each argument and recording where each argument starts. */
module ShellTokens {
  import opened CStrings

  const MAXLINE: nat := 1024
  const MAXARGS: nat := 128
  const QUOTE: char := '\''

  // ---- what the arguments of a line are ----

  function SkipSpaces(t: string): string {
    if t != "" && t[0] == ' ' then SkipSpaces(t[1..]) else t
  }

  /** The position of the first c, or the length. */
  function Index(t: string, c: char): (k: nat)
    ensures k <= |t|
    ensures k < |t| ==> t[k] == c
    ensures forall j :: 0 <= j < k ==> t[j] != c
  {
    if t == "" then 0 else if t[0] == c then 0 else 1 + Index(t[1..], c)
  }

  lemma {:induction false} SkipSpacesShortens(t: string)
    ensures |SkipSpaces(t)| <= |t| && SkipSpaces(t) == t[|t| - |SkipSpaces(t)|..]
  {
    if t != "" && t[0] == ' ' { SkipSpacesShortens(t[1..]); }
  }

  /** The arguments of a line whose newline has become a space. */
  function Tokens(t: string): seq<string>
    decreases |t|
  {
    SkipSpacesShortens(t);
    var u := SkipSpaces(t);
    if u == "" then []
    else if u[0] == QUOTE then
      var k := Index(u[1..], QUOTE);
      if k == |u| - 1 then [] else [u[1..][..k]] + Tokens(u[1..][k + 1..])
    else
      var k := Index(u, ' ');
      if k == |u| then [] else [u[..k]] + Tokens(u[k + 1..])
  }

  predicate StartsWithAmp(s: string) {
    s != "" && s[0] == '&'
  }

  /** The arguments and the background flag. */
  function Split(toks: seq<string>): (seq<string>, bool) {
    if toks == [] then ([], true)
    else if StartsWithAmp(toks[|toks| - 1]) then (toks[..|toks| - 1], true)
    else (toks, false)
  }

  function Parse(line: string): (seq<string>, bool)
    requires line != ""
  {
    Split(Tokens(line[..|line| - 1] + " "))
  }

  /** Two characters are used up by each argument, so a line of fewer than
      2 * MAXARGS characters cannot overflow the argument vector. */
  lemma {:induction false} TokenCount(t: string)
    ensures 2 * |Tokens(t)| <= |t|
    decreases |t|
  {
    SkipSpacesShortens(t);
    PlainIsSome(t);
    hide SkipSpaces;
    var u := SkipSpaces(t);
    if u != "" {
      if u[0] == QUOTE {
        var k := Index(u[1..], QUOTE);
        hide Index;
        if k < |u| - 1 { TokenCount(u[1..][k + 1..]); }
      } else {
        var k := Index(u, ' ');
        hide Index;
        if k < |u| { TokenCount(u[k + 1..]); }
      }
    }
  }

  lemma {:induction false} PlainIsSome(t: string)
    ensures SkipSpaces(t) == "" || SkipSpaces(t)[0] != ' '
  {
    if t != "" && t[0] == ' ' { PlainIsSome(t[1..]); }
  }

  // ---- printing and parsing back ----

  /** An argument as typed: plain, or between single quotes. */
  datatype Arg = Plain(text: string) | Quoted(text: string)

  predicate Printable(a: Arg) {
    match a
    case Plain(s) => s != "" && s[0] != QUOTE && forall i :: 0 <= i < |s| ==> s[i] != ' '
    case Quoted(s) => forall i :: 0 <= i < |s| ==> s[i] != QUOTE
  }

  function PrintArg(a: Arg): string {
    match a
    case Plain(s) => s
    case Quoted(s) => "'" + s + "'"
  }

  /** The arguments, each followed by a space. */
  function PrintArgs(args: seq<Arg>): string {
    if args == [] then "" else PrintArg(args[0]) + " " + PrintArgs(args[1..])
  }

  /** The printed words with the last space replaced by a newline. */
  function EndLine(t: string): string {
    (if t == "" then "" else t[..|t| - 1]) + "\n"
  }

  /** A command line: the arguments separated by spaces, an ampersand for a
      background job, and a newline. */
  function PrintLine(args: seq<Arg>, bg: bool): string {
    EndLine(PrintArgs(if bg then args + [Plain("&")] else args))
  }

  function Texts(args: seq<Arg>): seq<string> {
    if args == [] then [] else [args[0].text] + Texts(args[1..])
  }

  lemma IndexOfFirst(s: string, rest: string, c: char)
    requires forall i :: 0 <= i < |s| ==> s[i] != c
    ensures Index(s + [c] + rest, c) == |s|
  {
    var t := s + [c] + rest;
    assert t[|s|] == c;
    assert forall i :: 0 <= i < |s| ==> t[i] == s[i];
  }

  lemma TokensPlain(s: string, rest: string)
    requires Printable(Plain(s))
    ensures Tokens(s + " " + rest) == [s] + Tokens(rest)
  {
    var t := s + " " + rest;
    IndexOfFirst(s, rest, ' ');
    hide Index;
    assert SkipSpaces(t) == t && t == s + [' '] + rest;
    assert t[..|s|] == s && t[|s| + 1..] == rest;
  }

  lemma TokensQuoted(s: string, rest: string)
    requires Printable(Quoted(s))
    ensures Tokens("'" + s + "'" + rest) == [s] + Tokens(rest)
  {
    var t := "'" + s + "'" + rest;
    IndexOfFirst(s, rest, QUOTE);
    hide Index;
    assert SkipSpaces(t) == t && t[0] == QUOTE;
    assert t[1..] == s + [QUOTE] + rest;
    assert t[1..][..|s|] == s && t[1..][|s| + 1..] == rest;
  }

  lemma TokensStep(a: Arg, rest: string)
    requires Printable(a)
    ensures Tokens(PrintArg(a) + " " + rest) == [a.text] + Tokens(rest)
  {
    hide Tokens;
    match a
    case Plain(s) => TokensPlain(s, rest);
    case Quoted(s) =>
      TokensQuoted(s, " " + rest);
      TokensSkip(rest);
      assert PrintArg(a) + " " + rest == "'" + s + "'" + (" " + rest);
  }

  lemma TokensSkip(rest: string)
    ensures Tokens(" " + rest) == Tokens(rest)
  {
    assert (" " + rest)[1..] == rest;
    assert SkipSpaces(" " + rest) == SkipSpaces(rest);
  }

  lemma {:induction false} TokensOfPrint(args: seq<Arg>)
    requires forall i :: 0 <= i < |args| ==> Printable(args[i])
    ensures Tokens(PrintArgs(args)) == Texts(args)
  {
    if args != [] {
      TokensStep(args[0], PrintArgs(args[1..]));
      TokensOfPrint(args[1..]);
    }
  }

  lemma {:induction false} TextsAppend(args: seq<Arg>, a: Arg)
    ensures Texts(args + [a]) == Texts(args) + [a.text]
  {
    if args == [] {
      assert args + [a] == [a];
    } else {
      assert (args + [a])[1..] == args[1..] + [a];
      TextsAppend(args[1..], a);
    }
  }

  lemma PrintArgsEndsWithSpace(args: seq<Arg>)
    requires args != []
    ensures var t := PrintArgs(args); t != "" && t[|t| - 1] == ' '
  {
    if |args| > 1 { PrintArgsEndsWithSpace(args[1..]); }
  }

  lemma ParsePrint(args: seq<Arg>)
    requires forall i :: 0 <= i < |args| ==> Printable(args[i])
    ensures Parse(EndLine(PrintArgs(args))) == Split(Texts(args))
  {
    hide Tokens, Texts, PrintArgs, Split, Printable, EndLine;
    TokensOfPrint(args);
    if args == [] {
      PrintNothing();
      TokensOfSpace();
    } else {
      PrintArgsEndsWithSpace(args);
    }
    EndLineBack(PrintArgs(args));
  }

  /** Turning the newline back into a space restores the printed words. */
  lemma EndLineBack(t: string)
    requires t == "" || t[|t| - 1] == ' '
    ensures var line := EndLine(t);
            |line| >= 1 && line[..|line| - 1] + " " == if t == "" then " " else t
  {
    if t != "" {
      var n := |t| - 1;
      assert (t[..n] + "\n")[..n] == t[..n] && t[..n] + [t[n]] == t;
    } else {
      assert ("" + "\n")[..0] + " " == " ";
    }
  }

  lemma PrintNothing()
    ensures PrintArgs([]) == "" && Texts([]) == []
  {
  }

  lemma TokensOfSpace()
    ensures Tokens(" ") == []
  {
    assert " "[1..] == "";
    assert SkipSpaces(" ") == SkipSpaces("");
  }

  lemma {:induction false} TextsLength(args: seq<Arg>)
    ensures |Texts(args)| == |args|
    ensures args != [] ==> Texts(args)[|args| - 1] == args[|args| - 1].text
  {
    if args != [] { TextsLength(args[1..]); }
  }

  /** Round trip: parsing a printed line gives back its arguments and its
      background flag exactly when the flag is set, or there is a last argument
      and it does not start with an ampersand. */
  lemma RoundTrip(args: seq<Arg>, bg: bool)
    requires forall i :: 0 <= i < |args| ==> Printable(args[i])
    ensures Parse(PrintLine(args, bg)) == (Texts(args), bg)
            <==> bg || (args != [] && !StartsWithAmp(args[|args| - 1].text))
  {
    hide Parse, PrintArgs, EndLine, Texts;
    TextsLength(args);
    if bg {
      ParsePrint(args + [Plain("&")]);
      TextsAppend(args, Plain("&"));
      assert (Texts(args) + ["&"])[..|args|] == Texts(args);
    } else {
      ParsePrint(args);
    }
  }

  // ---- every line ----

  /** An argument as it stands in a line, after any number of spaces. A plain one
      takes the space behind it with it; a quoted one may touch the next. */
  datatype Word = Word(gap: nat, arg: Arg)

  function Spaces(n: nat): string {
    if n == 0 then "" else " " + Spaces(n - 1)
  }

  function WriteWord(w: Word): string {
    Spaces(w.gap) + PrintArg(w.arg) + if w.arg.Plain? then " " else ""
  }

  function Written(words: seq<Word>): string {
    if words == [] then "" else WriteWord(words[0]) + Written(words[1..])
  }

  function WordTexts(words: seq<Word>): seq<string> {
    if words == [] then [] else [words[0].arg.text] + WordTexts(words[1..])
  }

  /** Nothing, or a quote that is never closed. */
  ghost predicate Unclosed(rest: string) {
    rest == "" || (rest[0] == QUOTE && forall i :: 0 < i < |rest| ==> rest[i] != QUOTE)
  }

  lemma {:induction false} TokensSkipAll(n: nat, rest: string)
    ensures Tokens(Spaces(n) + rest) == Tokens(rest)
  {
    if n == 0 {
      assert "" + rest == rest;
    } else {
      assert Spaces(n) + rest == " " + (Spaces(n - 1) + rest);
      TokensSkip(Spaces(n - 1) + rest);
      TokensSkipAll(n - 1, rest);
    }
  }

  lemma TokensUnclosed(rest: string)
    requires Unclosed(rest)
    ensures Tokens(rest) == []
  {
    if rest != "" {
      assert SkipSpaces(rest) == rest;
      assert forall i :: 0 <= i < |rest[1..]| ==> rest[1..][i] == rest[i + 1];
      assert Index(rest[1..], QUOTE) == |rest| - 1;
    }
  }

  lemma TokensWord(w: Word, rest: string)
    requires Printable(w.arg)
    ensures Tokens(WriteWord(w) + rest) == [w.arg.text] + Tokens(rest)
  {
    hide Tokens, Spaces, Printable;
    var core := PrintArg(w.arg) + (if w.arg.Plain? then " " else "");
    assert WriteWord(w) + rest == Spaces(w.gap) + (core + rest);
    TokensSkipAll(w.gap, core + rest);
    match w.arg
    case Plain(t) =>
      TokensPlain(t, rest);
      assert core + rest == t + " " + rest;
    case Quoted(t) =>
      TokensQuoted(t, rest);
      assert core + rest == "'" + t + "'" + rest;
  }

  /** The arguments of a line are its words, up to a quote that is never closed. */
  lemma {:induction false} TokensOfWords(words: seq<Word>, n: nat, rest: string)
    requires (forall k :: 0 <= k < |words| ==> Printable(words[k].arg)) && Unclosed(rest)
    ensures Tokens(Written(words) + Spaces(n) + rest) == WordTexts(words)
  {
    hide Tokens, Spaces, Printable, Unclosed, WriteWord;
    if words == [] {
      assert Written([]) + Spaces(n) + rest == Spaces(n) + rest;
      TokensSkipAll(n, rest);
      TokensUnclosed(rest);
    } else {
      var more := Written(words[1..]) + Spaces(n) + rest;
      assert Written(words) + Spaces(n) + rest == WriteWord(words[0]) + more;
      TokensWord(words[0], more);
      TokensOfWords(words[1..], n, rest);
    }
  }

  /** And every line that ends with a space, as all do that are tokenized, is
      made of such words, spaces and possibly an unclosed quote. */
  lemma {:induction false} EveryLineHasWords(t: string) returns (words: seq<Word>, n: nat, rest: string)
    requires t == "" || t[|t| - 1] == ' '
    ensures t == Written(words) + Spaces(n) + rest && Unclosed(rest)
    ensures forall k :: 0 <= k < |words| ==> Printable(words[k].arg)
    decreases |t|, 1
  {
    var gap, u := StripSpaces(t);
    words, n, rest := [], gap, u;
    if u != "" {
      if u[0] == QUOTE {
        var k := Index(u[1..], QUOTE);
        if k < |u| - 1 {
          var w := Word(gap, Quoted(u[1..][..k]));
          words, n, rest := MoreWords(t, gap, u, w, u[1..][k + 1..]);
        } else {
          assert forall i :: 0 < i < |u| ==> u[i] == u[1..][i - 1];
        }
      } else {
        var k := Index(u, ' ');
        assert u[|u| - 1] == ' ';
        var w := Word(gap, Plain(u[..k]));
        words, n, rest := MoreWords(t, gap, u, w, u[k + 1..]);
      }
    }
  }

  lemma {:induction false} StripSpaces(t: string) returns (gap: nat, u: string)
    ensures t == Spaces(gap) + u && (u == "" || u[0] != ' ')
    ensures u != "" ==> |t| >= |u| && t[|t| - 1] == u[|u| - 1]
  {
    gap, u := 0, t;
    if t != "" && t[0] == ' ' {
      gap, u := StripSpaces(t[1..]);
      assert t == " " + t[1..];
      gap := gap + 1;
    }
  }

  lemma {:induction false} MoreWords(t: string, gap: nat, u: string, w: Word, more: string)
    returns (words: seq<Word>, n: nat, rest: string)
    requires t == "" || t[|t| - 1] == ' '
    requires t == Spaces(gap) + u && t == WriteWord(w) + more && Printable(w.arg) && |more| < |t|
    ensures t == Written(words) + Spaces(n) + rest && Unclosed(rest)
    ensures forall k :: 0 <= k < |words| ==> Printable(words[k].arg)
    decreases |t|, 0
  {
    hide Written, WriteWord, Spaces, Unclosed, Printable;
    if more != "" { assert more[|more| - 1] == t[|t| - 1]; }
    var others: seq<Word>;
    others, n, rest := EveryLineHasWords(more);
    words := [w] + others;
    OneMoreWord(w, others, Spaces(n), rest);
  }

  lemma OneMoreWord(w: Word, others: seq<Word>, gap: string, rest: string)
    ensures Written([w] + others) + gap + rest == WriteWord(w) + (Written(others) + gap + rest)
  {
    hide WriteWord;
    assert ([w] + others)[1..] == others;
  }

  /** The printable command lines that parse back to what was printed. */
  predicate ReadsBack(args: seq<Arg>, bg: bool) {
    && (forall i :: 0 <= i < |args| ==> Printable(args[i]))
    && (bg || (args != [] && !StartsWithAmp(args[|args| - 1].text)))
  }

  lemma PrintedIsReadBack(line: string)
    requires line != ""
    ensures forall args, bg :: line == PrintLine(args, bg) && ReadsBack(args, bg) ==>
              Parse(line) == (Texts(args), bg) && |Texts(args)| == |args|
  {
    forall args, bg | line == PrintLine(args, bg) && ReadsBack(args, bg)
      ensures Parse(line) == (Texts(args), bg) && |Texts(args)| == |args|
    {
      hide Parse, PrintLine, Texts;
      RoundTrip(args, bg);
      TextsLength(args);
    }
  }

  // ---- the tokenizer in place ----

  /** The C string at b[i..] is s. */
  ghost predicate StringAt(b: seq<char>, i: int, s: string) {
    0 <= i && i + |s| < |b| && b[i..i + |s|] == s && b[i + |s|] == NUL
  }

  class Tokenizer {
    const buf: array<char>
    const argv: array<int>

    ghost predicate Valid() {
      buf.Length == MAXLINE && argv.Length == MAXARGS
    }

    constructor ()
      ensures Valid() && fresh(buf) && fresh(argv)
    {
      buf := new char[MAXLINE](_ => NUL);
      argv := new int[MAXARGS](_ => -1);
    }

    /** The first k arguments recorded are the strings toks. */
    ghost predicate Recorded(toks: seq<string>, below: nat)
      reads buf, argv
    {
      && |toks| <= argv.Length
      && forall k :: 0 <= k < |toks| ==> StringAt(buf[..], argv[k], toks[k]) && argv[k] + |toks[k]| < below
    }

    /** Skips spaces from position p of the string that ends at `end`. */
    method Skip(p: nat, ghost end: nat) returns (q: nat)
      requires p <= end < buf.Length && buf[end] == NUL && NoNul(buf[p..end])
      ensures p <= q <= end && buf[q..end] == SkipSpaces(buf[p..end])
    {
      q := p;
      while buf[q] != NUL && buf[q] == ' '
        invariant p <= q <= end && SkipSpaces(buf[q..end]) == SkipSpaces(buf[p..end])
        decreases end - q
      {
        assert buf[q..end][1..] == buf[q + 1..end];
        q := q + 1;
      }
    }

    /** strchr: the position of the next c, or -1. */
    method Find(p: nat, c: char, ghost end: nat) returns (delim: int)
      requires p <= end < buf.Length && buf[end] == NUL && NoNul(buf[p..end]) && c != NUL
      ensures var k := Index(buf[p..end], c); delim == if k == end - p then -1 else p + k
    {
      delim := p;
      while buf[delim] != NUL
        invariant p <= delim <= end && Index(buf[p..end], c) == delim - p + Index(buf[delim..end], c)
        decreases end - delim
      {
        assert buf[p..end][delim - p] == buf[delim];
        if buf[delim] == c {
          return;
        }
        assert buf[delim..end][1..] == buf[delim + 1..end];
        delim := delim + 1;
      }
      delim := -1;
    }

    /** Finds where the next argument starts and ends. */
    method NextArg(p: nat, ghost end: nat) returns (start: nat, delim: int)
      requires p <= end < buf.Length && buf[end] == NUL && NoNul(buf[p..end])
      ensures p <= start <= end
      ensures delim == -1 ==> Tokens(buf[p..end]) == []
      ensures delim != -1 ==> start <= delim < end
                              && Tokens(buf[p..end]) == [buf[start..delim]] + Tokens(buf[delim + 1..end])
    {
      hide Index, SkipSpaces, Tokens;
      start := Skip(p, end);
      ghost var u := buf[start..end];
      TokensUnfold(buf[p..end], u);
      if buf[start] == QUOTE {
        assert u[0] == QUOTE && u[1..] == buf[start + 1..end];
        start := start + 1;
        delim := Find(start, QUOTE, end);
        Slices(start, delim, end);
      } else {
        delim := Find(start, ' ', end);
        assert u != "" ==> u[0] == buf[start];
        Slices(start, delim, end);
      }
    }

    /** The text before a delimiter, and after it. */
    lemma Slices(start: nat, delim: int, end: nat)
      requires start <= end <= buf.Length
      ensures start <= delim < end ==> var u := buf[start..end];
                u[..delim - start] == buf[start..delim] && u[delim - start + 1..] == buf[delim + 1..end]
    {
    }

    lemma TokensUnfold(t: string, u: string)
      requires u == SkipSpaces(t)
      ensures u == "" ==> Tokens(t) == []
      ensures u != "" && u[0] == QUOTE ==>
                var k := Index(u[1..], QUOTE);
                Tokens(t) == if k == |u| - 1 then [] else [u[1..][..k]] + Tokens(u[1..][k + 1..])
      ensures u != "" && u[0] != QUOTE ==>
                var k := Index(u, ' ');
                Tokens(t) == if k == |u| then [] else [u[..k]] + Tokens(u[k + 1..])
    {
      hide Index, SkipSpaces;
    }

    /** The loop over the arguments. */
    method CutUp(ghost end: nat) returns (argc: nat)
      requires Valid() && end < buf.Length && buf[end] == NUL && NoNul(buf[..end])
      requires |Tokens(buf[..end])| < MAXARGS
      modifies buf, argv
      ensures argc == |Tokens(old(buf[..end]))| && Recorded(Tokens(old(buf[..end])), buf.Length)
    {
      hide Tokens, NoNul, Tokenizer.Recorded;
      ghost var toks := Tokens(buf[..end]);
      argc := 0;
      assert buf[0..end] == buf[..end];
      NothingRecorded();
      var p, delim := NextArg(0, end);
      ghost var q := 0;
      while delim != -1
        invariant 0 <= q <= p <= end && argc <= |toks| && Recorded(toks[..argc], q)
        invariant buf[end] == NUL && NoNul(buf[q..end])
        invariant toks == toks[..argc] + Tokens(buf[q..end])
        invariant delim == -1 ==> Tokens(buf[q..end]) == []
        invariant delim != -1 ==> p <= delim < end
                                  && Tokens(buf[q..end]) == [buf[p..delim]] + Tokens(buf[delim + 1..end])
        decreases end - q
      {
        Record(argc, p, delim, end, q, toks);
        argc := argc + 1;
        q := delim + 1;
        p, delim := NextArg(delim + 1, end);
      }
      assert toks[..argc] == toks;
      RecordedBelow(toks, q, buf.Length);
    }

    lemma NothingRecorded()
      ensures Recorded([], 0)
    {
    }

    lemma RecordedBelow(toks: seq<string>, q: nat, below: nat)
      requires Recorded(toks, q) && q <= below
      ensures Recorded(toks, below)
    {
    }

    /** One turn of the loop: the argument is recorded and cut off. */
    method Record(argc: nat, p: nat, delim: nat, ghost end: nat, ghost q: nat, ghost toks: seq<string>)
      requires Valid() && q <= p <= delim < end < buf.Length && argc < MAXARGS && argc <= |toks|
      requires Recorded(toks[..argc], q) && buf[end] == NUL && NoNul(buf[q..end])
      requires toks == toks[..argc] + ([buf[p..delim]] + Tokens(buf[delim + 1..end]))
      modifies buf, argv
      ensures argc < |toks| && Recorded(toks[..argc + 1], delim + 1)
      ensures buf[end] == NUL && NoNul(buf[delim + 1..end])
      ensures toks == toks[..argc + 1] + Tokens(buf[delim + 1..end])
    {
      ghost var arg := buf[p..delim];
      ghost var before := buf[..];
      assert toks[argc] == arg;
      argv[argc] := p;
      buf[delim] := NUL;
      assert buf[delim + 1..end] == before[delim + 1..end];
      forall k | 0 <= k < argc + 1
        ensures StringAt(buf[..], argv[k], toks[k]) && argv[k] + |toks[k]| < delim + 1
      {
        if k < argc {
          assert StringAt(before, argv[k], toks[..argc][k]) && argv[k] + |toks[k]| < q;
        }
      }
      assert NoNul(before[q..end]);
      assert forall i :: delim + 1 <= i < end ==> buf[i] == before[q..end][i - q];
    }

    /** The line is copied to the buffer, with a space for its newline. */
    method LoadLine(cmdline: string)
      requires Valid() && cmdline != "" && |cmdline| < MAXLINE && NoNul(cmdline)
      modifies buf
      ensures var n := |cmdline|;
              buf[..n] == cmdline[..n - 1] + " " && buf[n] == NUL && NoNul(buf[..n])
    {
      var n := |cmdline|;
      forall i | 0 <= i < n {
        buf[i] := cmdline[i];
      }
      buf[n] := NUL;
      buf[n - 1] := ' ';
    }

    /** The argument vector is ended, and a last argument starting with '&' taken
        off for a background job. An empty line counts as one. */
    method EndArguments(n: nat, ghost toks: seq<string>) returns (argc: nat, bg: bool)
      requires Valid() && n == |toks| < MAXARGS && Recorded(toks, MAXLINE)
      modifies argv
      ensures (bg, argc) == (Split(toks).1, |Split(toks).0|)
      ensures Recorded(Split(toks).0, MAXLINE) && argv[argc] == -1
    {
      argc := n;
      argv[argc] := -1;
      if argc == 0 {
        return 0, true;
      }
      assert StringAt(buf[..], argv[argc - 1], toks[argc - 1]);
      bg := buf[argv[argc - 1]] == '&';
      assert bg == StartsWithAmp(toks[argc - 1]);
      if bg {
        argc := argc - 1;
        argv[argc] := -1;
      }
    }

    /** parseline: the arguments recorded are those of the line. A printed line
        that meets the condition of the round trip is read back as printed. */
    method Parseline(cmdline: string) returns (argc: nat, bg: bool)
      requires Valid() && cmdline != "" && |cmdline| < MAXLINE && NoNul(cmdline)
      requires |Tokens(cmdline[..|cmdline| - 1] + " ")| < MAXARGS
      modifies buf, argv
      ensures (bg, argc) == (Parse(cmdline).1, |Parse(cmdline).0|)
      ensures Recorded(Parse(cmdline).0, MAXLINE) && argv[argc] == -1
      ensures forall args, b :: cmdline == PrintLine(args, b) && ReadsBack(args, b) ==>
                bg == b && argc == |args| && Recorded(Texts(args), MAXLINE)
    {
      hide Tokens, Split, PrintLine, Texts, ReadsBack, Tokenizer.Recorded, NoNul;
      PrintedIsReadBack(cmdline);
      LoadLine(cmdline);
      ghost var toks := Tokens(buf[..|cmdline|]);
      argc := CutUp(|cmdline|);
      argc, bg := EndArguments(argc, toks);
    }
  }
}
