/** The plugin's exec line: words separated by spaces, where double quotes keep spaces together
    (dynplugin/process.go:214-245). */
module Tokenizer {
  import opened Options

  /** The line cut at every space outside quotes, without its double quotes. */
  function Fields(s: string, inQuote: bool): (fields: seq<string>)
    ensures |fields| > 0
  {
    if s == "" then [""]
    else if s[0] == '"' then Fields(s[1..], !inQuote)
    else if s[0] == ' ' && !inQuote then [""] + Fields(s[1..], false)
    else Prefixed([s[0]], Fields(s[1..], inQuote))
  }

  /** `head` in front of the first field. */
  function Prefixed(head: string, fields: seq<string>): seq<string>
    requires |fields| > 0
  {
    [head + fields[0]] + fields[1..]
  }

  lemma PrefixedTwice(a: string, b: string, fields: seq<string>)
    requires |fields| > 0
    ensures Prefixed("", fields) == fields
    ensures Prefixed(a, Prefixed(b, fields)) == Prefixed(a + b, fields)
    ensures Prefixed(a, [""] + fields) == [a] + fields
    ensures Prefixed(a, [""]) == [a]
  {
    assert "" + fields[0] == fields[0] && a + "" == a;
    assert a + (b + fields[0]) == a + b + fields[0];
  }

  function NonEmpty(fields: seq<string>): seq<string> {
    if fields == [] then []
    else (if fields[0] != "" then [fields[0]] else []) + NonEmpty(fields[1..])
  }

  lemma NonEmptyFirst(field: string, fields: seq<string>)
    ensures NonEmpty([field] + fields) == (if field != "" then [field] else []) + NonEmpty(fields)
    ensures fields == [] ==> NonEmpty([field]) == if field != "" then [field] else []
  {
    assert ([field] + fields)[1..] == fields;
    if fields == [] { assert [field] + fields == [field]; }
  }

  function Parse(s: string): Option<seq<string>> {
    var parts := NonEmpty(Fields(s, false));
    if parts == [] then None else Some(parts)
  }

  /** The loop over the runes of the line; None stands for the empty exec command error. */
  method ParseExec(line: string) returns (r: Option<seq<string>>)
    ensures r == Parse(line)
  {
    var parts: seq<string> := [];
    var current := "";
    var inQuote, quoteChar := false, '\0';
    assert line[0..] == line;
    PrefixedTwice("", "", Fields(line, false));
    for i := 0 to |line|
      invariant inQuote ==> quoteChar == '"'
      invariant parts + NonEmpty(Prefixed(current, Fields(line[i..], inQuote))) == NonEmpty(Fields(line, false))
    {
      var c := line[i];
      assert line[i..][0] == c && line[i..][1..] == line[i + 1..];
      if c == '"' && !inQuote {
        inQuote, quoteChar := true, c;
      } else if c == quoteChar && inQuote {
        inQuote, quoteChar := false, '\0';
      } else if c == ' ' && !inQuote {
        PrefixedTwice(current, "", Fields(line[i + 1..], false));
        PrefixedTwice("", "", Fields(line[i + 1..], false));
        NonEmptyFirst(current, Fields(line[i + 1..], false));
        if |current| > 0 {
          parts := parts + [current];
          current := "";
        }
      } else {
        PrefixedTwice(current, [c], Fields(line[i + 1..], inQuote));
        current := current + [c];
      }
    }
    assert line[|line|..] == "" && Fields(line[|line|..], inQuote) == [""];
    PrefixedTwice(current, "", [""]);
    NonEmptyFirst(current, []);
    assert parts + NonEmpty([current]) == NonEmpty(Fields(line, false));
    assert parts + [] == parts;
    if |current| > 0 { parts := parts + [current]; }
    assert parts == NonEmpty(Fields(line, false));
    r := if |parts| == 0 then None else Some(parts);
  }

  // ---------------------------------------------------------------- what survives

  /** The line without its double quotes and without its spaces outside quotes. */
  function Kept(s: string, inQuote: bool): string {
    if s == "" then ""
    else if s[0] == '"' then Kept(s[1..], !inQuote)
    else if s[0] == ' ' && !inQuote then Kept(s[1..], false)
    else [s[0]] + Kept(s[1..], inQuote)
  }

  function Concat(parts: seq<string>): string {
    if parts == [] then "" else parts[0] + Concat(parts[1..])
  }

  lemma {:induction false} ConcatNonEmpty(fields: seq<string>)
    ensures Concat(NonEmpty(fields)) == Concat(fields)
    ensures forall p :: p in NonEmpty(fields) <==> p in fields && p != ""
  {
    if fields != [] {
      var rest := fields[1..];
      ConcatNonEmpty(rest);
      assert fields == [fields[0]] + rest;
      assert forall p :: p in fields <==> p == fields[0] || p in rest;
      if fields[0] != "" {
        assert NonEmpty(fields) == [fields[0]] + NonEmpty(rest);
        assert NonEmpty(fields)[1..] == NonEmpty(rest);
      } else {
        assert "" + Concat(rest) == Concat(rest) && NonEmpty(fields) == NonEmpty(rest);
      }
    }
  }

  lemma ConcatFirst(field: string, fields: seq<string>)
    ensures Concat([field] + fields) == field + Concat(fields)
  {
    assert ([field] + fields)[1..] == fields;
  }

  lemma ConcatPrefixed(head: string, fields: seq<string>)
    requires |fields| > 0
    ensures Concat(Prefixed(head, fields)) == head + Concat(fields)
    ensures Concat([""] + fields) == Concat(fields)
  {
    hide Concat;
    var first, rest := fields[0], fields[1..];
    assert fields == [first] + rest;
    ConcatFirst(first, rest);
    ConcatFirst(head + first, rest);
    ConcatFirst("", fields);
    Joins(head, first, Concat(rest));
    Joins("", "", Concat(fields));
  }

  lemma Joins(a: string, b: string, c: string)
    ensures a + b + c == a + (b + c) && "" + c == c
  {}

  lemma {:induction false} ConcatFields(s: string, inQuote: bool)
    ensures Concat(Fields(s, inQuote)) == Kept(s, inQuote)
    ensures forall p :: p in Fields(s, inQuote) ==> '"' !in p
  {
    if s == "" {
      assert Concat([""]) == "" + Concat([]);
    } else {
      var q := if s[0] == '"' then !inQuote else inQuote;
      ConcatFields(s[1..], q);
      ConcatPrefixed([s[0]], Fields(s[1..], q));
      hide Concat;
    }
  }

  /** The parts are non-empty, hold no double quote, and together are the kept text; no text is an error. */
  lemma PartsAreTheKeptText(s: string)
    ensures Parse(s).None? <==> Kept(s, false) == ""
    ensures Parse(s).Some? ==>
              Concat(Parse(s).value) == Kept(s, false) && forall p :: p in Parse(s).value ==> p != "" && '"' !in p
  {
    ConcatFields(s, false);
    var fields := Fields(s, false);
    ConcatNonEmpty(fields);
    if NonEmpty(fields) != [] {
      assert NonEmpty(fields)[0] in NonEmpty(fields);
    }
  }

  // ---------------------------------------------------------------- where the line is cut

  /** The parts of a line; none for a line that is an error. */
  function Parts(s: string): seq<string> { if Parse(s).Some? then Parse(s).value else [] }

  /** An odd number of double quotes: the text ends inside a quote. */
  predicate Odd(s: string) { multiset(s)['"'] % 2 == 1 }

  lemma OddFirst(s: string)
    requires s != ""
    ensures Odd(s) == if s[0] == '"' then !Odd(s[1..]) else Odd(s[1..])
  {
    assert s == [s[0]] + s[1..];
    assert multiset(s) == multiset([s[0]]) + multiset(s[1..]);
  }

  lemma {:induction false} CutFields(a: string, b: string, inQuote: bool)
    requires Odd(a) == inQuote
    ensures Fields(a + " " + b, inQuote) == Fields(a, inQuote) + Fields(b, false)
  {
    if a == "" {
      assert (a + " " + b)[1..] == b;
    } else {
      assert (a + " " + b)[1..] == a[1..] + " " + b;
      OddFirst(a);
      CutFields(a[1..], b, if a[0] == '"' then !inQuote else inQuote);
    }
  }

  lemma {:induction false} NonEmptyAdds(f: seq<string>, g: seq<string>)
    ensures NonEmpty(f + g) == NonEmpty(f) + NonEmpty(g)
  {
    if f == [] {
      assert f + g == g;
    } else {
      assert (f + g)[1..] == f[1..] + g;
      NonEmptyAdds(f[1..], g);
    }
  }

  /** A space outside quotes cuts the line: what stands before it and after it is parsed on its own. */
  lemma SpaceCuts(a: string, b: string)
    requires !Odd(a)
    ensures Parts(a + " " + b) == Parts(a) + Parts(b)
  {
    CutFields(a, b, false);
    NonEmptyAdds(Fields(a, false), Fields(b, false));
  }

  lemma {:induction false} OneField(s: string, inQuote: bool)
    requires forall i :: 0 <= i < |s| && s[i] == ' ' ==> Odd(s[..i]) != inQuote
    ensures |Fields(s, inQuote)| == 1
  {
    if s != "" {
      var q := if s[0] == '"' then !inQuote else inQuote;
      forall i | 0 <= i < |s[1..]| && s[1..][i] == ' ' ensures Odd(s[1..][..i]) != q {
        assert s[i + 1] == ' ';
        assert s[..i + 1][1..] == s[1..][..i];
        OddFirst(s[..i + 1]);
      }
      assert s[..0] == "";
      OneField(s[1..], q);
    }
  }

  /** Nothing else does: a line without a space outside quotes is one part, all of its text, or none. */
  lemma OnlySpacesCut(s: string)
    requires forall i :: 0 <= i < |s| && s[i] == ' ' ==> Odd(s[..i])
    ensures Parts(s) == if Kept(s, false) == "" then [] else [Kept(s, false)]
  {
    OneField(s, false);
    ConcatFields(s, false);
    var fields := Fields(s, false);
    assert fields == [fields[0]];
    assert Concat(fields) == fields[0] + Concat([]) == fields[0];
    NonEmptyFirst(fields[0], []);
    assert fields[0] != "" ==> NonEmpty(fields) == [fields[0]];
  }

  /** The words with single spaces between. */
  function Joined(words: seq<string>): string {
    if words == [] then "" else if |words| == 1 then words[0] else words[0] + " " + Joined(words[1..])
  }

  predicate Word(w: string) { w != "" && ' ' !in w && '"' !in w }

  lemma {:induction false} KeepsWords(s: string)
    requires ' ' !in s && '"' !in s
    ensures Kept(s, false) == s && !Odd(s)
  {
    if s != "" {
      KeepsWords(s[1..]);
      OddFirst(s);
    }
  }

  /** Words without spaces and quotes come back as they were. */
  lemma {:induction false} WordsParse(words: seq<string>)
    requires words != [] && forall w :: w in words ==> Word(w)
    ensures Parse(Joined(words)) == Some(words)
  {
    assert Word(words[0]);
    KeepsWords(words[0]);
    OnlySpacesCut(words[0]);
    if |words| == 1 {
      assert words == [words[0]];
    } else {
      WordsParse(words[1..]);
      SpaceCuts(words[0], Joined(words[1..]));
      assert words == [words[0]] + words[1..];
    }
  }

  // ---------------------------------------------------------------- round trip

  /** The arguments, each in double quotes, with single spaces between. */
  function Quoted(args: seq<string>): string {
    if args == [] then ""
    else if |args| == 1 then "\"" + args[0] + "\""
    else "\"" + args[0] + "\" " + Quoted(args[1..])
  }

  predicate Plain(args: seq<string>) { forall a :: a in args ==> '"' !in a }

  lemma {:induction false} InsideQuotes(a: string, rest: string)
    requires '"' !in a
    ensures Fields(a + "\"" + rest, true) == Prefixed(a, Fields(rest, false))
  {
    var s := a + "\"" + rest;
    if a == "" {
      assert s == "\"" + rest && s[1..] == rest;
      PrefixedTwice("", "", Fields(rest, false));
    } else {
      assert s[1..] == a[1..] + "\"" + rest;
      InsideQuotes(a[1..], rest);
      assert a == [a[0]] + a[1..];
      PrefixedTwice([a[0]], a[1..], Fields(rest, false));
    }
  }

  lemma {:induction false} QuotedFields(args: seq<string>)
    requires Plain(args) && args != []
    ensures Fields(Quoted(args), false) == args
  {
    var tail := if |args| == 1 then "" else " " + Quoted(args[1..]);
    assert Quoted(args) == "\"" + (args[0] + "\"" + tail);
    assert Quoted(args)[1..] == args[0] + "\"" + tail;
    InsideQuotes(args[0], tail);
    if |args| > 1 {
      QuotedFields(args[1..]);
      assert tail[1..] == Quoted(args[1..]);
      PrefixedTwice(args[0], "", args[1..]);
      assert args == [args[0]] + args[1..];
    } else {
      PrefixedTwice(args[0], "", args);
      assert args == [args[0]];
    }
  }

  /** Quoting keeps every argument that is not empty, in order. */
  lemma QuotedParses(args: seq<string>)
    requires Plain(args)
    ensures Parse(Quoted(args)) == if NonEmpty(args) == [] then None else Some(NonEmpty(args))
  {
    if args == [] {
      assert Fields("", false) == [""];
    } else {
      QuotedFields(args);
    }
  }

  lemma {:induction false} AllNonEmpty(args: seq<string>)
    ensures NonEmpty(args) == args <==> "" !in args
  {
    if args != [] {
      AllNonEmpty(args[1..]);
      NoLonger(args[1..]);
      assert args == [args[0]] + args[1..];
    }
  }

  lemma {:induction false} NoLonger(args: seq<string>)
    ensures |NonEmpty(args)| <= |args|
  {
    if args != [] { NoLonger(args[1..]); }
  }

  /** The round trip holds for these argument lists and for no others. */
  lemma RoundTripIff(args: seq<string>)
    ensures Parse(Quoted(args)) == Some(args) <==> args != [] && "" !in args && Plain(args)
  {
    AllNonEmpty(args);
    if Plain(args) {
      QuotedParses(args);
    } else {
      PartsAreTheKeptText(Quoted(args));
    }
  }
}
