/** Newline framing: how records are laid out in a file, and how the line scanner reads them back. */
module AuditScan {
  /** A line of this many characters (one for each byte) no longer fits the scanner's buffer. */
  const MAX_LINE: nat := 1048576

  /** The tokens read, and whether the scanner stopped at a line that was too long. */
  datatype Scanned = Scanned(tokens: seq<string>, tooLong: bool)

  /** Where the first line ends. */
  function LineEnd(s: string): (n: nat)
    ensures n <= |s| && (forall i :: 0 <= i < n ==> s[i] != '\n') && (n < |s| ==> s[n] == '\n')
  {
    if s == "" || s[0] == '\n' then 0 else 1 + LineEnd(s[1..])
  }

  function DropReturn(s: string): string {
    if s != "" && s[|s| - 1] == '\r' then s[..|s| - 1] else s
  }

  function Scan(s: string): Scanned
    decreases |s|
  {
    if s == "" then Scanned([], false)
    else
      var n := LineEnd(s);
      if n >= MAX_LINE then Scanned([], true)
      else
        var rest := if n < |s| then Scan(s[n + 1..]) else Scanned([], false);
        Scanned([DropReturn(s[..n])] + rest.tokens, rest.tooLong)
  }

  /** Every reader skips empty lines. */
  function Records(tokens: seq<string>): seq<string> {
    if tokens == [] then []
    else (if tokens[0] == "" then [] else [tokens[0]]) + Records(tokens[1..])
  }

  /** A serialized record: not empty, without a line break, and not ending in a carriage return. */
  predicate Proper(line: string) {
    line != "" && '\n' !in line && line[|line| - 1] != '\r'
  }

  predicate Short(line: string) {
    |line| < MAX_LINE
  }

  ghost predicate AllProper(lines: seq<string>) {
    forall i :: 0 <= i < |lines| ==> Proper(lines[i])
  }

  ghost predicate AllShort(lines: seq<string>) {
    forall i :: 0 <= i < |lines| ==> Short(lines[i])
  }

  /** The file that every one of these records was written to. */
  function Unlines(lines: seq<string>): string {
    if lines == [] then "" else lines[0] + "\n" + Unlines(lines[1..])
  }

  lemma {:induction false} LineEndIs(s: string, n: nat)
    requires n < |s| && s[n] == '\n' && forall i :: 0 <= i < n ==> s[i] != '\n'
    ensures LineEnd(s) == n
  {
    var m := LineEnd(s);
    assert m >= n;
    assert m <= n;
  }

  lemma {:induction false} RecordsConcat(a: seq<string>, b: seq<string>)
    ensures Records(a + b) == Records(a) + Records(b)
  {
    if a == [] {
      assert a + b == b;
    } else {
      assert (a + b)[1..] == a[1..] + b;
      RecordsConcat(a[1..], b);
    }
  }

  /** Content that ends at a line boundary. */
  predicate Aligned(s: string) {
    s == "" || s[|s| - 1] == '\n'
  }

  /** One more line after aligned, readable content. */
  lemma {:induction false} ScanLine(line: string, rest: string)
    requires Proper(line)
    ensures Scan(line + "\n" + rest)
            == if Short(line) then Scanned([line] + Scan(rest).tokens, Scan(rest).tooLong) else Scanned([], true)
  {
    var s := line + "\n" + rest;
    assert forall i :: 0 <= i < |line| ==> s[i] == line[i] && s[i] != '\n';
    assert s[|line|] == '\n';
    LineEndIs(s, |line|);
    assert s[..|line|] == line && s[|line| + 1..] == rest;
  }

  /** How many leading records fit the scanner's buffer. */
  function ShortPrefix(lines: seq<string>): (n: nat)
    ensures n <= |lines| && AllShort(lines[..n]) && (n < |lines| ==> !Short(lines[n]))
  {
    if lines == [] || !Short(lines[0]) then 0
    else
      var m := ShortPrefix(lines[1..]);
      assert lines[..m + 1] == [lines[0]] + lines[1..][..m];
      1 + m
  }

  /** Reading a written file back gives the records themselves, up to the first one too long to read. */
  lemma {:induction false} ScanUnlines(lines: seq<string>)
    requires AllProper(lines)
    ensures var n := ShortPrefix(lines); Scan(Unlines(lines)) == Scanned(lines[..n], n < |lines|)
  {
    hide Scan, LineEnd;
    if lines == [] {
      ScanEmpty();
    } else {
      ScanUnlines(lines[1..]);
      ScanLine(lines[0], Unlines(lines[1..]));
      if Short(lines[0]) {
        var m := ShortPrefix(lines[1..]);
        assert lines[..m + 1] == [lines[0]] + lines[1..][..m];
      }
    }
  }

  lemma {:induction false} ScanEmpty()
    ensures Scan("") == Scanned([], false)
  {
  }

  lemma {:induction false} RecordsOfProper(lines: seq<string>)
    requires AllProper(lines)
    ensures Records(lines) == lines
  {
    if lines != [] {
      assert Proper(lines[0]);
      assert AllProper(lines[1..]);
      RecordsOfProper(lines[1..]);
    }
  }

  /** Content whose first line ends at n. */
  lemma {:induction false} ScanFirst(s: string, n: nat)
    requires n < |s| && s[n] == '\n' && forall i :: 0 <= i < n ==> s[i] != '\n'
    ensures Scan(s) == if n >= MAX_LINE then Scanned([], true)
                       else Scanned([DropReturn(s[..n])] + Scan(s[n + 1..]).tokens, Scan(s[n + 1..]).tooLong)
  {
    LineEndIs(s, n);
  }

  lemma {:induction false} FirstLine(a: string, b: string) returns (n: nat)
    requires Aligned(a) && a != ""
    ensures n < |a| && a[n] == '\n' && (forall i :: 0 <= i < n ==> a[i] != '\n') && Aligned(a[n + 1..])
    ensures (a + b)[n] == '\n' && (forall i :: 0 <= i < n ==> (a + b)[i] != '\n')
    ensures (a + b)[..n] == a[..n] && (a + b)[n + 1..] == a[n + 1..] + b
  {
    n := LineEnd(a);
    assert n < |a|;
  }

  /** Appending to aligned content that can be read reads the old records and then the new text's. */
  lemma {:induction false} ScanConcat(a: string, b: string)
    requires Aligned(a) && !Scan(a).tooLong
    ensures Scan(a + b) == Scanned(Scan(a).tokens + Scan(b).tokens, Scan(b).tooLong)
    decreases |a|
  {
    hide Scan, LineEnd, DropReturn;
    if a == "" {
      ScanEmpty();
      assert a + b == b;
    } else {
      var n := FirstLine(a, b);
      ScanFirst(a, n);
      ScanFirst(a + b, n);
      ScanConcat(a[n + 1..], b);
    }
  }

  /** The unfinished last line of the content. */
  function Tail(s: string): string {
    if Aligned(s) then "" else Tail(s[..|s| - 1]) + [s[|s| - 1]]
  }

  lemma {:induction false} TailSplits(s: string)
    ensures Aligned(s) <==> Tail(s) == ""
    ensures '\n' !in Tail(s) && |Tail(s)| <= |s| && Aligned(s[..|s| - |Tail(s)|])
    ensures s[..|s| - |Tail(s)|] + Tail(s) == s
  {
    if !Aligned(s) {
      var t := s[..|s| - 1];
      TailSplits(t);
      assert s == t + [s[|s| - 1]];
      assert s[..|s| - |Tail(s)|] == t[..|t| - |Tail(t)|];
    }
  }

  /** An aligned prefix of readable content is readable. */
  lemma {:induction false} PrefixReads(a: string, b: string)
    requires Aligned(a) && !Scan(a + b).tooLong
    ensures !Scan(a).tooLong
    decreases |a|
  {
    hide Scan, LineEnd, DropReturn;
    if a == "" {
      ScanEmpty();
    } else {
      var n := FirstLine(a, b);
      ScanFirst(a, n);
      ScanFirst(a + b, n);
      PrefixReads(a[n + 1..], b);
    }
  }

  /**
   An appended record is read back as a record of its own exactly when the content it was appended to ended
   at a line boundary; after a torn write it is fused with the torn tail.
   */
  lemma {:induction false} AppendReadsBackIff(s: string, line: string)
    requires Proper(line) && Short(line) && !Scan(s).tooLong
    ensures Records(Scan(s + line + "\n").tokens) == Records(Scan(s).tokens) + [line] <==> Aligned(s)
  {
    hide Scan, LineEnd, Tail;
    TailSplits(s);
    var a, t := s[..|s| - |Tail(s)|], Tail(s);
    assert s == a + t;
    PrefixReads(a, t);
    ScanEmpty();
    ScanConcat(a, t);
    ScanConcat(a, t + line + "\n");
    assert s + line + "\n" == a + (t + line + "\n");
    assert t + line + "\n" == (t + line) + "\n" + "";
    assert Proper(t + line);
    ScanLine(t + line, "");
    var before := Scan(a).tokens;
    if t == "" {
      assert t + line == line && t + line + "\n" == line + "\n" + "";
      RecordsConcat(before, [line]);
      RecordsOne(line);
      assert before + [] == before && [line] + [] == [line];
    } else {
      RecordsConcat(before, Scan(t).tokens);
      if Short(t + line) {
        assert [t + line] + [] == [t + line];
        RecordsConcat(before, [t + line]);
        RecordsOne(t + line);
      } else {
        RecordsConcat(before, []);
      }
      LastDiffers(Records(before), Records(Scan(t).tokens), t + line, line);
    }
  }

  /** A line too long to read hides everything after it. */
  lemma {:induction false} ScanStops(a: string, b: string)
    requires Aligned(a) && Scan(a).tooLong
    ensures Scan(a + b) == Scan(a)
    decreases |a|
  {
    hide Scan, LineEnd, DropReturn;
    if a == "" {
      ScanEmpty();
    } else {
      var n := FirstLine(a, b);
      ScanFirst(a, n);
      ScanFirst(a + b, n);
      if n < MAX_LINE {
        ScanStops(a[n + 1..], b);
      }
    }
  }

  /**
   The same with more content after the appended record: the record is read as its own, in its place, or not at
   all.
   */
  lemma {:induction false} AppendReadsThroughIff(s: string, line: string, later: string)
    requires Proper(line) && Short(line) && !Scan(s).tooLong
    ensures Records(Scan(s + line + "\n" + later).tokens) == Records(Scan(s).tokens) + [line] + Records(Scan(later).tokens)
            <==> Aligned(s)
  {
    hide Scan, LineEnd, Records, Aligned;
    var a := s + line + "\n";
    EndsLine(s + line);
    AppendReadsBackIff(s, line);
    if Scan(a).tooLong {
      ScanStops(a, later);
      HiddenIsShort(s, line);
    } else {
      ScanConcat(a, later);
      RecordsConcat(Scan(a).tokens, Scan(later).tokens);
      CancelTail(Records(Scan(a).tokens), Records(Scan(s).tokens) + [line], Records(Scan(later).tokens));
    }
  }

  lemma {:induction false} EndsLine(s: string)
    ensures Aligned(s + "\n")
  {
  }

  lemma {:induction false} CancelTail(x: seq<string>, y: seq<string>, z: seq<string>)
    ensures x + z == y + z <==> x == y
  {
    if x + z == y + z {
      assert x == (x + z)[..|x|] && y == (y + z)[..|y|];
    }
  }

  /** If the appended record pushed a torn tail past the buffer, fewer records are read than before and it. */
  lemma {:induction false} HiddenIsShort(s: string, line: string)
    requires Proper(line) && Short(line) && !Scan(s).tooLong && Scan(s + line + "\n").tooLong
    ensures !Aligned(s) && |Records(Scan(s + line + "\n").tokens)| <= |Records(Scan(s).tokens)|
  {
    hide Scan, LineEnd, Tail, Records;
    TailSplits(s);
    var a, t := s[..|s| - |Tail(s)|], Tail(s);
    assert s == a + t;
    PrefixReads(a, t);
    ScanEmpty();
    ScanConcat(a, t);
    ScanConcat(a, t + line + "\n");
    assert s + line + "\n" == a + (t + line + "\n");
    assert t + line + "\n" == (t + line) + "\n" + "";
    assert Proper(t + line);
    ScanLine(t + line, "");
    RecordsConcat(Scan(a).tokens, Scan(t).tokens);
    assert Scan(a).tokens + [] == Scan(a).tokens;
    assert t == "" ==> t + line == line;
  }

  lemma {:induction false} RecordsOne(line: string)
    requires line != ""
    ensures Records([line]) == [line] && Records([]) == []
  {
    assert [line][1..] == [];
  }

  lemma {:induction false} LastDiffers(a: seq<string>, b: seq<string>, x: string, y: string)
    requires x != y
    ensures a + [x] != a + b + [y] && a + [] != a + b + [y]
  {
    var l, r := a + [x], a + b + [y];
    assert l[|l| - 1] == x && r[|r| - 1] == y;
    assert |a + []| < |r|;
  }
}
