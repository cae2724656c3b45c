/**
 * The string helpers of the bot: Python's `str.strip`, `str.split("\n")`,
 * `str.replace(pattern, "")`, `in`, `startswith` and `int(...)` as far as the
 * bot uses them, and the two formatting helpers `clean_markdown` and
 * `format_list_as_markdown` built on top of them.
 */
module Text {
  import opened Wrappers
  import opened Sequences

  /** The characters Python's `str.isspace()` accepts; `str.strip()` removes exactly these. */
  predicate IsSpace(c: char) {
    var n := c as int;
    n == 0x20 || 0x09 <= n <= 0x0D || 0x1C <= n <= 0x1F || n == 0x85 || n == 0xA0 ||
    n == 0x1680 || 0x2000 <= n <= 0x200A || n == 0x2028 || n == 0x2029 ||
    n == 0x202F || n == 0x205F || n == 0x3000
  }

  predicate AllSpace(s: string) {
    forall k | 0 <= k < |s| :: IsSpace(s[k])
  }

  /** The number of whitespace characters `s` begins with. */
  function LeadingSpace(s: string): (n: nat)
    ensures n <= |s|
    ensures forall k | 0 <= k < n :: IsSpace(s[k])
    ensures n < |s| ==> !IsSpace(s[n])
  {
    if s == [] || !IsSpace(s[0]) then 0 else 1 + LeadingSpace(s[1..])
  }

  /** The number of whitespace characters `s` ends with. */
  function TrailingSpace(s: string): (n: nat)
    ensures n <= |s|
    ensures forall k | |s| - n <= k < |s| :: IsSpace(s[k])
    ensures n < |s| ==> !IsSpace(s[|s| - 1 - n])
  {
    if s == [] || !IsSpace(s[|s| - 1]) then 0 else 1 + TrailingSpace(s[..|s| - 1])
  }

  /**
   * Python's `s.strip()`: the result is empty exactly when `s` is all
   * whitespace, and otherwise neither begins nor ends with whitespace.
   * `StripSlice` shows it is the part of `s` between the leading and the
   * trailing whitespace.
   */
  function Strip(s: string): (r: string)
    ensures |r| <= |s|
    ensures r == [] <==> AllSpace(s)
    ensures r != [] ==> !IsSpace(r[0]) && !IsSpace(r[|r| - 1])
  {
    var lead := LeadingSpace(s);
    var kept := |s| - lead - TrailingSpace(s[lead..]);
    var r := s[lead..lead + kept];
    assert r == [] ==> lead == |s|;
    r
  }

  /** What `strip` keeps of `s` is the slice after its leading whitespace, and only whitespace follows it. */
  lemma StripSlice(s: string)
    ensures LeadingSpace(s) + |Strip(s)| <= |s|
    ensures Strip(s) == s[LeadingSpace(s)..LeadingSpace(s) + |Strip(s)|]
    ensures AllSpace(s[LeadingSpace(s) + |Strip(s)|..])
  {
    StripTail(s);
  }

  lemma StripTail(s: string)
    ensures LeadingSpace(s) + |Strip(s)| <= |s|
    ensures AllSpace(s[LeadingSpace(s) + |Strip(s)|..])
  {
    var lead := LeadingSpace(s);
    var t := s[lead..];
    var kept := |t| - TrailingSpace(t);
    assert |Strip(s)| == kept;
    SliceOfSuffix(s, lead, kept);
    TrailingAllSpace(t);
  }

  /** What follows the kept part of `t` is its trailing whitespace. */
  lemma TrailingAllSpace(t: string)
    ensures AllSpace(t[|t| - TrailingSpace(t)..])
  {
    var kept := |t| - TrailingSpace(t);
    var tail := t[kept..];
    forall k | 0 <= k < |tail| ensures IsSpace(tail[k]) {
      assert tail[k] == t[kept + k];
    }
  }

  /** Stripping a string that has no surrounding whitespace changes nothing. */
  lemma {:induction false} StripUnpadded(s: string)
    requires s != [] && !IsSpace(s[0]) && !IsSpace(s[|s| - 1])
    ensures Strip(s) == s
  {
    assert LeadingSpace(s) == 0;
  }

  /** `strip` is idempotent. */
  lemma StripIdempotent(s: string)
    ensures Strip(Strip(s)) == Strip(s)
  {
    if Strip(s) != [] {
      StripUnpadded(Strip(s));
    }
  }

  /** Python's `s.startswith(p)`. */
  predicate StartsWith(s: string, p: string) {
    |p| <= |s| && s[..|p|] == p
  }

  /** `p` occurs in `s` starting at index `i`. */
  predicate OccursAt(s: string, p: string, i: nat) {
    i + |p| <= |s| && s[i..i + |p|] == p
  }

  /** Python's `p in s` for strings: `p` occurs somewhere in `s` as a contiguous piece. */
  function Contains(s: string, p: string): (r: bool)
    ensures r <==> exists i: nat :: OccursAt(s, p, i)
    decreases |s|
  {
    if StartsWith(s, p) then
      assert OccursAt(s, p, 0);
      true
    else if s == [] then
      assert forall i: nat :: !OccursAt(s, p, i);
      false
    else
      var r := Contains(s[1..], p);
      if r then
        var j: nat :| OccursAt(s[1..], p, j);
        SliceShift(s, j + 1, |p|);
        assert OccursAt(s, p, j + 1);
        r
      else
        assert !OccursAt(s, p, 0);
        forall i: nat | OccursAt(s, p, i) ensures i > 0 && OccursAt(s[1..], p, i - 1) {
          assert i != 0;
          SliceShift(s, i, |p|);
        }
        r
  }

  /**
   * Python's `s.replace(p, "")`: scanning left to right, every occurrence of `p`
   * that does not overlap an earlier removed one is deleted.
   */
  function RemoveAll(s: string, p: string): (r: string)
    requires p != []
    ensures |r| <= |s|
    decreases |s|
  {
    if s == [] then []
    else if StartsWith(s, p) then RemoveAll(s[|p|..], p)
    else [s[0]] + RemoveAll(s[1..], p)
  }

  /** Text in which `p` does not occur comes back unchanged. */
  lemma {:induction false} RemoveAllAbsent(s: string, p: string)
    requires p != [] && !Contains(s, p)
    ensures RemoveAll(s, p) == s
    decreases |s|
  {
    if s != [] {
      RemoveAllAbsent(s[1..], p);
    }
  }

  /** A text that does not start with `p` keeps its first character and is scanned on from the next. */
  lemma RemoveAllSkip(s: string, p: string)
    requires p != [] && s != [] && !StartsWith(s, p)
    ensures RemoveAll(s, p) == [s[0]] + RemoveAll(s[1..], p)
  {
  }

  /** `p` occurs in `s[1..]` one place earlier than in `s`, at every index past the first. */
  lemma OccursAfterFirst(s: string, p: string, i: nat)
    requires s != [] && 1 <= i
    ensures OccursAt(s, p, i) <==> OccursAt(s[1..], p, i - 1)
  {
    if i + |p| <= |s| {
      SliceShift(s, i, |p|);
    }
  }

  /** The first occurrence of `p` in `s`, past index 0, is one place earlier in `s[1..]`. */
  lemma FirstOccurrenceAfterFirst(s: string, p: string, i: nat)
    requires 1 <= i && OccursAt(s, p, i)
    requires forall j | 0 <= j < i :: !OccursAt(s, p, j)
    ensures OccursAt(s[1..], p, i - 1)
    ensures forall j | 0 <= j < i - 1 :: !OccursAt(s[1..], p, j)
    ensures s[1..][i - 1 + |p|..] == s[i + |p|..]
  {
    OccursAfterFirst(s, p, i);
    forall j | 0 <= j < i - 1 ensures !OccursAt(s[1..], p, j) {
      OccursAfterFirst(s, p, j + 1);
    }
  }

  /**
   * Removal starting from the first occurrence: when `p` first occurs in `s`
   * at index `i`, the text before it is kept, `p` is dropped, and the scan
   * resumes right after it.
   */
  lemma {:induction false} RemoveAt(s: string, p: string, i: nat)
    requires p != []
    requires OccursAt(s, p, i)
    requires forall j | 0 <= j < i :: !OccursAt(s, p, j)
    ensures RemoveAll(s, p) == s[..i] + RemoveAll(s[i + |p|..], p)
    decreases i
  {
    if i == 0 {
      assert StartsWith(s, p);
      assert s[..0] == [];
    } else {
      var tail := RemoveAll(s[i + |p|..], p);
      assert RemoveAll(s, p) == [s[0]] + RemoveAll(s[1..], p) by {
        assert !OccursAt(s, p, 0);
        RemoveAllSkip(s, p);
      }
      assert RemoveAll(s[1..], p) == s[1..][..i - 1] + tail by {
        FirstOccurrenceAfterFirst(s, p, i);
        RemoveAt(s[1..], p, i - 1);
      }
      ConsPrefix(s, i, tail);
    }
  }

  /** A leading `p` is removed and the scan resumes right after it. */
  lemma RemoveLeading(p: string, b: string)
    requires p != []
    ensures RemoveAll(p + b, p) == RemoveAll(b, p)
  {
    assert StartsWith(p + b, p) && (p + b)[|p|..] == b;
  }

  /**
   * The first occurrence of `p` is removed and the scan resumes after it: when
   * `p` occurs nowhere in `a + p + b` before the end of `a`, the text `a` is
   * kept and `p` is dropped.
   */
  lemma RemoveFirst(a: string, p: string, b: string)
    requires p != []
    requires forall j | 0 <= j < |a| :: !OccursAt(a + p + b, p, j)
    ensures RemoveAll(a + p + b, p) == a + RemoveAll(b, p)
  {
    var s := a + p + b;
    assert OccursAt(s, p, |a|) by {
      assert s[|a|..|a| + |p|] == p;
    }
    RemoveAt(s, p, |a|);
    assert s[..|a|] == a && s[|a| + |p|..] == b;
  }

  /** How many times `c` occurs in `s`. */
  function CountOf(c: char, s: string): nat
  {
    if s == [] then 0 else (if s[0] == c then 1 else 0) + CountOf(c, s[1..])
  }

  /** `clean_markdown`: Python's `text.replace('\\', '')`, which deletes every backslash. */
  function CleanMarkdown(text: string): (r: string)
    ensures '\\' !in r
    ensures forall c | c != '\\' :: CountOf(c, r) == CountOf(c, text)
    ensures |r| == |text| - CountOf('\\', text)
  {
    if text == [] then []
    else
      if text[0] == '\\' then CleanMarkdown(text[1..]) else [text[0]] + CleanMarkdown(text[1..])
  }

  /** Removing backslashes piecewise is removing them from the whole: the kept characters stay in order. */
  lemma {:induction false} CleanMarkdownAppend(a: string, b: string)
    ensures CleanMarkdown(a + b) == CleanMarkdown(a) + CleanMarkdown(b)
  {
    if a == [] {
      assert a + b == b;
    } else {
      assert (a + b)[0] == a[0] && (a + b)[1..] == a[1..] + b;
      CleanMarkdownAppend(a[1..], b);
    }
  }

  /** Text without backslashes passes `clean_markdown` unchanged, so cleaning twice is cleaning once. */
  lemma {:induction false} CleanMarkdownKeeps(text: string)
    requires '\\' !in text
    ensures CleanMarkdown(text) == text
  {
    if text != [] {
      assert text[0] != '\\';
      assert '\\' !in text[1..];
      CleanMarkdownKeeps(text[1..]);
    }
  }

  /** A single line: text with no line break in it. */
  predicate IsLine(s: string) {
    '\n' !in s
  }

  /** The lines joined back with "\n": Python's `"\n".join(lines)`. */
  function Join(lines: seq<string>): string
    requires |lines| > 0
  {
    if |lines| == 1 then lines[0] else lines[0] + "\n" + Join(lines[1..])
  }

  /**
   * Python's `s.split("\n")`: one piece per newline plus one, no piece contains a
   * newline, and joining the pieces with "\n" gives back `s`.
   */
  function Split(s: string): (lines: seq<string>)
    ensures |lines| == CountOf('\n', s) + 1
    ensures forall k | 0 <= k < |lines| :: IsLine(lines[k])
    ensures Join(lines) == s
    decreases |s|
  {
    if s == [] then [""]
    else
      var rest := Split(s[1..]);
      assert s == [s[0]] + s[1..];
      if s[0] == '\n' then
        [""] + rest
      else
        var first := [s[0]] + rest[0];
        assert '\n' !in first;
        assert |rest| > 1 ==> Join(rest) == rest[0] + "\n" + Join(rest[1..]);
        [first] + rest[1..]
  }

  /** Splitting a string in front of which newline-free text was put. */
  lemma {:induction false} SplitAfterPrefix(a: string, b: string)
    requires IsLine(a)
    ensures Split(a + b) == [a + Split(b)[0]] + Split(b)[1..]
  {
    var rest := Split(b);
    if a != [] {
      var x := a + b;
      assert x[0] == a[0] && x[1..] == a[1..] + b;
      assert '\n' !in a[1..];
      SplitAfterPrefix(a[1..], b);
      var r1 := Split(x[1..]);
      assert r1[0] == a[1..] + rest[0] && r1[1..] == rest[1..];
      assert Split(x) == [[x[0]] + r1[0]] + r1[1..];
      assert [x[0]] + r1[0] == a + rest[0];
    } else {
      assert a + b == b && a + rest[0] == rest[0];
      assert [rest[0]] + rest[1..] == rest;
    }
  }

  lemma SplitNewline(b: string)
    ensures Split("\n" + b) == [""] + Split(b)
  {
    assert ("\n" + b)[1..] == b;
  }

  /** The other round trip: joining newline-free lines and splitting again gives the lines back. */
  lemma {:induction false} SplitJoin(lines: seq<string>)
    requires |lines| > 0
    requires forall k | 0 <= k < |lines| :: IsLine(lines[k])
    ensures Split(Join(lines)) == lines
  {
    if |lines| == 1 {
      assert Split("") == [""];
      SplitAfterPrefix(lines[0], "");
      assert lines[0] + "" == lines[0];
    } else {
      var rest := lines[1..];
      SplitJoin(rest);
      SplitNewline(Join(rest));
      assert Join(lines) == lines[0] + ("\n" + Join(rest));
      SplitAfterPrefix(lines[0], "\n" + Join(rest));
      assert Split("\n" + Join(rest))[0] == "" && Split("\n" + Join(rest))[1..] == rest;
      assert lines[0] + "" == lines[0];
      assert lines == [lines[0]] + rest;
    }
  }

  /** Appending one more line to joined lines. */
  lemma {:induction false} JoinSnoc(lines: seq<string>, last: string)
    requires |lines| > 0
    ensures Join(lines + [last]) == Join(lines) + "\n" + last
  {
    if |lines| > 1 {
      assert (lines + [last])[1..] == lines[1..] + [last];
      JoinSnoc(lines[1..], last);
    }
  }

  const Bullet: string := "\U{2022} "

  /**
   * One line of `format_list_as_markdown`. A line whose stripped form starts with
   * "-" becomes a bullet followed by the stripped remainder of the line after its
   * FIRST character (the first character of the line as given, not of its stripped
   * form); every other line, numbered ones included, is stripped.
   */
  function FormatLine(line: string): string
  {
    var stripped := Strip(line);
    if StartsWith(stripped, "-") then
      Bullet + Strip(line[1..])
    else if StartsWith(stripped, "1.") || StartsWith(stripped, "2.") || StartsWith(stripped, "3.") then
      stripped
    else
      stripped
  }

  /** A stripped line is still a single line. */
  lemma StripLine(s: string)
    requires IsLine(s)
    ensures IsLine(Strip(s))
  {
    StripSlice(s);
  }

  /** Formatting never introduces a line break. */
  lemma FormatLineIsLine(line: string)
    requires IsLine(line)
    ensures IsLine(FormatLine(line))
  {
    StripLine(line);
    if StartsWith(Strip(line), "-") {
      StripLine(line[1..]);
    }
  }

  /** A line "-" followed by anything becomes the bullet and that remainder, stripped. */
  lemma DashLine(rest: string)
    ensures FormatLine("-" + rest) == Bullet + Strip(rest)
  {
    var line := "-" + rest;
    assert [] + line == line;
    DashedStrip([], line);
    DashFirst(line);
    assert line[1..] == rest;
  }

  lemma {:induction false} LeadingSpaceAfterSpace(sp: string, t: string)
    requires AllSpace(sp)
    ensures LeadingSpace(sp + t) == |sp| + LeadingSpace(t)
  {
    if sp == [] {
      assert sp + t == t;
    } else {
      assert (sp + t)[0] == sp[0] && (sp + t)[1..] == sp[1..] + t;
      LeadingSpaceAfterSpace(sp[1..], t);
    }
  }

  /** Leading whitespace in front of `t` is skipped by `strip`. */
  lemma {:induction false} StripAfterSpace(sp: string, t: string)
    requires AllSpace(sp)
    ensures Strip(sp + t) == Strip(t)
  {
    if sp == [] {
      assert sp + t == t;
    } else {
      assert sp + t == [sp[0]] + (sp[1..] + t);
      StripAfterBlank(sp[0], sp[1..] + t);
      StripAfterSpace(sp[1..], t);
    }
  }

  /** One blank in front of `u` is skipped by `strip`. */
  lemma StripAfterBlank(c: char, u: string)
    requires IsSpace(c)
    ensures Strip([c] + u) == Strip(u)
  {
    var s := [c] + u;
    assert s[1..] == u;
    var lead := LeadingSpace(u);
    assert LeadingSpace(s) == 1 + lead;
    assert s[1 + lead..] == u[lead..];
  }

  /** A line whose stripped form starts with "-" becomes the bullet and the strip of all but its first character. */
  lemma DashFirst(line: string)
    requires StartsWith(Strip(line), "-")
    ensures |line| > 0 && FormatLine(line) == Bullet + Strip(line[1..])
  {
  }

  /**
   * An indented "-" line keeps its dash: the character dropped is the first
   * blank `c`, not the dash, so the output line is the bullet followed by the
   * stripped item, dash included (for instance " - item" and "  - item" both
   * become the bullet and "- item", while "- item" becomes the bullet and "item").
   */
  lemma IndentedDashLine(c: char, sp: string, item: string)
    requires IsSpace(c) && AllSpace(sp)
    requires item != [] && item[0] == '-'
    ensures FormatLine([c] + (sp + item)) == Bullet + Strip(item) && Strip(item)[0] == '-'
  {
    var line := [c] + (sp + item);
    IndentedStrip(c, sp, item);
    assert StartsWith(Strip(line), "-");
    DashFirst(line);
  }

  /** Both the indented item and the item with its first blank dropped strip to the item's own strip. */
  lemma IndentedStrip(c: char, sp: string, item: string)
    requires IsSpace(c) && AllSpace(sp)
    requires item != [] && item[0] == '-'
    ensures Strip([c] + (sp + item)) == Strip(item) && Strip(([c] + (sp + item))[1..]) == Strip(item)
    ensures Strip(item) != [] && Strip(item)[0] == '-' && StartsWith(Strip(item), "-")
  {
    var line := [c] + (sp + item);
    assert AllSpace([c] + sp);
    assert line == ([c] + sp) + item;
    DashedStrip([c] + sp, item);
    assert line[1..] == sp + item;
    DashedStrip(sp, item);
  }

  /** Stripping blanks in front of a dash leaves a string that starts with the dash. */
  lemma DashedStrip(sp: string, dashed: string)
    requires AllSpace(sp) && dashed != [] && dashed[0] == '-'
    ensures Strip(sp + dashed) == Strip(dashed) && StartsWith(Strip(dashed), "-")
    ensures Strip(dashed) != [] && Strip(dashed)[0] == '-'
  {
    assert LeadingSpace(dashed) == 0;
    assert !AllSpace(dashed) by { assert !IsSpace(dashed[0]); }
    StripAfterSpace(sp, dashed);
  }

  /** Every line whose stripped form does not start with "-" (numbered items included) is just stripped. */
  lemma PlainLine(line: string)
    requires !StartsWith(Strip(line), "-")
    ensures FormatLine(line) == Strip(line)
    ensures FormatLine(line) == [] || (!IsSpace(FormatLine(line)[0]) && !IsSpace(FormatLine(line)[|FormatLine(line)| - 1]))
  {
  }

  /** The formatted form of every line, position by position. */
  function FormatEach(lines: seq<string>): (r: seq<string>)
    ensures |r| == |lines|
    ensures forall k | 0 <= k < |lines| :: r[k] == FormatLine(lines[k])
  {
    seq(|lines|, k requires 0 <= k < |lines| => FormatLine(lines[k]))
  }

  /** The pieces in order, each followed by "\n". */
  function Terminated(pieces: seq<string>): string
  {
    if pieces == [] then ""
    else Terminated(pieces[..|pieces| - 1]) + pieces[|pieces| - 1] + "\n"
  }

  lemma TerminatedSnoc(pieces: seq<string>, last: string)
    ensures Terminated(pieces + [last]) == Terminated(pieces) + last + "\n"
  {
    assert (pieces + [last])[..|pieces|] == pieces;
  }

  /** Terminating every piece is joining them with "\n" and adding a final "\n". */
  lemma {:induction false} TerminatedJoin(pieces: seq<string>)
    requires |pieces| > 0
    ensures Terminated(pieces) == Join(pieces) + "\n"
  {
    var n := |pieces|;
    var init := pieces[..n - 1];
    if n == 1 {
      assert Terminated(init) == "";
    } else {
      TerminatedJoin(init);
      assert pieces == init + [pieces[n - 1]];
      JoinSnoc(init, pieces[n - 1]);
    }
  }

  /** What `format_list_as_markdown` returns: every line of the text formatted and terminated by "\n". */
  function FormatList(text: string): string
  {
    Terminated(FormatEach(Split(text)))
  }

  /**
   * `format_list_as_markdown` emits exactly one "\n"-terminated output line per
   * piece of `text.split("\n")`, in order: splitting the output yields the
   * formatted input lines followed by the empty piece after the final "\n".
   * Hence the output has one more "\n" than the input.
   */
  lemma FormatListLines(text: string)
    ensures Split(FormatList(text)) == FormatEach(Split(text)) + [""]
    ensures CountOf('\n', FormatList(text)) == CountOf('\n', text) + 1
  {
    var lines := Split(text);
    var out := FormatEach(lines);
    TerminatedJoin(out);
    JoinSnoc(out, "");
    assert Join(out) + "\n" == Join(out) + "\n" + "";
    forall k | 0 <= k < |out + [""]| ensures IsLine((out + [""])[k]) {
      if k < |out| {
        FormatLineIsLine(lines[k]);
      }
    }
    SplitJoin(out + [""]);
  }

  /** `format_list_as_markdown`: formats the text line by line, accumulating the output. */
  method FormatListAsMarkdown(responseText: string) returns (formatted: string)
    ensures formatted == FormatList(responseText)
    ensures Split(formatted) == FormatEach(Split(responseText)) + [""]
    ensures CountOf('\n', formatted) == CountOf('\n', responseText) + 1
  {
    formatted := "";
    var lines := Split(responseText);
    ghost var out := FormatEach(lines);
    for i := 0 to |lines|
      invariant formatted == Terminated(out[..i])
    {
      var line := FormatLine(lines[i]);
      assert out[i] == line;
      TakeOneMore(out, i);
      TerminatedSnoc(out[..i], line);
      formatted := formatted + line + "\n";
    }
    assert out[..|lines|] == out;
    FormatListLines(responseText);
  }

  predicate IsDigit(c: char) {
    '0' <= c <= '9'
  }

  predicate AllDigits(s: string) {
    forall k | 0 <= k < |s| :: IsDigit(s[k])
  }

  /** The value of a string of decimal digits. */
  function DigitsValue(ds: string): nat
    requires AllDigits(ds)
  {
    if ds == [] then 0
    else DigitsValue(ds[..|ds| - 1]) * 10 + (ds[|ds| - 1] as int - '0' as int)
  }

  /** Python's `str(n)` for an integer: decimal digits, with a leading "-" when negative. */
  function Show(n: int): (r: string)
  {
    if n < 0 then "-" + ShowNat(-n) else ShowNat(n)
  }

  function ShowNat(n: nat): (r: string)
    ensures r != [] && AllDigits(r) && DigitsValue(r) == n
    ensures r[0] != '-' && r[0] != '+' && !IsSpace(r[0]) && !IsSpace(r[|r| - 1])
  {
    var last := ['0' + (n % 10) as char];
    if n < 10 then
      last
    else
      var r := ShowNat(n / 10) + last;
      assert r[..|r| - 1] == ShowNat(n / 10);
      r
  }

  /**
   * Python's `int(s)` on a decimal string: surrounding whitespace is ignored and a
   * single sign may precede one or more digits. Anything else raises, here `None`.
   */
  function ParseInt(s: string): (r: Option<int>)
  {
    var t := Strip(s);
    if t != [] && (t[0] == '-' || t[0] == '+') then
      var ds := t[1..];
      if ds != [] && AllDigits(ds) then Some(if t[0] == '-' then -(DigitsValue(ds) as int) else DigitsValue(ds))
      else None
    else if t != [] && AllDigits(t) then Some(DigitsValue(t))
    else None
  }

  /** Every integer the bot prints with `str` is read back by `int` as the same integer. */
  lemma ParseShow(n: int)
    ensures ParseInt(Show(n)) == Some(n)
  {
    var s := Show(n);
    StripUnpadded(s);
    if n < 0 {
      assert s[1..] == ShowNat(-n);
    }
  }

  /** `int` rejects the empty string and text with no digits. */
  lemma ParseRejectsDigitless(s: string)
    requires forall k | 0 <= k < |s| :: !IsDigit(s[k])
    ensures ParseInt(s) == None
  {
    var t := Strip(s);
    if t != [] {
      assert t[0] == s[LeadingSpace(s)];
      if |t| > 1 {
        assert t[1] == s[LeadingSpace(s) + 1];
      }
    }
  }
}
