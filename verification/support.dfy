/** Comment banners and documentation blocks (support.py), and the two values the
    source reads from the environment: the author (first comma-separated field of the
    password entry's GECOS text) and the name of the working directory. Both raw
    texts are parameters here. */
module Support {
  import opened Text

  /** `'//' + sep * 75`. */
  function Banner(sep: string): (b: string)
    ensures |b| == 2 + 75 * |sep|
    ensures StartsWith(b, "//")
  {
    "//" + Repeat(sep, 75)
  }

  /** `comment(text, sep, isFinal)`: a banner, the text as a `//` line, a banner;
      or, when final, the bare banner with no newline. */
  function Comment(text: string, sep: string, isFinal: bool): (r: string)
    ensures isFinal ==> r == Banner(sep) && |r| == 2 + 75 * |sep|
    ensures !isFinal ==> StartsWith(r, Banner(sep) + "\n// " + text + "\n") && EndsWith(r, Banner(sep) + "\n")
    ensures !isFinal ==> |r| == 2 * |Banner(sep)| + |text| + 6
  {
    var b := Banner(sep);
    if !isFinal then
      var head := b + "\n// " + text + "\n";
      SuffixOfConcat(head, b + "\n");
      assert head + (b + "\n") == head + b + "\n";
      head + b + "\n"
    else b
  }

  /** A non-final comment is exactly three lines: banner, `// text`, banner. */
  lemma CommentLines(text: string, sep: string)
    requires '\n' !in text && '\n' !in sep
    ensures Split(Comment(text, sep, false), '\n') == [Banner(sep), "// " + text, Banner(sep), ""]
  {
    var b := Banner(sep);
    assert '\n' !in b by {
      assert forall ch :: ch in Repeat(sep, 75) ==> ch in sep;
    }
    var l := "// " + text;
    assert '\n' !in l;
    assert Comment(text, sep, false) == b + "\n" + (l + "\n" + (b + "\n" + ""));
    SplitAtSeparator(b, l + "\n" + (b + "\n" + ""), '\n');
    SplitAtSeparator(l, b + "\n" + "", '\n');
    SplitAtSeparator(b, "", '\n');
    SplitNone(b, '\n');
    SplitNone(l, '\n');
  }

  /** A final comment is the banner alone: one line, with no line end. */
  lemma CommentFinalLine(text: string, sep: string)
    requires '\n' !in sep
    ensures Split(Comment(text, sep, true), '\n') == [Banner(sep)]
  {
    assert forall ch :: ch in Repeat(sep, 75) ==> ch in sep;
    assert '\n' !in Banner(sep);
    SplitNone(Banner(sep), '\n');
  }

  /** The author: `gecos.split(',')[0]`. */
  function AuthorName(gecos: string): (r: string)
    ensures ',' !in r && StartsWith(gecos, r)
    ensures |r| < |gecos| ==> gecos[|r|] == ','
  {
    SplitFirst(gecos, ',');
    Split(gecos, ',')[0]
  }

  /** The directory name: `cwd.split('/')[-1]`. */
  function LastSegment(cwd: string): (r: string)
    ensures '/' !in r && EndsWith(cwd, r)
    ensures |r| < |cwd| ==> cwd[|cwd| - |r| - 1] == '/'
  {
    SplitLast(cwd, '/');
    Last(Split(cwd, '/'))
  }

  /** `doxyComment(text, first)`, with the name of the working directory (`LastSegment`),
      the author (`AuthorName`) and the date passed in. */
  function DoxyComment(text: string, first: bool, dir: string, author: string, date: string): (r: string)
    ensures StartsWith(r, "/*") && EndsWith(r, "*/\n")
    ensures Contains(r, "*\n*\n")
  {
    var head := if first then "* @class " + text + " " + text + ".h " + dir + "/" + text + ".h\n"
                else "* " + text + "\n";
    var stamp := if first then "* @author " + author + "\n" + "* @date   " + date + "\n" else "";
    var r := "/*" + head + "*\n*\n" + stamp + "*/\n";
    ContainsSuffix("/*" + head, "*\n*\n");
    ContainsGrowRight("/*" + head + "*\n*\n", stamp + "*/\n", "*\n*\n");
    assert r == "/*" + head + "*\n*\n" + (stamp + "*/\n");
    r
  }

  /** A class documentation block has six lines: the `@class` line, two `*` lines,
      the `@author` line, the `@date` line and the closing line. */
  lemma DoxyClassLines(text: string, dir: string, author: string, date: string)
    requires '\n' !in text && '\n' !in dir && '\n' !in author && '\n' !in date
    ensures Split(DoxyComment(text, true, dir, author, date), '\n') ==
      ["/** @class " + text + " " + text + ".h " + dir + "/" + text + ".h", "*", "*",
       "* @author " + author, "* @date   " + date, "*/", ""]
  {
    var l1 := "/** @class " + text + " " + text + ".h " + dir + "/" + text + ".h";
    var l4, l5 := "* @author " + author, "* @date   " + date;
    DoxyClassShape(text, dir, author, date);
    SixLines(l1, "*", "*", l4, l5, "*/");
  }

  lemma DoxyClassShape(text: string, dir: string, author: string, date: string)
    ensures DoxyComment(text, true, dir, author, date) ==
      ("/** @class " + text + " " + text + ".h " + dir + "/" + text + ".h") + "\n" + ("*" + "\n" + ("*" + "\n" +
      (("* @author " + author) + "\n" + (("* @date   " + date) + "\n" + ("*/" + "\n")))))
  {
  }

  /** Any other documentation block has four lines: the text line, two `*` lines and the closing line. */
  lemma DoxyTextLines(text: string, dir: string, author: string, date: string)
    requires '\n' !in text
    ensures Split(DoxyComment(text, false, dir, author, date), '\n') == ["/** " + text, "*", "*", "*/", ""]
  {
    var l1 := "/** " + text;
    assert DoxyComment(text, false, dir, author, date) == l1 + "\n" + ("*" + "\n" + ("*" + "\n" + ("*/" + "\n")));
    FourLines(l1, "*", "*", "*/");
  }

  lemma FourLines(a: string, b: string, c: string, d: string)
    requires '\n' !in a && '\n' !in b && '\n' !in c && '\n' !in d
    ensures Split(a + "\n" + (b + "\n" + (c + "\n" + (d + "\n"))), '\n') == [a, b, c, d, ""]
  {
    SplitLine(d, "");
    assert d + "\n" + "" == d + "\n";
    SplitLine(c, d + "\n");
    SplitLine(b, c + "\n" + (d + "\n"));
    SplitLine(a, b + "\n" + (c + "\n" + (d + "\n")));
  }

  lemma SixLines(a: string, b: string, c: string, d: string, e: string, f: string)
    requires '\n' !in a && '\n' !in b && '\n' !in c && '\n' !in d && '\n' !in e && '\n' !in f
    ensures Split(a + "\n" + (b + "\n" + (c + "\n" + (d + "\n" + (e + "\n" + (f + "\n"))))), '\n')
            == [a, b, c, d, e, f, ""]
  {
    FourLines(c, d, e, f);
    var rest := c + "\n" + (d + "\n" + (e + "\n" + (f + "\n")));
    SplitLine(b, rest);
    SplitLine(a, b + "\n" + rest);
  }

  /** A line without a newline, then a newline, then the rest: the line is the first piece. */
  lemma SplitLine(l: string, rest: string)
    requires '\n' !in l
    ensures Split(l + "\n" + rest, '\n') == [l] + Split(rest, '\n')
  {
    SplitAtSeparator(l, rest, '\n');
    SplitNone(l, '\n');
  }
}
