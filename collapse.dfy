/**
 * The normalisation the compiler tests apply before comparing command texts:
 * every run of white space becomes one space and the ends are trimmed
 * (`Regex.Replace(s, "\\s+", " ").Trim()`), and how the command of a query
 * with one where clause and a projection normalises.
 */
module Collapse {
  import opened Text
  import opened Query

  /** No white space at all. */
  predicate Solid(s: string)
  {
    forall i :: 0 <= i < |s| ==> !IsWhiteSpace(s[i])
  }

  /** Nothing but white space. */
  predicate Blank(s: string)
  {
    forall i :: 0 <= i < |s| ==> IsWhiteSpace(s[i])
  }

  /** Regex.Replace(s, "\\s+", " "): every maximal run of white space becomes one space. */
  function Squeezed(s: string): string
  {
    if |s| == 0 then ""
    else if IsWhiteSpace(s[0]) && |s| > 1 && IsWhiteSpace(s[1]) then Squeezed(s[1..])
    else [if IsWhiteSpace(s[0]) then ' ' else s[0]] + Squeezed(s[1..])
  }

  /** String.Trim(): white space removed from both ends. */
  function Trimmed(s: string): string
    decreases |s|
  {
    if |s| > 0 && IsWhiteSpace(s[0]) then Trimmed(s[1..])
    else if |s| > 0 && IsWhiteSpace(s[|s| - 1]) then Trimmed(s[..|s| - 1])
    else s
  }

  /** The statement the tests compare. */
  function Collapsed(s: string): string
  {
    Trimmed(Squeezed(s))
  }

  // Sequence identities, each proved where no quantifier about white space is in scope:
  // proved in place, next to Solid or Blank facts, they send the solver round in circles.

  lemma Assoc(a: string, b: string, c: string)
    ensures a + b + c == a + (b + c)
  {
  }

  lemma DropFirst(a: string, b: string)
    requires |a| > 0
    ensures (a + b)[1..] == a[1..] + b
  {
  }

  lemma EmptyLeft(a: string, b: string)
    requires |a| == 0
    ensures a + b == b
  {
  }

  lemma SplitHead(s: string)
    requires |s| > 0
    ensures s == [s[0]] + s[1..]
  {
  }

  /** A run of white space cannot reach across a boundary with a visible character on one side. */
  lemma {:induction false} SqueezedConcat(a: string, b: string)
    requires |a| == 0 || |b| == 0 || !IsWhiteSpace(a[|a| - 1]) || !IsWhiteSpace(b[0])
    ensures Squeezed(a + b) == Squeezed(a) + Squeezed(b)
    decreases |a|
  {
    if |a| > 0 {
      DropFirst(a, b);
      if |a| > 1 {
        SqueezedConcat(a[1..], b);
        Assoc([if IsWhiteSpace(a[0]) then ' ' else a[0]], Squeezed(a[1..]), Squeezed(b));
      } else {
        EmptyLeft(a[1..], b);
      }
    } else {
      EmptyLeft(a, b);
    }
  }

  /** A text without white space is left alone. */
  lemma {:induction false} SqueezedSolid(s: string)
    requires Solid(s)
    ensures Squeezed(s) == s
    decreases |s|
  {
    if |s| > 0 {
      SqueezedSolid(s[1..]);
      SplitHead(s);
    }
  }

  /** A run of white space before a visible character, or before the end, becomes one space. */
  lemma {:induction false} SqueezedBlank(g: string, s: string)
    requires |g| > 0 && Blank(g)
    requires |s| == 0 || !IsWhiteSpace(s[0])
    ensures Squeezed(g + s) == " " + Squeezed(s)
    decreases |g|
  {
    DropFirst(g, s);
    if |g| > 1 {
      SqueezedBlank(g[1..], s);
    } else {
      EmptyLeft(g[1..], s);
    }
  }

  /** A word, then a gap, then a text starting with a visible character. */
  lemma WordGap(w: string, g: string, s: string)
    requires Solid(w) && |g| > 0 && Blank(g)
    requires |s| == 0 || !IsWhiteSpace(s[0])
    ensures Squeezed(w + g + s) == w + " " + Squeezed(s)
  {
    Assoc(w, g, s);
    if |w| > 0 {
      SqueezedConcat(w, g + s);
    } else {
      EmptyLeft(w, g + s);
      EmptyLeft(w, " ");
    }
    SqueezedSolid(w);
    SqueezedBlank(g, s);
    Assoc(w, " ", Squeezed(s));
  }

  /** A text already in collapsed form, with visible characters at both ends. */
  predicate Tidy(s: string)
  {
    |s| > 0 && !IsWhiteSpace(s[0]) && !IsWhiteSpace(s[|s| - 1]) && Squeezed(s) == s
  }

  /** A collapsed text, then a gap, then a text starting with a visible character. */
  lemma TidyGap(t: string, g: string, s: string)
    requires Tidy(t) && |g| > 0 && Blank(g)
    requires |s| == 0 || !IsWhiteSpace(s[0])
    ensures Squeezed(t + g + s) == t + " " + Squeezed(s)
  {
    Assoc(t, g, s);
    SqueezedConcat(t, g + s);
    SqueezedBlank(g, s);
    Assoc(t, " ", Squeezed(s));
  }

  /** Trim drops the one space a collapsed command ends with. */
  lemma TrimmedLastSpace(y: string)
    requires |y| > 0 && !IsWhiteSpace(y[0]) && !IsWhiteSpace(y[|y| - 1])
    ensures Trimmed(y + " ") == y
  {
    assert (y + " ")[..|y + " "| - 1] == y;
  }

  /** A quoted name in the projection list has no white space when the name has none. */
  lemma ProjectItemSolid(name: string)
    requires Solid(name)
    ensures Solid("'" + name + "':1")
  {
    var item := "'" + name + "':1";
    forall i | 0 <= i < |item|
      ensures !IsWhiteSpace(item[i])
    {
      if 0 < i < |name| + 1 {
        assert item[i] == name[i - 1];
      }
    }
  }

  lemma ProjectItemsTail(names: seq<string>)
    requires |names| > 0
    ensures ProjectItems(names)[0] == "'" + names[0] + "':1"
    ensures ProjectItems(names)[1..] == ProjectItems(names[1..])
  {
  }

  lemma SeparatorSqueezed()
    ensures Squeezed(", ") == ", "
  {
    SqueezedBlank(" ", "");
    SqueezedConcat(",", " ");
    assert ", " == "," + " " && " " + "" == " ";
  }

  /** A word, the list separator, then a text starting with a visible character. */
  lemma SeparatorGap(w: string, s: string)
    requires |w| > 0 && Solid(w)
    requires |s| == 0 || !IsWhiteSpace(s[0])
    ensures Squeezed(w + ", " + s) == w + ", " + Squeezed(s)
  {
    assert !IsWhiteSpace(w[|w| - 1]);
    SqueezedSolid(w);
    SeparatorSqueezed();
    SqueezedConcat(w, ", ");
    assert (w + ", ")[|w + ", "| - 1] == ' ';
    SqueezedConcat(w + ", ", s);
  }

  /** The projection list of visible names is a collapsed text. */
  lemma {:induction false} ProjectListTidy(names: seq<string>)
    requires |names| > 0 && forall i :: 0 <= i < |names| ==> Solid(names[i])
    ensures Tidy(Join(ProjectItems(names), ", "))
    decreases |names|
  {
    var items := ProjectItems(names);
    ProjectItemsTail(names);
    ProjectItemSolid(names[0]);
    var first := items[0];
    if |names| > 1 {
      var rest := names[1..];
      ProjectListTidy(rest);
      var j := Join(items[1..], ", ");
      SeparatorGap(first, j);
      assert (first + ", " + j)[0] == first[0];
    } else {
      SqueezedSolid(first);
    }
  }

  /** A text that starts with white space collapses to a text that starts with the one space. */
  lemma {:induction false} SqueezedLead(b: string)
    requires |b| > 0 && IsWhiteSpace(b[0])
    ensures |Squeezed(b)| > 0 && Squeezed(b)[0] == ' '
    decreases |b|
  {
    if |b| > 1 && IsWhiteSpace(b[1]) {
      SqueezedLead(b[1..]);
    }
  }

  /** Two runs of white space that meet at a boundary become one space. */
  lemma {:induction false} SqueezedMerge(a: string, b: string)
    requires |a| > 0 && |b| > 0 && IsWhiteSpace(a[|a| - 1]) && IsWhiteSpace(b[0])
    ensures |Squeezed(b)| > 0 && Squeezed(a + b) == Squeezed(a) + Squeezed(b)[1..]
    decreases |a|
  {
    SqueezedLead(b);
    DropFirst(a, b);
    if |a| == 1 {
      EmptyLeft(a[1..], b);
      SplitHead(Squeezed(b));
    } else {
      SqueezedMerge(a[1..], b);
      assert (a + b)[1] == a[1];
      Assoc([' '], Squeezed(a[1..]), Squeezed(b)[1..]);
      Assoc([a[0]], Squeezed(a[1..]), Squeezed(b)[1..]);
    }
  }

  /** A visible word is a collapsed text. */
  lemma SolidTidy(w: string)
    requires |w| > 0 && Solid(w)
    ensures Tidy(w)
  {
    SqueezedSolid(w);
  }

  /** Two collapsed texts side by side, or with one space between them, are a collapsed text. */
  lemma TidyJoined(a: string, b: string)
    requires Tidy(a) && Tidy(b)
    ensures Tidy(a + b) && Tidy(a + " " + b)
  {
    SqueezedConcat(a, b);
    TidyGap(a, " ", b);
    assert (a + " " + b)[0] == a[0];
  }

  /** An indented line holding a collapsed text becomes that text between two spaces. */
  lemma IndentedLine(indent: string, w: string)
    requires |indent| > 0 && Blank(indent) && Tidy(w)
    ensures Squeezed(indent + w + "\n") == " " + w + " "
  {
    Assoc(indent, w, "\n");
    SqueezedBlank(indent, w + "\n");
    SqueezedConcat(w, "\n");
    Assoc(" ", w, " ");
  }

  /** Text ending in white space, then text starting with white space: the two runs meet in one space. */
  lemma LinesMerge(a: string, b: string, ra: string, rb: string)
    requires |a| > 0 && |b| > 0 && IsWhiteSpace(a[|a| - 1]) && IsWhiteSpace(b[0])
    requires Squeezed(a) == ra + " " && Squeezed(b) == " " + rb
    ensures Squeezed(a + b) == ra + " " + rb
  {
    SqueezedMerge(a, b);
    DropFirst(" ", rb);
    EmptyLeft(" "[1..], rb);
  }

  /** The first line of the collapsed command. */
  function HeaderLine(name: string): string
  {
    "{ aggregate:'" + name + "', pipeline: ["
  }

  lemma HeaderShape(name: string)
    ensures Header(name) == ("{" + "\n") + ("  " + ("aggregate:'" + name + "',") + "\n") + ("  " + "pipeline: [" + "\n")
  {
    assert "  aggregate:'" == "  " + "aggregate:'";
    assert "  pipeline: [" == "  " + "pipeline: [";
  }

  /** Three lines of collapsed texts, the later two indented, collapse to the texts with single spaces. */
  lemma ThreeLines(w1: string, i2: string, w2: string, i3: string, w3: string)
    requires Tidy(w1) && Tidy(w2) && Tidy(w3)
    requires |i2| > 0 && Blank(i2) && |i3| > 0 && Blank(i3)
    ensures Squeezed((w1 + "\n") + (i2 + w2 + "\n") + (i3 + w3 + "\n")) == w1 + " " + w2 + " " + w3 + " "
  {
    var l1 := w1 + "\n";
    var l2 := i2 + w2 + "\n";
    var l3 := i3 + w3 + "\n";
    SqueezedConcat(w1, "\n");
    IndentedLine(i2, w2);
    IndentedLine(i3, w3);
    LinesMerge(l1, l2, w1, w2 + " ");
    Assoc(w1 + " ", w2, " ");
    assert (l1 + l2)[|l1 + l2| - 1] == l2[|l2| - 1];
    LinesMerge(l1 + l2, l3, w1 + " " + w2, w3 + " ");
    Assoc(w1 + " " + w2 + " ", w3, " ");
  }

  lemma HeaderLineShape(name: string)
    ensures "{" + " " + ("aggregate:'" + name + "',") + " " + "pipeline: [" + " " == HeaderLine(name) + " "
  {
  }

  lemma AggregateSolid(name: string)
    requires Solid(name)
    ensures Solid("aggregate:'" + name + "',")
  {
    var head := "aggregate:'" + name + "',";
    forall i | 0 <= i < |head|
      ensures !IsWhiteSpace(head[i])
    {
      if 11 <= i < 11 + |name| {
        assert head[i] == name[i - 11];
      }
    }
  }

  lemma PipelineWords()
    ensures "pipeline:" + " " + "[" == "pipeline: ["
  {
  }

  lemma HeaderWordsTidy(name: string)
    requires Solid(name)
    ensures Tidy("{") && Tidy("aggregate:'" + name + "',") && Tidy("pipeline: [")
  {
    AggregateSolid(name);
    SolidTidy("aggregate:'" + name + "',");
    SolidTidy("{");
    SolidTidy("pipeline:");
    SolidTidy("[");
    TidyJoined("pipeline:", "[");
    PipelineWords();
  }

  lemma IndentBlank()
    ensures |"  "| > 0 && Blank("  ")
  {
  }

  /** The header collapses to its first line and one space. */
  lemma HeaderSqueezed(name: string)
    requires Solid(name)
    ensures Squeezed(Header(name)) == HeaderLine(name) + " "
  {
    var head := "aggregate:'" + name + "',";
    HeaderWordsTidy(name);
    IndentBlank();
    ThreeLines("{", "  ", head, "  ", "pipeline: [");
    HeaderShape(name);
    HeaderLineShape(name);
  }

  /** The text of the where stage's line. */
  function MatchLine(clause: string): string
  {
    "{$match: " + clause + "},"
  }

  /** The text of the projection stage's line. */
  function ProjectLine(names: seq<string>): string
  {
    "{$project:{ " + Join(ProjectItems(names), ", ") + " }},"
  }

  lemma MatchLineShape(clause: string)
    ensures "{$match:" + " " + clause + "}," == MatchLine(clause)
  {
  }

  lemma MatchLineTidy(clause: string)
    requires Tidy(clause)
    ensures Tidy(MatchLine(clause))
  {
    SolidTidy("{$match:");
    SolidTidy("},");
    TidyJoined("{$match:", clause);
    TidyJoined("{$match:" + " " + clause, "},");
    MatchLineShape(clause);
  }

  lemma ProjectLineShape(j: string, names: seq<string>)
    requires j == Join(ProjectItems(names), ", ")
    ensures "{$project:{" + " " + j + " " + "}}," == ProjectLine(names)
  {
  }

  /** A collapsed text between two collapsed texts, one space on each side, is a collapsed text. */
  lemma TidyWrapped(l: string, m: string, r: string)
    requires Tidy(l) && Tidy(m) && Tidy(r)
    ensures Tidy(l + " " + m + " " + r)
  {
    TidyJoined(l, m);
    TidyJoined(l + " " + m, r);
  }

  lemma ProjectOpenTidy()
    ensures Tidy("{$project:{")
  {
    SolidTidy("{$project:{");
  }

  lemma ProjectCloseTidy()
    ensures Tidy("}},")
  {
    SolidTidy("}},");
  }

  lemma ProjectLineTidy(names: seq<string>)
    requires |names| > 0 && forall i :: 0 <= i < |names| ==> Solid(names[i])
    ensures Tidy(ProjectLine(names))
  {
    var j := Join(ProjectItems(names), ", ");
    ProjectListTidy(names);
    ProjectOpenTidy();
    ProjectCloseTidy();
    TidyWrapped("{$project:{", j, "}},");
    ProjectLineShape(j, names);
  }

  /** The where stage of one clause is its line, indented and ended. */
  lemma MatchStageShape(clause: string)
    ensures MatchStage([clause]) == "    " + MatchLine(clause) + "\n"
  {
  }

  /** The projection stage is its line, indented and ended. */
  lemma ProjectStageShape(names: seq<string>)
    ensures ProjectStage(names) == "    " + ProjectLine(names) + "\n"
  {
  }

  lemma MatchSqueezed(clause: string)
    requires Tidy(clause)
    ensures Squeezed(MatchStage([clause])) == " " + MatchLine(clause) + " "
  {
    MatchLineTidy(clause);
    MatchStageShape(clause);
    IndentedLine("    ", MatchLine(clause));
  }

  lemma ProjectSqueezed(names: seq<string>)
    requires |names| > 0 && forall i :: 0 <= i < |names| ==> Solid(names[i])
    ensures Squeezed(ProjectStage(names)) == " " + ProjectLine(names) + " "
  {
    ProjectLineTidy(names);
    ProjectStageShape(names);
    IndentedLine("    ", ProjectLine(names));
  }

  /** The footer collapses to the closing brackets, each after one space. */
  lemma FooterSqueezed()
    ensures Squeezed(Footer) == " " + "] }" + " "
  {
    var l1 := "  " + "]" + "\n";
    var l2 := "}" + "\n";
    assert Footer == l1 + l2;
    SolidTidy("]");
    IndentedLine("  ", "]");
    SqueezedBlank("\n", "");
    assert "\n" + "" == "\n";
    SqueezedSolid("}");
    SqueezedConcat("}", "\n");
    SqueezedConcat(l1, l2);
    assert " " + "]" + " " + ("}" + " ") == " " + "] }" + " ";
  }

  /** A squeezed text that ends in a space, followed by one that starts and ends with one. */
  lemma TwoPieces(a: string, b: string, ra: string, rb: string)
    requires |a| > 0 && IsWhiteSpace(a[|a| - 1]) && Squeezed(a) == ra + " "
    requires |b| > 0 && IsWhiteSpace(b[0]) && IsWhiteSpace(b[|b| - 1]) && Squeezed(b) == " " + rb + " "
    ensures |a + b| > 0 && IsWhiteSpace((a + b)[|a + b| - 1]) && Squeezed(a + b) == ra + " " + rb + " "
  {
    Assoc(" ", rb, " ");
    LinesMerge(a, b, ra, rb + " ");
    Assoc(ra + " ", rb, " ");
    assert (a + b)[|a + b| - 1] == b[|b| - 1];
  }

  lemma FourPieces(a: string, b: string, c: string, d: string, ra: string, rb: string, rc: string, rd: string)
    requires |a| > 0 && IsWhiteSpace(a[|a| - 1]) && Squeezed(a) == ra + " "
    requires |b| > 0 && IsWhiteSpace(b[0]) && IsWhiteSpace(b[|b| - 1]) && Squeezed(b) == " " + rb + " "
    requires |c| > 0 && IsWhiteSpace(c[0]) && IsWhiteSpace(c[|c| - 1]) && Squeezed(c) == " " + rc + " "
    requires |d| > 0 && IsWhiteSpace(d[0]) && Squeezed(d) == " " + rd
    ensures Squeezed(a + b + c + d) == ra + " " + rb + " " + rc + " " + rd
  {
    TwoPieces(a, b, ra, rb);
    TwoPieces(a + b, c, ra + " " + rb, rc);
    LinesMerge(a + b + c, d, ra + " " + rb + " " + rc, rd);
  }

  /**
   * The command of a query with one where clause and a projection, collapsed as the tests
   * collapse it: the header, the two stage lines and the closing brackets, one space apart.
   */
  lemma ProjectionCollapsed(name: string, clause: string, names: seq<string>)
    requires Solid(name) && Tidy(clause)
    requires |names| > 0 && forall i :: 0 <= i < |names| ==> Solid(names[i])
    ensures Collapsed(Document(name, MatchStage([clause]) + ProjectStage(names))) ==
      HeaderLine(name) + " " + MatchLine(clause) + " " + ProjectLine(names) + " " + "] }"
  {
    var header := Header(name);
    var m := MatchStage([clause]);
    var p := ProjectStage(names);
    DocumentFrame(name, m + p);
    Assoc(header, m, p);
    HeaderSqueezed(name);
    MatchSqueezed(clause);
    ProjectSqueezed(names);
    MatchStageShape(clause);
    ProjectStageShape(names);
    FooterSqueezed();
    assert header[|header| - 1] == '\n';
    assert m[0] == ' ' && m[|m| - 1] == '\n';
    assert p[0] == ' ' && p[|p| - 1] == '\n';
    assert Footer[0] == ' ';
    FourPieces(header, m, p, Footer, HeaderLine(name), MatchLine(clause), ProjectLine(names), "] }" + " ");
    var y := HeaderLine(name) + " " + MatchLine(clause) + " " + ProjectLine(names) + " " + "] }";
    Assoc(HeaderLine(name) + " " + MatchLine(clause) + " " + ProjectLine(names) + " ", "] }", " ");
    assert y[0] == '{' && y[|y| - 1] == '}';
    TrimmedLastSpace(y);
  }
}
