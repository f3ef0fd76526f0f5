/**
 * The string operations of the .NET base library that the modelled code relies on:
 * String.Split on one character, String.Join, ordinal case-insensitive comparison,
 * EndsWith and IsNullOrWhiteSpace.
 */
module Text {
  import opened Wrappers

  /** String.Split(sep): the pieces between separators; "" gives [""], "a." gives ["a", ""]. */
  function Split(s: string, sep: char): (r: seq<string>)
    ensures |r| >= 1
    ensures forall i :: 0 <= i < |r| ==> sep !in r[i]
    decreases |s|
  {
    if |s| == 0 then [""]
    else
      var rest := Split(s[1..], sep);
      if s[0] == sep then [""] + rest
      else [[s[0]] + rest[0]] + rest[1..]
  }

  /** String.Join(sep, parts). */
  function Join(parts: seq<string>, sep: string): string
  {
    if |parts| == 0 then ""
    else if |parts| == 1 then parts[0]
    else parts[0] + sep + Join(parts[1..], sep)
  }

  /** What a StringBuilder holds after appending `seg + sep` for every segment in turn. */
  function Terminated(segs: seq<string>, sep: char): string
  {
    if |segs| == 0 then "" else Terminated(segs[..|segs| - 1], sep) + segs[|segs| - 1] + [sep]
  }

  /** Ordinal lower-casing of the ASCII letters (the invariant culture agrees on them). */
  function LowerChar(c: char): char
  {
    if 'A' <= c <= 'Z' then (c as int + 32) as char else c
  }

  function Lower(s: string): (r: string)
    ensures |r| == |s|
  {
    if |s| == 0 then "" else [LowerChar(s[0])] + Lower(s[1..])
  }

  /** String.Equals(a, b, StringComparison.OrdinalIgnoreCase), and a.ToLowerInvariant() == b.ToLowerInvariant(). */
  predicate EqualsIgnoreCase(a: string, b: string)
  {
    Lower(a) == Lower(b)
  }

  /** Lower-casing works character by character. */
  lemma {:induction false} LowerAt(s: string, i: nat)
    requires i < |s|
    ensures Lower(s)[i] == LowerChar(s[i])
  {
    if i > 0 {
      LowerAt(s[1..], i - 1);
    }
  }

  /** Two strings are equal ignoring case exactly when they have the same length and agree, position by position, once lower-cased. */
  lemma EqualsIgnoreCaseCharwise(a: string, b: string)
    ensures EqualsIgnoreCase(a, b) <==> |a| == |b| && forall i :: 0 <= i < |a| ==> LowerChar(a[i]) == LowerChar(b[i])
  {
    if |a| == |b| {
      forall i | 0 <= i < |a|
        ensures Lower(a)[i] == LowerChar(a[i]) && Lower(b)[i] == LowerChar(b[i])
      {
        LowerAt(a, i);
        LowerAt(b, i);
      }
    }
  }

  /** String.EndsWith(suffix, StringComparison.Ordinal). */
  predicate EndsWith(s: string, suffix: string)
  {
    |suffix| <= |s| && s[|s| - |suffix|..] == suffix
  }

  predicate IsWhiteSpace(c: char)
  {
    c == ' ' || c == '\t' || c == '\n' || c == '\r' || c == '\U{000B}' || c == '\U{000C}'
  }

  /** String.IsNullOrWhiteSpace on a string that may be null. */
  predicate IsNullOrWhiteSpace(s: Option<string>)
  {
    s.None? || forall i :: 0 <= i < |s.value| ==> IsWhiteSpace(s.value[i])
  }

  /** Splitting at a separator that joins two strings splits each of them. */
  lemma {:induction false} SplitAppend(a: string, b: string, sep: char)
    ensures Split(a + [sep] + b, sep) == Split(a, sep) + Split(b, sep)
    decreases |a|
  {
    if |a| == 0 {
      assert a + [sep] + b == [sep] + b;
      assert ([sep] + b)[1..] == b;
    } else {
      assert (a + [sep] + b)[0] == a[0];
      assert (a + [sep] + b)[1..] == a[1..] + [sep] + b;
      SplitAppend(a[1..], b, sep);
    }
  }

  /** A string without the separator is one piece. */
  lemma {:induction false} SplitSingle(s: string, sep: char)
    requires sep !in s
    ensures Split(s, sep) == [s]
    decreases |s|
  {
    if |s| > 0 {
      assert sep !in s[1..] by {
        forall i | 0 <= i < |s[1..]| ensures s[1..][i] != sep { assert s[1..][i] == s[i + 1]; }
      }
      SplitSingle(s[1..], sep);
      assert [s[0]] + s[1..] == s;
    }
  }

  /** Joining pieces that do not contain the separator, then splitting, gives the pieces back. */
  lemma {:induction false} SplitJoin(parts: seq<string>, sep: char)
    requires |parts| >= 1
    requires forall i :: 0 <= i < |parts| ==> sep !in parts[i]
    ensures Split(Join(parts, [sep]), sep) == parts
    decreases |parts|
  {
    if |parts| == 1 {
      SplitSingle(parts[0], sep);
    } else {
      SplitJoin(parts[1..], sep);
      SplitAppend(parts[0], Join(parts[1..], [sep]), sep);
      SplitSingle(parts[0], sep);
      assert [parts[0]] + parts[1..] == parts;
    }
  }

  /** Splitting, then joining with the same separator, gives the string back. */
  lemma {:induction false} JoinSplit(s: string, sep: char)
    ensures Join(Split(s, sep), [sep]) == s
    decreases |s|
  {
    if |s| > 0 {
      var rest := Split(s[1..], sep);
      JoinSplit(s[1..], sep);
      if s[0] == sep {
        assert ([""] + rest)[1..] == rest;
        assert [s[0]] + s[1..] == s;
      } else if |rest| == 1 {
        assert [s[0]] + s[1..] == s;
      } else {
        var r := [[s[0]] + rest[0]] + rest[1..];
        assert r[1..] == rest[1..];
        assert Join(rest, [sep]) == rest[0] + [sep] + Join(rest[1..], [sep]);
        assert [s[0]] + s[1..] == s;
      }
    }
  }

  /** Appending one more segment to a join. */
  lemma {:induction false} JoinSnoc(parts: seq<string>, last: string, sep: string)
    requires |parts| >= 1
    ensures Join(parts + [last], sep) == Join(parts, sep) + sep + last
    decreases |parts|
  {
    if |parts| == 1 {
      assert (parts + [last])[1..] == [last];
    } else {
      JoinSnoc(parts[1..], last, sep);
      assert (parts + [last])[1..] == parts[1..] + [last];
    }
  }

  /** The builder text is the joined segments followed by one trailing separator. */
  lemma {:induction false} TerminatedIsJoin(segs: seq<string>, sep: char)
    requires |segs| >= 1
    ensures Terminated(segs, sep) == Join(segs, [sep]) + [sep]
    decreases |segs|
  {
    var init := segs[..|segs| - 1];
    if |segs| > 1 {
      TerminatedIsJoin(init, sep);
      JoinSnoc(init, segs[|segs| - 1], [sep]);
      assert init + [segs[|segs| - 1]] == segs;
    }
  }

  /** A text framed by the same prefix and suffix determines what is between them. */
  lemma InfixDetermined(p: string, a: string, b: string, q: string)
    requires p + a + q == p + b + q
    ensures a == b
  {
    assert |a| == |b|;
    assert a == (p + a + q)[|p|..|p| + |a|];
    assert b == (p + b + q)[|p|..|p| + |b|];
  }

  /** Appending one segment and the separator to the builder. */
  lemma TerminatedSnoc(segs: seq<string>, seg: string, sep: char)
    ensures Terminated(segs + [seg], sep) == Terminated(segs, sep) + seg + [sep]
  {
    assert (segs + [seg])[..|segs|] == segs;
  }

  /** Dropping the builder's last character leaves the joined segments; an empty builder had none. */
  lemma TerminatedTrim(segs: seq<string>, sep: char)
    ensures |Terminated(segs, sep)| == 0 <==> |segs| == 0
    ensures |segs| > 0 ==> Terminated(segs, sep)[..|Terminated(segs, sep)| - 1] == Join(segs, [sep])
  {
    if |segs| > 0 {
      TerminatedIsJoin(segs, sep);
    }
  }
}
