/**
 * The java.lang.String operations the patcher glue relies on, stated over
 * Dafny strings: startsWith, contains, replace(CharSequence, CharSequence)
 * and split with a one-character separator.
 */
module JavaStrings {

  /** `s.startsWith(p)`. */
  predicate StartsWith(s: string, p: string) {
    |p| <= |s| && s[..|p|] == p
  }

  /** `s.contains(t)`: t occurs at some position of s (the empty string occurs everywhere). */
  predicate Contains(s: string, t: string)
    decreases |s|
  {
    StartsWith(s, t) || (s != [] && Contains(s[1..], t))
  }

  /** t occurs in s at index i. */
  predicate OccursAt(s: string, t: string, i: int) {
    0 <= i <= |s| - |t| && s[i..i + |t|] == t
  }

  /** Contains agrees with the index-based reading `s.indexOf(t) >= 0`. */
  lemma {:induction false} ContainsAt(s: string, t: string)
    ensures Contains(s, t) <==> exists i :: OccursAt(s, t, i)
  {
    if s == [] {
      if Contains(s, t) {
        assert OccursAt(s, t, 0);
      }
    } else {
      ContainsAt(s[1..], t);
      if StartsWith(s, t) {
        assert OccursAt(s, t, 0);
      } else if Contains(s[1..], t) {
        var i :| OccursAt(s[1..], t, i);
        assert s[1..][i..i + |t|] == s[i + 1..i + 1 + |t|];
        assert OccursAt(s, t, i + 1);
      }
      if exists i :: OccursAt(s, t, i) {
        var i :| OccursAt(s, t, i);
        if i > 0 {
          assert s[1..][i - 1..i - 1 + |t|] == s[i..i + |t|];
          assert OccursAt(s[1..], t, i - 1);
        }
      }
    }
  }

  /** A string that does not hold the first character of t cannot contain t. */
  lemma {:induction false} NotContainsWithoutFirstChar(s: string, t: string)
    requires t != [] && t[0] !in s
    ensures !Contains(s, t)
  {
    if s != [] {
      assert s[0] != t[0];
      NotContainsWithoutFirstChar(s[1..], t);
    }
  }

  /**
   * No occurrence of t in a + b, given that b holds none and that none starts
   * inside a.
   */
  lemma {:induction false} NotContainsConcat(a: string, b: string, t: string)
    requires !Contains(b, t)
    requires forall i :: 0 <= i < |a| ==> !StartsWith(a[i..] + b, t)
    ensures !Contains(a + b, t)
  {
    if a == [] {
      assert a + b == b;
    } else {
      assert a[0..] == a;
      assert (a + b)[1..] == a[1..] + b;
      forall i | 0 <= i < |a[1..]|
        ensures !StartsWith(a[1..][i..] + b, t)
      {
        assert a[1..][i..] == a[i + 1..];
      }
      NotContainsConcat(a[1..], b, t);
    }
  }

  /**
   * `s.replace(target, replacement)`: occurrences of target are found from
   * left to right, never overlapping, and each is replaced; an empty target
   * matches before every character and at the end.
   */
  function ReplaceAll(s: string, target: string, replacement: string): string
    decreases |s|
  {
    if target == [] then
      if s == [] then replacement else replacement + [s[0]] + ReplaceAll(s[1..], target, replacement)
    else if s == [] then []
    else if StartsWith(s, target) then replacement + ReplaceAll(s[|target|..], target, replacement)
    else [s[0]] + ReplaceAll(s[1..], target, replacement)
  }

  /** A string without an occurrence of target comes back unchanged. */
  lemma {:induction false} ReplaceAbsent(s: string, target: string, replacement: string)
    requires !Contains(s, target)
    ensures ReplaceAll(s, target, replacement) == s
  {
    if s != [] {
      ReplaceAbsent(s[1..], target, replacement);
    }
  }

  /** An occurrence at the very front is replaced and the scan continues after it. */
  lemma ReplaceLeading(target: string, rest: string, replacement: string)
    requires target != []
    ensures ReplaceAll(target + rest, target, replacement) == replacement + ReplaceAll(rest, target, replacement)
  {
    assert StartsWith(target + rest, target) by {
      assert (target + rest)[..|target|] == target;
    }
    assert (target + rest)[|target|..] == rest;
  }

  /**
   * When the first character of t occurs nowhere else in t, an occurrence of
   * t that follows text without one is the first to be replaced: no earlier
   * match can straddle into it.
   */
  lemma {:induction false} ReplaceAfterClean(a: string, t: string, rest: string, replacement: string)
    requires t != [] && t[0] !in t[1..]
    requires !Contains(a, t)
    ensures ReplaceAll(a + t + rest, t, replacement) == a + replacement + ReplaceAll(rest, t, replacement)
    decreases |a|
  {
    if a == [] {
      calc {
        ReplaceAll(a + t + rest, t, replacement);
        { assert a + t + rest == t + rest; }
        ReplaceAll(t + rest, t, replacement);
        { ReplaceLeading(t, rest, replacement); }
        replacement + ReplaceAll(rest, t, replacement);
        { assert a + replacement == replacement; }
        a + replacement + ReplaceAll(rest, t, replacement);
      }
    } else {
      var s := a + t + rest;
      var tail := ReplaceAll(rest, t, replacement);
      NoMatchBeforeClean(a, t, rest);
      assert !Contains(a[1..], t);
      calc {
        ReplaceAll(s, t, replacement);
        { ReplaceNoMatchFront(s, t, replacement); }
        [s[0]] + ReplaceAll(s[1..], t, replacement);
        { assert s[1..] == a[1..] + t + rest; }
        [a[0]] + ReplaceAll(a[1..] + t + rest, t, replacement);
        { ReplaceAfterClean(a[1..], t, rest, replacement); }
        [a[0]] + (a[1..] + replacement + tail);
        { assert [a[0]] + a[1..] == a; }
        a + replacement + tail;
      }
    }
  }

  /** Without a match at the front, the first character is kept and the scan moves on. */
  lemma ReplaceNoMatchFront(s: string, t: string, replacement: string)
    requires s != [] && t != [] && !StartsWith(s, t)
    ensures ReplaceAll(s, t, replacement) == [s[0]] + ReplaceAll(s[1..], t, replacement)
  {
  }

  /** Text without t, followed by t: no match of t starts at the front. */
  lemma NoMatchBeforeClean(a: string, t: string, rest: string)
    requires t != [] && t[0] !in t[1..]
    requires a != [] && !StartsWith(a, t)
    ensures !StartsWith(a + t + rest, t)
  {
    var s := a + t + rest;
    if |a| >= |t| {
      assert s[..|t|] == a[..|t|];
    } else if |t| <= |s| {
      assert s[..|t|][|a|] == t[0];
      assert t[1..][|a| - 1] == t[|a|];
    }
  }

  /** The fields of s between occurrences of sep, empty ones included (Pattern.split before trimming). */
  function Fields(s: string, sep: char): (r: seq<string>)
    ensures |r| >= 1
    ensures s == [] ==> r == [""]
  {
    if s == [] then [""]
    else
      var rest := Fields(s[1..], sep);
      if s[0] == sep then [""] + rest else [[s[0]] + rest[0]] + rest[1..]
  }

  /** Removes the empty fields at the end, as `split` does when no limit is given. */
  function DropTrailingEmpty(fields: seq<string>): seq<string> {
    if fields == [] || fields[|fields| - 1] != "" then fields
    else DropTrailingEmpty(fields[..|fields| - 1])
  }

  /**
   * `s.split(sep)` for a separator that is one character and no regular
   * expression operator: a string without sep is its own single field,
   * otherwise the fields with the trailing empty ones removed.
   */
  function Split(s: string, sep: char): seq<string> {
    if sep !in s then [s] else DropTrailingEmpty(Fields(s, sep))
  }

  /** The longest prefix of s that holds no sep. */
  function TakeUntil(s: string, sep: char): string {
    if s == [] || s[0] == sep then [] else [s[0]] + TakeUntil(s[1..], sep)
  }

  lemma {:induction false} FieldsFirst(s: string, sep: char)
    ensures Fields(s, sep)[0] == TakeUntil(s, sep)
  {
    if s != [] && s[0] != sep {
      FieldsFirst(s[1..], sep);
    }
  }

  lemma {:induction false} FieldsAllEmpty(s: string, sep: char)
    ensures (forall k :: 0 <= k < |Fields(s, sep)| ==> Fields(s, sep)[k] == "")
        <==> (forall i :: 0 <= i < |s| ==> s[i] == sep)
  {
    if s != [] {
      FieldsAllEmpty(s[1..], sep);
      var rest := Fields(s[1..], sep);
      if s[0] == sep {
        assert Fields(s, sep) == [""] + rest;
        if forall k :: 0 <= k < |rest| ==> rest[k] == "" {
          forall i | 0 <= i < |s| ensures s[i] == sep {
            if i > 0 { assert s[i] == s[1..][i - 1]; }
          }
        } else {
          var k :| 0 <= k < |rest| && rest[k] != "";
          assert Fields(s, sep)[k + 1] != "";
          var i :| 0 <= i < |s[1..]| && s[1..][i] != sep;
          assert s[i + 1] != sep;
        }
      } else {
        assert Fields(s, sep)[0] != "";
      }
    }
  }

  lemma {:induction false} DropTrailingEmptyFacts(fields: seq<string>)
    ensures DropTrailingEmpty(fields) == [] <==> forall k :: 0 <= k < |fields| ==> fields[k] == ""
    ensures DropTrailingEmpty(fields) != [] ==> DropTrailingEmpty(fields)[0] == fields[0]
    decreases |fields|
  {
    if fields != [] && fields[|fields| - 1] == "" {
      var init := fields[..|fields| - 1];
      DropTrailingEmptyFacts(init);
      assert forall k :: 0 <= k < |init| ==> init[k] == fields[k];
      if DropTrailingEmpty(fields) != [] {
        assert |init| > 0;
      }
    }
  }

  /**
   * `s.split(sep)` has no field exactly when s is a non-empty run of
   * separators; otherwise its first field is the text before the first
   * separator.
   */
  lemma SplitFirstField(s: string, sep: char)
    ensures Split(s, sep) == [] <==> (s != [] && forall i :: 0 <= i < |s| ==> s[i] == sep)
    ensures Split(s, sep) != [] ==> Split(s, sep)[0] == TakeUntil(s, sep)
  {
    FieldsFirst(s, sep);
    if sep !in s {
      TakeUntilWhole(s, sep);
      if s != [] {
        assert s[0] != sep;
      }
    } else {
      FieldsAllEmpty(s, sep);
      DropTrailingEmptyFacts(Fields(s, sep));
    }
  }

  lemma {:induction false} TakeUntilWhole(s: string, sep: char)
    requires sep !in s
    ensures TakeUntil(s, sep) == s
  {
    if s != [] {
      assert s[0] != sep;
      assert sep !in s[1..];
      TakeUntilWhole(s[1..], sep);
    }
  }

  /**
   * The text before the first separator holds no separator, is a prefix of
   * s, and is either all of s or followed by a separator.
   */
  lemma {:induction false} TakeUntilPrefix(s: string, sep: char)
    ensures sep !in TakeUntil(s, sep)
    ensures StartsWith(s, TakeUntil(s, sep))
    ensures |TakeUntil(s, sep)| == |s| || s[|TakeUntil(s, sep)|] == sep
  {
    if s != [] && s[0] != sep {
      TakeUntilPrefix(s[1..], sep);
      assert s[|TakeUntil(s, sep)|..] == s[1..][|TakeUntil(s[1..], sep)|..];
    }
  }
}
