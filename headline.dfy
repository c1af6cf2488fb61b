/**
 * Headline cleaning: `title?.replace(Regex(" [-|] .*"), "")?.trim() ?: "No Title"`.
 * The regex replacement removes, on every line, everything from the first
 * " - " or " | " up to the end of that line (`.` does not cross a line terminator).
 */
module Headline {
  import opened Wrappers
  import opened Text

  /** Characters that Java's `.` does not match. */
  predicate IsLineTerminator(c: char) {
    c == '\n' || c == '\r' || c == '\U{0085}' || c == '\U{2028}' || c == '\U{2029}'
  }

  /** The pattern " [-|] " starts at index `i` of `s`. */
  predicate SeparatorAt(s: string, i: nat) {
    i + 3 <= |s| && s[i] == ' ' && (s[i + 1] == '-' || s[i + 1] == '|') && s[i + 2] == ' '
  }

  /** `s` contains " - " or " | " somewhere. */
  predicate HasSeparator(s: string) {
    exists i: nat :: i < |s| && SeparatorAt(s, i)
  }

  /** `s` has no line terminator. */
  predicate SingleLine(s: string) {
    forall i :: 0 <= i < |s| ==> !IsLineTerminator(s[i])
  }

  /** Index of the first line terminator at or after `i`, or `|s|`: where a greedy `.*` stops. */
  function LineEnd(s: string, i: nat): (j: nat)
    requires i <= |s|
    ensures i <= j <= |s|
    ensures forall k :: i <= k < j ==> !IsLineTerminator(s[k])
    ensures j < |s| ==> IsLineTerminator(s[j])
    decreases |s| - i
  {
    if i == |s| || IsLineTerminator(s[i]) then i else LineEnd(s, i + 1)
  }

  /**
   * `s.replace(Regex(" [-|] .*"), "")`: scanning left to right, a match at the
   * current position is deleted up to the end of its line; otherwise the
   * character is kept. The first character of the result is either kept from
   * `s` at a position with no match, or the line terminator that ended a match.
   */
  function StripSeparators(s: string): (r: string)
    ensures |r| <= |s|
    ensures |r| > 0 ==> (r[0] == s[0] && !SeparatorAt(s, 0)) || IsLineTerminator(r[0])
    decreases |s|
  {
    if s == [] then []
    else if SeparatorAt(s, 0) then
      var e := LineEnd(s, 0);
      assert !IsLineTerminator(s[0]) && !IsLineTerminator(s[1]) && !IsLineTerminator(s[2]);
      assert e >= 3;
      StripSeparators(s[e..])
    else [s[0]] + StripSeparators(s[1..])
  }

  /** Index of the first " - " or " | " at or after `i`, or `|s|` when there is none. */
  function FirstSeparatorFrom(s: string, i: nat): (n: nat)
    requires i <= |s|
    ensures i <= n <= |s|
    ensures forall k: nat :: i <= k < n ==> !SeparatorAt(s, k)
    ensures n < |s| ==> SeparatorAt(s, n)
    decreases |s| - i
  {
    if i == |s| || SeparatorAt(s, i) then i else FirstSeparatorFrom(s, i + 1)
  }

  /** Index of the first " - " or " | " in `s`, or `|s|`. */
  function FirstSeparator(s: string): (n: nat)
    ensures n <= |s|
    ensures forall k: nat :: k < n ==> !SeparatorAt(s, k)
    ensures n == |s| <==> !HasSeparator(s)
  {
    var n := FirstSeparatorFrom(s, 0);
    assert n < |s| ==> SeparatorAt(s, n);
    n
  }

  /** The replacement leaves no " - " or " | " behind, on any line. */
  lemma {:induction false} StripLeavesNoSeparator(s: string)
    ensures !HasSeparator(StripSeparators(s))
    decreases |s|
  {
    if s == [] {
    } else if SeparatorAt(s, 0) {
      StripLeavesNoSeparator(s[LineEnd(s, 0)..]);
    } else {
      var tail := StripSeparators(s[1..]);
      StripLeavesNoSeparator(s[1..]);
      var r := [s[0]] + tail;
      assert r == StripSeparators(s);
      forall i: nat ensures !SeparatorAt(r, i) {
        if i > 0 {
          assert SeparatorAt(r, i) ==> SeparatorAt(tail, i - 1);
        } else if |r| >= 3 && r[0] == ' ' && (tail[0] == '-' || tail[0] == '|') {
          // tail[0] is not a line terminator, so it was kept from s[1..]
          assert tail[0] == s[1] && !SeparatorAt(s[1..], 0);
          var s2 := s[1..][1..];
          assert StripSeparators(s[1..]) == [s[1]] + StripSeparators(s2);
          var rest := StripSeparators(s2);
          assert tail[1] == rest[0];
          assert s2[0] == s[2];
          assert tail[1] != ' ';
        }
      }
    }
  }

  /** The replacement changes nothing in a string with no " - " or " | ". */
  lemma {:induction false} StripWithoutSeparator(s: string)
    requires !HasSeparator(s)
    ensures StripSeparators(s) == s
    decreases |s|
  {
    if s != [] {
      assert !SeparatorAt(s, 0);
      forall i: nat ensures !SeparatorAt(s[1..], i) {
        assert SeparatorAt(s[1..], i) ==> SeparatorAt(s, i + 1);
      }
      StripWithoutSeparator(s[1..]);
    }
  }

  /** On a single line the replacement keeps exactly the text before the first separator. */
  lemma {:induction false} StripSingleLine(s: string)
    requires SingleLine(s)
    ensures StripSeparators(s) == s[..FirstSeparator(s)]
    decreases |s|
  {
    if s == [] {
    } else if SeparatorAt(s, 0) {
      assert FirstSeparator(s) == 0;
      assert LineEnd(s, 0) == |s|;
      assert s[|s|..] == [];
    } else {
      var t := s[1..];
      StripSingleLine(t);
      forall k: nat | k < FirstSeparator(s) - 1 ensures !SeparatorAt(t, k) {
        assert !SeparatorAt(s, k + 1);
      }
      if FirstSeparator(s) < |s| {
        assert SeparatorAt(t, FirstSeparator(s) - 1);
      } else {
        SliceWithoutSeparator(s, 1, |s|);
        assert s[1..|s|] == t;
      }
      assert FirstSeparator(t) == FirstSeparator(s) - 1;
      assert s[..FirstSeparator(s)] == [s[0]] + t[..FirstSeparator(t)];
    }
  }

  /** A slice of a string without separators has none either. */
  lemma SliceWithoutSeparator(s: string, b: nat, e: nat)
    requires b <= e <= |s|
    requires !HasSeparator(s)
    ensures !HasSeparator(s[b..e])
  {
    forall i: nat ensures !SeparatorAt(s[b..e], i) {
      assert SeparatorAt(s[b..e], i) ==> SeparatorAt(s, b + i);
    }
  }

  /** A slice of a single-line string is single-line. */
  lemma SliceSingleLine(s: string, b: nat, e: nat)
    requires b <= e <= |s|
    requires SingleLine(s)
    ensures SingleLine(s[b..e])
  {
  }

  /** The text before the first separator contains none. */
  lemma PrefixBeforeSeparator(s: string)
    ensures !HasSeparator(s[..FirstSeparator(s)])
  {
    var p := s[..FirstSeparator(s)];
    forall i: nat ensures !SeparatorAt(p, i) {
      assert SeparatorAt(p, i) ==> SeparatorAt(s, i);
    }
  }

  /**
   * `cleanHeadline`: null becomes "No Title"; otherwise the separator suffixes are
   * removed and the rest is trimmed, so the result has no " - " or " | " and no
   * whitespace at its ends.
   */
  function CleanHeadline(title: Option<string>): (r: string)
    ensures title.None? ==> r == "No Title"
    ensures !HasSeparator(r)
    ensures title.Some? ==> IsTrimmed(r) && |r| <= |title.value|
  {
    match title
    case None =>
      assert !HasSeparator("No Title") by {
        forall i: nat ensures !SeparatorAt("No Title", i) {
        }
      }
      "No Title"
    case Some(t) =>
      var stripped := StripSeparators(t);
      StripLeavesNoSeparator(t);
      SliceWithoutSeparator(stripped, TrimStart(stripped), TrimEnd(stripped));
      Trim(stripped)
  }

  /** A title without " - " or " | " is only trimmed. */
  lemma CleanWithoutSeparator(t: string)
    requires !HasSeparator(t)
    ensures CleanHeadline(Some(t)) == Trim(t)
  {
    StripWithoutSeparator(t);
  }

  /** A single-line title becomes the trimmed text before its first " - " or " | ". */
  lemma CleanSingleLine(t: string)
    requires SingleLine(t)
    ensures CleanHeadline(Some(t)) == Trim(t[..FirstSeparator(t)])
    ensures SingleLine(CleanHeadline(Some(t)))
  {
    StripSingleLine(t);
    var p := t[..FirstSeparator(t)];
    SliceSingleLine(p, TrimStart(p), TrimEnd(p));
  }

  /** Cleaning a cleaned headline changes nothing, whatever the title. */
  lemma CleanIdempotent(title: Option<string>)
    ensures CleanHeadline(Some(CleanHeadline(title))) == CleanHeadline(title)
  {
    var c := CleanHeadline(title);
    StripWithoutSeparator(c);
    if title.Some? {
      TrimOfTrimmed(c);
    } else {
      assert c == "No Title";
      assert IsTrimmed(c);
      TrimOfTrimmed(c);
    }
  }

  /** A title made of a clean head followed by a separator is cut back to the head. */
  lemma CleanAtFirstSeparator(head: string, tail: string)
    requires SingleLine(head + tail) && SeparatorAt(tail, 0)
    requires !HasSeparator(head) && IsTrimmed(head)
    requires |head| >= 2 ==> !(head[|head| - 2] == ' ' && (head[|head| - 1] == '-' || head[|head| - 1] == '|'))
    ensures CleanHeadline(Some(head + tail)) == head
  {
    var t := head + tail;
    forall k: nat | k < |head| ensures !SeparatorAt(t, k) {
      if k + 3 <= |head| {
        assert t[k..k + 3] == head[k..k + 3];
        assert SeparatorAt(t, k) ==> SeparatorAt(head, k);
      }
    }
    assert SeparatorAt(t, |head|);
    assert FirstSeparatorFrom(t, 0) == |head|;
    CleanSingleLine(t);
    assert t[..|head|] == head;
    TrimOfTrimmed(head);
  }

  /** The example from the feed: a trailing " - Source" is cut off. */
  lemma CleanExample(t: string)
    requires t == "Storm hits coast - BBC News"
    ensures CleanHeadline(Some(t)) == "Storm hits coast"
  {
    var head, tail := "Storm hits coast", " - BBC News";
    assert t == head + tail;
    assert !HasSeparator(head) by {
      forall k: nat ensures !SeparatorAt(head, k) {
        assert k < |head| && k != 5 && k != 10 ==> head[k] != ' ';
      }
    }
    CleanAtFirstSeparator(head, tail);
  }
}
