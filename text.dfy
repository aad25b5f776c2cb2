/** The string operations the screens apply: `toLowerCase`, `includes`,
    `split(" ")` and `join`. Strings are sequences of characters. */
module Text {

  /** Lower-cases one character (ASCII letters only). */
  function LowerChar(c: char): char
  {
    if 'A' <= c <= 'Z' then (c as int + 32) as char else c
  }

  /** `s.toLowerCase()`, character by character. */
  function ToLower(s: string): (r: string)
    ensures |r| == |s|
    ensures forall i :: 0 <= i < |s| ==> r[i] == LowerChar(s[i])
  {
    if s == [] then [] else [LowerChar(s[0])] + ToLower(s[1..])
  }

  /** Lower-casing twice is lower-casing once. */
  lemma ToLowerIdempotent(s: string)
    ensures ToLower(ToLower(s)) == ToLower(s)
  {
  }

  /** `t` occurs in `s` starting at position `i`. */
  predicate OccursAt(s: string, t: string, i: nat)
  {
    i + |t| <= |s| && s[i..i + |t|] == t
  }

  /** `s.startsWith(prefix)`. */
  predicate StartsWith(s: string, prefix: string)
  {
    |prefix| <= |s| && s[..|prefix|] == prefix
  }

  /** `s.includes(t)`: try position 0, then search the rest of `s`. */
  function Includes(s: string, t: string): bool
  {
    StartsWith(s, t) || (s != [] && Includes(s[1..], t))
  }

  /** `Includes` holds exactly when `t` occurs at some position of `s`. */
  lemma {:induction false} IncludesIffOccurs(s: string, t: string)
    ensures Includes(s, t) <==> exists i: nat :: i <= |s| && OccursAt(s, t, i)
  {
    if s == [] {
      if t == [] {
        assert OccursAt(s, t, 0);
      }
    } else {
      IncludesIffOccurs(s[1..], t);
      if Includes(s, t) {
        if StartsWith(s, t) {
          assert s[0..0 + |t|] == s[..|t|];
          assert OccursAt(s, t, 0);
        } else {
          var j: nat :| j <= |s[1..]| && OccursAt(s[1..], t, j);
          assert s[1..][j..j + |t|] == s[j + 1..j + 1 + |t|];
          assert OccursAt(s, t, j + 1);
        }
      }
      if i: nat :| i <= |s| && OccursAt(s, t, i) {
        if i == 0 {
          assert s[..|t|] == s[0..0 + |t|];
        } else {
          assert s[i..i + |t|] == s[1..][i - 1..i - 1 + |t|];
          assert OccursAt(s[1..], t, i - 1);
          assert Includes(s[1..], t);
        }
      }
    }
  }

  /** Case-insensitive `includes`, as the search boxes compute it:
      `s.toLowerCase().includes(q.toLowerCase())`. */
  predicate ContainsIgnoringCase(s: string, q: string)
  {
    Includes(ToLower(s), ToLower(q))
  }

  /** The empty query occurs in every string. */
  lemma EmptyQueryMatches(s: string)
    ensures ContainsIgnoringCase(s, "")
  {
    assert ToLower("") == "";
    assert OccursAt(ToLower(s), "", 0);
    IncludesIffOccurs(ToLower(s), "");
  }

  /** Every string matches itself, whatever the case of either side. */
  lemma SelfMatches(s: string)
    ensures ContainsIgnoringCase(s, s)
  {
    var l := ToLower(s);
    assert OccursAt(l, l, 0);
    IncludesIffOccurs(l, l);
  }

  /** The case of the query does not change the outcome. */
  lemma QueryCaseIrrelevant(s: string, q: string)
    ensures ContainsIgnoringCase(s, q) == ContainsIgnoringCase(s, ToLower(q))
  {
    ToLowerIdempotent(q);
  }

  /** `s.split(" ")`: the pieces between single spaces; consecutive, leading or
      trailing spaces give empty pieces, and there is always at least one. */
  function Split(s: string): (parts: seq<string>)
    ensures |parts| >= 1
    ensures forall p :: p in parts ==> ' ' !in p
  {
    if s == [] then [[]]
    else if s[0] == ' ' then [[]] + Split(s[1..])
    else
      var rest := Split(s[1..]);
      [[s[0]] + rest[0]] + rest[1..]
  }

  /** `parts.join(" ")`. */
  function Join(parts: seq<string>): string
    requires |parts| >= 1
  {
    if |parts| == 1 then parts[0] else parts[0] + " " + Join(parts[1..])
  }

  /** Joining the pieces of a split gives back the original string. */
  lemma {:induction false} JoinSplit(s: string)
    ensures Join(Split(s)) == s
  {
    if s != [] {
      JoinSplit(s[1..]);
      var rest := Split(s[1..]);
      if s[0] != ' ' {
        if |rest| > 1 {
          assert Join(rest) == rest[0] + " " + Join(rest[1..]);
        }
      }
      assert s == [s[0]] + s[1..];
    }
  }

  /** Splitting a join of space-free pieces gives back the pieces. */
  lemma {:induction false} SplitJoin(parts: seq<string>)
    requires |parts| >= 1
    requires forall i :: 0 <= i < |parts| ==> ' ' !in parts[i]
    ensures Split(Join(parts)) == parts
  {
    var w := parts[0];
    if |parts| == 1 {
      SplitWord(w, "");
      assert Split("") == [[]];
      assert w + [] == w;
      assert parts == [w];
    } else {
      var later := parts[1..];
      assert forall i :: 0 <= i < |later| ==> later[i] == parts[i + 1];
      SplitJoin(later);
      SplitAfterSpace(Join(later));
      SplitWord(w, " " + Join(later));
      assert Join(parts) == w + (" " + Join(later));
      assert w + [] == w;
      assert parts == [w] + later;
    }
  }

  /** A leading space gives an empty first piece. */
  lemma SplitAfterSpace(t: string)
    ensures Split(" " + t) == [[]] + Split(t)
  {
    var s := " " + t;
    assert s[0] == ' ' && s[1..] == t;
  }

  /** A space-free prefix `w` is glued to the first piece of what follows. */
  lemma {:induction false} SplitWord(w: string, rest: string)
    requires ' ' !in w
    ensures Split(w + rest) == [w + Split(rest)[0]] + Split(rest)[1..]
  {
    var pieces := Split(rest);
    if w != [] {
      assert w[0] in w;
      SplitWord(w[1..], rest);
      var s := w + rest;
      assert s[0] == w[0] && s[1..] == w[1..] + rest;
      var r := Split(s[1..]);
      assert r == [w[1..] + pieces[0]] + pieces[1..];
      assert Split(s) == [[w[0]] + r[0]] + r[1..];
      assert [w[0]] + (w[1..] + pieces[0]) == w + pieces[0];
    } else {
      assert w + rest == rest;
      assert w + pieces[0] == pieces[0];
      assert pieces == [pieces[0]] + pieces[1..];
    }
  }
}
