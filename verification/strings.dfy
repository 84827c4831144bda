/** The parts of Go's `strings` package the core relies on: `strings.Builder` joins,
    `strings.Contains` and `strings.TrimSpace`; and a `strings.Split`-style split, used only
    to state that a console message's text splits back into its argument texts. */
module Strings {

  /** The items separated by `sep`, as a loop writes them into a builder:
      the separator goes before every item but the first. */
  function Join(items: seq<string>, sep: string): string
  {
    if |items| == 0 then ""
    else if |items| == 1 then items[0]
    else Join(items[..|items| - 1], sep) + sep + items[|items| - 1]
  }

  /** One more loop step: appending the separator (when something precedes) and the next item. */
  lemma JoinSnoc(items: seq<string>, x: string, sep: string)
    ensures Join(items + [x], sep) == if |items| == 0 then x else Join(items, sep) + sep + x
  {
    assert (items + [x])[..|items|] == items;
  }

  /** A join of non-empty items begins with the first item's first character and ends
      with the last item's last character, whatever the separator. */
  lemma {:induction false} JoinEnds(items: seq<string>, sep: string)
    requires |items| >= 1
    requires forall k :: 0 <= k < |items| ==> |items[k]| > 0
    ensures |Join(items, sep)| > 0
    ensures Join(items, sep)[0] == items[0][0]
    ensures Join(items, sep)[|Join(items, sep)| - 1] == items[|items| - 1][|items[|items| - 1]| - 1]
  {
    if |items| > 1 {
      var init := items[..|items| - 1];
      JoinEnds(init, sep);
      assert init[0] == items[0];
    }
  }

  /** Occurrences of `ch` in a string. */
  function Occurrences(s: string, ch: char): nat
  {
    multiset(s)[ch]
  }

  /** Sum of the occurrences of `ch` over all items. */
  function OccurrencesIn(items: seq<string>, ch: char): nat
  {
    if |items| == 0 then 0 else OccurrencesIn(items[..|items| - 1], ch) + Occurrences(items[|items| - 1], ch)
  }

  lemma OccurrencesInSnoc(items: seq<string>, x: string, ch: char)
    ensures OccurrencesIn(items + [x], ch) == OccurrencesIn(items, ch) + Occurrences(x, ch)
  {
    assert (items + [x])[..|items|] == items;
  }

  /** A separator that does not contain `ch` adds no occurrence of it to a join. */
  lemma {:induction false} JoinOccurrences(items: seq<string>, sep: string, ch: char)
    requires Occurrences(sep, ch) == 0
    ensures Occurrences(Join(items, sep), ch) == OccurrencesIn(items, ch)
  {
    if |items| > 1 {
      var init := items[..|items| - 1];
      JoinOccurrences(init, sep, ch);
      assert multiset(Join(init, sep) + sep + items[|items| - 1])
          == multiset(Join(init, sep)) + multiset(sep) + multiset(items[|items| - 1]);
      assert init[..|init| - 1] == items[..|items| - 2];
      assert OccurrencesIn(init, ch) == OccurrencesIn(items[..|items| - 2], ch) + Occurrences(items[|items| - 2], ch);
    }
    if |items| == 1 {
      assert items[..0] == [];
    }
  }

  /** `strings.Contains`: `sub` occurs in `s` (the empty string occurs in every string). */
  predicate Contains(s: string, sub: string)
    decreases |s|
  {
    sub <= s || (|s| > 0 && Contains(s[1..], sub))
  }

  /** `sub` sits in `s` starting at index `i`. */
  predicate OccursAt(s: string, sub: string, i: int)
  {
    0 <= i && i + |sub| <= |s| && s[i..i + |sub|] == sub
  }

  /** `Contains` agrees with "some window of `s` equals `sub`", in both directions. */
  lemma {:induction false} ContainsIff(s: string, sub: string)
    ensures Contains(s, sub) <==> exists i :: OccursAt(s, sub, i)
    decreases |s|
  {
    if sub <= s {
      assert OccursAt(s, sub, 0);
    } else if |s| > 0 {
      ContainsIff(s[1..], sub);
      if Contains(s[1..], sub) {
        var i :| OccursAt(s[1..], sub, i);
        assert s[1..][i..i + |sub|] == s[i + 1..i + 1 + |sub|];
        assert OccursAt(s, sub, i + 1);
      }
      if exists i :: OccursAt(s, sub, i) {
        var i :| OccursAt(s, sub, i);
        assert i != 0;
        assert s[1..][i - 1..i - 1 + |sub|] == s[i..i + |sub|];
        assert OccursAt(s[1..], sub, i - 1);
      }
    }
  }

  /** `unicode.IsSpace`, the test `strings.TrimSpace` strips by. */
  predicate IsSpace(ch: char)
  {
    ch == ' ' || ch == '\t' || ch == '\n' || ch == '\U{000B}' || ch == '\U{000C}' || ch == '\r'
    || ch == '\U{0085}' || ch == '\U{00A0}' || ch == '\U{1680}'
    || ('\U{2000}' <= ch <= '\U{200A}')
    || ch == '\U{2028}' || ch == '\U{2029}' || ch == '\U{202F}' || ch == '\U{205F}' || ch == '\U{3000}'
  }

  function TrimLeft(s: string): string
  {
    if |s| > 0 && IsSpace(s[0]) then TrimLeft(s[1..]) else s
  }

  function TrimRight(s: string): string
  {
    if |s| > 0 && IsSpace(s[|s| - 1]) then TrimRight(s[..|s| - 1]) else s
  }

  /** `strings.TrimSpace`: drop leading and trailing white space. */
  function TrimSpace(s: string): string
  {
    TrimRight(TrimLeft(s))
  }

  /** Number of white-space characters `s` starts with. */
  function LeadingSpace(s: string): (n: nat)
    ensures n <= |s|
  {
    if |s| > 0 && IsSpace(s[0]) then 1 + LeadingSpace(s[1..]) else 0
  }

  /** Number of white-space characters `s` ends with. */
  function TrailingSpace(s: string): (n: nat)
    ensures n <= |s|
  {
    if |s| > 0 && IsSpace(s[|s| - 1]) then 1 + TrailingSpace(s[..|s| - 1]) else 0
  }

  predicate AllSpace(s: string)
  {
    forall k :: 0 <= k < |s| ==> IsSpace(s[k])
  }

  /** `TrimLeft` drops exactly the leading white space. */
  lemma {:induction false} TrimLeftSpec(s: string)
    ensures TrimLeft(s) == s[LeadingSpace(s)..]
    ensures AllSpace(s[..LeadingSpace(s)])
    ensures TrimLeft(s) == [] || !IsSpace(TrimLeft(s)[0])
    decreases |s|
  {
    if |s| > 0 && IsSpace(s[0]) {
      var rest := s[1..];
      TrimLeftSpec(rest);
      var n := LeadingSpace(rest);
      assert TrimLeft(s) == TrimLeft(rest);
      assert LeadingSpace(s) == n + 1;
      assert rest[n..] == s[n + 1..];
      var cut := s[..n + 1];
      assert cut == [s[0]] + rest[..n];
      assert AllSpace(cut) by {
        forall k | 0 <= k < |cut| ensures IsSpace(cut[k]) {
          if k > 0 {
            assert cut[k] == rest[..n][k - 1];
          }
        }
      }
    } else {
      assert s[0..] == s;
    }
  }

  /** `TrimRight` drops exactly the trailing white space. */
  lemma {:induction false} TrimRightSpec(s: string)
    ensures TrimRight(s) == s[..|s| - TrailingSpace(s)]
    ensures AllSpace(s[|s| - TrailingSpace(s)..])
    ensures TrimRight(s) == [] || !IsSpace(TrimRight(s)[|TrimRight(s)| - 1])
    decreases |s|
  {
    if |s| > 0 && IsSpace(s[|s| - 1]) {
      var init := s[..|s| - 1];
      TrimRightSpec(init);
      var n := TrailingSpace(init);
      assert TrimRight(s) == TrimRight(init);
      assert TrailingSpace(s) == n + 1;
      assert init[..|init| - n] == s[..|s| - (n + 1)];
      var cut := s[|s| - (n + 1)..];
      var tail := init[|init| - n..];
      assert AllSpace(cut) by {
        forall k | 0 <= k < |cut| ensures IsSpace(cut[k]) {
          if k < n {
            assert cut[k] == s[|s| - (n + 1) + k] == tail[k];
          } else {
            assert cut[k] == s[|s| - 1];
          }
        }
      }
    } else {
      assert s[..|s|] == s;
    }
  }

  /** The input is its leading white space, the trimmed string and its trailing white
      space, in that order. */
  lemma TrimSpaceSpec(s: string)
    ensures LeadingSpace(s) + |TrimSpace(s)| <= |s|
    ensures s == s[..LeadingSpace(s)] + TrimSpace(s) + s[LeadingSpace(s) + |TrimSpace(s)|..]
    ensures AllSpace(s[..LeadingSpace(s)]) && AllSpace(s[LeadingSpace(s) + |TrimSpace(s)|..])
  {
    TrimLeftSpec(s);
    var i := LeadingSpace(s);
    var t := s[i..];
    TrimRightSpec(t);
    var j := |t| - TrailingSpace(t);
    assert TrimSpace(s) == t[..j];
    assert t[j..] == s[i + j..];
    assert s == s[..i] + t[..j] + t[j..];
  }

  /** The trimmed string neither starts nor ends with white space. */
  lemma TrimSpaceEnds(s: string)
    ensures TrimSpace(s) == [] || (!IsSpace(TrimSpace(s)[0]) && !IsSpace(TrimSpace(s)[|TrimSpace(s)| - 1]))
  {
    var t := TrimLeft(s);
    TrimLeftSpec(s);
    TrimRightSpec(t);
    var r := TrimSpace(s);
    if r != [] {
      assert r[0] == t[0];
    }
  }

  /** A string that neither starts nor ends with white space is left as it is. */
  lemma TrimSpaceKeeps(s: string)
    requires s == [] || (!IsSpace(s[0]) && !IsSpace(s[|s| - 1]))
    ensures TrimSpace(s) == s
  {
  }

  /** `strings.Split` on a one-character separator: the pieces between separators,
      one more piece than there are separators. */
  function Split(s: string, sep: char): (pieces: seq<string>)
    ensures |pieces| >= 1
  {
    if |s| == 0 then [""]
    else
      var pieces := Split(s[..|s| - 1], sep);
      if s[|s| - 1] == sep then pieces + [""]
      else pieces[..|pieces| - 1] + [pieces[|pieces| - 1] + [s[|s| - 1]]]
  }

  lemma {:induction false} SplitAppendPlain(s: string, t: string, sep: char)
    requires sep !in t
    ensures Split(s + t, sep) == Split(s, sep)[..|Split(s, sep)| - 1] + [Split(s, sep)[|Split(s, sep)| - 1] + t]
    decreases |t|
  {
    if |t| == 0 {
      var p := Split(s, sep);
      assert s + t == s;
      assert p[|p| - 1] + t == p[|p| - 1];
      assert p[..|p| - 1] + [p[|p| - 1]] == p;
    } else {
      var t', c := t[..|t| - 1], t[|t| - 1];
      assert c in t;
      assert sep !in t' by { assert forall x :: x in t' ==> x in t; }
      SplitAppendPlain(s, t', sep);
      var p := Split(s, sep);
      var q := Split(s + t', sep);
      assert q[..|q| - 1] == p[..|p| - 1];
      assert q[|q| - 1] == p[|p| - 1] + t';
      assert (s + t)[..|s + t| - 1] == s + t';
      assert (s + t)[|s + t| - 1] == c;
      assert Split(s + t, sep) == q[..|q| - 1] + [q[|q| - 1] + [c]];
      assert t' + [c] == t;
      assert p[|p| - 1] + t' + [c] == p[|p| - 1] + t;
    }
  }

  /** Splitting a join on its one-character separator gives the items back, provided
      no item contains the separator. */
  lemma {:induction false} SplitJoin(items: seq<string>, sep: char)
    requires |items| >= 1
    requires forall k :: 0 <= k < |items| ==> sep !in items[k]
    ensures Split(Join(items, [sep]), sep) == items
  {
    var last := items[|items| - 1];
    if |items| == 1 {
      SplitAppendPlain("", last, sep);
      assert "" + last == last;
    } else {
      var init := items[..|items| - 1];
      SplitJoin(init, sep);
      var prefix := Join(init, [sep]) + [sep];
      assert Split(prefix, sep) == init + [""] by {
        assert prefix[..|prefix| - 1] == Join(init, [sep]);
        assert prefix[|prefix| - 1] == sep;
      }
      assert sep !in last;
      SplitAppendPlain(prefix, last, sep);
      assert (init + [""])[..|init|] == init;
      assert "" + last == last;
      assert Join(items, [sep]) == prefix + last;
      assert items == init + [last];
    }
  }
}
