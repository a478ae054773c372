/** Deriving the name of the one-to-one channel from the two people's names. */
module ChannelName {

  /** `re.sub(r'^<marker>', '', s)`: removes one leading `marker` and nothing else. */
  function StripLeading(marker: char, s: string): (r: string)
    ensures |s| > 0 && s[0] == marker ==> s == [marker] + r
    ensures |s| == 0 || s[0] != marker ==> r == s
  {
    if |s| > 0 && s[0] == marker then s[1..] else s
  }

  /**
   * Python's `<` on str: lexicographic by code point, where a proper prefix
   * comes first.  (Dafny's own `<` on sequences means "proper prefix".)
   */
  predicate LexLess(a: string, b: string)
    ensures LexLess(a, b) ==> a != b
    ensures a < b ==> LexLess(a, b)
  {
    if a == [] then b != []
    else if b == [] then false
    else if a[0] != b[0] then a[0] < b[0]
    else LexLess(a[1..], b[1..])
  }

  /**
   * LexLess is decided by the first position where the two strings differ:
   * the string with the smaller code point there is the smaller.
   */
  lemma {:induction false} LexLessFirstDifference(a: string, b: string, k: nat)
    requires k < |a| && k < |b| && a[..k] == b[..k] && a[k] != b[k]
    ensures LexLess(a, b) <==> a[k] < b[k]
  {
    if k > 0 {
      assert a[0] == a[..k][0] == b[..k][0] == b[0];
      assert a[1..][..k - 1] == a[..k][1..] == b[..k][1..] == b[1..][..k - 1];
      LexLessFirstDifference(a[1..], b[1..], k - 1);
    }
  }

  /** LexLess is transitive. */
  lemma {:induction false} LexTransitive(a: string, b: string, c: string)
    requires LexLess(a, b) && LexLess(b, c)
    ensures LexLess(a, c)
  {
    if a != [] && a[0] == b[0] && b[0] == c[0] {
      LexTransitive(a[1..], b[1..], c[1..]);
    }
  }

  /**
   * Together with LexTransitive: LexLess is a strict total order, since any
   * two strings are equal or ordered exactly one way.
   */
  lemma {:induction false} LexTrichotomy(a: string, b: string)
    ensures LexLess(a, b) || a == b || LexLess(b, a)
    ensures !(LexLess(a, b) && LexLess(b, a))
  {
    if a != [] && b != [] && a[0] == b[0] {
      LexTrichotomy(a[1..], b[1..]);
      assert a == [a[0]] + a[1..];
      assert b == [b[0]] + b[1..];
    }
  }

  /** `sorted([x, y])`: the second goes first exactly when it is smaller. */
  function SortPair(x: string, y: string): (p: (string, string))
    ensures multiset{p.0, p.1} == multiset{x, y}
    ensures !LexLess(p.1, p.0)
  {
    LexTrichotomy(x, y);
    if LexLess(y, x) then (y, x) else (x, y)
  }

  /** `format_channel_name`: strip one `@` from each name, sort, join with `-`. */
  function FormatChannelName(myName: string, otherName: string): (r: string)
    ensures var x, y := StripLeading('@', myName), StripLeading('@', otherName);
      && (!LexLess(y, x) ==> r == x + "-" + y)
      && (!LexLess(x, y) ==> r == y + "-" + x)
  {
    LexTrichotomy(StripLeading('@', myName), StripLeading('@', otherName));
    var sorted := SortPair(StripLeading('@', myName), StripLeading('@', otherName));
    sorted.0 + "-" + sorted.1
  }

  /**
   * The derived name is determined by the two stripped names alone: whichever
   * way they are arranged in order, the result is the smaller, `-`, the larger.
   */
  lemma FormatChannelNameIsSortedJoin(myName: string, otherName: string, lo: string, hi: string)
    requires multiset{lo, hi} == multiset{StripLeading('@', myName), StripLeading('@', otherName)}
    requires !LexLess(hi, lo)
    ensures FormatChannelName(myName, otherName) == lo + "-" + hi
  {
    var p := SortPair(StripLeading('@', myName), StripLeading('@', otherName));
    assert multiset{p.0, p.1} == multiset{lo, hi};
    assert p.0 in multiset{lo, hi};
    LexTrichotomy(lo, hi);
    assert p.0 == lo;
    assert multiset{p.0, p.1} - multiset{lo} == multiset{hi};
  }

  /** Swapping the two names targets the same channel. */
  lemma FormatChannelNameCommutes(a: string, b: string)
    ensures FormatChannelName(a, b) == FormatChannelName(b, a)
  {
    var p := SortPair(StripLeading('@', b), StripLeading('@', a));
    FormatChannelNameIsSortedJoin(a, b, p.0, p.1);
  }

  /** A leading `@` makes no difference to the name: `@alice` and `alice` both give `alice-bob`. */
  lemma FormatChannelNameStripsAt()
    ensures FormatChannelName("@alice", "bob") == "alice-bob"
    ensures FormatChannelName("alice", "bob") == "alice-bob"
  {
    assert StripLeading('@', "@alice") == "alice";
    assert !LexLess("bob", "alice") by { assert "bob"[0] != "alice"[0]; }
    FormatChannelNameIsSortedJoin("@alice", "bob", "alice", "bob");
    FormatChannelNameIsSortedJoin("alice", "bob", "alice", "bob");
  }

  /** The smaller name comes first whatever the argument order: `zed` and `amy` give `amy-zed`. */
  lemma FormatChannelNameSortsNames()
    ensures FormatChannelName("zed", "amy") == "amy-zed"
  {
    assert !LexLess("zed", "amy") by { assert "zed"[0] != "amy"[0]; }
    FormatChannelNameIsSortedJoin("zed", "amy", "amy", "zed");
  }
}
