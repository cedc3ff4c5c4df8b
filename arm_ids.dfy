/**
  Azure resource ids look like
  `/subscriptions/<sub>/resourceGroups/<group>/providers/<namespace>/<type>/<name>`.
  The enumerator takes a network interface's or public IP's name from the last
  `/`-separated segment of its id and the resource group from the segment at index 4,
  using Python's `str.split('/')`.
 */
module ArmIds {
  import opened Wrappers

  /** Python's `s.split(sep)` for a one-character separator: never empty, and empty
      pieces are kept (`"/a//b".split('/') == ['', 'a', '', 'b']`). */
  function Split(s: string, sep: char): (parts: seq<string>)
    ensures |parts| >= 1
    ensures forall i :: 0 <= i < |parts| ==> sep !in parts[i]
    decreases |s|
  {
    if s == [] then [[]]
    else
      var rest := Split(s[1..], sep);
      if s[0] == sep then [[]] + rest
      else [[s[0]] + rest[0]] + rest[1..]
  }

  /** Python's `sep.join(parts)`, the inverse of `Split`. */
  function Join(parts: seq<string>, sep: char): string
    requires |parts| >= 1
    decreases |parts|
  {
    if |parts| == 1 then parts[0] else parts[0] + [sep] + Join(parts[1..], sep)
  }

  /** Number of occurrences of `c` in `s`. */
  function Occurrences(c: char, s: string): nat
    decreases |s|
  {
    if s == [] then 0 else (if s[0] == c then 1 else 0) + Occurrences(c, s[1..])
  }

  /** Joining the pieces of a split gives back the string. */
  lemma {:induction false} JoinSplit(s: string, sep: char)
    ensures Join(Split(s, sep), sep) == s
    decreases |s|
  {
    if s != [] {
      var rest := Split(s[1..], sep);
      JoinSplit(s[1..], sep);
      if s[0] == sep {
        assert ([[]] + rest)[1..] == rest;
      } else if |rest| > 1 {
        var parts := [[s[0]] + rest[0]] + rest[1..];
        assert parts[1..] == rest[1..];
        calc {
          Join(parts, sep);
          ([s[0]] + rest[0]) + [sep] + Join(rest[1..], sep);
          [s[0]] + (rest[0] + [sep] + Join(rest[1..], sep));
          [s[0]] + Join(rest, sep);
        }
      }
    }
  }

  /** Splitting `p + t` where `p` holds no separator glues `p` onto the first piece of `t`. */
  lemma {:induction false} SplitPrefix(p: string, t: string, sep: char)
    requires sep !in p
    ensures Split(p + t, sep) == [p + Split(t, sep)[0]] + Split(t, sep)[1..]
    decreases |p|
  {
    var st := Split(t, sep);
    if p == [] {
      assert p + t == t;
      assert p + st[0] == st[0];
      assert [st[0]] + st[1..] == st;
    } else {
      SplitPrefix(p[1..], t, sep);
      assert (p + t)[0] == p[0];
      assert (p + t)[1..] == p[1..] + t;
      assert [p[0]] + (p[1..] + st[0]) == p + st[0];
    }
  }

  /** Splitting a join of separator-free pieces gives back the pieces. */
  lemma {:induction false} SplitJoin(parts: seq<string>, sep: char)
    requires |parts| >= 1
    requires forall i :: 0 <= i < |parts| ==> sep !in parts[i]
    ensures Split(Join(parts, sep), sep) == parts
    decreases |parts|
  {
    SplitPrefix(parts[0], [], sep);
    assert parts[0] + [] == parts[0];
    if |parts| > 1 {
      var u := Join(parts[1..], sep);
      SplitJoin(parts[1..], sep);
      SplitPrefix(parts[0], [sep] + u, sep);
      assert ([sep] + u)[1..] == u;
      assert parts[0] + [sep] + u == parts[0] + ([sep] + u);
      assert [parts[0]] + parts[1..] == parts;
    }
  }

  /** A split has one more piece than the string has separators. */
  lemma {:induction false} SplitLength(s: string, sep: char)
    ensures |Split(s, sep)| == Occurrences(sep, s) + 1
    decreases |s|
  {
    if s != [] {
      SplitLength(s[1..], sep);
    }
  }

  /** The last piece is what follows the last separator. */
  lemma {:induction false} JoinLast(parts: seq<string>, sep: char)
    requires |parts| >= 2
    ensures Join(parts, sep) == Join(parts[..|parts| - 1], sep) + [sep] + parts[|parts| - 1]
    decreases |parts|
  {
    if |parts| > 2 {
      JoinLast(parts[1..], sep);
      assert parts[..|parts| - 1][1..] == parts[1..][..|parts| - 2];
    }
  }

  /** `' '.join(id.split('/')[-1:])`: the name of the resource an id refers to. */
  function NameOf(id: string): (name: string)
    ensures '/' !in name
  {
    var parts := Split(id, '/');
    parts[|parts| - 1]
  }

  /** `id.split('/')[4]`, or `None` where Python raises `IndexError`. */
  function ResourceGroupOf(id: string): (rg: Option<string>)
    ensures rg.Some? <==> Occurrences('/', id) >= 4
    ensures rg.Some? ==> '/' !in rg.value
  {
    SplitLength(id, '/');
    var parts := Split(id, '/');
    if |parts| > 4 then Some(parts[4]) else None
  }

  /** `NameOf(id)` is the whole id when it holds no `/`, and otherwise exactly the
      text after its last `/`. */
  lemma NameIsLastSegment(id: string)
    ensures |NameOf(id)| <= |id|
    ensures id[|id| - |NameOf(id)|..] == NameOf(id)
    ensures |NameOf(id)| == |id| || id[|id| - |NameOf(id)| - 1] == '/'
  {
    var parts := Split(id, '/');
    JoinSplit(id, '/');
    if |parts| >= 2 {
      JoinLast(parts, '/');
      var pre := Join(parts[..|parts| - 1], '/') + ['/'];
      assert id == pre + NameOf(id);
      assert id[|pre|..] == NameOf(id);
    }
  }

  /** Occurrences add up over a concatenation. */
  lemma {:induction false} OccurrencesAppend(c: char, a: string, b: string)
    ensures Occurrences(c, a + b) == Occurrences(c, a) + Occurrences(c, b)
    decreases |a|
  {
    if a == [] {
      assert a + b == b;
    } else {
      assert (a + b)[1..] == a[1..] + b;
      OccurrencesAppend(c, a[1..], b);
    }
  }

  /** Joining `a + b` joins `a`, then a separator, then the join of `b`. */
  lemma {:induction false} JoinAppend(a: seq<string>, b: seq<string>, sep: char)
    requires |a| >= 1 && |b| >= 1
    ensures Join(a + b, sep) == Join(a, sep) + [sep] + Join(b, sep)
    decreases |a|
  {
    if |a| == 1 {
      assert (a + b)[1..] == b;
    } else {
      assert (a + b)[1..] == a[1..] + b;
      JoinAppend(a[1..], b, sep);
      assert a[0] + [sep] + (Join(a[1..], sep) + [sep] + Join(b, sep))
          == (a[0] + [sep] + Join(a[1..], sep)) + [sep] + Join(b, sep);
    }
  }

  /** A join of n separator-free pieces holds n - 1 separators. */
  lemma JoinOccurrences(parts: seq<string>, sep: char)
    requires |parts| >= 1
    requires forall i :: 0 <= i < |parts| ==> sep !in parts[i]
    ensures Occurrences(sep, Join(parts, sep)) == |parts| - 1
  {
    SplitJoin(parts, sep);
    SplitLength(Join(parts, sep), sep);
  }

  /** The resource group is the text that follows the fourth `/` of the id and runs to
      the fifth `/` or to the end. */
  lemma ResourceGroupIsFifthSegment(id: string)
    requires ResourceGroupOf(id).Some?
    ensures var rg := ResourceGroupOf(id).value;
            exists k :: && 0 < k && k + |rg| <= |id|
                        && id[k - 1] == '/' && Occurrences('/', id[..k]) == 4
                        && id[k..k + |rg|] == rg
                        && (k + |rg| == |id| || id[k + |rg|] == '/')
  {
    var parts := Split(id, '/');
    var rg := parts[4];
    assert ResourceGroupOf(id).value == rg;
    JoinSplit(id, '/');
    assert parts[..4] + parts[4..] == parts;
    JoinAppend(parts[..4], parts[4..], '/');
    var pre := Join(parts[..4], '/');
    JoinOccurrences(parts[..4], '/');
    var tail: string := if |parts| == 5 then [] else ['/'] + Join(parts[5..], '/');
    assert Join(parts[4..], '/') == rg + tail by {
      if |parts| > 5 {
        assert parts[4..][1..] == parts[5..];
      }
    }
    var k := |pre| + 1;
    assert id == (pre + ['/']) + (rg + tail);
    OccurrencesAppend('/', pre, ['/']);
    assert id[..k] == pre + ['/'];
    assert id[k..k + |rg|] == rg;
    assert k + |rg| == |id| || id[k + |rg|] == '/';
  }
}
