/** The few string operations the plan's bindings are read with. */
module Text {
  predicate IsSpace(c: char) {
    c == ' ' || '\t' <= c <= '\r' || c == '\U{0085}' || c == '\U{00A0}' || c == '\U{1680}' ||
    '\U{2000}' <= c <= '\U{200A}' || c == '\U{2028}' || c == '\U{2029}' || c == '\U{202F}' ||
    c == '\U{205F}' || c == '\U{3000}'
  }

  /** Where the white space from `i` on ends. */
  function SpaceEnd(s: string, i: nat): (r: nat)
    requires i <= |s|
    ensures i <= r <= |s| && (r < |s| ==> !IsSpace(s[r])) && forall k | i <= k < r :: IsSpace(s[k])
    decreases |s| - i
  {
    if i < |s| && IsSpace(s[i]) then SpaceEnd(s, i + 1) else i
  }

  /** Where the white space before `n` begins. */
  function SpaceBegin(s: string, n: nat): (r: nat)
    requires n <= |s|
    ensures r <= n && (r > 0 ==> !IsSpace(s[r - 1])) && forall k | r <= k < n :: IsSpace(s[k])
  {
    if n > 0 && IsSpace(s[n - 1]) then SpaceBegin(s, n - 1) else n
  }

  /** Neither end is white space. */
  predicate IsTrimmed(s: string) {
    s == [] || (!IsSpace(s[0]) && !IsSpace(s[|s| - 1]))
  }

  function Trim(s: string): (r: string)
    ensures IsTrimmed(r)
    ensures r == s <==> IsTrimmed(s)
  {
    var from, to := SpaceEnd(s, 0), SpaceBegin(s, |s|);
    if from < to then s[from..to] else ""
  }

  /** Trimming drops white space at the two ends, all of it and nothing else. */
  lemma TrimDropsSpace(s: string) returns (from: nat, to: nat)
    ensures from <= to <= |s| && Trim(s) == s[from..to]
    ensures forall i | 0 <= i < |s| && !(from <= i < to) :: IsSpace(s[i])
  {
    from, to := SpaceEnd(s, 0), SpaceBegin(s, |s|);
    if from >= to {
      assert forall i | 0 <= i < |s| :: IsSpace(s[i]);
      from, to := 0, 0;
    }
  }

  /** Lower case of the ASCII letters. */
  function Lower(s: string): string {
    seq(|s|, i requires 0 <= i < |s| => if 'A' <= s[i] <= 'Z' then s[i] - 'A' + 'a' else s[i])
  }

  predicate HasPrefix(s: string, p: string) {
    p <= s
  }

  predicate OccursAt(s: string, p: string, i: nat) {
    i + |p| <= |s| && s[i..i + |p|] == p
  }

  /** Where `p` first occurs in `s`, at `i` or later. */
  function IndexFrom(s: string, p: string, i: nat): (r: int)
    requires i <= |s|
    ensures r == -1 || (i <= r && OccursAt(s, p, r))
    ensures forall j: nat :: i <= j && OccursAt(s, p, j) ==> 0 <= r <= j
    decreases |s| - i
  {
    if OccursAt(s, p, i) then i
    else if i == |s| then -1
    else IndexFrom(s, p, i + 1)
  }

  function Index(s: string, p: string): int {
    IndexFrom(s, p, 0)
  }

  predicate ContainsAny(s: string, chars: string) {
    exists i | 0 <= i < |s| :: s[i] in chars
  }

  lemma Prefixed(p: string, rest: string)
    requires p != "" && rest != ""
    ensures var s := p + rest; HasPrefix(s, p) && s[|p|..] == rest && s[0] == p[0] && s[|s| - 1] == rest[|rest| - 1]
  {
  }

  lemma Between(a: string, mid: string, b: string)
    ensures var s := a + mid + b; s[..|a|] == a && s[|a| + |mid|..] == b && (b != "" ==> s[|s| - 1] == b[|b| - 1])
  {
  }

  // ---- paths: parts between separators ---------------------------------------------

  function Split(s: string, sep: char): (parts: seq<string>)
    ensures |parts| >= 1
  {
    if s == [] then [[]]
    else if s[0] == sep then [[]] + Split(s[1..], sep)
    else
      var rest := Split(s[1..], sep);
      [[s[0]] + rest[0]] + rest[1..]
  }

  function Join(parts: seq<string>, sep: char): string {
    if parts == [] then []
    else if |parts| == 1 then parts[0]
    else parts[0] + [sep] + Join(parts[1..], sep)
  }

  lemma {:induction false} JoinSplit(s: string, sep: char)
    ensures Join(Split(s, sep), sep) == s
  {
    if s != [] {
      JoinSplit(s[1..], sep);
      var rest := Split(s[1..], sep);
      if s[0] == sep {
        assert Split(s, sep)[1..] == rest;
      } else {
        assert Split(s, sep)[1..] == rest[1..];
        assert [s[0]] + Join(rest, sep) == Join(Split(s, sep), sep);
      }
    }
  }

  /** One more character in front: a part of its own, or the start of the first. */
  function Ahead(c: char, parts: seq<string>, sep: char): seq<string>
    requires |parts| >= 1
  {
    if c == sep then [[]] + parts else [[c] + parts[0]] + parts[1..]
  }

  lemma {:induction false} SplitAhead(c: char, s: string, sep: char)
    ensures Split([c] + s, sep) == Ahead(c, Split(s, sep), sep)
  {
    assert ([c] + s)[1..] == s;
  }

  lemma AheadOfBoth(c: char, a: seq<string>, b: seq<string>, sep: char)
    requires |a| >= 1
    ensures Ahead(c, a + b, sep) == Ahead(c, a, sep) + b
  {
    assert (a + b)[1..] == a[1..] + b;
  }

  lemma {:induction false} SplitConcat(a: string, b: string, sep: char)
    ensures Split(a + [sep] + b, sep) == Split(a, sep) + Split(b, sep)
  {
    if a == [] {
      SplitAhead(sep, b, sep);
      assert a + [sep] + b == [sep] + b;
    } else {
      var c, rest := a[0], a[1..];
      SplitConcat(rest, b, sep);
      assert a == [c] + rest && a + [sep] + b == [c] + (rest + [sep] + b);
      SplitAhead(c, rest, sep);
      SplitAhead(c, rest + [sep] + b, sep);
      AheadOfBoth(c, Split(rest, sep), Split(b, sep), sep);
    }
  }

  lemma {:induction false} SplitOfOne(s: string, sep: char)
    requires sep !in s
    ensures Split(s, sep) == [s]
  {
    if s != [] {
      SplitOfOne(s[1..], sep);
      assert [s[0]] + s[1..] == s;
    }
  }

  /** The parts of a path of three, whose middle may have separators of its own. */
  lemma {:induction false} SplitThree(root: string, mid: string, last: string, sep: char)
    requires sep !in root && sep !in last
    ensures var parts := Split(root + [sep] + (mid + [sep] + last), sep);
            |parts| >= 3 && parts[0] == root && parts[|parts| - 1] == last && Join(parts[1..|parts| - 1], sep) == mid
  {
    var rest := mid + [sep] + last;
    SplitRest(mid, last, sep);
    SplitFirst(root, rest, sep);
    JoinSplit(mid, sep);
    var parts, middle := Split(root + [sep] + rest, sep), Split(mid, sep);
    MiddleParts(root, middle, last, parts);
  }

  lemma {:induction false} SplitFirst(root: string, rest: string, sep: char)
    requires sep !in root
    ensures Split(root + [sep] + rest, sep) == [root] + Split(rest, sep)
  {
    SplitConcat(root, rest, sep);
    SplitOfOne(root, sep);
  }

  lemma {:induction false} SplitRest(mid: string, last: string, sep: char)
    requires sep !in last
    ensures Split(mid + [sep] + last, sep) == Split(mid, sep) + [last]
  {
    SplitConcat(mid, last, sep);
    SplitOfOne(last, sep);
  }

  lemma MiddleParts(root: string, mid: seq<string>, last: string, parts: seq<string>)
    requires parts == [root] + (mid + [last])
    ensures parts[0] == root && parts[|parts| - 1] == last && parts[1..|parts| - 1] == mid
  {
  }
}
