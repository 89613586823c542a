/**
 Strings as Go's `strings` package treats them: splitting and joining on '/',
 trimming, prefixes, and the byte order used by the ledger's sorted image.
*/
module Text {

  const SLASH := '/'

  predicate HasPrefix(s: string, prefix: string) {
    prefix <= s
  }

  function TrimPrefix(s: string, prefix: string): string {
    if HasPrefix(s, prefix) then s[|prefix|..] else s
  }

  function TrimLeft(s: string, cut: set<char>): (r: string)
    ensures r != "" ==> r[0] !in cut
  {
    if s != "" && s[0] in cut then TrimLeft(s[1..], cut) else s
  }

  function TrimRight(s: string, cut: set<char>): (r: string)
    ensures r <= s
    ensures r != "" ==> r[|r| - 1] !in cut
  {
    if s != "" && s[|s| - 1] in cut then TrimRight(s[..|s| - 1], cut) else s
  }

  function Trim(s: string, cut: set<char>): (r: string)
    ensures r != "" ==> r[0] !in cut && r[|r| - 1] !in cut
  {
    TrimRight(TrimLeft(s, cut), cut)
  }

  function TrimSlashes(s: string): string {
    Trim(s, {SLASH})
  }

  lemma TrimFixed(s: string, cut: set<char>)
    requires s != "" ==> s[0] !in cut && s[|s| - 1] !in cut
    ensures Trim(s, cut) == s
  {
  }

  lemma {:induction false} TrimSubset(s: string, cut: set<char>, safe: set<char>)
    requires forall c <- s :: c in safe
    ensures forall c <- Trim(s, cut) :: c in safe
  {
    TrimLeftSubset(s, cut, safe);
  }

  lemma TrimLeftSubset(s: string, cut: set<char>, safe: set<char>)
    requires forall c <- s :: c in safe
    ensures forall c <- TrimLeft(s, cut) :: c in safe
  {
  }

  /** `strings.Split(s, "/")`: never empty. */
  function Split(s: string): (r: seq<string>)
    ensures |r| >= 1
  {
    if s == "" then [""]
    else if s[0] == SLASH then [""] + Split(s[1..])
    else
      var rest := Split(s[1..]);
      [[s[0]] + rest[0]] + rest[1..]
  }

  /** `strings.Join(parts, "/")`. */
  function Join(parts: seq<string>): string {
    if parts == [] then ""
    else if |parts| == 1 then parts[0]
    else parts[0] + [SLASH] + Join(parts[1..])
  }

  lemma {:induction false} JoinSplit(s: string)
    ensures Join(Split(s)) == s
  {
    if s != "" {
      JoinSplit(s[1..]);
      var rest := Split(s[1..]);
      if s[0] == SLASH {
        assert ([""] + rest)[1..] == rest;
      } else {
        var parts := [[s[0]] + rest[0]] + rest[1..];
        assert parts[1..] == rest[1..];
        if |rest| == 1 {
          assert s == [s[0]] + s[1..];
        } else {
          assert Join(parts) == [s[0]] + (rest[0] + [SLASH] + Join(rest[1..]));
          assert s == [s[0]] + s[1..];
        }
      }
    }
  }

  /** Segments contain no separator. */
  lemma {:induction false} SplitSegments(s: string)
    ensures forall part <- Split(s) :: SLASH !in part
  {
    if s != "" {
      SplitSegments(s[1..]);
      var rest := Split(s[1..]);
      forall part | part in Split(s)
        ensures SLASH !in part
      {
        if s[0] != SLASH && part == [s[0]] + rest[0] {
          assert rest[0] in rest;
        } else if part != "" {
          assert part in rest;
        }
      }
    }
  }

  /** Splitting undoes joining, for segments without the separator. */
  lemma {:induction false} SplitJoin(parts: seq<string>)
    requires parts != []
    requires forall part <- parts :: SLASH !in part
    ensures Split(Join(parts)) == parts
  {
    if |parts| == 1 {
      SplitPlain(parts[0]);
    } else {
      SplitJoin(parts[1..]);
      SplitConcat(parts[0], Join(parts[1..]));
    }
  }

  lemma {:induction false} SplitPlain(s: string)
    requires SLASH !in s
    ensures Split(s) == [s]
  {
    if s != "" {
      SplitPlain(s[1..]);
      assert [s[0]] + s[1..] == s;
    }
  }

  lemma {:induction false} SplitConcat(head: string, tail: string)
    requires SLASH !in head
    ensures Split(head + [SLASH] + tail) == [head] + Split(tail)
  {
    var s := head + [SLASH] + tail;
    if head == "" {
      assert s[1..] == tail;
    } else {
      assert s[1..] == head[1..] + [SLASH] + tail;
      SplitConcat(head[1..], tail);
      assert [s[0]] + head[1..] == head;
    }
  }

  /** Joining distributes over a non-empty split point. */
  lemma {:induction false} JoinConcat(a: seq<string>, b: seq<string>)
    requires a != [] && b != []
    ensures Join(a + b) == Join(a) + [SLASH] + Join(b)
  {
    if |a| == 1 {
      assert (a + b)[1..] == b;
    } else {
      assert (a + b)[1..] == a[1..] + b;
      JoinConcat(a[1..], b);
      assert a[0] + [SLASH] + (Join(a[1..]) + [SLASH] + Join(b)) == (a[0] + [SLASH] + Join(a[1..])) + [SLASH] + Join(b);
    }
  }

  /** A path below a parent splits into the parent's segments and more. */
  lemma {:induction false} SplitBelow(parent: string, rest: string)
    ensures Split(parent + [SLASH] + rest) == Split(parent) + Split(rest)
  {
    if parent == "" {
      assert (parent + [SLASH] + rest)[1..] == rest;
    } else {
      SplitBelow(parent[1..], rest);
      SplitCons(parent[0], parent[1..]);
      SplitCons(parent[0], parent[1..] + [SLASH] + rest);
      assert [parent[0]] + parent[1..] == parent;
      assert [parent[0]] + (parent[1..] + [SLASH] + rest) == parent + [SLASH] + rest;
      PrependConcat(parent[0], Split(parent[1..]), Split(rest));
    }
  }

  /** One step of Split: a character opens a new segment or extends the first. */
  function Prepend(c: char, parts: seq<string>): seq<string>
    requires parts != []
  {
    if c == SLASH then [""] + parts else [[c] + parts[0]] + parts[1..]
  }

  lemma SplitCons(c: char, s: string)
    ensures Split([c] + s) == Prepend(c, Split(s))
  {
  }

  lemma PrependConcat(c: char, p: seq<string>, q: seq<string>)
    requires p != []
    ensures Prepend(c, p + q) == Prepend(c, p) + q
  {
  }

  // ----- the order of Go strings -----

  predicate Less(a: string, b: string) {
    if b == "" then false
    else if a == "" then true
    else if a[0] != b[0] then a[0] < b[0]
    else Less(a[1..], b[1..])
  }

  lemma LessTotal(a: string, b: string)
    ensures a == b || Less(a, b) || Less(b, a)
    ensures !(Less(a, b) && Less(b, a))
    ensures Less(a, b) ==> a != b
  {
  }

  lemma LessTransitive(a: string, b: string, c: string)
    requires Less(a, b) && Less(b, c)
    ensures Less(a, c)
  {
  }

  const NUL := 0 as char

  predicate NulFree(s: string) {
    NUL !in s
  }

  /** Order on tuples of identifiers, component by component. */
  predicate TupleLess(a: seq<string>, b: seq<string>) {
    if b == [] then false
    else if a == [] then true
    else if a[0] != b[0] then Less(a[0], b[0])
    else TupleLess(a[1..], b[1..])
  }

  lemma TupleTotal(a: seq<string>, b: seq<string>)
    ensures a == b || TupleLess(a, b) || TupleLess(b, a)
    ensures !(TupleLess(a, b) && TupleLess(b, a))
    ensures TupleLess(a, b) ==> a != b
  {
    if a != [] && b != [] {
      LessTotal(a[0], b[0]);
      TupleTotal(a[1..], b[1..]);
      if a[0] == b[0] {
        assert a == [a[0]] + a[1..] && b == [b[0]] + b[1..];
      }
    }
  }

  lemma TupleTransitive(a: seq<string>, b: seq<string>, c: seq<string>)
    requires TupleLess(a, b) && TupleLess(b, c)
    ensures TupleLess(a, c)
  {
    if a != [] {
      if a[0] == b[0] && b[0] == c[0] {
        TupleTransitive(a[1..], b[1..], c[1..]);
      } else if a[0] != b[0] && b[0] != c[0] {
        LessTransitive(a[0], b[0], c[0]);
        LessTotal(a[0], c[0]);
      }
    }
  }

  /** The key text of the source: identifiers joined by NUL. */
  function KeyText(ids: seq<string>): string {
    if ids == [] then ""
    else if |ids| == 1 then ids[0]
    else ids[0] + [NUL] + KeyText(ids[1..])
  }

  /**
   For identifiers without NUL the joined text sorts exactly like the tuple, and
   so is injective: keying and sorting by tuples loses nothing.
  */
  lemma {:induction false} KeyTextFaithful(a: seq<string>, b: seq<string>)
    requires |a| == |b|
    requires forall id <- a + b :: NulFree(id)
    ensures Less(KeyText(a), KeyText(b)) <==> TupleLess(a, b)
    ensures KeyText(a) == KeyText(b) ==> a == b
  {
    if |a| == 1 {
      LessTotal(a[0], b[0]);
    } else if |a| > 1 {
      forall id | id in a[1..] + b[1..]
        ensures NulFree(id)
      {
        assert id in a + b;
      }
      KeyTextFaithful(a[1..], b[1..]);
      assert a[0] in a + b && b[0] in a + b;
      JoinOrder(a[0], KeyText(a[1..]), b[0], KeyText(b[1..]));
      LessTotal(a[0], b[0]);
      assert a == [a[0]] + a[1..] && b == [b[0]] + b[1..];
    }
  }

  lemma {:induction false} JoinOrder(a: string, x: string, b: string, y: string)
    requires NulFree(a) && NulFree(b)
    ensures Less(a + [NUL] + x, b + [NUL] + y) <==> Less(a, b) || (a == b && Less(x, y))
    ensures a + [NUL] + x == b + [NUL] + y <==> a == b && x == y
  {
    var s, t := a + [NUL] + x, b + [NUL] + y;
    assert a != "" ==> s[1..] == a[1..] + [NUL] + x;
    assert b != "" ==> t[1..] == b[1..] + [NUL] + y;
    assert a == "" ==> s[1..] == x;
    assert b == "" ==> t[1..] == y;
    if a != "" && b != "" {
      JoinOrder(a[1..], x, b[1..], y);
      assert a == [a[0]] + a[1..] && b == [b[0]] + b[1..];
      assert s == [s[0]] + s[1..] && t == [t[0]] + t[1..];
    } else if a == "" && b == "" {
      assert s == [NUL] + x && t == [NUL] + y;
    }
  }
}
