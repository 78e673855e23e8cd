/** The chronological sort of the surviving videos: `Array.prototype.sort`,
    which is stable, with a comparator that subtracts whole-second Unix
    times. */
module Chronology {
  import opened Seqs
  import opened Videos

  /** `moment(t).unix()`: the millisecond time rounded down to whole seconds
      (Dafny's division by a positive divisor rounds down, as `Math.floor`). */
  function Seconds(ms: int): int
  {
    ms / 1000
  }

  function PublishSecond(v: Video): int
  {
    Seconds(v.publishedAt)
  }

  /** The comparator handed to `sort`: negative when `a` goes first, zero for
      videos published in the same second. */
  function Compare(a: Video, b: Video): int
  {
    PublishSecond(a) - PublishSecond(b)
  }

  /** The comparator is consistent, so `sort` is well defined with it: it is
      antisymmetric, transitive, and zero exactly on same-second pairs. */
  lemma CompareIsConsistent(a: Video, b: Video, c: Video)
    ensures Compare(a, b) == -Compare(b, a)
    ensures Compare(a, b) <= 0 && Compare(b, c) <= 0 ==> Compare(a, c) <= 0
    ensures Compare(a, b) == 0 <==> PublishSecond(a) == PublishSecond(b)
  {
  }

  /** Places `v` before the first element the comparator does not order
      before it, so `v` precedes the same-second videos already in `s`. */
  function Insert(v: Video, s: seq<Video>): (r: seq<Video>)
    ensures |r| == |s| + 1
  {
    if s == [] || Compare(v, s[0]) <= 0 then [v] + s
    else [s[0]] + Insert(v, s[1..])
  }

  /** The sorted list: the head is inserted into the sorted tail. */
  function SortByPublishTime(s: seq<Video>): (r: seq<Video>)
    ensures |r| == |s|
  {
    if s == [] then [] else Insert(s[0], SortByPublishTime(s[1..]))
  }

  /** The test "published in second `k`". */
  function SecondIs(k: int): Video -> bool
  {
    (v: Video) => PublishSecond(v) == k
  }

  /** The videos of `s` published in second `k`, in their order in `s`. */
  function InSecond(k: int, s: seq<Video>): seq<Video>
  {
    Filter(SecondIs(k), s)
  }

  lemma {:induction false} InsertPermutes(v: Video, s: seq<Video>)
    ensures multiset(Insert(v, s)) == multiset(s) + multiset{v}
  {
    if s != [] && Compare(v, s[0]) > 0 {
      InsertPermutes(v, s[1..]);
      assert s == [s[0]] + s[1..];
    }
  }

  lemma {:induction false} InsertKeepsSorted(v: Video, s: seq<Video>)
    requires SortedBy(PublishSecond, s)
    ensures SortedBy(PublishSecond, Insert(v, s))
  {
    if s != [] && Compare(v, s[0]) > 0 {
      InsertKeepsSorted(v, s[1..]);
      InsertPermutes(v, s[1..]);
      var tail := Insert(v, s[1..]);
      forall x | x in tail ensures PublishSecond(s[0]) <= PublishSecond(x) {
        assert x in multiset(tail);
        assert x == v || x in multiset(s[1..]);
      }
    }
  }

  /** Inserting `v` adds it at the front of its own second's group and leaves
      every other second's group as it was. */
  lemma {:induction false} InsertStable(v: Video, s: seq<Video>, k: int)
    ensures InSecond(k, Insert(v, s)) ==
      (if PublishSecond(v) == k then [v] else []) + InSecond(k, s)
  {
    if s == [] || Compare(v, s[0]) <= 0 {
      assert ([v] + s)[1..] == s;
    } else {
      InsertStable(v, s[1..], k);
      assert ([s[0]] + Insert(v, s[1..]))[1..] == Insert(v, s[1..]);
    }
  }

  /** The sort returns a permutation of its input, in non-decreasing order of
      publish second, and keeps the input order among videos published in the
      same second. */
  lemma {:induction false} SortByPublishTimeCorrect(s: seq<Video>)
    ensures multiset(SortByPublishTime(s)) == multiset(s)
    ensures SortedBy(PublishSecond, SortByPublishTime(s))
    ensures forall k :: InSecond(k, SortByPublishTime(s)) == InSecond(k, s)
  {
    if s != [] {
      var rest := SortByPublishTime(s[1..]);
      SortByPublishTimeCorrect(s[1..]);
      InsertPermutes(s[0], rest);
      InsertKeepsSorted(s[0], rest);
      assert s == [s[0]] + s[1..];
      forall k ensures InSecond(k, SortByPublishTime(s)) == InSecond(k, s) {
        InsertStable(s[0], rest, k);
      }
    }
  }
}
