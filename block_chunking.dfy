/**
 * Cutting a stream of samples into fixed-size blocks.
 *
 * The receive path of the UDP audio device copies whole frames into a
 * staging buffer and hands the buffer on every time it is full. Seen from
 * outside, that is "cut the concatenated input into blocks of n samples and
 * keep the rest pending". This module states that view as functions and
 * proves that it does not depend on where the input was split into datagrams.
 */
module BlockChunking {

  /** The whole blocks of `n` elements at the front of `s`, in order. */
  function Chunks<T>(s: seq<T>, n: nat): (r: seq<seq<T>>)
    requires n > 0
    ensures forall k :: 0 <= k < |r| ==> |r[k]| == n
    decreases |s|
  {
    if |s| < n then [] else [s[..n]] + Chunks(s[n..], n)
  }

  /** What is left after the whole blocks: a suffix of `s` shorter than one block. */
  function Rest<T>(s: seq<T>, n: nat): (r: seq<T>)
    requires n > 0
    ensures |r| < n
    decreases |s|
  {
    if |s| < n then s else Rest(s[n..], n)
  }

  /** The elements of all blocks, one block after the other. */
  function Flatten<T>(bs: seq<seq<T>>): (s: seq<T>)
  {
    if bs == [] then [] else bs[0] + Flatten(bs[1..])
  }

  lemma {:induction false} FlattenAppend<T>(a: seq<seq<T>>, b: seq<seq<T>>)
    ensures Flatten(a + b) == Flatten(a) + Flatten(b)
  {
    if a == [] {
      assert a + b == b;
    } else {
      assert (a + b)[1..] == a[1..] + b;
      FlattenAppend(a[1..], b);
    }
  }

  /** The elements of the first `k + 1` blocks are those of the first `k` followed by block `k`. */
  lemma FlattenSnoc<T>(bs: seq<seq<T>>, k: nat)
    requires k < |bs|
    ensures Flatten(bs[..k + 1]) == Flatten(bs[..k]) + bs[k]
  {
    assert bs[..k + 1] == bs[..k] + [bs[k]];
    FlattenAppend(bs[..k], [bs[k]]);
    assert Flatten([bs[k]]) == bs[k] + Flatten([bs[k]][1..]);
  }

  /** One block off the front: its elements come first, and the rest is the rest of what follows it. */
  lemma ChunksUnfold<T>(s: seq<T>, n: nat)
    requires n > 0 && |s| >= n
    ensures Flatten(Chunks(s, n)) == s[..n] + Flatten(Chunks(s[n..], n))
    ensures Rest(s, n) == Rest(s[n..], n)
  {
    var c := Chunks(s, n);
    assert c == [s[..n]] + Chunks(s[n..], n);
    assert c[0] == s[..n] && c[1..] == Chunks(s[n..], n);
  }

  /** Nothing is lost, duplicated or reordered: the blocks followed by the rest are the stream. */
  lemma {:induction false} ChunksRestCover<T>(s: seq<T>, n: nat)
    requires n > 0
    ensures Flatten(Chunks(s, n)) + Rest(s, n) == s
    decreases |s|
  {
    if |s| >= n {
      ChunksUnfold(s, n);
      ChunksRestCover(s[n..], n);
      assert s == s[..n] + s[n..];
    }
  }

  /**
   * Split independence: cutting `s + t` in one go gives the blocks of `s`
   * followed by the blocks of what `s` left pending with `t` appended.
   */
  lemma {:induction false} ChunksSplit<T>(s: seq<T>, t: seq<T>, n: nat)
    requires n > 0
    ensures Chunks(s + t, n) == Chunks(s, n) + Chunks(Rest(s, n) + t, n)
    ensures Rest(s + t, n) == Rest(Rest(s, n) + t, n)
    decreases |s|
  {
    if |s| >= n {
      assert (s + t)[..n] == s[..n];
      assert (s + t)[n..] == s[n..] + t;
      ChunksSplit(s[n..], t, n);
    }
  }

  /** One piece more: the blocks so far plus those the staged rest completes are the blocks of the longer stream. */
  lemma FeedStep<T>(prefix: seq<T>, piece: seq<T>, n: nat, emitted: seq<seq<T>>, pending: seq<T>)
    requires n > 0
    requires emitted == Chunks(Rest(prefix, n) + piece, n) && pending == Rest(Rest(prefix, n) + piece, n)
    ensures Chunks(prefix, n) + emitted == Chunks(prefix + piece, n) && pending == Rest(prefix + piece, n)
  {
    ChunksSplit(prefix, piece, n);
  }

  /**
   * Feeding the pieces `ds` one after another, starting with `pending`
   * staged: the blocks emitted on the way and what is staged at the end.
   */
  function FeedAll<T>(pending: seq<T>, ds: seq<seq<T>>, n: nat): (r: (seq<seq<T>>, seq<T>))
    requires n > 0
    decreases |ds|
  {
    if ds == [] then ([], pending)
    else
      var next := FeedAll(Rest(pending + ds[0], n), ds[1..], n);
      (Chunks(pending + ds[0], n) + next.0, next.1)
  }

  /** However the stream is split into pieces, the emitted blocks are the blocks of the whole stream. */
  lemma {:induction false} FeedAllIsChunksOfConcat<T>(pending: seq<T>, ds: seq<seq<T>>, n: nat)
    requires n > 0 && |pending| < n
    ensures FeedAll(pending, ds, n) == (Chunks(pending + Flatten(ds), n), Rest(pending + Flatten(ds), n))
    decreases |ds|
  {
    if ds == [] {
      assert pending + Flatten(ds) == pending;
    } else {
      FeedAllIsChunksOfConcat(Rest(pending + ds[0], n), ds[1..], n);
      ChunksSplit(pending + ds[0], Flatten(ds[1..]), n);
      assert pending + Flatten(ds) == (pending + ds[0]) + Flatten(ds[1..]);
    }
  }

  /** Two splittings of the same stream emit the same blocks and leave the same rest. */
  lemma SplitIndependent<T>(pending: seq<T>, ds1: seq<seq<T>>, ds2: seq<seq<T>>, n: nat)
    requires n > 0 && |pending| < n
    requires Flatten(ds1) == Flatten(ds2)
    ensures FeedAll(pending, ds1, n) == FeedAll(pending, ds2, n)
  {
    FeedAllIsChunksOfConcat(pending, ds1, n);
    FeedAllIsChunksOfConcat(pending, ds2, n);
  }
}
