/**
 Merging a client's items into a session's history: the longest suffix of the history that is a
 prefix of the new items is not repeated. The three adapters share the search; Chat and Anthropic
 compare items for equality, Responses for identity.
 */
module OverlapMerge {
  import opened Wrappers

  const MAX_HISTORY_ITEMS: nat := 256

  type Same<!T> = (T, T) -> bool

  predicate Pairwise<T>(a: seq<T>, b: seq<T>, same: Same<T>) {
    |a| == |b| && forall i :: 0 <= i < |a| ==> same(a[i], b[i])
  }

  /** The last `count` items of the history are the first `count` new ones. */
  predicate Overlaps<T>(history: seq<T>, current: seq<T>, same: Same<T>, count: nat) {
    count <= |history| && count <= |current| && Pairwise(history[|history| - count..], current[..count], same)
  }

  function Min(a: nat, b: nat): nat { if a < b then a else b }

  /** The search the adapters run: from `count` downwards, the first overlap found. */
  function OverlapFrom<T>(history: seq<T>, current: seq<T>, same: Same<T>, count: nat): nat {
    if count == 0 || Overlaps(history, current, same, count) then count
        else OverlapFrom(history, current, same, count - 1)
  }

  function Overlap<T>(history: seq<T>, current: seq<T>, same: Same<T>): nat {
    OverlapFrom(history, current, same, Min(|history|, |current|))
  }

  function Merge<T>(history: seq<T>, current: seq<T>, same: Same<T>): seq<T> {
    var overlap := Overlap(history, current, same);
    if overlap <= |current| then history + current[overlap..] else history
  }

  lemma {:induction false} OverlapFromIsLongest<T>(history: seq<T>, current: seq<T>, same: Same<T>, count: nat)
    requires count <= |history| && count <= |current|
    ensures var found := OverlapFrom(history, current, same, count);
            found <= count && Overlaps(history, current, same, found)
            && forall k :: found < k <= count ==> !Overlaps(history, current, same, k)
  {
    if count != 0 && !Overlaps(history, current, same, count) {
      OverlapFromIsLongest(history, current, same, count - 1);
    }
  }

  /** The overlap found is an overlap, and every overlap is at most as long. */
  lemma OverlapIsLongest<T>(history: seq<T>, current: seq<T>, same: Same<T>)
    ensures Overlaps(history, current, same, Overlap(history, current, same))
    ensures forall k: nat :: Overlaps(history, current, same, k) ==> k <= Overlap(history, current, same)
    ensures Merge(history, current, same) == history + current[Overlap(history, current, same)..]
  {
    OverlapFromIsLongest(history, current, same, Min(|history|, |current|));
  }

  /** `m` starts with the history and ends with the new items. */
  ghost predicate Covers<T>(m: seq<T>, history: seq<T>, current: seq<T>, same: Same<T>) {
    history <= m && |current| <= |m| && Pairwise(m[|m| - |current|..], current, same)
  }

  ghost predicate Reflexive<T(!new)>(same: Same<T>) { forall x :: same(x, x) }

  /** Main law: the merge covers both, and nothing shorter does. */
  lemma MergeIsShortestCover<T(!new)>(history: seq<T>, current: seq<T>, same: Same<T>)
    requires Reflexive(same)
    ensures Covers(Merge(history, current, same), history, current, same)
    ensures forall m :: Covers(m, history, current, same) ==> |Merge(history, current, same)| <= |m|
  {
    OverlapIsLongest(history, current, same);
    var k := Overlap(history, current, same);
    var merged := Merge(history, current, same);
    assert merged[|merged| - |current|..] == history[|history| - k..] + current[k..];
    forall m: seq<T> | Covers(m, history, current, same) ensures |merged| <= |m| {
      CoverOverlaps(m, history, current, same);
    }
  }

  /** A cover shorter than both laid end to end overlaps them by what it saves. */
  lemma CoverOverlaps<T>(m: seq<T>, history: seq<T>, current: seq<T>, same: Same<T>)
    requires Covers(m, history, current, same)
    ensures |m| < |history| + |current| ==> Overlaps(history, current, same, |history| + |current| - |m|)
  {
    if |m| < |history| + |current| {
      var j := |history| + |current| - |m|;
      assert history[|history| - j..] == m[|m| - |current|..][..j];
    }
  }

  /** Merging the same items again adds nothing. */
  lemma {:induction false} MergeIsIdempotent<T(!new)>(history: seq<T>, current: seq<T>, same: Same<T>)
    requires Reflexive(same)
    ensures Merge(Merge(history, current, same), current, same) == Merge(history, current, same)
  {
    var merged := Merge(history, current, same);
    MergeIsShortestCover(history, current, same);
    assert current[..|current|] == current;
    assert Overlaps(merged, current, same, |current|);
    OverlapIsLongest(merged, current, same);
  }

  /** A client that resends the whole history and one that sends only what is new get the same merge,
      exactly when what is new does not overlap the history. */
  lemma ResendingIsIncremental<T(!new)>(history: seq<T>, added: seq<T>, same: Same<T>)
    requires Reflexive(same)
    ensures Merge(history, history + added, same) == history + added
    ensures Merge(history, added, same) == history + added <==> Overlap(history, added, same) == 0
  {
    OverlapIsLongest(history, history + added, same);
    OverlapIsLongest(history, added, same);
    assert (history + added)[..|history|] == history && history[|history| - |history|..] == history;
    assert Overlaps(history, history + added, same, |history|);
    assert (history + added)[|history|..] == added;
  }

  datatype Limits<!T> = Limits(maxBytes: nat, bytes: seq<T> -> nat)

  predicate Within<T>(limits: Limits<T>, items: seq<T>) {
    |items| <= MAX_HISTORY_ITEMS && limits.bytes(items) <= limits.maxBytes
  }

  /** The merge, or `None` when it exceeds 256 items or the byte limit. */
  function BoundedMerge<T>(limits: Limits<T>, history: seq<T>, current: seq<T>, same: Same<T>): Option<seq<T>> {
    var merged := Merge(history, current, same);
    if Within(limits, merged) then Some(merged) else None
  }

  /** It is the history and what the new items have beyond the longest overlap, if 256 items and the bytes allow. */
  lemma BoundedMergeIsExact<T>(limits: Limits<T>, history: seq<T>, current: seq<T>, same: Same<T>, k: nat)
    requires Overlaps(history, current, same, k)
    requires forall longer: nat :: longer > k ==> !Overlaps(history, current, same, longer)
    ensures var merged := history + current[k..];
            BoundedMerge(limits, history, current, same)
            == if |merged| <= 256 && limits.bytes(merged) <= limits.maxBytes then Some(merged) else None
  {
    OverlapIsLongest(history, current, same);
  }

  // Item identity in the Responses protocol.

  datatype Field = Absent | Str(text: string) | NotString

  datatype Item = Item(kind: Field, id: Field, callId: Field, rest: string)

  /** Type and id, where `id` shadows `call_id` even when it is not a string. */
  function Identity(item: Item): Option<(string, string)> {
    var id := if item.id.Absent? then item.callId else item.id;
    if item.kind.Str? && id.Str? then Some((item.kind.text, id.text)) else None
  }

  predicate SameItem(left: Item, right: Item) {
    if Identity(left).Some? && Identity(right).Some? then Identity(left) == Identity(right) else left == right
  }

  /** What an item goes by: its id, or only when it has none its call id; nothing if that is no string. */
  predicate GoesBy(item: Item, name: string) {
    item.id == Str(name) || (item.id == Absent && item.callId == Str(name))
  }

  /** Items with a type and a name they go by are the same by those; any others only as a whole. */
  lemma SameItemIsExact(left: Item, right: Item, x: string, y: string, a: string, b: string)
    ensures left.kind == Str(a) && right.kind == Str(b) && GoesBy(left, x) && GoesBy(right, y) ==>
              (SameItem(left, right) <==> a == b && x == y)
    ensures !left.kind.Str? || (left.id.NotString? || (left.id.Absent? && !left.callId.Str?)) ==>
              (SameItem(left, right) <==> left == right) && (SameItem(right, left) <==> right == left)
  {
  }

  lemma SameItemIsAnEquivalence(a: Item, b: Item, c: Item)
    ensures SameItem(a, a)
    ensures SameItem(a, b) <==> SameItem(b, a)
    ensures SameItem(a, b) && SameItem(b, c) ==> SameItem(a, c)
  {
  }
}
