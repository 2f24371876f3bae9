/** The stored frames and the two queries the helpers make of them:
    `filter(field=value)` and `get(field=value)`.

    The store is the sequence of frames in the order the query returns them;
    `filter(...)[0]` is therefore the first frame in that order whose field
    equals the value exactly. */
module Store {

  import opened Wrappers
  import opened Models

  /** The frame fields the helpers look frames up by. */
  datatype Field = TitleField | UrlField

  function FieldValue(f: Frame, field: Field): string
  {
    match field
    case TitleField => f.title
    case UrlField => f.url
  }

  predicate Matches(f: Frame, field: Field, value: string) {
    FieldValue(f, field) == value
  }

  /** No stored frame has `value` in `field`. */
  predicate NoMatch(store: seq<Frame>, field: Field, value: string) {
    forall i :: 0 <= i < |store| ==> !Matches(store[i], field, value)
  }

  /** `k` is the position of the first stored frame with `value` in `field`. */
  predicate IsFirstMatch(store: seq<Frame>, field: Field, value: string, k: nat) {
    && k < |store|
    && Matches(store[k], field, value)
    && forall j :: 0 <= j < k ==> !Matches(store[j], field, value)
  }

  /** `k` is the only position holding a frame with `value` in `field`. */
  predicate IsOnlyMatch(store: seq<Frame>, field: Field, value: string, k: int) {
    && 0 <= k < |store|
    && Matches(store[k], field, value)
    && forall i :: 0 <= i < |store| && i != k ==> !Matches(store[i], field, value)
  }

  /** Positions `i` and `j` both hold a frame with `value` in `field`. */
  predicate AreTwoMatches(store: seq<Frame>, field: Field, value: string, i: int, j: int) {
    0 <= i < j < |store| && Matches(store[i], field, value) && Matches(store[j], field, value)
  }

  /** The position of the first frame with `value` in `field`: the reference
      definition of "first match". */
  function FirstIndex(store: seq<Frame>, field: Field, value: string): (r: Option<nat>)
    ensures r.None? <==> NoMatch(store, field, value)
    ensures r.Some? ==> IsFirstMatch(store, field, value, r.value)
    decreases |store|
  {
    if |store| == 0 then None
    else if Matches(store[0], field, value) then Some(0)
    else match FirstIndex(store[1..], field, value)
      case None => None
      case Some(k) => Some(k + 1)
  }

  /** How many stored frames, counted by position, have `value` in `field`. */
  function CountMatches(store: seq<Frame>, field: Field, value: string): (n: nat)
    ensures n <= |store|
    decreases |store|
  {
    if |store| == 0 then 0
    else (if Matches(store[0], field, value) then 1 else 0) + CountMatches(store[1..], field, value)
  }

  /** `filter(field=value)`: the matching frames, in store order. */
  function Filter(store: seq<Frame>, field: Field, value: string): (r: seq<Frame>)
    ensures |r| == CountMatches(store, field, value)
    ensures |r| == 0 <==> NoMatch(store, field, value)
    ensures forall g :: g in r ==> g in store && Matches(g, field, value)
    ensures forall i :: 0 <= i < |store| && Matches(store[i], field, value) ==> store[i] in r
    decreases |store|
  {
    if |store| == 0 then []
    else if Matches(store[0], field, value) then [store[0]] + Filter(store[1..], field, value)
    else Filter(store[1..], field, value)
  }

  /** Counting the matches among the first `i` frames peels off the first frame. */
  lemma CountPrefixStep(store: seq<Frame>, field: Field, value: string, i: nat)
    requires 0 < i <= |store|
    ensures CountMatches(store[..i], field, value) ==
      (if Matches(store[0], field, value) then 1 else 0) + CountMatches(store[1..][..i - 1], field, value)
  {
    assert store[..i][1..] == store[1..][..i - 1];
  }

  /** The filter keeps store order, one entry per matching position: the match
      at position `i` is the entry after as many entries as there are matches
      before `i`. */
  lemma {:induction false} FilterKeepsOrder(store: seq<Frame>, field: Field, value: string, i: nat)
    requires i < |store| && Matches(store[i], field, value)
    ensures CountMatches(store[..i], field, value) < |Filter(store, field, value)|
    ensures Filter(store, field, value)[CountMatches(store[..i], field, value)] == store[i]
    decreases i
  {
    var r := Filter(store, field, value);
    var n := CountMatches(store[..i], field, value);
    if i == 0 {
      assert store[..i] == [];
      assert r == [store[0]] + Filter(store[1..], field, value);
    } else {
      var rest := Filter(store[1..], field, value);
      var c := CountMatches(store[1..][..i - 1], field, value);
      FilterKeepsOrder(store[1..], field, value, i - 1);
      assert rest[c] == store[1..][i - 1] == store[i];
      CountPrefixStep(store, field, value, i);
      if Matches(store[0], field, value) {
        assert r == [store[0]] + rest && n == c + 1;
        assert r[c + 1] == rest[c];
      } else {
        assert r == rest && n == c;
      }
    }
  }

  /** The head of a filter is the first match of the store. */
  lemma {:induction false} FilterHeadIsFirstMatch(store: seq<Frame>, field: Field, value: string)
    ensures |Filter(store, field, value)| == 0 <==> FirstIndex(store, field, value).None?
    ensures FirstIndex(store, field, value).Some? ==>
      Filter(store, field, value)[0] == store[FirstIndex(store, field, value).value]
    decreases |store|
  {
    if |store| > 0 && !Matches(store[0], field, value) {
      FilterHeadIsFirstMatch(store[1..], field, value);
    }
  }

  /** `filter(field=value)[0]`, with the IndexError of an empty filter as None. */
  function First(store: seq<Frame>, field: Field, value: string): (r: Option<Frame>)
    ensures r.None? <==> NoMatch(store, field, value)
    ensures r.Some? ==> r.value == store[FirstIndex(store, field, value).value]
  {
    FilterHeadIsFirstMatch(store, field, value);
    var hits := Filter(store, field, value);
    if |hits| == 0 then None else Some(hits[0])
  }

  /** What `get(field=value)` does: return the one match, or raise because
      there is none or more than one. */
  datatype GetOutcome = Found(frame: Frame) | DoesNotExist | MultipleFound(count: nat)

  function Get(store: seq<Frame>, field: Field, value: string): (r: GetOutcome)
    ensures r.DoesNotExist? <==> NoMatch(store, field, value)
    ensures r.Found? <==> CountMatches(store, field, value) == 1
    ensures r.Found? ==> Matches(r.frame, field, value)
    ensures r.Found? ==> forall i :: 0 <= i < |store| && Matches(store[i], field, value) ==> store[i] == r.frame
    ensures r.MultipleFound? ==> r.count == CountMatches(store, field, value) >= 2
  {
    var hits := Filter(store, field, value);
    if |hits| == 0 then DoesNotExist
    else if |hits| == 1 then Found(hits[0])
    else MultipleFound(|hits|)
  }

  /** Where `get` finds a frame, `filter(...)[0]` finds the same one. */
  lemma GetAgreesWithFirst(store: seq<Frame>, field: Field, value: string)
    requires Get(store, field, value).Found?
    ensures First(store, field, value) == Some(Get(store, field, value).frame)
  {
  }

  /** `get` finds a frame exactly when one stored frame, counted by position,
      has the value. */
  lemma {:induction false} GetFindsUniqueMatch(store: seq<Frame>, field: Field, value: string, k: nat)
    requires IsOnlyMatch(store, field, value, k)
    ensures Get(store, field, value) == Found(store[k])
    decreases |store|
  {
    if k > 0 {
      GetFindsUniqueMatch(store[1..], field, value, k - 1);
    } else {
      assert NoMatch(store[1..], field, value);
    }
  }

  /** Two stored frames with the value make `get` raise MultipleObjectsReturned. */
  lemma {:induction false} GetRejectsTwoMatches(store: seq<Frame>, field: Field, value: string, i: nat, j: nat)
    requires AreTwoMatches(store, field, value, i, j)
    ensures Get(store, field, value).MultipleFound?
    decreases |store|
  {
    if i > 0 {
      GetRejectsTwoMatches(store[1..], field, value, i - 1, j - 1);
    } else {
      assert !NoMatch(store[1..], field, value) by {
        assert store[1..][j - 1] == store[j];
      }
    }
  }
}
