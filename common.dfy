/** Values shared by the whole model: optional values, the errors the
    handlers throw, and the sequence operations the client borrows from
    JavaScript's Array (`find`, `reverse`, the `if (x) add(f(x))` idiom of
    `forEach`). */
module Common {

  datatype Option<T> = None | Some(value: T) {
    function GetOr(default: T): T {
      if Some? then value else default
    }
  }

  /** An exception a handler raises. None of the handlers catches anything,
      so each of these ends the handler at the point where it occurs. */
  datatype Failure =
    | MissingEventData            // `data.data.type` on a user-feed frame without `data`
    | MissingSubject              // `message.group_id` on a `line.create` without `subject`
    | UnknownGroup(groupId: string) // `find` gave undefined and its `messages`/`name` was read
    | NoSelectedGroup             // `currentGroup.id` while `currentGroup` is undefined

  /** How a handler that returns nothing ends. */
  datatype Outcome = Done | Threw(failure: Failure)

  datatype Result<T> = Ok(value: T) | Err(failure: Failure)

  /** `Array.prototype.find` with the test `x => key(x) === k`, as a
      position: the first element whose key is `k`. */
  function FindFirst<T, K(==)>(s: seq<T>, key: T -> K, k: K): (r: Option<nat>)
    ensures r.Some? ==> r.value < |s| && key(s[r.value]) == k
    ensures r.Some? ==> forall j :: 0 <= j < r.value ==> key(s[j]) != k
    ensures r.None? <==> forall j :: 0 <= j < |s| ==> key(s[j]) != k
    decreases |s|
  {
    if s == [] then None
    else if key(s[0]) == k then Some(0)
    else match FindFirst(s[1..], key, k)
      case None => None
      case Some(i) => Some(i + 1)
  }

  /** `Array.prototype.reverse`, as a value: position k of the result holds
      position |s|-1-k of the original. */
  function Reverse<T>(s: seq<T>): (r: seq<T>)
    ensures |r| == |s|
    ensures forall k :: 0 <= k < |s| ==> r[k] == s[|s| - 1 - k]
  {
    if s == [] then [] else Reverse(s[1..]) + [s[0]]
  }

  /** Reversing keeps every element with its multiplicity. */
  lemma {:induction false} ReversePermutes<T>(s: seq<T>)
    ensures multiset(Reverse(s)) == multiset(s)
  {
    if s != [] {
      ReversePermutes(s[1..]);
      assert s == [s[0]] + s[1..];
    }
  }

  /** Reversing twice gives back the original order. */
  lemma ReverseInvolutive<T>(s: seq<T>)
    ensures Reverse(Reverse(s)) == s
  {
    var r := Reverse(s);
    assert forall k :: 0 <= k < |s| ==> Reverse(r)[k] == r[|s| - 1 - k] == s[k];
  }

  ghost predicate Ascending<T>(s: seq<T>, rank: T -> int) {
    forall i, j :: 0 <= i < j < |s| ==> rank(s[i]) <= rank(s[j])
  }

  ghost predicate Descending<T>(s: seq<T>, rank: T -> int) {
    forall i, j :: 0 <= i < j < |s| ==> rank(s[i]) >= rank(s[j])
  }

  /** A newest-first sequence reverses into an oldest-first one, and only such a sequence does. */
  lemma ReverseFlipsOrder<T>(s: seq<T>, rank: T -> int)
    ensures Ascending(Reverse(s), rank) <==> Descending(s, rank)
  {
    var r := Reverse(s);
    var n := |s|;
    if Ascending(r, rank) {
      forall i, j | 0 <= i < j < n
        ensures rank(s[i]) >= rank(s[j])
      {
        assert r[n - 1 - j] == s[j] && r[n - 1 - i] == s[i];
      }
    }
    if Descending(s, rank) {
      forall i, j | 0 <= i < j < n
        ensures rank(r[i]) <= rank(r[j])
      {
        assert r[i] == s[n - 1 - i] && r[j] == s[n - 1 - j];
      }
    }
  }

  /** The elements of `s` that satisfy `p`, in order: a reference definition
      built from the front, independent of the loops that use it. */
  function Filter<T>(s: seq<T>, p: T -> bool): (r: seq<T>)
    ensures |r| <= |s|
    ensures forall x :: x in r ==> x in s && p(x)
  {
    if s == [] then [] else (if p(s[0]) then [s[0]] else []) + Filter(s[1..], p)
  }

  lemma {:induction false} FilterConcat<T>(a: seq<T>, b: seq<T>, p: T -> bool)
    ensures Filter(a + b, p) == Filter(a, p) + Filter(b, p)
  {
    if a == [] {
      assert a + b == b;
    } else {
      assert (a + b)[1..] == a[1..] + b;
      FilterConcat(a[1..], b, p);
    }
  }

  function MapSeq<T, U>(s: seq<T>, f: T -> U): (r: seq<U>)
    ensures |r| == |s| && forall i :: 0 <= i < |s| ==> r[i] == f(s[i])
  {
    seq(|s|, i requires 0 <= i < |s| => f(s[i]))
  }
}
