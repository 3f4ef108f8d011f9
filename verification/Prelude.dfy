/** Datatypes and small sequence facts shared by the whole project. */
module Prelude {

  datatype Option<+T> = None | Some(value: T)

  datatype Result<+T, +E> = Ok(value: T) | Err(error: E)

  /** How a step of the engine ends other than well: a typed refusal with a code, or an
      exception of the host language that nothing in the engine raises on purpose. */
  datatype Failure = Refused(code: string) | Crashed(exception: string)

  predicate Distinct<T(==)>(s: seq<T>) {
    forall i, j :: 0 <= i < j < |s| ==> s[i] != s[j]
  }

  function Without<T>(s: seq<T>, i: nat): seq<T>
    requires i < |s|
  {
    s[..i] + s[i + 1..]
  }

  /** The elements of `s` whose index is not in `gone`, in order. */
  function Keep<T>(s: seq<T>, gone: set<nat>): seq<T> {
    if s == [] then []
    else Keep(s[..|s| - 1], gone) + (if |s| - 1 in gone then [] else [s[|s| - 1]])
  }

  /** What is left of `s` when deletions are made by index, in the order given. */
  function Deleted<T>(s: seq<T>, order: seq<nat>): seq<T>
    decreases |order|
  {
    if order == [] || order[0] >= |s| then s else Deleted(Without(s, order[0]), order[1..])
  }

  predicate Ascending(ids: seq<nat>) {
    forall i, j :: 0 <= i < j < |ids| ==> ids[i] < ids[j]
  }

  lemma WithoutIndex(ids: seq<nat>, i: nat)
    requires Ascending(ids) && i < |ids|
    ensures Ascending(Without(ids, i))
    ensures forall id :: id in ids && id != ids[i] ==> id in Without(ids, i)
    ensures ids[i] !in Without(ids, i)
  {
    forall id | id in ids && id != ids[i] ensures id in Without(ids, i) {
      var j :| 0 <= j < |ids| && ids[j] == id;
      assert Without(ids, i)[if j < i then j else j - 1] == id;
    }
  }

  function Elements<T(==)>(s: seq<T>): set<T> {
    set x | x in s
  }

  lemma TwiceIsTwo<T>(s: seq<T>, i: nat, j: nat)
    requires i < j < |s| && s[i] == s[j]
    ensures multiset(s)[s[i]] >= 2
  {
    assert s == s[..i] + [s[i]] + s[i + 1..j] + [s[j]] + s[j + 1..];
  }

  lemma {:induction false} OnceIsOne<T>(s: seq<T>, x: T)
    requires Distinct(s)
    ensures multiset(s)[x] <= 1
  {
    if s != [] {
      var front, last := s[..|s| - 1], s[|s| - 1];
      assert s == front + [last];
      OnceIsOne(front, x);
      if x == last { assert x !in front; }
    }
  }

  /** Whether anything repeats does not depend on the order. */
  lemma DistinctInAnyOrder<T>(s: seq<T>, t: seq<T>)
    requires multiset(s) == multiset(t) && Distinct(s)
    ensures Distinct(t)
  {
    forall i, j | 0 <= i < j < |t| ensures t[i] != t[j] {
      if t[i] == t[j] {
        TwiceIsTwo(t, i, j);
        OnceIsOne(s, t[i]);
      }
    }
  }
}
