/**
 * Ordered lists of records keyed by their `id`, and the three array operations
 * the source applies to them: `findIndex`/`find` (first entry with a given id),
 * `filter` on a different id, and `map` that replaces the entries with a given id.
 * Both prompts and conversations are such lists; `key` reads the id.
 */
module Records {
  import opened Wrappers

  /** Some entry of `s` has id `id`. */
  predicate HasKey<T>(s: seq<T>, key: T -> string, id: string) {
    exists i :: 0 <= i < |s| && key(s[i]) == id
  }

  /** No two entries of `s` share an id. */
  ghost predicate UniqueKeys<T>(s: seq<T>, key: T -> string) {
    forall i, j :: 0 <= i < j < |s| ==> key(s[i]) != key(s[j])
  }

  /** Array.prototype.findIndex on `entry.id === id`; `None` stands for -1. */
  function FindIndex<T>(s: seq<T>, key: T -> string, id: string): (r: Option<nat>)
    ensures r.None? <==> !HasKey(s, key, id)
    ensures r.Some? ==> r.value < |s| && key(s[r.value]) == id
    ensures r.Some? ==> forall j :: 0 <= j < r.value ==> key(s[j]) != id
    decreases |s|
  {
    if |s| == 0 then None
    else if key(s[0]) == id then Some(0)
    else match FindIndex(s[1..], key, id)
      case None =>
        assert forall i :: 1 <= i < |s| ==> s[i] == s[1..][i - 1];
        None
      case Some(k) => Some(k + 1)
  }

  /** How many entries of `s` have id `id`. */
  function CountKey<T>(s: seq<T>, key: T -> string, id: string): (n: nat)
    ensures n <= |s|
    ensures n == 0 <==> !HasKey(s, key, id)
    decreases |s|
  {
    if |s| == 0 then 0
    else
      assert forall i :: 1 <= i < |s| ==> s[i] == s[1..][i - 1];
      (if key(s[0]) == id then 1 else 0) + CountKey(s[1..], key, id)
  }

  /** Array.prototype.filter on `entry.id !== id`: every entry with that id is dropped. */
  function RemoveKey<T>(s: seq<T>, key: T -> string, id: string): (r: seq<T>)
    ensures |r| + CountKey(s, key, id) == |s|
    ensures forall i :: 0 <= i < |r| ==> key(r[i]) != id
    ensures !HasKey(s, key, id) ==> r == s
    decreases |s|
  {
    if |s| == 0 then []
    else
      assert s == [s[0]] + s[1..];
      if key(s[0]) == id then RemoveKey(s[1..], key, id)
      else [s[0]] + RemoveKey(s[1..], key, id)
  }

  /** Array.prototype.map replacing each entry with id `id` by `x` and keeping the rest. */
  function ReplaceKey<T>(s: seq<T>, key: T -> string, id: string, x: T): (r: seq<T>)
    ensures |r| == |s|
    ensures forall i :: 0 <= i < |s| ==> r[i] == (if key(s[i]) == id then x else s[i])
    decreases |s|
  {
    if |s| == 0 then []
    else [if key(s[0]) == id then x else s[0]] + ReplaceKey(s[1..], key, id, x)
  }

  /** The filtered list holds exactly the entries of `s` whose id differs from `id`. */
  lemma {:induction false} RemoveKeyMembers<T>(s: seq<T>, key: T -> string, id: string)
    ensures forall i :: 0 <= i < |RemoveKey(s, key, id)| ==> RemoveKey(s, key, id)[i] in s
    ensures forall i :: 0 <= i < |s| && key(s[i]) != id ==> s[i] in RemoveKey(s, key, id)
    decreases |s|
  {
    if |s| > 0 {
      RemoveKeyMembers(s[1..], key, id);
      assert forall i :: 1 <= i < |s| ==> s[i] == s[1..][i - 1];
    }
  }

  /** Filtering keeps the order: it distributes over concatenation. */
  lemma {:induction false} RemoveKeyAppend<T>(a: seq<T>, b: seq<T>, key: T -> string, id: string)
    ensures RemoveKey(a + b, key, id) == RemoveKey(a, key, id) + RemoveKey(b, key, id)
    decreases |a|
  {
    if |a| == 0 {
      assert a + b == b;
    } else {
      assert (a + b)[0] == a[0];
      assert (a + b)[1..] == a[1..] + b;
      RemoveKeyAppend(a[1..], b, key, id);
    }
  }

  /** Dropping the first entry of a list keeps its ids unique. */
  lemma TailUnique<T>(s: seq<T>, key: T -> string)
    requires UniqueKeys(s, key) && |s| > 0
    ensures UniqueKeys(s[1..], key)
  {
    var rest := s[1..];
    forall i, j | 0 <= i < j < |rest| ensures key(rest[i]) != key(rest[j]) {
      assert rest[i] == s[i + 1] && rest[j] == s[j + 1];
    }
  }

  /**
   * With unique ids, deleting the id of entry `k` removes exactly that entry:
   * the list shrinks by one and the rest keep their order.
   */
  lemma {:induction false} RemoveKeyAt<T>(s: seq<T>, key: T -> string, k: nat)
    requires UniqueKeys(s, key) && k < |s|
    ensures RemoveKey(s, key, key(s[k])) == s[..k] + s[k + 1..]
    decreases k
  {
    var id, rest := key(s[k]), s[1..];
    if k == 0 {
      assert !HasKey(rest, key, id) by {
        forall i | 0 <= i < |rest| ensures key(rest[i]) != id {
          assert rest[i] == s[i + 1];
        }
      }
    } else {
      TailUnique(s, key);
      assert rest[k - 1] == s[k];
      RemoveKeyAt(rest, key, k - 1);
      assert [s[0]] + (rest[..k - 1] + rest[k..]) == s[..k] + s[k + 1..];
    }
  }

  /** With unique ids an id occurs once if present and not at all otherwise. */
  lemma {:induction false} CountKeyUnique<T>(s: seq<T>, key: T -> string, id: string)
    requires UniqueKeys(s, key)
    ensures CountKey(s, key, id) == if HasKey(s, key, id) then 1 else 0
    decreases |s|
  {
    if |s| > 0 {
      var rest := s[1..];
      assert UniqueKeys(rest, key) by {
        forall i, j | 0 <= i < j < |rest| ensures key(rest[i]) != key(rest[j]) {
          assert rest[i] == s[i + 1] && rest[j] == s[j + 1];
        }
      }
      CountKeyUnique(rest, key, id);
      assert forall i :: 0 <= i < |rest| ==> rest[i] == s[i + 1];
      if key(s[0]) != id && HasKey(s, key, id) {
        var i :| 0 <= i < |s| && key(s[i]) == id;
        assert key(rest[i - 1]) == id;
      }
    }
  }

  /** Dropping entries keeps ids unique. */
  lemma {:induction false} RemoveKeyUnique<T>(s: seq<T>, key: T -> string, id: string)
    requires UniqueKeys(s, key)
    ensures UniqueKeys(RemoveKey(s, key, id), key)
    decreases |s|
  {
    if |s| > 0 {
      assert UniqueKeys(s[1..], key) by {
        forall i, j | 0 <= i < j < |s[1..]| ensures key(s[1..][i]) != key(s[1..][j]) {
          assert s[1..][i] == s[i + 1] && s[1..][j] == s[j + 1];
        }
      }
      RemoveKeyUnique(s[1..], key, id);
      RemoveKeyMembers(s[1..], key, id);
      var rest := RemoveKey(s[1..], key, id);
      if key(s[0]) != id {
        forall i | 0 <= i < |rest| ensures key(rest[i]) != key(s[0]) {
          var j :| 0 <= j < |s[1..]| && s[1..][j] == rest[i];
          assert s[1..][j] == s[j + 1];
        }
        assert forall j :: 0 < j < |[s[0]] + rest| ==> ([s[0]] + rest)[j] == rest[j - 1];
      }
    }
  }

  /** Adding an entry with an id not yet present keeps ids unique, at either end. */
  lemma AddFreshUnique<T>(s: seq<T>, key: T -> string, x: T)
    requires UniqueKeys(s, key) && !HasKey(s, key, key(x))
    ensures UniqueKeys(s + [x], key)
    ensures UniqueKeys([x] + s, key)
  {
    assert forall i :: 0 <= i < |s| ==> (s + [x])[i] == s[i];
    assert forall i :: 0 < i <= |s| ==> ([x] + s)[i] == s[i - 1];
  }

  /** Replacing entry `k` by one with the same id keeps ids unique. */
  lemma ReplaceAtUnique<T>(s: seq<T>, key: T -> string, k: nat, x: T)
    requires UniqueKeys(s, key) && k < |s| && key(x) == key(s[k])
    ensures UniqueKeys(s[k := x], key)
  {
  }
}
