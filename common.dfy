/**
 * Shared vocabulary of the ShareIt services: the failure kinds their exceptions
 * stand for, Result and Option wrappers, and the pagination arithmetic the list
 * queries use (a Spring PageRequest over an ordered query result).
 */
module Common {

  /** Why a NotFoundException was thrown; each value stands for one message of the source. */
  datatype Missing =
    | MissingUser        // no user has the given id
    | MissingItem        // no item has the given id
    | MissingBooking     // no booking has the given id
    | MissingRequest     // no item request has the given id
    | OwnItem            // an owner may not book their own item
    | NotItemOwner       // only the item's owner may approve or reject
    | AccessRestricted   // only the owner or the booker may see a booking
    | NoOwnedItems       // the caller owns no booked item

  /** Why a ValidationException was thrown. */
  datatype Invalid =
    | BadWindow          // booking start is not strictly before its end
    | Unavailable        // the item is not available for booking
    | NotWaiting         // the status can change only from WAITING

  /** The failure kinds of the services. */
  datatype Error =
    | NotFound(missing: Missing)   // NotFoundException
    | Validation(invalid: Invalid) // ValidationException
    | UnsupportedState             // RuntimeException for a state name it does not know
    | DuplicateUser                // DataIntegrityViolationException

  datatype Result<+T> = Ok(value: T) | Err(error: Error)

  /** A Java reference that may be null. */
  datatype Option<+T> = None | Some(value: T)

  /** Outcome of an operation that returns nothing (a Java `void` method). */
  datatype Outcome = Done | Fail(error: Error)

  /**
   * The page number a list query asks for: `from > 0 ? from / size : 0`.
   * It is the page whose offsets `p * size .. p * size + size - 1` hold `from`,
   * so a `from` that is not a multiple of `size` lands on the enclosing page.
   */
  function PageIndex(from: int, size: int): (p: int)
    requires from >= 0 && size >= 1
    ensures p >= 0
    ensures p * size <= from < p * size + size
  {
    if from > 0 then from / size else 0
  }

  /**
   * Page number `index` of length `size` taken from an ordered query result:
   * what PageRequest.of(index, size) selects.
   */
  function Page<T>(s: seq<T>, index: nat, size: nat): (r: seq<T>)
    ensures |r| <= size
    ensures forall x :: x in r ==> x in s
    ensures |r| == if index * size >= |s| then 0
                   else if |s| - index * size < size then |s| - index * size
                   else size
    ensures forall i :: 0 <= i < |r| ==> index * size + i < |s| && r[i] == s[index * size + i]
  {
    var lo := index * size;
    if lo >= |s| then []
    else if |s| - lo < size then s[lo..]
    else s[lo..lo + size]
  }

  /** The elements of `s` that satisfy `p`, in their order in `s`. */
  function Filter<T>(s: seq<T>, p: T -> bool): (r: seq<T>)
    ensures |r| <= |s|
    ensures forall x :: x in r ==> x in s && p(x)
  {
    if s == [] then []
    else if p(s[0]) then [s[0]] + Filter(s[1..], p)
    else Filter(s[1..], p)
  }

  /** Nothing that satisfies `p` is dropped by Filter. */
  lemma {:induction false} FilterKeeps<T>(s: seq<T>, p: T -> bool, x: T)
    requires x in s && p(x)
    ensures x in Filter(s, p)
  {
    if s[0] != x {
      FilterKeeps(s[1..], p, x);
    }
  }

  /** Filter keeps the multiset of the matching elements. */
  lemma {:induction false} FilterMultiset<T>(s: seq<T>, p: T -> bool, x: T)
    ensures multiset(Filter(s, p))[x] == if p(x) then multiset(s)[x] else 0
  {
    if s != [] {
      FilterMultiset(s[1..], p, x);
      assert s == [s[0]] + s[1..];
    }
  }

  /** `s` read backwards. */
  function Reverse<T>(s: seq<T>): (r: seq<T>)
    ensures |r| == |s|
    ensures forall i :: 0 <= i < |s| ==> r[i] == s[|s| - 1 - i]
  {
    if s == [] then [] else Reverse(s[1..]) + [s[0]]
  }

  /** Reading backwards keeps exactly the same elements. */
  lemma ReverseMembers<T>(s: seq<T>, x: T)
    ensures x in Reverse(s) <==> x in s
  {
    if x in s {
      var j :| 0 <= j < |s| && s[j] == x;
      assert Reverse(s)[|s| - 1 - j] == x;
    }
  }

  /** Keys strictly increase along `s`: rows stored in the order their generated ids were handed out. */
  predicate KeysIncrease<T>(s: seq<T>, key: T -> int)
  {
    forall i, j :: 0 <= i < j < |s| ==> key(s[i]) < key(s[j])
  }

  /** Position of the first row whose key is `id` (a repository's findById). */
  function FindByKey<T>(s: seq<T>, key: T -> int, id: int): (r: Option<nat>)
    ensures r.Some? ==> r.value < |s| && key(s[r.value]) == id
    ensures r.None? ==> forall i :: 0 <= i < |s| ==> key(s[i]) != id
  {
    if s == [] then None
    else if key(s[0]) == id then Some(0)
    else match FindByKey(s[1..], key, id)
      case None => None
      case Some(j) => Some(j + 1)
  }

  /** With increasing keys, the row FindByKey reports is the only row with that key. */
  lemma FindByKeyUnique<T>(s: seq<T>, key: T -> int, k: nat)
    requires KeysIncrease(s, key) && k < |s|
    ensures FindByKey(s, key, key(s[k])) == Some(k)
  {
  }

  /** Filtering keeps keys increasing. */
  lemma {:induction false} FilterKeepsKeysIncreasing<T>(s: seq<T>, key: T -> int, p: T -> bool)
    requires KeysIncrease(s, key)
    ensures KeysIncrease(Filter(s, p), key)
  {
    if s != [] {
      FilterKeepsKeysIncreasing(s[1..], key, p);
      var rest := Filter(s[1..], p);
      if p(s[0]) {
        forall i, j | 0 <= i < j < |[s[0]] + rest|
          ensures key(([s[0]] + rest)[i]) < key(([s[0]] + rest)[j])
        {
          if i == 0 {
            assert ([s[0]] + rest)[j] in s[1..];
          }
        }
      }
    }
  }

  /** Reading an increasing sequence backwards gives a decreasing one. */
  lemma ReverseOfIncreasing<T>(s: seq<T>, key: T -> int)
    requires KeysIncrease(s, key)
    ensures forall i, j :: 0 <= i < j < |s| ==> key(Reverse(s)[i]) > key(Reverse(s)[j])
  {
  }
}
