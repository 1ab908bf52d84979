/** The device's list of tracked graphics resources, as values: removal of
    the first occurrence (`List<T>.Remove`) and ordering by resource type
    (the `Sort` that runs before every resource is disposed). */
module ResourceTracking {

  /** A `GraphicsResource` object: its reference, and the ordinal of its
      `ResourceType`, which is what the sort compares. A resource's type is
      fixed when it is created, so one handle always comes with one type,
      and equality of these values is the reference equality `List.Remove`
      uses. */
  datatype Resource = Resource(handle: nat, resourceType: int)

  /** The resources appear in non-decreasing `ResourceType` order. */
  ghost predicate SortedByType(s: seq<Resource>)
  {
    forall i, j :: 0 <= i < j < |s| ==> s[i].resourceType <= s[j].resourceType
  }

  /** The index of the first occurrence of `r` in `s`. */
  function IndexOf(s: seq<Resource>, r: Resource): (i: nat)
    requires r in s
    ensures i < |s| && s[i] == r
    ensures forall j :: 0 <= j < i ==> s[j] != r
  {
    if s[0] == r then 0 else 1 + IndexOf(s[1..], r)
  }

  /** `List<T>.Remove`: drops the first occurrence of `r`, if any, and keeps
      every other element in order. */
  function RemoveFirst(s: seq<Resource>, r: Resource): (t: seq<Resource>)
    ensures r !in s ==> t == s
    ensures r in s ==> t == s[..IndexOf(s, r)] + s[IndexOf(s, r) + 1..]
  {
    if s == [] then []
    else if s[0] == r then s[1..]
    else
      var rest := RemoveFirst(s[1..], r);
      assert r in s ==> r in s[1..] && IndexOf(s, r) == 1 + IndexOf(s[1..], r);
      [s[0]] + rest
  }

  /** What `RemoveFirst` leaves is the old contents less one copy of `r`. */
  lemma {:induction false} RemoveFirstMultiset(s: seq<Resource>, r: Resource)
    ensures multiset(RemoveFirst(s, r)) == multiset(s) - multiset{r}
  {
    if s != [] && s[0] != r {
      RemoveFirstMultiset(s[1..], r);
      assert s == [s[0]] + s[1..];
    } else if s != [] {
      assert s == [s[0]] + s[1..];
    }
  }

  /** Inserts `r` into a sorted list after every element of the same or a
      smaller type. */
  function Insert(r: Resource, s: seq<Resource>): (t: seq<Resource>)
    requires SortedByType(s)
    ensures SortedByType(t)
    ensures multiset(t) == multiset(s) + multiset{r}
  {
    if s == [] then [r]
    else if r.resourceType < s[0].resourceType then [r] + s
    else
      var rest := Insert(r, s[1..]);
      assert s == [s[0]] + s[1..];
      assert forall k :: 0 <= k < |rest| ==> s[0].resourceType <= rest[k].resourceType by {
        forall k | 0 <= k < |rest|
          ensures s[0].resourceType <= rest[k].resourceType
        {
          assert rest[k] in multiset(rest);
          assert rest[k] == r || rest[k] in s[1..];
        }
      }
      [s[0]] + rest
  }

  /** An ordering of the list by resource type: the comparison
      `x.ResourceType.CompareTo(y.ResourceType)`. */
  function SortByType(s: seq<Resource>): (t: seq<Resource>)
    ensures SortedByType(t)
    ensures multiset(t) == multiset(s)
  {
    if s == [] then []
    else
      assert s == [s[0]] + s[1..];
      Insert(s[0], SortByType(s[1..]))
  }

  /** Removing a resource that is tracked shortens the list by one; removing
      one that is not changes nothing. */
  lemma RemoveFirstLength(s: seq<Resource>, r: Resource)
    ensures |RemoveFirst(s, r)| == if r in s then |s| - 1 else |s|
  {
  }

  /** Tracking a resource and then untracking it restores the list when the
      resource was not tracked before. */
  lemma {:induction false} TrackThenUntrack(s: seq<Resource>, r: Resource)
    requires r !in s
    ensures RemoveFirst(s + [r], r) == s
  {
    assert forall j :: 0 <= j < |s| ==> (s + [r])[j] == s[j];
    assert (s + [r])[|s|] == r;
    assert IndexOf(s + [r], r) == |s|;
    assert (s + [r])[..|s|] == s;
  }
}
