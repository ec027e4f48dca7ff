/**
 * The discovery check at the start of `e2e_test`: poll the message hub's interface
 * list, sort it in place and compare it with `INTERFACE_NAMES`, up to 20 times.
 */
module Discovery {
  import opened Results
  import opened Ordering
  import opened Interfaces
  import opened Driver

  const DiscoveryAttempts: nat := 20

  /** The hub reports the six expected interfaces, each exactly once, in any order. */
  predicate Matches(reported: seq<string>) {
    multiset(reported) == multiset(InterfaceNames)
  }

  /**
   * Midway through inserting `s[j]` into the sorted prefix: `s[..i + 1]` without position
   * `j` is sorted, and `s[j]` is below everything to its right up to `i`.
   */
  ghost predicate Inserting(s: seq<string>, i: nat, j: nat)
    requires j <= i < |s|
  {
    && (forall k, l | 0 <= k < l <= i && k != j && l != j :: Leq(s[k], s[l]))
    && (forall l | j < l <= i :: Leq(s[j], s[l]))
  }

  lemma StartInserting(s: seq<string>, i: nat)
    requires i < |s| && Sorted(s[..i])
    ensures Inserting(s, i, i)
  {
    forall k, l | 0 <= k < l < i ensures Leq(s[k], s[l]) {
      assert s[k] == s[..i][k] && s[l] == s[..i][l];
    }
  }

  /** Swapping `s[j]` with a larger left neighbour moves the insertion point one step left. */
  lemma StepInserting(s: seq<string>, i: nat, j: nat)
    requires j <= i < |s| && 0 < j
    requires Inserting(s, i, j) && !Leq(s[j - 1], s[j])
    ensures Inserting(s[j - 1 := s[j]][j := s[j - 1]], i, j - 1)
  {
    var t := s[j - 1 := s[j]][j := s[j - 1]];
    LeqTotal(s[j - 1], s[j]);
    forall l | j - 1 < l <= i ensures Leq(t[j - 1], t[l]) {
      if l > j {
        LeqTransitive(s[j], s[j - 1], s[l]);
      }
    }
  }

  /** Once `s[j]` is above its left neighbour (or first), the prefix up to `i` is sorted. */
  lemma DoneInserting(s: seq<string>, i: nat, j: nat)
    requires j <= i < |s|
    requires Inserting(s, i, j) && (j == 0 || Leq(s[j - 1], s[j]))
    ensures Sorted(s[..i + 1])
  {
    forall k, l | 0 <= k < l <= i ensures Leq(s[k], s[l]) {
      if l == j && k < j - 1 {
        LeqTransitive(s[k], s[j - 1], s[j]);
      }
    }
  }

  lemma SwapMultiset(s: seq<string>, j: nat)
    requires 0 < j < |s|
    ensures multiset(s[j - 1 := s[j]][j := s[j - 1]]) == multiset(s)
  {
  }

  /** Insert `a[i]` into the sorted prefix `a[..i]` by swapping it leftwards. */
  method InsertAt(a: array<string>, i: nat)
    requires i < a.Length && Sorted(a[..i])
    modifies a
    ensures Sorted(a[..i + 1])
    ensures multiset(a[..]) == multiset(old(a[..]))
  {
    StartInserting(a[..], i);
    var j := i;
    while 0 < j && !Leq(a[j - 1], a[j])
      invariant 0 <= j <= i
      invariant multiset(a[..]) == multiset(old(a[..]))
      invariant Inserting(a[..], i, j)
    {
      ghost var s := a[..];
      StepInserting(s, i, j);
      SwapMultiset(s, j);
      a[j - 1], a[j] := a[j], a[j - 1];
      assert a[..] == s[j - 1 := s[j]][j := s[j - 1]];
      j := j - 1;
    }
    DoneInserting(a[..], i, j);
  }

  /** `interfaces.sort_unstable()`: an insertion sort by adjacent swaps. */
  method SortUnstable(a: array<string>)
    modifies a
    ensures Sorted(a[..])
    ensures multiset(a[..]) == multiset(old(a[..]))
  {
    var i := 0;
    while i < a.Length
      invariant 0 <= i <= a.Length
      invariant Sorted(a[..i])
      invariant multiset(a[..]) == multiset(old(a[..]))
    {
      InsertAt(a, i);
      i := i + 1;
    }
    assert a[..] == a[..a.Length];
  }

  /**
   * The body of the discovery closure once the hub has answered: copy the reported
   * names, sort them and compare with `INTERFACE_NAMES` element by element. It passes
   * exactly when the report names the six interfaces once each, so a missing, an
   * extra or a duplicated name fails it.
   */
  method InterfacesMatch(reported: seq<string>) returns (ok: bool, sorted: seq<string>)
    ensures Sorted(sorted) && multiset(sorted) == multiset(reported)
    ensures ok <==> sorted == InterfaceNames
    ensures ok <==> Matches(reported)
  {
    var interfaces := new string[|reported|](i requires 0 <= i < |reported| => reported[i]);
    assert interfaces[..] == reported;
    SortUnstable(interfaces);
    sorted := interfaces[..];
    ok := sorted == InterfaceNames;
    if Matches(reported) {
      InterfaceNamesAscending();
      SortedUnique(sorted, InterfaceNames);
    }
  }

  /** A duplicate-free sequence holds each element at most once. */
  lemma {:induction false} DistinctMultiplicity(s: seq<string>, x: string)
    requires Distinct(s)
    ensures multiset(s)[x] <= 1
  {
    if s != [] {
      assert Distinct(s[1..]);
      DistinctMultiplicity(s[1..], x);
      assert s == [s[0]] + s[1..];
      if x == s[0] {
        assert x !in s[1..];
      }
    }
  }

  /** A report of the wrong length does not match. */
  lemma WrongLengthRejected(reported: seq<string>)
    requires |reported| != |InterfaceNames|
    ensures !Matches(reported)
  {
    assert |multiset(reported)| != |multiset(InterfaceNames)|;
  }

  /** A report naming some interface twice does not match. */
  lemma DuplicateRejected(reported: seq<string>, i: nat, j: nat)
    requires i < j < |reported| && reported[i] == reported[j]
    ensures !Matches(reported)
  {
    var x := reported[i];
    assert multiset(reported)[x] >= 2 by {
      assert reported == reported[..j] + reported[j..];
      assert x in reported[..j] && x in reported[j..];
    }
    InterfaceNamesAscending();
    DistinctMultiplicity(InterfaceNames, x);
  }

  /** A report leaving out one of the six names, or naming another, does not match. */
  lemma DifferentNameRejected(reported: seq<string>, n: string)
    requires (n in InterfaceNames) != (n in reported)
    ensures !Matches(reported)
  {
    assert multiset(InterfaceNames)[n] != multiset(reported)[n];
  }

  /** Reports the check refuses: wrong length, a name twice, a name missing, a name extra. */
  lemma MatchesRejects(reported: seq<string>)
    ensures |reported| != |InterfaceNames| ==> !Matches(reported)
    ensures (exists i, j | 0 <= i < j < |reported| :: reported[i] == reported[j]) ==> !Matches(reported)
    ensures (exists n | n in InterfaceNames :: n !in reported) ==> !Matches(reported)
    ensures (exists n | n in reported :: n !in InterfaceNames) ==> !Matches(reported)
  {
    if |reported| != |InterfaceNames| {
      WrongLengthRejected(reported);
    }
    if exists i, j | 0 <= i < j < |reported| :: reported[i] == reported[j] {
      var i, j :| 0 <= i < j < |reported| && reported[i] == reported[j];
      DuplicateRejected(reported, i, j);
    }
    if exists n | n in InterfaceNames :: n !in reported {
      var n :| n in InterfaceNames && n !in reported;
      DifferentNameRejected(reported, n);
    }
    if exists n | n in reported :: n !in InterfaceNames {
      var n :| n in reported && n !in InterfaceNames;
      DifferentNameRejected(reported, n);
    }
  }

  /**
   * One attempt of the discovery closure, given what `api.interfaces()` answered. It is
   * stated with `Matches` rather than by running the sort: `InterfacesMatch` proves that
   * sorting and comparing with `INTERFACE_NAMES` passes exactly when `Matches` holds, so
   * `Discover` needs no array.
   */
  function DiscoveryAttempt(poll: Result<seq<string>, ErrorKind>): (o: Outcome<()>)
    ensures o.Ok? <==> poll.Ok? && Matches(poll.value)
    ensures o.Err? ==> Retryable(o)
  {
    match poll
    case Err(_) => Err(Error(Api))
    case Ok(names) => if Matches(names) then Ok(()) else Err(Error(DifferentInterfaces))
  }

  /** The discovery closure as `retry` sees it: its `i`-th call answers with `polls(i)`. */
  function DiscoveryClosure(polls: nat -> Result<seq<string>, ErrorKind>): (attempt: nat -> Outcome<()>)
    ensures forall i: nat :: attempt(i) == DiscoveryAttempt(polls(i))
  {
    (i: nat) => DiscoveryAttempt(polls(i))
  }

  /** What `retry` promises, read back through the discovery closure. */
  lemma RetryDiscovery(polls: nat -> Result<seq<string>, ErrorKind>, r: Outcome<()>, attempts: nat)
    requires r == RetryFrom(DiscoveryAttempts, DiscoveryClosure(polls), 0)
    requires attempts <= DiscoveryAttempts
    requires forall i | 0 <= i < attempts - 1 :: Retryable(DiscoveryClosure(polls)(i))
    requires attempts != 0 && !Retryable(DiscoveryClosure(polls)(attempts - 1)) ==>
               r == DiscoveryClosure(polls)(attempts - 1)
    requires attempts == 0 || Retryable(DiscoveryClosure(polls)(attempts - 1)) ==>
               attempts == DiscoveryAttempts && r == Err(Error(TooManyAttempts))
    ensures r.Ok? <==> exists i | 0 <= i < DiscoveryAttempts :: DiscoveryAttempt(polls(i)).Ok?
    ensures r.Ok? ==> 0 < attempts && DiscoveryAttempt(polls(attempts - 1)).Ok?
    ensures forall i | 0 <= i < attempts - 1 :: DiscoveryAttempt(polls(i)).Err?
    ensures r.Err? ==> r == Err(Error(TooManyAttempts)) && attempts == DiscoveryAttempts
  {
    var attempt := DiscoveryClosure(polls);
    RetryWithoutPanics(DiscoveryAttempts, attempt, 0);
    forall i | 0 <= i < attempts - 1
      ensures DiscoveryAttempt(polls(i)).Err?
    {
      assert Retryable(attempt(i));
    }
  }

  /**
   * `retry(20, ...)` around the discovery closure; `polls(i)` is the hub's answer to the
   * `i`-th call of `api.interfaces()`. It passes exactly when one of the first twenty
   * answers names the six interfaces (see `DiscoveryAttempt`), and stops polling at the
   * first such answer.
   */
  method Discover(polls: nat -> Result<seq<string>, ErrorKind>) returns (r: Outcome<()>, attempts: nat)
    ensures attempts <= DiscoveryAttempts
    ensures r.Ok? <==> exists i | 0 <= i < DiscoveryAttempts :: DiscoveryAttempt(polls(i)).Ok?
    ensures r.Ok? ==> 0 < attempts && DiscoveryAttempt(polls(attempts - 1)).Ok?
    ensures forall i | 0 <= i < attempts - 1 :: DiscoveryAttempt(polls(i)).Err?
    ensures r.Err? ==> r == Err(Error(TooManyAttempts)) && attempts == DiscoveryAttempts
  {
    r, attempts := Retry(DiscoveryAttempts, DiscoveryClosure(polls));
    RetryDiscovery(polls, r, attempts);
  }
}
