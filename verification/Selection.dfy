/** src/Runners.cpp, chooseBackend: the backend a task goes to. */
module Selection {
  import opened Protocol
  import opened Backends
  import opened Registry

  datatype Policy = LowestName | SmallestSufficient

  /** std::string's `<`. */
  predicate LexLess(a: string, b: string) {
    b != [] && (a == [] || a[0] < b[0] || (a[0] == b[0] && LexLess(a[1..], b[1..])))
  }

  lemma {:induction false} LexTotal(a: string, b: string)
    ensures a == b || LexLess(a, b) || LexLess(b, a)
    ensures !(LexLess(a, b) && LexLess(b, a)) && !LexLess(a, a)
  {
    if a != [] {
      LexTotal(a[1..], a[1..]);
      if b != [] {
        LexTotal(a[1..], b[1..]);
        if a[0] == b[0] && a[1..] == b[1..] {
          assert a == [a[0]] + a[1..] && b == [b[0]] + b[1..];
        }
      }
    }
  }

  lemma {:induction false} LexTransitive(a: string, b: string, c: string)
    requires LexLess(a, b) && LexLess(b, c)
    ensures LexLess(a, c)
  {
    if a != [] && a[0] == b[0] == c[0] {
      LexTransitive(a[1..], b[1..], c[1..]);
    }
  }

  /** `a` comes before `b` by the first place where they differ, or as its prefix. */
  ghost predicate NameBefore(a: string, b: string) {
    exists k :: DiffersAt(a, b, k)
  }

  predicate DiffersAt(a: string, b: string, k: int) {
    0 <= k <= |a| && k < |b| && a[..k] == b[..k] && (k == |a| || a[k] < b[k])
  }

  lemma {:induction false} LexIsFirstDifference(a: string, b: string)
    ensures LexLess(a, b) <==> NameBefore(a, b)
  {
    if b != [] && a != [] && a[0] == b[0] {
      LexIsFirstDifference(a[1..], b[1..]);
      if k :| DiffersAt(a[1..], b[1..], k) {
        assert a[..k + 1] == [a[0]] + a[1..][..k] && b[..k + 1] == [b[0]] + b[1..][..k];
        assert DiffersAt(a, b, k + 1);
      }
      if k :| DiffersAt(a, b, k) {
        assert a[1..][..k - 1] == a[..k][1..] && b[1..][..k - 1] == b[..k][1..];
        assert DiffersAt(a[1..], b[1..], k - 1);
      }
    } else {
      if LexLess(a, b) {
        assert DiffersAt(a, b, 0);
      }
    }
  }

  predicate BeatsIncumbent(candidate: Snapshot, incumbent: Snapshot, policy: Policy) {
    if policy.SmallestSufficient? && candidate.numQubits != incumbent.numQubits then
      candidate.numQubits < incumbent.numQubits
    else
      LexLess(candidate.name, incumbent.name)
  }

  /** Every policy is a strict total order on differently named backends. */
  lemma PolicyIsTotalOrder(a: Snapshot, b: Snapshot, c: Snapshot, policy: Policy)
    ensures a.name != b.name ==> BeatsIncumbent(a, b, policy) || BeatsIncumbent(b, a, policy)
    ensures !(BeatsIncumbent(a, b, policy) && BeatsIncumbent(b, a, policy))
    ensures BeatsIncumbent(a, b, policy) && BeatsIncumbent(b, c, policy) ==> BeatsIncumbent(a, c, policy)
  {
    LexTotal(a.name, b.name);
    if LexLess(a.name, b.name) && LexLess(b.name, c.name) {
      LexTransitive(a.name, b.name, c.name);
    }
  }

  ghost predicate Candidate(entries: Entries, t: QuantumTask, inputs: seq<string>, k: string) {
    k in entries && Eligible(entries[k].backend, t, inputs)
  }

  /** `k` is a candidate among `keys` that beats every other one. */
  ghost predicate BestOf(
    entries: Entries, t: QuantumTask, policy: Policy, inputs: seq<string>, keys: set<string>, k: string)
  {
    && k in keys && Candidate(entries, t, inputs, k)
    && forall other :: other in keys && other != k && Candidate(entries, t, inputs, other) ==>
         BeatsIncumbent(entries[k].backend, entries[other].backend, policy)
  }

  ghost predicate PrefersEligible(entries: Entries, t: QuantumTask, inputs: seq<string>) {
    t.preferredQpu != "" && Candidate(entries, t, inputs, t.preferredQpu)
  }

  /** The registry key chooseBackend settles on, if any. */
  ghost function Choose(
    entries: Entries, t: QuantumTask, policy: Policy, inputs: seq<string>): Option<string>
  {
    if PrefersEligible(entries, t, inputs) then Some(t.preferredQpu)
    else if k :| BestOf(entries, t, policy, inputs, entries.Keys, k) then Some(k)
    else None
  }

  lemma BestIsUnique(
    entries: Entries, t: QuantumTask, policy: Policy, inputs: seq<string>, keys: set<string>, a: string, b: string)
    requires BestOf(entries, t, policy, inputs, keys, a) && BestOf(entries, t, policy, inputs, keys, b)
    ensures a == b
  {
    if a != b {
      PolicyIsTotalOrder(entries[a].backend, entries[b].backend, entries[b].backend, policy);
    }
  }

  /** One more key: the best of a set grown by `k`. */
  lemma BestStep(
    entries: Entries, t: QuantumTask, policy: Policy, inputs: seq<string>, keys: set<string>, best: string, k: string)
    requires KeyedByName(entries) && keys <= entries.Keys && k in entries && k !in keys
    requires BestOf(entries, t, policy, inputs, keys, best)
    ensures BestOf(entries, t, policy, inputs, keys + {k},
                   if Candidate(entries, t, inputs, k) && BeatsIncumbent(entries[k].backend, entries[best].backend, policy)
                   then k else best)
  {
    forall other | other in keys && other != best && Candidate(entries, t, inputs, other) {
      PolicyIsTotalOrder(entries[k].backend, entries[best].backend, entries[other].backend, policy);
    }
    PolicyIsTotalOrder(entries[k].backend, entries[best].backend, entries[best].backend, policy);
  }

  lemma {:induction false} BestExists(
    entries: Entries, t: QuantumTask, policy: Policy, inputs: seq<string>, keys: set<string>)
    requires KeyedByName(entries) && keys <= entries.Keys
    requires exists k :: k in keys && Candidate(entries, t, inputs, k)
    ensures exists k :: BestOf(entries, t, policy, inputs, keys, k)
  {
    var k :| k in keys && Candidate(entries, t, inputs, k);
    if keys == {k} {
      assert BestOf(entries, t, policy, inputs, keys, k);
    } else {
      var x :| x in keys && x != k;
      var rest := keys - {x};
      BestExists(entries, t, policy, inputs, rest);
      var best :| BestOf(entries, t, policy, inputs, rest, best);
      BestStep(entries, t, policy, inputs, rest, best, x);
      assert rest + {x} == keys;
    }
  }

  /** Optimality: the preferred backend if it is eligible, else the one eligible backend
      that beats every other; nothing exactly when none is eligible. The answer is
      always registered and eligible. */
  lemma ChooseIsOptimal(entries: Entries, t: QuantumTask, policy: Policy, inputs: seq<string>)
    requires KeyedByName(entries)
    ensures var c := Choose(entries, t, policy, inputs);
            && (c.None? <==> forall k :: !Candidate(entries, t, inputs, k))
            && (c.Some? ==> Candidate(entries, t, inputs, c.value) && entries[c.value].backend.name == c.value)
            && (PrefersEligible(entries, t, inputs) ==> c == Some(t.preferredQpu))
            && (!PrefersEligible(entries, t, inputs) ==>
                  forall k :: BestOf(entries, t, policy, inputs, entries.Keys, k) <==> c == Some(k))
  {
    if k :| Candidate(entries, t, inputs, k) {
      BestExists(entries, t, policy, inputs, entries.Keys);
      var best :| BestOf(entries, t, policy, inputs, entries.Keys, best);
      forall a, b | BestOf(entries, t, policy, inputs, entries.Keys, a) && BestOf(entries, t, policy, inputs, entries.Keys, b)
        ensures a == b
      {
        BestIsUnique(entries, t, policy, inputs, entries.Keys, a, b);
      }
    }
  }

  /** `b` is preferable to `other` under a policy: the smaller one if size counts, and
      otherwise, or at equal size, the one whose name comes first. */
  ghost predicate Preferable(b: Snapshot, other: Snapshot, policy: Policy) {
    match policy
    case LowestName => NameBefore(b.name, other.name)
    case SmallestSufficient =>
      || b.numQubits < other.numQubits
      || (b.numQubits == other.numQubits && NameBefore(b.name, other.name))
  }

  /** What is chosen, in the policies' own terms: a preferred backend that is registered and
      eligible; failing that, of the eligible ones the one with the lowest name, or the
      smallest one and of those the one with the lowest name; nothing if none is eligible. */
  lemma ChoiceIsExact(entries: Entries, t: QuantumTask, policy: Policy, inputs: seq<string>)
    requires KeyedByName(entries)
    ensures var c := Choose(entries, t, policy, inputs);
            var p := t.preferredQpu;
            && (p != "" && p in entries && Eligible(entries[p].backend, t, inputs) ==> c == Some(p))
            && (c.None? <==> forall k :: k in entries ==> !Eligible(entries[k].backend, t, inputs))
            && (c.Some? ==>
                  && c.value in entries && Eligible(entries[c.value].backend, t, inputs)
                  && ((p != "" && c.value == p) || forall k :: k in entries && k != c.value && Eligible(entries[k].backend, t, inputs) ==>
                        Preferable(entries[c.value].backend, entries[k].backend, policy)))
  {
    hide Eligible, NameBefore;
    ChooseIsOptimal(entries, t, policy, inputs);
    var c := Choose(entries, t, policy, inputs);
    forall k | k in entries ensures Candidate(entries, t, inputs, k) <==> Eligible(entries[k].backend, t, inputs) {
    }
    if c.Some? && !PrefersEligible(entries, t, inputs) {
      assert BestOf(entries, t, policy, inputs, entries.Keys, c.value);
      forall k | k in entries && k != c.value && Eligible(entries[k].backend, t, inputs)
        ensures Preferable(entries[c.value].backend, entries[k].backend, policy)
      {
        assert Candidate(entries, t, inputs, k);
        LexIsFirstDifference(entries[c.value].backend.name, entries[k].backend.name);
      }
    }
  }

  /** A new ineligible backend changes nothing; a new eligible one can only take over. */
  lemma AddingABackend(entries: Entries, t: QuantumTask, policy: Policy, inputs: seq<string>, e: Entry)
    requires KeyedByName(entries) && e.backend.name !in entries
    ensures var before, after := Choose(entries, t, policy, inputs), Choose(entries[e.backend.name := e], t, policy, inputs);
            if Eligible(e.backend, t, inputs) then after == before || after == Some(e.backend.name)
            else after == before
  {
    var n := e.backend.name;
    var grown := entries[n := e];
    ChooseIsOptimal(entries, t, policy, inputs);
    ChooseIsOptimal(grown, t, policy, inputs);
    assert forall k :: k != n ==> (Candidate(grown, t, inputs, k) <==> Candidate(entries, t, inputs, k));
    var after := Choose(grown, t, policy, inputs);
    if after.Some? && after.value != n && !PrefersEligible(grown, t, inputs) {
      assert BestOf(entries, t, policy, inputs, entries.Keys, after.value);
    } else if !Eligible(e.backend, t, inputs) {
      assert !Candidate(grown, t, inputs, n);
    }
  }

  /** chooseBackend's scan. forEachBackend's callback runs once per entry, here in an
      arbitrary order: the contract fixes the answer, so no order can change it. */
  method ScanBackends(t: QuantumTask, entries: Entries, policy: Policy, inputs: seq<string>)
    returns (chosen: Option<string>)
    requires KeyedByName(entries)
    ensures chosen.None? ==> forall k :: !Candidate(entries, t, inputs, k)
    ensures chosen.Some? ==> BestOf(entries, t, policy, inputs, entries.Keys, chosen.value)
  {
    hide BeatsIncumbent, Eligible, KeyedByName;
    chosen := None;
    var todo := entries.Keys;
    while todo != {}
      invariant todo <= entries.Keys
      invariant chosen.None? ==> forall k :: k in entries.Keys - todo ==> !Candidate(entries, t, inputs, k)
      invariant chosen.Some? ==> BestOf(entries, t, policy, inputs, entries.Keys - todo, chosen.value)
      decreases |todo|
    {
      var k :| k in todo;
      if chosen.Some? {
        BestStep(entries, t, policy, inputs, entries.Keys - todo, chosen.value, k);
      }
      if Eligible(entries[k].backend, t, inputs) {
        if chosen.None? || BeatsIncumbent(entries[k].backend, entries[chosen.value].backend, policy) {
          chosen := Some(k);
        }
      }
      assert entries.Keys - (todo - {k}) == (entries.Keys - todo) + {k};
      todo := todo - {k};
    }
    assert entries.Keys - todo == entries.Keys;
  }

  method ChooseBackend(t: QuantumTask, registry: BackendRegistry, policy: Policy, inputs: seq<string>)
    returns (r: Result<string>)
    requires registry.Valid()
    ensures match Choose(registry.entries, t, policy, inputs)
            case Some(k) => r == Ok(k)
            case None => r == Err(Error(NoBackendAvailable, None))
    ensures r.Ok? ==>
              && registry.Contains(r.value)
              && var b := registry.entries[r.value].backend;
                 && Eligible(b, t, inputs)
                 && (b.status == Idle || b.status == Busy) && 0 <= t.nQbits <= b.numQubits
                 && ((t.preferredQpu != "" && r.value == t.preferredQpu) ||
                       forall k :: k in registry.entries && k != r.value && Eligible(registry.entries[k].backend, t, inputs) ==>
                         Preferable(b, registry.entries[k].backend, policy))
  {
    hide Choose, NameBefore;
    ChooseIsOptimal(registry.entries, t, policy, inputs);
    ChoiceIsExact(registry.entries, t, policy, inputs);
    if t.preferredQpu != "" {
      var preferred := registry.Find(t.preferredQpu);
      if preferred.Some? && IsOnline(preferred.value) && CanRun(preferred.value, t, inputs) {
        return Ok(preferred.value.name);
      }
    }
    var chosen := ScanBackends(t, registry.entries, policy, inputs);
    if chosen.None? {
      return Err(Error(NoBackendAvailable, None));
    }
    return Ok(registry.entries[chosen.value].backend.name);
  }
}
