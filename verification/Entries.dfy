/** Registry entries, their canonical order, and order-preserving selection. */
module Entries {
  import opened Prelude

  /** Per-model settings a registry entry carries along to the provider call. */
  datatype Params = Params(apiKey: string, temperature: Option<real>, topP: Option<real>,
                           maxTokens: Option<int>, seed: Option<int>)

  const NO_PARAMS: Params := Params("", None, None, None, None)

  /** A (provider, model) pair the router may try. */
  datatype Entry = Entry(providerID: string, modelID: string, priority: int,
                         isFree: bool, isDefault: bool, isRemote: bool,
                         params: Params, isDiscovered: bool)

  /** Canonical order: priority, then provider id, then model id. */
  predicate EntryLess(a: Entry, b: Entry) {
    if a.priority != b.priority then a.priority < b.priority
    else if a.providerID != b.providerID then StringLess(a.providerID, b.providerID)
    else StringLess(a.modelID, b.modelID)
  }

  predicate SameKey(a: Entry, b: Entry) {
    a.priority == b.priority && a.providerID == b.providerID && a.modelID == b.modelID
  }

  lemma EntryLessTotal(a: Entry, b: Entry)
    ensures SameKey(a, b) || EntryLess(a, b) || EntryLess(b, a)
    ensures !(EntryLess(a, b) && EntryLess(b, a))
    ensures SameKey(a, b) ==> !EntryLess(a, b)
  {
    StringLessTotal(a.providerID, b.providerID);
    StringLessTotal(a.modelID, b.modelID);
  }

  /** "Not greater" is transitive: what sorting needs. */
  lemma EntryOrderTransitive(a: Entry, b: Entry, c: Entry)
    requires !EntryLess(b, a) && !EntryLess(c, b)
    ensures !EntryLess(c, a)
  {
    EntryLessTotal(a, b);
    EntryLessTotal(b, c);
    EntryLessTotal(a, c);
    if EntryLess(c, a) && a.priority == b.priority == c.priority {
      if a.providerID == b.providerID == c.providerID {
        if SameKey(a, b) || SameKey(b, c) {
        } else {
          StringLessTransitive(a.modelID, b.modelID, c.modelID);
        }
      } else if a.providerID != b.providerID && b.providerID != c.providerID {
        StringLessTransitive(a.providerID, b.providerID, c.providerID);
        StringLessTotal(a.providerID, c.providerID);
      }
    }
  }

  ghost predicate Sorted(es: seq<Entry>) {
    forall i, j :: 0 <= i < j < |es| ==> !EntryLess(es[j], es[i])
  }

  /** In a sorted list priorities do not fall; among equal ones provider ids, and among equal ones of these
      model ids, do not get less. */
  lemma SortedTies(es: seq<Entry>, i: nat, j: nat)
    requires Sorted(es) && i < j < |es|
    ensures es[i].priority <= es[j].priority
    ensures es[i].priority == es[j].priority ==>
              es[i].providerID == es[j].providerID || StringLess(es[i].providerID, es[j].providerID)
    ensures es[i].priority == es[j].priority && es[i].providerID == es[j].providerID ==>
              es[i].modelID == es[j].modelID || StringLess(es[i].modelID, es[j].modelID)
  {
    StringLessTotal(es[i].providerID, es[j].providerID);
    StringLessTotal(es[i].modelID, es[j].modelID);
  }

  ghost predicate KeysDistinct(es: seq<Entry>) {
    forall i, j :: 0 <= i < |es| && 0 <= j < |es| && i != j ==> !SameKey(es[i], es[j])
  }

  lemma SameHead(a: seq<Entry>, b: seq<Entry>)
    requires multiset(a) == multiset(b) && Sorted(a) && Sorted(b) && KeysDistinct(a)
    requires a != []
    ensures b != [] && a[0] == b[0]
  {
    assert |multiset(a)| == |a| && |multiset(b)| == |b|;
    assert a[0] in multiset(b) && b[0] in multiset(a);
    var i :| 0 <= i < |b| && b[i] == a[0];
    var j :| 0 <= j < |a| && a[j] == b[0];
    EntryLessTotal(a[0], b[0]);
  }

  lemma TailCounts(s: seq<Entry>)
    requires s != []
    ensures multiset(s[1..]) == multiset(s) - multiset{s[0]} && s == [s[0]] + s[1..]
  {
    assert s == [s[0]] + s[1..];
  }

  /** A list without ties has exactly one sorted permutation. */
  lemma {:induction false} SortedUnique(a: seq<Entry>, b: seq<Entry>)
    requires multiset(a) == multiset(b) && Sorted(a) && Sorted(b) && KeysDistinct(a)
    ensures a == b
  {
    hide EntryLess;
    if a == [] {
      assert |multiset(b)| == 0;
    } else {
      SameHead(a, b);
      TailCounts(a);
      TailCounts(b);
      SortedUnique(a[1..], b[1..]);
    }
  }

  lemma SortedJoin(a: seq<Entry>, e: Entry, b: seq<Entry>)
    requires Sorted(a + b)
    requires forall i :: 0 <= i < |a| ==> !EntryLess(e, a[i])
    requires forall i :: 0 <= i < |b| ==> !EntryLess(b[i], e)
    ensures Sorted(a + [e] + b)
  {
    var s, r := a + b, a + [e] + b;
    forall i, j | 0 <= i < j < |r|
      ensures !EntryLess(r[j], r[i])
    {
      var i', j' := if i < |a| then i else i - 1, if j < |a| then j else j - 1;
      if i != |a| && j != |a| {
        assert r[i] == s[i'] && r[j] == s[j'];
      }
    }
  }

  method Insert(e: Entry, s: seq<Entry>) returns (r: seq<Entry>)
    requires Sorted(s)
    ensures Sorted(r) && multiset(r) == multiset(s) + multiset{e}
  {
    var k := 0;
    while k < |s| && !EntryLess(e, s[k])
      invariant 0 <= k <= |s|
      invariant forall i :: 0 <= i < k ==> !EntryLess(e, s[i])
    {
      k := k + 1;
    }
    r := s[..k] + [e] + s[k..];
    assert s == s[..k] + s[k..];
    forall i | k <= i < |s|
      ensures !EntryLess(s[i], e)
    {
      EntryLessTotal(e, s[k]);
      EntryOrderTransitive(e, s[k], s[i]) by {
        EntryLessTotal(s[k], s[k]);
      }
    }
    SortedJoin(s[..k], e, s[k..]);
  }

  /** Sorts a list of entries; callers rely on "a sorted permutation" only. */
  method SortEntries(es: seq<Entry>) returns (r: seq<Entry>)
    ensures Sorted(r) && multiset(r) == multiset(es)
  {
    r := [];
    for i := 0 to |es|
      invariant Sorted(r) && multiset(r) == multiset(es[..i])
    {
      r := Insert(es[i], r);
      assert es[..i + 1] == es[..i] + [es[i]];
    }
    assert es[..|es|] == es;
  }

  /** The selections the registry and the router make from an entry list. */
  datatype Pick =
    | OfModel(model: string)
    | OfProvider(provider: string)
    | Without(provider: string)
    | WithoutPair(provider: string, model: string)
    | Configured
    | NotFoundOf(provider: string)

  predicate Keeps(k: Pick, e: Entry) {
    match k
    case OfModel(m) => e.modelID == m
    case OfProvider(p) => e.providerID == p
    case Without(p) => e.providerID != p
    case WithoutPair(p, m) => !(e.providerID == p && e.modelID == m)
    case Configured => !e.isDiscovered
    case NotFoundOf(p) => !(e.providerID == p && e.isDiscovered)
  }

  /** The entries `k` keeps, in their original order. */
  function Sift(k: Pick, es: seq<Entry>): (r: seq<Entry>)
    ensures |r| <= |es|
  {
    if es == [] then []
    else (if Keeps(k, es[0]) then [es[0]] else []) + Sift(k, es[1..])
  }

  lemma {:induction false} SiftAppend(k: Pick, a: seq<Entry>, b: seq<Entry>)
    ensures Sift(k, a + b) == Sift(k, a) + Sift(k, b)
  {
    if a == [] {
      assert a + b == b;
    } else {
      var head := if Keeps(k, a[0]) then [a[0]] else [];
      calc {
        Sift(k, a + b);
        { assert (a + b)[0] == a[0] && (a + b)[1..] == a[1..] + b; }
        head + Sift(k, a[1..] + b);
        { SiftAppend(k, a[1..], b); }
        head + (Sift(k, a[1..]) + Sift(k, b));
        (head + Sift(k, a[1..])) + Sift(k, b);
        Sift(k, a) + Sift(k, b);
      }
    }
  }

  lemma SiftStep(k: Pick, es: seq<Entry>)
    requires es != []
    ensures Sift(k, es) == if Keeps(k, es[0]) then [es[0]] + Sift(k, es[1..]) else Sift(k, es[1..])
  {
    assert [] + Sift(k, es[1..]) == Sift(k, es[1..]);
  }

  /** Selection keeps exactly the copies of the entries it keeps. */
  lemma {:induction false} SiftCount(k: Pick, es: seq<Entry>, e: Entry)
    ensures multiset(Sift(k, es))[e] == if Keeps(k, e) then multiset(es)[e] else 0
    ensures e in Sift(k, es) <==> e in es && Keeps(k, e)
  {
    hide Keeps;
    if es == [] {
      assert Sift(k, es) == [];
    } else {
      SiftStep(k, es);
      SiftCount(k, es[1..], e);
      TailCounts(es);
      if Keeps(k, es[0]) {
        TailCounts(Sift(k, es));
      }
    }
  }

  lemma {:induction false} SiftShrinks(k: Pick, es: seq<Entry>, e: Entry)
    requires e in es && !Keeps(k, e)
    ensures |Sift(k, es)| < |es|
  {
    if es[0] != e {
      SiftShrinks(k, es[1..], e);
    }
  }

  /** A list that a selection does not thin is left as it is. */
  lemma {:induction false} SiftAll(k: Pick, es: seq<Entry>)
    requires forall e :: e in es ==> Keeps(k, e)
    ensures Sift(k, es) == es
  {
    if es != [] {
      SiftAll(k, es[1..]);
    }
  }

  /** `sub` occurs in `es` at strictly increasing positions. */
  predicate Subsequence(sub: seq<Entry>, es: seq<Entry>) {
    sub == [] ||
    (es != [] && ((sub[0] == es[0] && Subsequence(sub[1..], es[1..])) || Subsequence(sub, es[1..])))
  }

  /** What `Subsequence` says, in terms of positions. */
  lemma {:induction false} SubsequencePositions(sub: seq<Entry>, es: seq<Entry>) returns (at: seq<int>)
    requires Subsequence(sub, es)
    ensures |at| == |sub|
    ensures forall i :: 0 <= i < |at| ==> 0 <= at[i] < |es| && es[at[i]] == sub[i]
    ensures forall i, j :: 0 <= i < j < |at| ==> at[i] < at[j]
  {
    if sub == [] {
      at := [];
    } else if sub[0] == es[0] && Subsequence(sub[1..], es[1..]) {
      var rest := SubsequencePositions(sub[1..], es[1..]);
      at := [0] + seq(|rest|, i requires 0 <= i < |rest| => rest[i] + 1);
    } else {
      var rest := SubsequencePositions(sub, es[1..]);
      at := seq(|rest|, i requires 0 <= i < |rest| => rest[i] + 1);
    }
  }

  lemma SubsequenceSorted(sub: seq<Entry>, es: seq<Entry>)
    requires Subsequence(sub, es) && Sorted(es)
    ensures Sorted(sub)
  {
    var at := SubsequencePositions(sub, es);
    forall i, j | 0 <= i < j < |sub|
      ensures !EntryLess(sub[j], sub[i])
    {
      assert at[i] < at[j];
    }
  }

  lemma {:induction false} SubsequenceOfSift(sub: seq<Entry>, k: Pick, es: seq<Entry>)
    requires Subsequence(sub, Sift(k, es))
    ensures Subsequence(sub, es)
  {
    if sub != [] && es != [] {
      if Keeps(k, es[0]) {
        var kept, rest := Sift(k, es), Sift(k, es[1..]);
        assert kept == [es[0]] + rest && kept[1..] == rest;
        if sub[0] == es[0] && Subsequence(sub[1..], rest) {
          SubsequenceOfSift(sub[1..], k, es[1..]);
        } else {
          SubsequenceOfSift(sub, k, es[1..]);
        }
      } else {
        assert Sift(k, es) == Sift(k, es[1..]);
        SubsequenceOfSift(sub, k, es[1..]);
      }
    }
  }

  lemma {:induction false} SubsequenceReflexive(es: seq<Entry>)
    ensures Subsequence(es, es)
  {
    if es != [] {
      SubsequenceReflexive(es[1..]);
    }
  }

  lemma SiftSorted(k: Pick, es: seq<Entry>)
    requires Sorted(es)
    ensures Sorted(Sift(k, es))
  {
    SubsequenceReflexive(Sift(k, es));
    SubsequenceOfSift(Sift(k, es), k, es);
    SubsequenceSorted(Sift(k, es), es);
  }

  lemma {:induction false} SubsequencePrepend(sub: seq<Entry>, pre: seq<Entry>, es: seq<Entry>)
    requires Subsequence(sub, es)
    ensures Subsequence(sub, pre + es)
  {
    if pre == [] {
      assert pre + es == es;
    } else {
      SubsequencePrepend(sub, pre[1..], es);
      assert (pre + es)[1..] == pre[1..] + es;
    }
  }
}
