/** process_calls_in_batches: split the contact list into consecutive
    batches, place every call of a batch through make_call, collect the
    SIDs, and pause between batches. */
module Dispatcher {
  import opened Base
  import opened Calls

  function Min(a: int, b: int): int
  {
    if a < b then a else b
  }

  /** The slices phone_data_list[i:i+k] for i in range(0, len, k). */
  function Batches<T>(s: seq<T>, k: nat): seq<seq<T>>
    requires k > 0
    decreases |s|
  {
    if s == [] then []
    else if |s| <= k then [s]
    else [s[..k]] + Batches(s[k..], k)
  }

  function Flatten<T>(b: seq<seq<T>>): seq<T>
    decreases |b|
  {
    if b == [] then [] else b[0] + Flatten(b[1..])
  }

  /** The batches cover every contact exactly once, in order. */
  lemma {:induction false} BatchesCover<T>(s: seq<T>, k: nat)
    requires k > 0
    ensures Flatten(Batches(s, k)) == s
    decreases |s|
  {
    if |s| > k {
      BatchesCover(s[k..], k);
      assert s == s[..k] + s[k..];
    }
  }

  /** Every batch is non-empty and holds at most k contacts; all but the
      last hold exactly k. */
  lemma {:induction false} BatchesShape<T>(s: seq<T>, k: nat)
    requires k > 0
    ensures var b := Batches(s, k);
      && (forall j :: 0 <= j < |b| ==> 0 < |b[j]| <= k)
      && (forall j :: 0 <= j < |b| - 1 ==> |b[j]| == k)
    decreases |s|
  {
    if |s| > k {
      BatchesShape(s[k..], k);
      var b := Batches(s, k);
      assert forall j :: 1 <= j < |b| ==> b[j] == Batches(s[k..], k)[j - 1];
    }
  }

  /** Batch j is the slice [j*k, (j+1)*k) of the input, cut off at its end. */
  lemma {:induction false} BatchAt<T>(s: seq<T>, k: nat, j: nat)
    requires k > 0
    requires j < |Batches(s, k)|
    ensures j * k < |s|
    ensures Batches(s, k)[j] == s[j * k..Min((j + 1) * k, |s|)]
    decreases |s|
  {
    if j > 0 {
      var t := s[k..];
      assert Batches(s, k)[j] == Batches(t, k)[j - 1];
      BatchAt(t, k, j - 1);
      var a, b, c := (j - 1) * k, j * k, (j + 1) * k;
      MulStep(j, k);
      assert t[a..Min(b, |t|)] == s[b..Min(c, |s|)];
    }
  }

  lemma MulStep(j: nat, k: nat)
    requires j > 0
    ensures (j - 1) * k + k == j * k && j * k + k == (j + 1) * k
  {
  }

  /** There are ceil(N/k) batches: none for an empty list, otherwise n
      with (n-1)*k < N <= n*k. */
  lemma {:induction false} BatchCount<T>(s: seq<T>, k: nat)
    requires k > 0
    ensures var n := |Batches(s, k)|;
      && (s == [] <==> n == 0)
      && (n > 0 ==> (n - 1) * k < |s| <= n * k)
    decreases |s|
  {
    if |s| > k {
      BatchCount(s[k..], k);
      var n := |Batches(s, k)|;
      assert (n - 1) * k == (n - 2) * k + k;
    }
  }

  /** The list executor.map(make_call, batch) yields: one make_call
      result per contact, in input order. */
  function Results(cs: seq<Contact>, os: seq<Option<string>>): seq<Option<string>>
    requires |os| == |cs|
  {
    seq(|cs|, i requires 0 <= i < |cs| => CallResult(cs[i], os[i]))
  }

  /** [sid for sid in sids if sid]: the results that are neither None
      nor the empty string, in order. */
  function Truthy(sids: seq<Option<string>>): (r: seq<string>)
    ensures |r| <= |sids|
    decreases |sids|
  {
    if sids == [] then []
    else
      var x := sids[|sids| - 1];
      Truthy(sids[..|sids| - 1]) + (if x.Some? && x.value != "" then [x.value] else [])
  }

  lemma {:induction false} TruthyAppend(a: seq<Option<string>>, b: seq<Option<string>>)
    ensures Truthy(a + b) == Truthy(a) + Truthy(b)
    decreases |b|
  {
    if b == [] {
      assert a + b == a;
    } else {
      assert (a + b)[..|a + b| - 1] == a + b[..|b| - 1];
      TruthyAppend(a, b[..|b| - 1]);
    }
  }

  /** A SID is kept exactly when make_call returned it and it is truthy. */
  lemma {:induction false} TruthyMembers(sids: seq<Option<string>>, x: string)
    ensures x in Truthy(sids) <==> x != "" && Some(x) in sids
    decreases |sids|
  {
    if sids != [] {
      var p := sids[..|sids| - 1];
      TruthyMembers(p, x);
      assert sids == p + [sids[|sids| - 1]];
    }
  }

  /** The SIDs process_calls_in_batches returns for a positive batch size. */
  function Successes(cs: seq<Contact>, os: seq<Option<string>>): seq<string>
    requires |os| == |cs|
  {
    Truthy(Results(cs, os))
  }

  /** calls_data after make_call has run on every contact in order. */
  function AfterCalls(calls: CallTable, cs: seq<Contact>, os: seq<Option<string>>): CallTable
    requires |os| == |cs|
    decreases |cs|
  {
    if cs == [] then calls
    else AfterCall(AfterCalls(calls, cs[..|cs| - 1], os[..|os| - 1]), cs[|cs| - 1], os[|os| - 1])
  }

  /** The numbers handed to the provider for the contacts, in order. */
  function DialledAll(cs: seq<Contact>): seq<string>
    decreases |cs|
  {
    if cs == [] then [] else DialledAll(cs[..|cs| - 1]) + Attempt(cs[|cs| - 1])
  }

  /** The SIDs returned are at most one per contact, each is the SID the
      provider gave for one of them, and each now names a record. */
  lemma SuccessesSound(calls: CallTable, cs: seq<Contact>, os: seq<Option<string>>, sid: string)
    requires |os| == |cs|
    requires sid in Successes(cs, os)
    ensures |Successes(cs, os)| <= |cs|
    ensures exists i :: 0 <= i < |cs| && DialledNumber(cs[i]).Some? && os[i] == Some(sid)
    ensures sid in AfterCalls(calls, cs, os)
  {
    TruthyMembers(Results(cs, os), sid);
    var i :| 0 <= i < |cs| && Results(cs, os)[i] == Some(sid);
    AfterCallsKeys(calls, cs, os, sid);
  }

  /** Placing the calls adds exactly the SIDs make_call returned to the
      table, and removes none. */
  lemma {:induction false} AfterCallsKeys(calls: CallTable, cs: seq<Contact>, os: seq<Option<string>>, k: string)
    requires |os| == |cs|
    ensures k in AfterCalls(calls, cs, os) <==> k in calls || Some(k) in Results(cs, os)
    decreases |cs|
  {
    if cs != [] {
      var n := |cs| - 1;
      AfterCallsKeys(calls, cs[..n], os[..n], k);
      AfterCallSpec(AfterCalls(calls, cs[..n], os[..n]), cs[n], os[n]);
      assert Results(cs, os) == Results(cs[..n], os[..n]) + [CallResult(cs[n], os[n])];
    }
  }

  /** Three contacts, the second with an empty number: two calls are
      placed and recorded, the skipped contact reaches no provider and
      yields no SID. */
  lemma SkippedContactPlacesNoCall()
    ensures var cs: seq<Contact> := [map[PhoneKey := Some("15551230001")], map[PhoneKey := Some("")],
                                     map[PhoneKey := Some("15551230002")]];
      var os := [Some("CA1"), Some("CA2"), Some("CA3")];
      && Successes(cs, os) == ["CA1", "CA3"]
      && AfterCalls(map[], cs, os).Keys == {"CA1", "CA3"}
      && DialledAll(cs) == ["15551230001", "15551230002"]
  {
    var cs: seq<Contact> := [map[PhoneKey := Some("15551230001")], map[PhoneKey := Some("")],
                             map[PhoneKey := Some("15551230002")]];
    var os := [Some("CA1"), Some("CA2"), Some("CA3")];
    assert DialledNumber(cs[1]).None?;
    assert DialledNumber(cs[0]) == Some("15551230001");
    assert Successes(cs, os) == ["CA1", "CA3"] by {
      assert Results(cs, os) == [Some("CA1"), None, Some("CA3")];
      var r := Results(cs, os);
      assert r[..2][..1] == [Some("CA1")] && r[..2] == [Some("CA1"), None] && r[..1][..0] == [];
      assert Truthy(r[..1]) == ["CA1"];
      assert Truthy(r[..2]) == ["CA1"];
    }
    assert AfterCalls(map[], cs, os).Keys == {"CA1", "CA3"} by {
      assert cs[..2][..1] == cs[..1] && cs[..1][..0] == [];
      assert os[..2][..1] == os[..1] && os[..1][..0] == [];
      assert AfterCalls(map[], cs[..1][..0], os[..1][..0]) == map[];
      var t1 := AfterCalls(map[], cs[..1], os[..1]);
      assert t1 == AfterCall(map[], cs[0], Some("CA1"));
      AfterCallSpec(map[], cs[0], Some("CA1"));
      assert t1.Keys == {"CA1"};
      var t2 := AfterCalls(map[], cs[..2], os[..2]);
      assert t2 == t1;
      AfterCallSpec(t2, cs[2], Some("CA3"));
    }
    assert DialledAll(cs) == ["15551230001", "15551230002"] by {
      assert cs[..2][..1] == cs[..1] && cs[..1][..0] == [];
      assert DialledAll(cs[..1]) == ["15551230001"];
      assert DialledAll(cs[..2]) == ["15551230001"];
    }
  }

  /** A contact without a number never reaches the provider and yields
      no SID: the list of SIDs is no longer than the list of numbers
      dialled. */
  lemma {:induction false} SuccessesBoundedByDialled(cs: seq<Contact>, os: seq<Option<string>>)
    requires |os| == |cs|
    ensures |Successes(cs, os)| <= |DialledAll(cs)| <= |cs|
    decreases |cs|
  {
    if cs != [] {
      var n := |cs| - 1;
      SuccessesBoundedByDialled(cs[..n], os[..n]);
      assert Results(cs, os) == Results(cs[..n], os[..n]) + [CallResult(cs[n], os[n])];
      TruthyAppend(Results(cs[..n], os[..n]), [CallResult(cs[n], os[n])]);
    }
  }

  /** Placing calls for a + b is placing them for a, then for b. */
  lemma {:induction false} AfterCallsAppend(calls: CallTable, a: seq<Contact>, oa: seq<Option<string>>,
                                            b: seq<Contact>, ob: seq<Option<string>>)
    requires |oa| == |a| && |ob| == |b|
    ensures AfterCalls(calls, a + b, oa + ob) == AfterCalls(AfterCalls(calls, a, oa), b, ob)
    decreases |b|
  {
    if b == [] {
      assert a + b == a && oa + ob == oa;
    } else {
      var n := |b| - 1;
      var ab, oab := a + b, oa + ob;
      assert ab[..|ab| - 1] == a + b[..n] && ab[|ab| - 1] == b[n];
      assert oab[..|oab| - 1] == oa + ob[..n] && oab[|oab| - 1] == ob[n];
      AfterCallsAppend(calls, a, oa, b[..n], ob[..n]);
    }
  }

  /** The numbers dialled for a + b are those for a, then those for b. */
  lemma {:induction false} DialledAllAppend(a: seq<Contact>, b: seq<Contact>)
    ensures DialledAll(a + b) == DialledAll(a) + DialledAll(b)
    decreases |b|
  {
    if b == [] {
      assert a + b == a;
    } else {
      var n := |b| - 1;
      calc {
        DialledAll(a + b);
        { var ab := a + b; assert ab[..|ab| - 1] == a + b[..n] && ab[|ab| - 1] == b[n]; }
        DialledAll(a + b[..n]) + Attempt(b[n]);
        { DialledAllAppend(a, b[..n]); }
        (DialledAll(a) + DialledAll(b[..n])) + Attempt(b[n]);
        DialledAll(a) + (DialledAll(b[..n]) + Attempt(b[n]));
        { assert b[..n] == b[..|b| - 1]; }
        DialledAll(a) + DialledAll(b);
      }
    }
  }

  /** Extending the processed prefix [..i] by the slice [i..end]. */
  lemma PrefixStep(calls: CallTable, cs: seq<Contact>, os: seq<Option<string>>, i: nat, end: nat)
    requires |os| == |cs| && i <= end <= |cs|
    ensures Successes(cs[..end], os[..end]) == Successes(cs[..i], os[..i]) + Successes(cs[i..end], os[i..end])
    ensures AfterCalls(calls, cs[..end], os[..end]) == AfterCalls(AfterCalls(calls, cs[..i], os[..i]), cs[i..end], os[i..end])
    ensures DialledAll(cs[..end]) == DialledAll(cs[..i]) + DialledAll(cs[i..end])
  {
    assert cs[..end] == cs[..i] + cs[i..end];
    assert os[..end] == os[..i] + os[i..end];
    assert Results(cs[..end], os[..end]) == Results(cs[..i], os[..i]) + Results(cs[i..end], os[i..end]);
    TruthyAppend(Results(cs[..i], os[..i]), Results(cs[i..end], os[i..end]));
    AfterCallsAppend(calls, cs[..i], os[..i], cs[i..end], os[i..end]);
    DialledAllAppend(cs[..i], cs[i..end]);
  }

  /** The batch starting at i is the first batch of what remains: the
      batches emitted so far, followed by it, are a prefix of all batches. */
  lemma BatchesStep<T>(s: seq<T>, i: nat, k: nat, done: seq<seq<T>>)
    requires k > 0 && i < |s|
    requires done + Batches(s[i..], k) == Batches(s, k)
    ensures (done + [s[i..Min(i + k, |s|)]]) + Batches(s[Min(i + k, |s|)..], k) == Batches(s, k)
  {
    var t := s[i..];
    if |t| > k {
      assert t[..k] == s[i..i + k];
      assert t[k..] == s[i + k..];
    } else {
      assert s[i..Min(i + k, |s|)] == t;
      assert Batches(s[|s|..], k) == [];
    }
  }

  /** executor.map(make_call, batch): make_call on every contact of the
      batch, the results listed in input order. The workers run
      concurrently; the model runs them one after the other. */
  method MapMakeCall(registry: CallRegistry, batch: seq<Contact>, outcomes: seq<Option<string>>)
    returns (results: seq<Option<string>>)
    requires |outcomes| == |batch|
    requires registry.Valid()
    modifies registry
    ensures registry.Valid()
    ensures results == Results(batch, outcomes)
    ensures registry.calls == AfterCalls(old(registry.calls), batch, outcomes)
    ensures registry.dialled == old(registry.dialled) + DialledAll(batch)
  {
    results := [];
    var j := 0;
    while j < |batch|
      invariant 0 <= j <= |batch|
      invariant results == Results(batch[..j], outcomes[..j])
      invariant registry.Valid()
      invariant registry.calls == AfterCalls(old(registry.calls), batch[..j], outcomes[..j])
      invariant registry.dialled == old(registry.dialled) + DialledAll(batch[..j])
    {
      var sid := registry.MakeCall(batch[j], outcomes[j]);
      assert batch[..j + 1][..j] == batch[..j];
      assert outcomes[..j + 1][..j] == outcomes[..j];
      results := results + [sid];
      j := j + 1;
    }
    assert batch[..j] == batch && outcomes[..j] == outcomes;
  }

  /** One pass of the batch loop: run make_call over the slice [i..end]
      and extend the SIDs collected so far with its truthy results. */
  method PlaceBatch(registry: CallRegistry, contacts: seq<Contact>, outcomes: seq<Option<string>>,
                    i: nat, end: nat, sids: seq<string>, ghost calls0: CallTable, ghost dialled0: seq<string>)
    returns (sids': seq<string>)
    requires |outcomes| == |contacts| && i <= end <= |contacts|
    requires registry.Valid()
    requires sids == Successes(contacts[..i], outcomes[..i])
    requires registry.calls == AfterCalls(calls0, contacts[..i], outcomes[..i])
    requires registry.dialled == dialled0 + DialledAll(contacts[..i])
    modifies registry
    ensures registry.Valid()
    ensures sids' == Successes(contacts[..end], outcomes[..end])
    ensures registry.calls == AfterCalls(calls0, contacts[..end], outcomes[..end])
    ensures registry.dialled == dialled0 + DialledAll(contacts[..end])
  {
    var batch, answers := contacts[i..end], outcomes[i..end];
    ghost var mid, dialledMid := registry.calls, registry.dialled;
    var batchSids := MapMakeCall(registry, batch, answers);
    sids' := sids + Truthy(batchSids);
    assert sids' == Successes(contacts[..end], outcomes[..end]) by {
      PrefixStep(calls0, contacts, outcomes, i, end);
    }
    assert registry.calls == AfterCalls(calls0, contacts[..end], outcomes[..end]) by {
      assert registry.calls == AfterCalls(mid, batch, answers);
      PrefixStep(calls0, contacts, outcomes, i, end);
    }
    assert registry.dialled == dialled0 + DialledAll(contacts[..end]) by {
      assert registry.dialled == dialledMid + DialledAll(batch);
      PrefixStep(calls0, contacts, outcomes, i, end);
    }
  }

  /** process_calls_in_batches(phone_data_list, batch_size). outcomes[i]
      is the provider's answer to the placement for contacts[i]. The
      result is None where range() raises because the step is zero. The
      ghost results record the batches and the number of two-second pauses. */
  method ProcessCallsInBatches(registry: CallRegistry, contacts: seq<Contact>,
                               outcomes: seq<Option<string>>, batchSize: int)
    returns (callSids: Option<seq<string>>, ghost batches: seq<seq<Contact>>, ghost sleeps: nat)
    requires |outcomes| == |contacts|
    requires registry.Valid()
    modifies registry
    ensures registry.Valid()
    ensures callSids.None? <==> batchSize == 0
    ensures batchSize <= 0 ==>
      && registry.calls == old(registry.calls) && registry.dialled == old(registry.dialled)
      && batches == [] && sleeps == 0
    ensures batchSize < 0 ==> callSids == Some([])
    ensures batchSize > 0 ==>
      && callSids == Some(Successes(contacts, outcomes))
      && registry.calls == AfterCalls(old(registry.calls), contacts, outcomes)
      && registry.dialled == old(registry.dialled) + DialledAll(contacts)
      && batches == Batches(contacts, batchSize)
      && sleeps == (if contacts == [] then 0 else |batches| - 1)
  {
    if batchSize == 0 {
      // range() raises ValueError before any call is placed
      return None, [], 0;
    }
    if batchSize < 0 {
      // range(0, total, batch_size) is empty
      return Some([]), [], 0;
    }
    var sids;
    sids, batches, sleeps := RunBatches(registry, contacts, outcomes, batchSize);
    callSids := Some(sids);
  }

  /** The loop of process_calls_in_batches for a positive batch size k:
      for i in range(0, total, k), place the calls of contacts[i:i+k],
      keep the truthy SIDs, and sleep unless this was the last batch. */
  method RunBatches(registry: CallRegistry, contacts: seq<Contact>, outcomes: seq<Option<string>>, k: nat)
    returns (sids: seq<string>, ghost batches: seq<seq<Contact>>, ghost sleeps: nat)
    requires |outcomes| == |contacts| && k > 0
    requires registry.Valid()
    modifies registry
    ensures registry.Valid()
    ensures sids == Successes(contacts, outcomes)
    ensures registry.calls == AfterCalls(old(registry.calls), contacts, outcomes)
    ensures registry.dialled == old(registry.dialled) + DialledAll(contacts)
    ensures batches == Batches(contacts, k)
    ensures sleeps == (if contacts == [] then 0 else |batches| - 1)
  {
    var total := |contacts|;
    batches, sleeps := [], 0;
    sids := [];
    var i := 0;
    ghost var done := 0;
    while i < total
      invariant 0 <= i
      invariant done == if i < total then i else total
      invariant |batches| == 0 <==> i == 0
      invariant batches + Batches(contacts[done..], k) == Batches(contacts, k)
      invariant sids == Successes(contacts[..done], outcomes[..done])
      invariant registry.Valid()
      invariant registry.calls == AfterCalls(old(registry.calls), contacts[..done], outcomes[..done])
      invariant registry.dialled == old(registry.dialled) + DialledAll(contacts[..done])
      invariant sleeps == if |batches| > 0 && i >= total then |batches| - 1 else |batches|
    {
      var end := if i + k < total then i + k else total;
      var batch := contacts[i..end];
      sids := PlaceBatch(registry, contacts, outcomes, i, end, sids, old(registry.calls), old(registry.dialled));
      if i + k < total {
        // time.sleep(2)
        sleeps := sleeps + 1;
      }
      BatchesStep(contacts, i, k, batches);
      batches := batches + [batch];
      i := i + k;
      done := end;
    }
    assert contacts[..total] == contacts && outcomes[..total] == outcomes && contacts[total..] == [];
  }
}
