/** Reconciliation of DNS challenge records: every record the controller may have created is
    listed in durable storage until its removal is confirmed. */
module DnsReconciliation {
  import opened Durability

  datatype Intent = Intent(name: nat, unconfirmed: bool)

  const MAX_RETAINED := 128
  const MAX_RECORDS := 256

  /** What a crash may find at one moment, and what has been cleaned by then. */
  datatype Moment = Moment(possible: set<seq<Intent>>, cleaned: set<Intent>)

  /** Whatever a crash reveals lists every intent that is not cleaned. */
  ghost predicate Covers(m: Moment, intents: seq<Intent>) {
    forall v, x :: v in m.possible && x in intents && x !in m.cleaned ==> x in v
  }

  /** The unconfirmed intents whose read was empty, in their order. */
  function Retained(intents: seq<Intent>, empty: seq<bool>): (r: seq<Intent>)
    requires |empty| == |intents|
    ensures forall x :: x in r ==> x in intents && x.unconfirmed
    ensures |r| <= |intents|
  {
    if intents == [] then []
    else
      var n := |intents| - 1;
      Retained(intents[..n], empty[..n]) + if intents[n].unconfirmed && empty[n] then [intents[n]] else []
  }

  /** After the first `index` intents: what is kept, and that it covers what is not cleaned. */
  ghost predicate Progress(intents: seq<Intent>, index: nat, empty: seq<bool>, kept: seq<Intent>,
                           cleaned: set<Intent>) {
    && index <= |intents| && |empty| == index && kept == Retained(intents[..index], empty)
    && forall x :: x in intents[..index] && x !in cleaned ==> x in kept
  }

  lemma ProgressStep(intents: seq<Intent>, index: nat, empty: seq<bool>, kept: seq<Intent>, cleaned: set<Intent>,
                     nothing: bool)
    requires Progress(intents, index, empty, kept, cleaned) && index < |intents|
    ensures
      var x := intents[index];
      if x.unconfirmed && nothing then Progress(intents, index + 1, empty + [nothing], kept + [x], cleaned)
      else forall wider :: cleaned <= wider && x in wider ==>
            Progress(intents, index + 1, empty + [nothing], kept, wider)
  {
    var next := intents[..index + 1];
    assert next == intents[..index] + [intents[index]] && next[..index] == intents[..index];
    assert (empty + [nothing])[..index] == empty;
  }

  /** The list written after a removal lists every intent that is not cleaned. */
  lemma ProgressCovers(intents: seq<Intent>, index: nat, empty: seq<bool>, kept: seq<Intent>, cleaned: set<Intent>,
                       x: Intent)
    requires Progress(intents, index, empty, kept, cleaned) && index < |intents| && intents[index] in cleaned
    requires x in intents && x !in cleaned
    ensures x in kept + intents[index + 1..]
  {
    var i :| 0 <= i < |intents| && intents[i] == x;
    if i < index {
      assert x == intents[..index][i];
    } else {
      assert intents[index + 1..][i - index - 1] == x;
    }
  }

  class Reconciler {
    /** The index in memory, and the stored one. */
    var pending: seq<Intent>
    var stored: Cell<seq<Intent>>
    ghost var cleaned: set<Intent>
    ghost var trail: seq<Moment>
    /** Reads, removals and writes that failed so far. */
    ghost var failures: nat

    ghost predicate Valid()
      reads this
    {
      stored.Valid() && Covers(Moment(stored.possible, cleaned), pending)
    }

    constructor (intents: seq<Intent>)
      ensures Valid() && pending == intents && stored == Cell(intents, {intents}) && cleaned == {} && trail == []
    {
      pending, stored, cleaned, trail, failures := intents, Cell(intents, {intents}), {}, [], 0;
    }

    /** `set_pending_dns_records`: a failed write leaves the index in memory as it was, but may
        have replaced the stored one. */
    method SetPending(records: seq<Intent>) returns (ok: bool)
      requires stored.Valid() && Covers(Moment(stored.possible + {records}, cleaned), pending)
      modifies this`pending, this`stored, this`trail, this`failures
      ensures failures == old(failures) + if ok then 0 else 1
      ensures stored.Valid()
      ensures ok ==> pending == records && stored == Cell(records, {records})
      ensures !ok ==> pending == old(pending) && (stored == old(stored) || stored == old(stored).Renamed(records))
      ensures |trail| == |old(trail)| + 1 && trail[..|old(trail)|] == old(trail)
      ensures trail[|old(trail)|].cleaned == cleaned && trail[|old(trail)|].possible <= old(stored).possible + {records}
    {
      var outcome: Outcome := *;
      if outcome != Lost { stored := stored.Renamed(records); }
      trail := trail + [Moment(stored.possible, cleaned)];
      if outcome == Done {
        stored := stored.Synced();
        pending := records;
      }
      ok := outcome == Done;
      if !ok { failures := failures + 1; }
    }

    /** The provider confirms that a record is gone, or fails; a timeout is a failure too. */
    method Clean(intent: Intent) returns (ok: bool)
      requires stored.Valid()
      modifies this`cleaned, this`trail, this`failures
      ensures failures == old(failures) + if ok then 0 else 1
      ensures cleaned == if ok then old(cleaned) + {intent} else old(cleaned)
      ensures trail == old(trail) + [Moment(stored.possible, cleaned)]
    {
      ok := *;
      if ok { cleaned := cleaned + {intent}; } else { failures := failures + 1; }
      trail := trail + [Moment(stored.possible, cleaned)];
    }

    /** The provider says whether it finds a record, or fails. */
    method Look(intent: Intent) returns (nothing: bool, failed: bool)
      modifies this`failures
      ensures failures == old(failures) + if failed then 1 else 0
    {
      nothing, failed := *, *;
      if failed { failures := failures + 1; }
    }

    /** `reconcile_dns_challenges`.  It may fail at any step, for an error or for the timeout;
        at every moment what a crash reveals covers the intents not yet cleaned. */
    method Reconcile(intents: seq<Intent>) returns (retained: Option<seq<Intent>>, empty: seq<bool>)
      requires Valid() && pending == intents
      modifies this
      ensures Valid() && old(cleaned) <= cleaned
      ensures |old(trail)| <= |trail| && trail[..|old(trail)|] == old(trail)
      ensures forall i :: |old(trail)| <= i < |trail| ==> Covers(trail[i], intents)
      ensures Covers(Moment(stored.possible, cleaned), intents)
      ensures retained.Some? ==> |empty| == |intents| && retained.value == Retained(intents, empty)
      ensures retained.Some? ==> forall x :: x in intents && x !in cleaned ==> x in retained.value
      ensures retained.Some? && retained.value != intents ==>
          stored == Cell(retained.value, {retained.value}) && pending == retained.value
      ensures retained.Some? && retained.value == intents ==> stored == old(stored) && pending == intents
      ensures old(failures) <= failures && (retained.None? ==> old(failures) < failures)
    {
      hide Retained, Covers;
      empty := [];
      var kept: seq<Intent> := [];
      ghost var start, touched := |trail|, false;
      var index := 0;
      assert Progress(intents, 0, empty, kept, cleaned) by { assert Retained(intents[..0], empty) == []; }
      while index < |intents|
        invariant Progress(intents, index, empty, kept, cleaned)
        invariant old(failures) <= failures
        invariant old(cleaned) <= cleaned && stored.Valid() && Covers(Moment(stored.possible, cleaned), intents)
        invariant start <= |trail| && trail[..start] == old(trail)
        invariant forall i :: start <= i < |trail| ==> Covers(trail[i], intents)
        invariant !touched ==> kept == intents[..index] && stored == old(stored) && pending == intents
        invariant touched ==> |kept| < index && pending == kept + intents[index..] && stored == Cell(pending, {pending})
      {
        hide Progress;
        var intent := intents[index];
        var nothing, failed := false, false;
        if intent.unconfirmed { nothing, failed := Look(intent); }
        KeptIsListed(intents, index, empty, kept, cleaned, pending, touched);
        if failed { NarrowCovers(stored.possible, cleaned, intents, pending); return None, empty; }
        ProgressStep(intents, index, empty, kept, cleaned, nothing);
        if intent.unconfirmed && nothing {
          kept := kept + [intent];
          assert touched ==> pending == kept + intents[index + 1..];
          assert intents[..index + 1] == intents[..index] + [intent];
        } else {
          var ok := CleanAndWrite(intents, index, empty, kept);
          if !ok { return None, empty; }
          touched := true;
        }
        empty := empty + [nothing];
        index := index + 1;
      }
      assert intents[..index] == intents && kept + intents[index..] == kept;
      KeptIsListed(intents, index, empty, kept, cleaned, pending, touched);
      NarrowCovers(stored.possible, cleaned, intents, pending);
      retained := Some(kept);
    }

    /** `prepare_dns_challenges`: what a new order starts from.  `delegated` says that the request
        is a delegated DNS validation.  The test for confirmed leftovers never fires. */
    method Prepare(delegated: bool, domains: nat, provider: bool) returns (r: Option<seq<Intent>>)
      requires Valid()
      modifies this
      ensures Valid()
      ensures r.Some? ==> r.value == pending && forall x :: x in r.value ==> x in old(pending) && x.unconfirmed
      ensures r.Some? && r.value != [] ==> delegated && |r.value| <= MAX_RETAINED && |r.value| + domains <= MAX_RECORDS
      // A refusal has a cause.
      ensures old(failures) <= failures
      ensures r.None? && failures == old(failures) ==>
        && old(pending) != []
        && (|| !provider || !delegated || |pending| > MAX_RETAINED || |pending| + domains > MAX_RECORDS)
      ensures old(pending) == [] ==> r == Some([])
    {
      var previous := pending;
      if previous == [] { return Some([]); }
      if !provider { return None; }
      var retained, empty := Reconcile(previous);
      if retained.None? { return None; }
      if retained.value == [] { return retained; }
      var confirmed := exists x :: x in retained.value && !x.unconfirmed;
      assert !confirmed;
      if !delegated || |retained.value| > MAX_RETAINED || |retained.value| + domains > MAX_RECORDS ||
         confirmed
      {
        return None;
      }
      r := retained;
    }

    /** `cleanup_dns_challenges`: success leaves nothing listed. */
    method Cleanup() returns (ok: bool)
      requires Valid()
      modifies this
      ensures Valid()
      ensures ok ==> pending == [] && forall x :: x in old(pending) ==> x in cleaned
      ensures ok && old(pending) != [] ==> stored == Cell([], {[]})
      ensures !ok ==> old(failures) < failures || exists x :: x in old(pending) && x.unconfirmed && x in pending
    {
      var retained, empty := Reconcile(pending);
      ok := retained == Some([]);
      if !ok && retained.Some? { assert retained.value[0] in retained.value; }
    }

    /** One confirmed removal and the shorter list that it allows. */
    method CleanAndWrite(intents: seq<Intent>, index: nat, ghost empty: seq<bool>, kept: seq<Intent>) returns (ok: bool)
      requires Progress(intents, index, empty, kept, cleaned) && index < |intents|
      requires stored.Valid() && Covers(Moment(stored.possible, cleaned), intents)
      requires forall x :: x in pending ==> x in intents
      modifies this
      ensures stored.Valid() && old(cleaned) <= cleaned && Covers(Moment(stored.possible, cleaned), intents)
      ensures ok ==> cleaned == old(cleaned) + {intents[index]}
      ensures ok ==> pending == kept + intents[index + 1..] && stored == Cell(pending, {pending})
      ensures !ok ==> pending == old(pending) && Valid()
      ensures |old(trail)| <= |trail| && trail[..|old(trail)|] == old(trail)
      ensures forall i :: |old(trail)| <= i < |trail| ==> Covers(trail[i], intents)
      ensures old(failures) <= failures && (!ok ==> old(failures) < failures)
    {
      hide Retained;
      ok := Clean(intents[index]);
      if !ok { return; }
      ProgressStep(intents, index, empty, kept, old(cleaned), false);
      var records := kept + intents[index + 1..];
      forall x | x in intents && x !in cleaned ensures x in records {
        assert Progress(intents, index, empty, kept, cleaned);
        ProgressCovers(intents, index, empty, kept, cleaned, x);
      }
      ok := SetPending(records);
    }
  }

  lemma KeptIsListed(intents: seq<Intent>, index: nat, empty: seq<bool>, kept: seq<Intent>, cleaned: set<Intent>,
                     pending: seq<Intent>, touched: bool)
    requires Progress(intents, index, empty, kept, cleaned)
    requires pending == if touched then kept + intents[index..] else intents
    ensures forall x :: x in pending ==> x in intents
  {
  }

  lemma NarrowCovers(possible: set<seq<Intent>>, cleaned: set<Intent>, intents: seq<Intent>, pending: seq<Intent>)
    requires Covers(Moment(possible, cleaned), intents) && forall x :: x in pending ==> x in intents
    ensures Covers(Moment(possible, cleaned), pending)
  {
  }
}
