/** The audit journal under failing writes: the serialised draft-then-write mutations, the outbox
    of remote-store changes, process crashes and power losses.

    The journal and the remote-store state are files of one directory.  A write that fails to
    synchronise the directory may still have renamed its file; renames of one directory become
    durable in their order, so a power loss reveals one of the images since the last
    synchronisation. */
module BackupAudit {
  import opened Durability

  /** A journal entry.  The stamp tells the attempts to record apart, as their times do; an entry
      of a remote-store change names the change. */
  datatype Entry = Entry(stamp: nat, change: Option<nat>)

  /** `log` is every event ever recorded, event number i + 1 at index i; the file keeps those
      beyond `acknowledged`. */
  datatype Ledger = Ledger(log: seq<Entry>, acknowledged: nat, receipts: seq<nat>)

  /** What is in the directory: the journal, the source's pending record and, as history, every
      change the source has committed. */
  datatype Image = Image(journal: Ledger, pending: Option<nat>, changes: set<nat>)

  /** `written` is the index of the image with which the visible journal was written, and `carried`
      that of the oldest image that carries the log in memory. */
  datatype System = System(
    memory: Ledger,
    images: seq<Image>,
    written: nat,
    carried: nat,
    uncertain: bool,
    held: Option<nat>,
    recorded: bool,
    used: set<nat>,
    stamp: nat)

  const RECEIPTS := 100

  function Visible(s: System): Image
    requires s.images != []
  {
    s.images[|s.images| - 1]
  }

  // ---------- Writing ----------

  /** A write of the journal. */
  function PutJournal(s: System, draft: Ledger, outcome: Outcome): System
    requires s.images != []
  {
    var image := Visible(s).(journal := draft);
    match outcome
    case Done => s.(images := [image], written := 0, carried := 0)
    case Lost => s
    case Unsynced => s.(images := s.images + [image], written := |s.images|)
  }

  /** A write of the source's state beside it. */
  function PutSource(s: System, image: Image, outcome: Outcome): System {
    match outcome
    case Done => s.(images := [image], written := 0, carried := 0)
    case Lost => s
    case Unsynced => s.(images := s.images + [image])
  }

  /** `reloadManagedJournal`: the visible journal becomes the state. */
  function Reload(s: System): System
    requires s.images != []
  {
    s.(memory := Visible(s).journal, uncertain := false,
       carried := if Visible(s).journal.log == s.memory.log then s.carried else s.written)
  }

  /** `mutate` once the draft is made: an unchanged draft is not written; a failed write of a
      recovering mutation makes the state uncertain until a reload succeeds. */
  function Commit(s: System, draft: Ledger, outcome: Outcome, recover: bool, reload: bool): System
    requires s.images != []
  {
    if draft == s.memory then s
    else
      var next := PutJournal(s, draft, outcome);
      if outcome == Done then next.(memory := draft)
      else if !recover then next
      else if reload then Reload(next)
      else next.(uncertain := true)
  }

  /** What precedes every mutation: an uncertain state is reloaded, or nothing happens. */
  function Ready(s: System, reload: bool): Option<System>
    requires s.images != []
  {
    if !s.uncertain then Some(s) else if reload then Some(Reload(s)) else None
  }

  // ---------- The steps ----------

  datatype Action =
    | Mutate(events: nat, acknowledge: nat, ready: bool, outcome: Outcome)
    | ChangeStore(request: nat, outcome: Outcome)
    | ReadPending
    | Record(ready: bool, outcome: Outcome, reload: bool)
    | AcknowledgeSource(outcome: Outcome)
    | GiveUp
    | Crash(image: nat)

  /** So many events of one attempt, none of them of a remote-store change. */
  function Fresh(stamp: nat, n: nat): seq<Entry> {
    seq(n, i requires 0 <= i < n => Entry(stamp + i, None))
  }

  /** Any other mutation: it may append events and acknowledge a prefix of them. */
  function DoMutate(s: System, events: nat, acknowledge: nat, ready: bool, outcome: Outcome): System
    requires s.images != []
  {
    var r := Ready(s, ready);
    if r.None? then s
    else
      var m := r.value.memory;
      var log := m.log + Fresh(s.stamp, events);
      var acknowledged := if m.acknowledged <= acknowledge <= |log| then acknowledge else m.acknowledged;
      var next := Commit(r.value, Ledger(log, acknowledged, m.receipts), outcome, false, false);
      next.(stamp := s.stamp + events)
  }

  /** The source commits a change with a fresh request id, unless one is pending. */
  function DoChange(s: System, request: nat, outcome: Outcome): System
    requires s.images != []
  {
    var v := Visible(s);
    if v.pending.Some? || s.held.Some? || s.uncertain || request in s.used then s
    else PutSource(s, Image(v.journal, Some(request), v.changes + {request}), outcome).(used := s.used + {request})
  }

  function DoReadPending(s: System): System
    requires s.images != []
  {
    if s.held.Some? then s else s.(held := Visible(s).pending, recorded := false)
  }

  function LastOnes(receipts: seq<nat>): seq<nat> {
    if |receipts| <= RECEIPTS then receipts else receipts[|receipts| - RECEIPTS..]
  }

  /** The draft that records a remote-store change with its receipt. */
  function Recording(m: Ledger, request: nat, stamp: nat): Ledger {
    Ledger(m.log + [Entry(stamp, Some(request))], m.acknowledged, LastOnes(m.receipts + [request]))
  }

  /** The recovering mutation of the reconciliation. */
  function DoRecord(s: System, ready: bool, outcome: Outcome, reload: bool): System
    requires s.images != []
  {
    var r := Ready(s, ready);
    if s.held.None? || s.recorded || r.None? then s
    else
      var m, request := r.value.memory, s.held.value;
      if request in m.receipts then r.value.(recorded := true)
      else
        var next := Commit(r.value, Recording(m, request, s.stamp), outcome, true, reload).(stamp := s.stamp + 1);
        if outcome == Done then next.(recorded := true) else next.(held := None)
  }

  /** The source is acknowledged once the record is in place; a failed write ends the attempt. */
  function DoAcknowledge(s: System, outcome: Outcome): System
    requires s.images != []
  {
    if s.held.None? || !s.recorded then s
    else
      var v := Visible(s);
      (if v.pending == s.held then PutSource(s, v.(pending := None), outcome) else s).(held := None, recorded := false)
  }

  /** A process crash keeps the visible image; a power loss reveals any of them. */
  function DoCrash(s: System, image: nat): System
    requires s.images != []
  {
    if image >= |s.images| then s
    else
      var v := s.images[image];
      System(v.journal, [v], 0, 0, false, None, false, s.used, s.stamp)
  }

  function Step(s: System, a: Action): System
    requires s.images != []
  {
    match a
    case Mutate(events, acknowledge, ready, outcome) => DoMutate(s, events, acknowledge, ready, outcome)
    case ChangeStore(request, outcome) => DoChange(s, request, outcome)
    case ReadPending => DoReadPending(s)
    case Record(ready, outcome, reload) => DoRecord(s, ready, outcome, reload)
    case AcknowledgeSource(outcome) => DoAcknowledge(s, outcome)
    case GiveUp => s.(held := None, recorded := false)
    case Crash(image) => DoCrash(s, image)
  }

  // ---------- What every image says ----------

  function Count(log: seq<Entry>, request: nat): nat {
    if log == [] then 0
    else Count(log[..|log| - 1], request) + if log[|log| - 1].change == Some(request) then 1 else 0
  }

  lemma {:induction false} CountAppend(a: seq<Entry>, b: seq<Entry>, request: nat)
    ensures Count(a + b, request) == Count(a, request) + Count(b, request)
    decreases |b|
  {
    if b == [] {
      assert a + b == a;
    } else {
      var n := |b| - 1;
      assert (a + b)[..|a + b| - 1] == a + b[..n];
      CountAppend(a, b[..n], request);
    }
  }

  lemma {:induction false} CountFresh(stamp: nat, n: nat, request: nat)
    ensures Count(Fresh(stamp, n), request) == 0
  {
    if n > 0 {
      assert Fresh(stamp, n)[..n - 1] == Fresh(stamp, n - 1);
      CountFresh(stamp, n - 1, request);
    }
  }

  /** Every change the source no longer holds is recorded exactly once; the pending one is
      recorded once if its receipt is there and not at all otherwise; nothing else is recorded. */
  ghost predicate Faithful(i: Image) {
    && (i.pending.Some? ==> i.pending.value in i.changes)
    && (forall r :: r in i.changes && i.pending != Some(r) ==> Count(i.journal.log, r) == 1)
    && (forall r :: i.pending == Some(r) ==> Count(i.journal.log, r) == if r in i.journal.receipts then 1 else 0)
    && (forall r :: r !in i.changes ==> Count(i.journal.log, r) == 0)
    && (forall r :: r in i.journal.receipts ==> r in i.changes)
    && i.journal.acknowledged <= |i.journal.log|
  }

  ghost predicate AllFaithful(images: seq<Image>, used: set<nat>) {
    forall k :: 0 <= k < |images| ==> Faithful(images[k]) && images[k].changes <= used
  }

  ghost predicate Stamped(log: seq<Entry>, stamp: nat) {
    forall i :: 0 <= i < |log| ==> log[i].stamp < stamp
  }

  ghost predicate AllStamped(images: seq<Image>, stamp: nat) {
    forall k :: 0 <= k < |images| ==> Stamped(images[k].journal.log, stamp)
  }

  /** Exactly the images from `from` on carry the log. */
  ghost predicate Carries(log: seq<Entry>, images: seq<Image>, from: nat) {
    from < |images| && forall k :: 0 <= k < |images| ==> (log <= images[k].journal.log <==> k >= from)
  }

  ghost predicate Valid(s: System) {
    && s.images != [] && AllFaithful(s.images, s.used) && AllStamped(s.images, s.stamp)
    && Carries(s.memory.log, s.images, s.carried)
    && (Visible(s).journal.log != s.memory.log ==> Carries(Visible(s).journal.log, s.images, s.written))
    && (!s.uncertain ==> Faithful(Visible(s).(journal := s.memory)))
    && (s.held.Some? ==> Visible(s).pending == s.held)
    && (s.recorded ==>
          && s.held.Some? && !s.uncertain
          && s.held.value in s.memory.receipts && s.held.value in Visible(s).journal.receipts)
  }

  // ---------- Which images carry a log ----------

  /** One more image that carries what the last one carries. */
  lemma CarriesMore(log: seq<Entry>, images: seq<Image>, from: nat, image: Image)
    requires Carries(log, images, from) && log <= image.journal.log
    ensures Carries(log, images + [image], from)
  {
  }

  /** A log with an entry of a new attempt is in no earlier image. */
  lemma CarriesNew(images: seq<Image>, image: Image, stamp: nat, i: nat)
    requires AllStamped(images, stamp) && i < |image.journal.log| && image.journal.log[i].stamp >= stamp
    ensures Carries(image.journal.log, images + [image], |images|)
  {
    var log, all := image.journal.log, images + [image];
    forall k | 0 <= k < |images| ensures !(log <= all[k].journal.log) {
      assert all[k] == images[k] && Stamped(images[k].journal.log, stamp);
    }
  }

  lemma StampedMore(images: seq<Image>, stamp: nat, more: nat)
    requires AllStamped(images, stamp) && stamp <= more
    ensures AllStamped(images, more)
  {
    forall k | 0 <= k < |images| ensures Stamped(images[k].journal.log, more) {
      assert Stamped(images[k].journal.log, stamp);
    }
  }

  // ---------- Writes ----------

  /** A draft: what is in memory and entries of this attempt. */
  ghost predicate Drafted(s: System, draft: Ledger, stamp: nat) {
    && s.memory.log <= draft.log && s.stamp <= stamp && Stamped(draft.log, stamp)
    && (draft.log != s.memory.log ==> exists i :: 0 <= i < |draft.log| && draft.log[i].stamp >= s.stamp)
  }

  /** What a write of the journal leaves, before memory follows it. */
  lemma JournalPut(s: System, draft: Ledger, outcome: Outcome, stamp: nat)
    requires Valid(s) && Drafted(s, draft, stamp) && Faithful(Visible(s).(journal := draft))
    ensures
      var next := PutJournal(s, draft, outcome);
      && next.images != [] && AllFaithful(next.images, s.used) && AllStamped(next.images, stamp)
      && Carries(s.memory.log, next.images, next.carried)
      && (Visible(next).journal.log != s.memory.log ==> Carries(Visible(next).journal.log, next.images, next.written))
      && Visible(next) == (if outcome == Lost then Visible(s) else Visible(s).(journal := draft))
      && (outcome == Done ==> next.images == [Visible(s).(journal := draft)])
  {
    hide Faithful;
    StampedMore(s.images, s.stamp, stamp);
    var image := Visible(s).(journal := draft);
    if outcome == Unsynced {
      CarriesMore(s.memory.log, s.images, s.carried, image);
      if draft.log != s.memory.log {
        var i :| 0 <= i < |draft.log| && draft.log[i].stamp >= s.stamp;
        CarriesNew(s.images, image, s.stamp, i);
      }
    }
  }

  lemma SourcePut(s: System, image: Image, outcome: Outcome)
    requires Valid(s) && Faithful(image) && image.changes <= s.used && image.journal == Visible(s).journal
    ensures
      var next := PutSource(s, image, outcome);
      && next.images != [] && AllFaithful(next.images, s.used) && AllStamped(next.images, s.stamp)
      && Carries(s.memory.log, next.images, next.carried)
      && (Visible(next).journal.log != s.memory.log ==> Carries(Visible(next).journal.log, next.images, next.written))
      && Visible(next) == (if outcome == Lost then Visible(s) else image)
  {
    hide Faithful;
    if outcome == Unsynced {
      CarriesMore(s.memory.log, s.images, s.carried, image);
      if image.journal.log != s.memory.log { CarriesMore(image.journal.log, s.images, s.written, image); }
    }
  }

  lemma ReloadKeeps(s: System)
    requires s.images != [] && AllFaithful(s.images, s.used) && AllStamped(s.images, s.stamp) && !s.recorded
    requires Carries(s.memory.log, s.images, s.carried)
    requires Visible(s).journal.log != s.memory.log ==> Carries(Visible(s).journal.log, s.images, s.written)
    requires s.held.Some? ==> Visible(s).pending == s.held
    ensures Valid(Reload(s)) && s.memory.log <= Reload(s).memory.log
  {
    hide Faithful;
    assert Visible(s).(journal := Visible(s).journal) == Visible(s);
  }

  lemma ReadyKeeps(s: System, reload: bool)
    requires Valid(s) && Ready(s, reload).Some?
    ensures
      var r := Ready(s, reload).value;
      && Valid(r) && !r.uncertain && s.memory.log <= r.memory.log
      && r.held == s.held && r.recorded == s.recorded && r.stamp == s.stamp
  {
    hide Faithful;
    if s.uncertain { ReloadKeeps(s); }
  }

  lemma CommitKeeps(s: System, draft: Ledger, outcome: Outcome, recover: bool, reload: bool, stamp: nat)
    requires Valid(s) && !s.uncertain && Drafted(s, draft, stamp) && Faithful(Visible(s).(journal := draft))
    requires s.recorded ==> !recover && s.held.value in draft.receipts
    ensures
      var next := Commit(s, draft, outcome, recover, reload).(stamp := stamp);
      && Valid(next) && s.memory.log <= next.memory.log && next.held == s.held && next.recorded == s.recorded
      && (draft != s.memory && outcome == Done ==>
            next.memory == draft && Visible(next) == Visible(s).(journal := draft) && !next.uncertain)
  {
    hide Faithful, Carries, AllStamped, AllFaithful;
    if draft == s.memory {
      StampedMore(s.images, s.stamp, stamp);
    } else {
      JournalPut(s, draft, outcome, stamp);
      var image, next := Visible(s).(journal := draft), PutJournal(s, draft, outcome).(stamp := stamp);
      assert image.(journal := s.memory) == Visible(s).(journal := s.memory);
      assert image.(journal := draft) == image;
      if outcome == Done {
        CarriesAlone(image);
      } else if recover && reload {
        ReloadKeeps(next);
        CarriesLast(s.memory.log, next.images, next.carried);
      }
    }
  }

  lemma CarriesAlone(image: Image)
    ensures Carries(image.journal.log, [image], 0)
  {
  }

  lemma CarriesLast(log: seq<Entry>, images: seq<Image>, from: nat)
    requires Carries(log, images, from)
    ensures images != [] && log <= images[|images| - 1].journal.log
  {
  }

  // ---------- Steps ----------

  lemma MutateKeeps(s: System, events: nat, acknowledge: nat, ready: bool, outcome: Outcome)
    requires Valid(s)
    ensures Valid(DoMutate(s, events, acknowledge, ready, outcome))
    ensures s.memory.log <= DoMutate(s, events, acknowledge, ready, outcome).memory.log
  {
    hide Faithful, Commit, Ready, Carries, AllStamped, AllFaithful;
    if Ready(s, ready).Some? {
      ReadyKeeps(s, ready);
      var r := Ready(s, ready).value;
      var m := r.memory;
      var log := m.log + Fresh(s.stamp, events);
      var acknowledged := if m.acknowledged <= acknowledge <= |log| then acknowledge else m.acknowledged;
      var draft := Ledger(log, acknowledged, m.receipts);
      MemoryStamped(r);
      FreshIsDrafted(r, draft, events);
      FreshIsFaithful(Visible(r), m, draft, s.stamp, events);
      CommitKeeps(r, draft, outcome, false, false, s.stamp + events);
    }
  }

  lemma MemoryStamped(s: System)
    requires Valid(s)
    ensures Stamped(s.memory.log, s.stamp)
  {
    hide Faithful;
    CarriesLast(s.memory.log, s.images, s.carried);
    var log := Visible(s).journal.log;
    assert Stamped(log, s.stamp);
    forall i | 0 <= i < |s.memory.log| ensures s.memory.log[i].stamp < s.stamp {
      assert s.memory.log[i] == log[i];
    }
  }

  lemma FreshIsDrafted(s: System, draft: Ledger, events: nat)
    requires Stamped(s.memory.log, s.stamp) && draft.log == s.memory.log + Fresh(s.stamp, events)
    ensures Drafted(s, draft, s.stamp + events)
  {
    var n := |s.memory.log|;
    forall i | 0 <= i < |draft.log| ensures draft.log[i].stamp < s.stamp + events {
      if i < n {
        assert draft.log[i] == s.memory.log[i];
      } else {
        assert draft.log[i] == Fresh(s.stamp, events)[i - n];
      }
    }
    if events == 0 {
      assert draft.log == s.memory.log;
    } else {
      assert draft.log[n] == Fresh(s.stamp, events)[0];
    }
  }

  lemma FreshIsFaithful(v: Image, m: Ledger, draft: Ledger, stamp: nat, events: nat)
    requires Faithful(v.(journal := m)) && draft.log == m.log + Fresh(stamp, events) && draft.receipts == m.receipts
    requires draft.acknowledged <= |draft.log| || draft.acknowledged == m.acknowledged
    ensures Faithful(v.(journal := draft))
  {
    hide Count;
    forall x ensures Count(draft.log, x) == Count(m.log, x) {
      CountAppend(m.log, Fresh(stamp, events), x);
      CountFresh(stamp, events, x);
    }
  }

  lemma ChangeKeeps(s: System, request: nat, outcome: Outcome)
    requires Valid(s)
    ensures Valid(DoChange(s, request, outcome)) && DoChange(s, request, outcome).memory == s.memory
  {
    hide Faithful, Carries, AllStamped;
    var v := Visible(s);
    if !(v.pending.Some? || s.held.Some? || s.uncertain || request in s.used) {
      var image := Image(v.journal, Some(request), v.changes + {request});
      var wider := s.(used := s.used + {request});
      assert Visible(wider) == v;
      PendingIsFaithful(v, request);
      PendingIsFaithful(v.(journal := s.memory), request);
      SourcePut(wider, image, outcome);
      assert image.(journal := s.memory) == Image(s.memory, Some(request), v.changes + {request});
    }
  }

  lemma PendingIsFaithful(v: Image, request: nat)
    requires Faithful(v) && v.pending == None && request !in v.changes
    ensures Faithful(Image(v.journal, Some(request), v.changes + {request}))
  {
    hide Count;
  }

  lemma RecordingIsFaithful(v: Image, m: Ledger, request: nat, stamp: nat)
    requires Faithful(v.(journal := m)) && v.pending == Some(request) && request !in m.receipts
    ensures Faithful(v.(journal := Recording(m, request, stamp))) && request in Recording(m, request, stamp).receipts
  {
    hide Count;
    var draft, event := Recording(m, request, stamp), Entry(stamp, Some(request));
    forall x ensures Count(draft.log, x) == Count(m.log, x) + if x == request then 1 else 0 {
      CountAppend(m.log, [event], x);
      CountOne(event, x);
    }
    assert draft.receipts[|draft.receipts| - 1] == request;
  }

  lemma CountOne(event: Entry, x: nat)
    ensures Count([event], x) == if event.change == Some(x) then 1 else 0
  {
    assert [event][..0] == [];
  }

  lemma RecordingIsDrafted(s: System, request: nat)
    requires Stamped(s.memory.log, s.stamp)
    ensures Drafted(s, Recording(s.memory, request, s.stamp), s.stamp + 1)
  {
    var log, n := Recording(s.memory, request, s.stamp).log, |s.memory.log|;
    forall i | 0 <= i < |log| ensures log[i].stamp < s.stamp + 1 {
      if i < n { assert log[i] == s.memory.log[i]; }
    }
    assert log[n].stamp >= s.stamp;
  }

  lemma RecordKeeps(s: System, ready: bool, outcome: Outcome, reload: bool)
    requires Valid(s)
    ensures Valid(DoRecord(s, ready, outcome, reload))
    ensures s.memory.log <= DoRecord(s, ready, outcome, reload).memory.log
  {
    hide Faithful, Commit, Ready, Recording, Carries, AllStamped, AllFaithful;
    if s.held.Some? && !s.recorded && Ready(s, ready).Some? {
      ReadyKeeps(s, ready);
      var r, request := Ready(s, ready).value, s.held.value;
      if request in r.memory.receipts {
        RecordedIsVisible(r);
      } else {
        MemoryStamped(r);
        RecordingIsDrafted(r, request);
        RecordingIsFaithful(Visible(r), r.memory, request, s.stamp);
        CommitKeeps(r, Recording(r.memory, request, s.stamp), outcome, true, reload, s.stamp + 1);
      }
    }
  }

  /** Counting is monotone along a prefix. */
  lemma CountPrefix(a: seq<Entry>, b: seq<Entry>, request: nat)
    requires a <= b
    ensures Count(a, request) <= Count(b, request)
  {
    assert b == a + b[|a|..];
    CountAppend(a, b[|a|..], request);
  }

  /** A receipt in memory is a receipt in the visible journal, which extends it. */
  lemma RecordedIsVisible(s: System)
    requires Valid(s) && !s.uncertain && s.held.Some? && s.held.value in s.memory.receipts
    ensures s.held.value in Visible(s).journal.receipts
  {
    hide Count;
    CarriesLast(s.memory.log, s.images, s.carried);
    CountPrefix(s.memory.log, Visible(s).journal.log, s.held.value);
    assert Faithful(Visible(s).(journal := s.memory));
  }

  lemma ClearedIsFaithful(v: Image, request: nat)
    requires Faithful(v) && v.pending == Some(request) && request in v.journal.receipts
    ensures Faithful(v.(pending := None))
  {
    hide Count;
  }

  lemma AcknowledgeKeeps(s: System, outcome: Outcome)
    requires Valid(s)
    ensures Valid(DoAcknowledge(s, outcome))
  {
    hide Faithful, Carries, AllStamped;
    if s.held.Some? && s.recorded {
      var v := Visible(s);
      ClearedIsFaithful(v, s.held.value);
      ClearedIsFaithful(v.(journal := s.memory), s.held.value);
      SourcePut(s, v.(pending := None), outcome);
      assert v.(pending := None).(journal := s.memory) == v.(journal := s.memory).(pending := None);
    }
  }

  lemma CrashKeeps(s: System, image: nat)
    requires Valid(s)
    ensures Valid(DoCrash(s, image))
  {
    hide Faithful;
    if image < |s.images| {
      var v := s.images[image];
      assert v.(journal := v.journal) == v;
      assert Stamped(v.journal.log, s.stamp);
    }
  }

  // ---------- Published numbers ----------

  /** A crash keeps what was published if and only if it reveals an image at or beyond the oldest
      that carries it. */
  lemma PublishedSurvivesIff(s: System, k: nat)
    requires Valid(s) && k < |s.images|
    ensures s.memory.log <= DoCrash(s, k).memory.log <==> k >= s.carried
  {
    hide Faithful;
  }

  /** Every other crash may give a published number to another event. */
  lemma LostNumbersMayBeReused(s: System, k: nat) returns (a: Action, i: nat)
    requires Valid(s) && k < s.carried
    ensures !a.Crash?
    ensures
      var t := Step(DoCrash(s, k), a);
      i < |s.memory.log| && i < |t.memory.log| && t.memory.log[i] != s.memory.log[i]
  {
    hide Faithful;
    var t, log := DoCrash(s, k), s.memory.log;
    CrashKeeps(s, k);
    MemoryStamped(s);
    var n := if |t.memory.log| < |log| then |log| - |t.memory.log| else 0;
    a := Mutate(n, 0, true, Done);
    var next := Step(t, a);
    assert next.memory.log == t.memory.log + Fresh(s.stamp, n);
    if |t.memory.log| < |log| {
      i := |t.memory.log|;
      assert next.memory.log[i] == Fresh(s.stamp, n)[0];
    } else {
      i :| 0 <= i < |log| && t.memory.log[i] != log[i];
    }
  }

  /** Every step keeps the invariant; what was published stays, except in a crash that reveals an
      image older than those which carry it. */
  lemma StepKeeps(s: System, a: Action)
    requires Valid(s)
    ensures Valid(Step(s, a))
    ensures (a.Crash? && a.image < s.carried) || s.memory.log <= Step(s, a).memory.log
  {
    hide Faithful, Carries, AllStamped, AllFaithful, DoMutate, DoChange, DoRecord, DoCrash;
    match a {
      case Mutate(events, acknowledge, ready, outcome) => MutateKeeps(s, events, acknowledge, ready, outcome);
      case ChangeStore(request, outcome) => ChangeKeeps(s, request, outcome);
      case ReadPending =>
      case Record(ready, outcome, reload) => RecordKeeps(s, ready, outcome, reload);
      case AcknowledgeSource(outcome) => AcknowledgeKeeps(s, outcome);
      case GiveUp =>
      case Crash(image) =>
        CrashKeeps(s, image);
        if image < |s.images| { PublishedSurvivesIff(s, image); } else { NoCrash(s, image); }
    }
  }

  lemma NoCrash(s: System, image: nat)
    requires s.images != [] && image >= |s.images|
    ensures DoCrash(s, image) == s
  {
  }

  // ---------- Whole runs ----------

  function NewSystem(): System {
    System(Ledger([], 0, []), [Image(Ledger([], 0, []), None, {})], 0, 0, false, None, false, {}, 0)
  }

  lemma NewIsValid()
    ensures Valid(NewSystem())
  {
    assert Stamped([], 0);
  }

  ghost predicate Reaches(s: System, actions: seq<Action>, t: System)
    decreases |actions|
  {
    s.images != [] && if actions == [] then s == t else Reaches(Step(s, actions[0]), actions[1..], t)
  }

  /** Every crash of the run reveals an image that carries what was published by then. */
  ghost predicate Steady(s: System, actions: seq<Action>)
    decreases |actions|
  {
    actions == [] ||
    (s.images != [] && !(actions[0].Crash? && actions[0].image < s.carried) &&
        Steady(Step(s, actions[0]), actions[1..]))
  }

  lemma {:induction false} RunKeeps(s: System, actions: seq<Action>, t: System)
    requires Valid(s) && Reaches(s, actions, t)
    ensures Valid(t)
    ensures Steady(s, actions) ==> s.memory.log <= t.memory.log
    decreases |actions|
  {
    hide Valid, Step;
    if actions != [] {
      StepKeeps(s, actions[0]);
      RunKeeps(Step(s, actions[0]), actions[1..], t);
    }
  }

  /** In every image that any run may leave behind, a change whose source record is gone is in
      the journal exactly once, and a pending one at most once. */
  lemma RecordedExactlyOnce(actions: seq<Action>, t: System, k: nat, request: nat)
    requires Reaches(NewSystem(), actions, t) && k < |t.images| && request in t.images[k].changes
    ensures t.images[k].pending != Some(request) ==> Count(t.images[k].journal.log, request) == 1
    ensures Count(t.images[k].journal.log, request) <= 1
  {
    hide Count, Carries, AllStamped, Step, Reaches;
    NewIsValid();
    RunKeeps(NewSystem(), actions, t);
    assert Faithful(t.images[k]);
  }

  /** Event numbers already published keep their events: no number is used twice. */
  lemma NumbersAreNotReused(s: System, actions: seq<Action>, t: System, i: nat)
    requires Valid(s) && Reaches(s, actions, t) && Steady(s, actions) && i < |s.memory.log|
    ensures i < |t.memory.log| && t.memory.log[i] == s.memory.log[i]
  {
    hide Valid, Step, Reaches, Steady;
    RunKeeps(s, actions, t);
  }

  /** Such a crash is reachable: a record whose write renamed but did not synchronise is adopted
      by the reload, and the image before it does not carry what is then published. */
  lemma AdoptionIsReachable()
    ensures exists actions, t :: Reaches(NewSystem(), actions, t) && t.carried > 0
  {
    var s1 := Step(NewSystem(), ChangeStore(7, Done));
    var s2 := Step(s1, ReadPending);
    var s3 := Step(s2, Record(true, Unsynced, true));
    var actions := [ChangeStore(7, Done), ReadPending, Record(true, Unsynced, true)];
    assert Reaches(s3, [], s3);
    assert actions[2..] == [Record(true, Unsynced, true)] && actions[2..][1..] == [];
    assert Reaches(s2, actions[2..], s3);
    assert actions[1..][1..] == actions[2..];
    assert Reaches(s1, actions[1..], s3);
    assert Reaches(NewSystem(), actions, s3);
  }

  // ---------- Files that fall back alone ----------

  /** The journal of one image beside the source of another. */
  function Mixed(s: System, journal: nat, source: nat): Image
    requires journal < |s.images| && source < |s.images|
  {
    s.images[source].(journal := s.images[journal].journal)
  }

  /** Exactly-once recording rests on the order of the renames.  If each file could fall back on
      its own, an acknowledgement of the source that is not synchronised would clear a change
      that an older journal does not record. */
  lemma AloneMayLose(s: System, k: nat)
    requires Valid(s) && s.recorded && k < |s.images| && Count(s.images[k].journal.log, s.held.value) == 0
    ensures
      var t, request := DoAcknowledge(s, Unsynced), s.held.value;
      && Valid(t) && t.images[k] == s.images[k]
      && var i := Mixed(t, k, |t.images| - 1);
      && request in i.changes && i.pending != Some(request) && Count(i.journal.log, request) == 0
  {
    hide Count, Carries, AllStamped;
    AcknowledgeKeeps(s, Unsynced);
  }

  // ---------- What undisturbed steps bring about ----------

  /** A mutation that is written appends exactly its events, and acknowledges what it may. */
  lemma MutationAppends(s: System, events: nat, acknowledge: nat)
    requires Valid(s) && !s.uncertain
    ensures
      var next := DoMutate(s, events, acknowledge, true, Done);
      && |next.memory.log| == |s.memory.log| + events && s.memory.log <= next.memory.log
      && next.memory.acknowledged ==
         (if s.memory.acknowledged <= acknowledge <= |s.memory.log| + events then acknowledge
          else s.memory.acknowledged)
      && next.memory.receipts == s.memory.receipts
      && (next.memory != s.memory ==> next.images == [Visible(s).(journal := next.memory)])
  {
    hide Faithful, Carries, AllStamped, AllFaithful;
  }

  /** A change that is written is pending at its source. */
  lemma ChangeIsPending(s: System, request: nat)
    requires Valid(s) && !s.uncertain && s.held.None? && Visible(s).pending.None? && request !in s.used
    ensures
      var next := DoChange(s, request, Done);
      Visible(next).pending == Some(request) && request in Visible(next).changes && next.memory == s.memory
  {
    hide Faithful, Carries, AllStamped, AllFaithful;
  }

  /** From whatever state, a reconciliation whose writes succeed leaves the pending change recorded
      once and cleared at its source. */
  lemma ReconciliationClears(s: System, request: nat)
    requires Valid(s) && Visible(s).pending == Some(request)
    ensures
      var held := DoReadPending(s.(held := None, recorded := false));
      var next := DoAcknowledge(DoRecord(held, true, Done, true), Done);
      && Valid(next) && Visible(next).pending == None && next.held == None
      && request in next.memory.receipts && Count(Visible(next).journal.log, request) == 1
  {
    hide Faithful, Carries, AllStamped, AllFaithful, DoReadPending, DoRecord, DoAcknowledge, Count;
    PendingIsChange(s, request);
    var idle := Step(s, GiveUp);
    StepKeeps(s, GiveUp);
    StepsAre(idle);
    var held := DoReadPending(idle);
    StepKeeps(idle, ReadPending);
    Reads(idle, request);
    StepsAre(held);
    var recorded := DoRecord(held, true, Done, true);
    StepKeeps(held, Record(true, Done, true));
    Records(held, request);
    StepsAre(recorded);
    var next := DoAcknowledge(recorded, Done);
    StepKeeps(recorded, AcknowledgeSource(Done));
    Clears(recorded, request);
    OnceCleared(next, request);
  }

  lemma StepsAre(s: System)
    requires s.images != []
    ensures Step(s, ReadPending) == DoReadPending(s) && Step(s, AcknowledgeSource(Done)) == DoAcknowledge(s, Done)
    ensures Step(s, Record(true, Done, true)) == DoRecord(s, true, Done, true)
  {
    hide DoReadPending, DoRecord, DoAcknowledge;
  }

  lemma Reads(s: System, request: nat)
    requires s.images != [] && s.held == None && Visible(s).pending == Some(request)
    ensures DoReadPending(s) == s.(held := Some(request), recorded := false)
  {
  }

  lemma Records(s: System, request: nat)
    requires s.images != [] && s.held == Some(request) && !s.recorded
    ensures
      var next := DoRecord(s, true, Done, true);
      && next.recorded && next.held == Some(request) && next.images != []
      && Visible(next).pending == Visible(s).pending && Visible(next).changes == Visible(s).changes
      && request in next.memory.receipts
  {
    hide LastOnes, Visible;
    VisibleIs(s);
    var r := Ready(s, true).value;
    LastIsKept(r.memory.receipts, request);
    VisibleIs(r);
    CommitsDone(r, Recording(r.memory, request, s.stamp));
    VisibleIs(DoRecord(s, true, Done, true));
  }

  lemma VisibleIs(s: System)
    requires s.images != []
    ensures Visible(s) == s.images[|s.images| - 1]
  {
  }

  lemma CommitsDone(s: System, draft: Ledger)
    requires s.images != [] && draft != s.memory
    ensures
      var next := Commit(s, draft, Done, true, true);
      next == s.(images := [Visible(s).(journal := draft)], written := 0, carried := 0, memory := draft)
  {
    hide Visible;
  }

  lemma LastIsKept(receipts: seq<nat>, request: nat)
    ensures request in LastOnes(receipts + [request])
  {
    var all := receipts + [request];
    var last := LastOnes(all);
    assert last[|last| - 1] == request;
  }

  lemma Clears(s: System, request: nat)
    requires s.images != [] && s.recorded && s.held == Some(request) && Visible(s).pending == Some(request)
    ensures
      var next := DoAcknowledge(s, Done);
      && next.images == [Visible(s).(pending := None)] && next.held == None && next.memory == s.memory
  {
  }

  lemma PendingIsChange(s: System, request: nat)
    requires Valid(s) && Visible(s).pending == Some(request)
    ensures request in Visible(s).changes
  {
    hide Count;
    assert Faithful(s.images[|s.images| - 1]);
  }

  lemma OnceCleared(s: System, request: nat)
    requires Valid(s) && Visible(s).pending == None && request in Visible(s).changes
    ensures Count(Visible(s).journal.log, request) == 1
  {
    hide Count;
    assert Faithful(s.images[|s.images| - 1]);
  }

  /** A record whose write failed and could not be read back leaves the state uncertain, and nothing
      is mutated or changed before a reload succeeds. */
  lemma FailedRecordIsUncertain(s: System, request: nat, outcome: Outcome)
    requires Valid(s) && !s.uncertain && s.held == Some(request) && !s.recorded && request !in s.memory.receipts
    requires outcome != Done
    ensures
      var next := DoRecord(s, true, outcome, false);
      && next.uncertain && next.memory == s.memory && next.held == None
      && (forall events, acknowledge, o :: DoMutate(next, events, acknowledge, false, o) == next)
      && (forall r, o :: DoChange(next, r, o) == next)
  {
    hide Faithful, Carries, AllStamped, AllFaithful, Fresh;
  }
}
